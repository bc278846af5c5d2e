/** The query mode of internal/mode/query.go: it prepares both thresholds
    and the optional label-rewriting regex, runs one PromQL query, and turns
    the result into a plugin exit according to its shape: a scalar, a vector
    of labelled samples, a matrix of labelled series, or anything else.
    The server round trip is a parameter: `server` is the result the API
    client returns, or the error of creating the client or of the query.
    check_x.Exit ends the process, so each exit is a final outcome here. */
module QueryMode {
  import opened Results
  import opened GoStrings
  import opened CheckX

  /** A compiled Go regular expression. */
  type Regex

  /** The Go library functions the mode delegates to, left uninterpreted:
      - compile: regexp.Compile;
      - replaceAll: re.ReplaceAllString(src, repl);
      - templateParses: whether template.New("Output").Parse(alias) succeeds;
      - formatFloat: strconv.FormatFloat(v, 'f', -1, 64);
      - labelSetString: model.LabelSet.String(), the `{name="value", ...}` form. */
  datatype GoLib = GoLib(
    compile: string -> Result<Regex>,
    replaceAll: (Regex, string, string) -> string,
    templateParses: string -> bool,
    formatFloat: real -> string,
    labelSetString: map<string, string> -> string)

  /** One labelled sample of a vector result. */
  datatype Sample = Sample(metric: map<string, string>, value: real, timestamp: int)

  /** One point of a series in a matrix result. */
  datatype SamplePair = SamplePair(timestamp: int, value: real)

  /** One labelled series of a matrix result. */
  datatype SampleStream = SampleStream(metric: map<string, string>, values: seq<SamplePair>)

  /** The shapes a query result can take; `Other` carries the name of any
      other result type (a string result, say). */
  datatype QueryValue =
    | Scalar(value: real, timestamp: int)
    | Vector(samples: seq<Sample>)
    | Matrix(streams: seq<SampleStream>)
    | Other(typeName: string)

  /** How a query run ends: check_x.Exit with a state and message, or Query
      returning an error. */
  datatype QueryOutcome = Exited(state: State, msg: string) | Failed(error: string)

  /** A run: its outcome, the performance data it registered in order, and
      whether it reached the server. */
  datatype QueryRun = QueryRun(outcome: QueryOutcome, perf: seq<PerfDatum>, contactedServer: bool)

  // ---------------------------------------------------------------------
  // Preparation
  // ---------------------------------------------------------------------

  /** Everything the mode prepares before it talks to the server: the
      warning threshold, the critical threshold and, only when `search` is
      non-empty, the compiled search regex. The first failure is returned. */
  function Prepare(lib: Library, go: GoLib, warning: string, critical: string, search: string)
    : (r: Result<(Threshold, Threshold, Option<Regex>)>)
    ensures lib.newThreshold(warning).Failure? ==> r == Failure(lib.newThreshold(warning).error)
    ensures lib.newThreshold(warning).Success? && lib.newThreshold(critical).Failure? ==>
      r == Failure(lib.newThreshold(critical).error)
    ensures r.Success? ==>
      && lib.newThreshold(warning) == Success(r.value.0)
      && lib.newThreshold(critical) == Success(r.value.1)
      && (r.value.2.None? <==> search == "")
      && (search != "" ==> go.compile(search) == Success(r.value.2.value))
    ensures r.Failure? && lib.newThreshold(warning).Success? && lib.newThreshold(critical).Success? ==>
      search != "" && go.compile(search) == Failure(r.error)
  {
    match lib.newThreshold(warning)
    case Failure(e) => Failure(e)
    case Success(warn) =>
      match lib.newThreshold(critical)
      case Failure(e) => Failure(e)
      case Success(crit) =>
        if search == "" then Success((warn, crit, None))
        else
          match go.compile(search)
          case Failure(e) => Failure(e)
          case Success(re) => Success((warn, crit, Some(re)))
  }

  // ---------------------------------------------------------------------
  // Helpers
  // ---------------------------------------------------------------------

  /** replaceLabel: rewrite a performance label with the search regex, or
      leave it alone when no regex was compiled. */
  function ReplaceLabel(go: GoLib, labelText: string, re: Option<Regex>, replace: string): (r: string)
    ensures re.None? ==> r == labelText
  {
    match re
    case None => labelText
    case Some(rx) => go.replaceAll(rx, labelText, replace)
  }

  /** expandAlias: the template is parsed but never executed, so the result
      is the alias itself when parsing fails and the empty buffer otherwise;
      the sample's labels and value never reach the output. */
  function ExpandAlias(go: GoLib, alias: string, metric: map<string, string>, value: real): (r: string)
    ensures r == "" || r == alias
    ensures r == alias <==> !go.templateParses(alias) || alias == ""
  {
    if !go.templateParses(alias) then alias else ""
  }

  /** What expandAlias contributes for one sample, whatever the sample is. */
  function AliasPiece(go: GoLib, alias: string): string
  {
    if go.templateParses(alias) then "" else alias
  }

  /** The output of expandAlias depends on the alias alone. */
  lemma ExpandAliasIgnoresSample(go: GoLib, alias: string, metric: map<string, string>, value: real)
    ensures ExpandAlias(go, alias, metric, value) == AliasPiece(go, alias)
  {
  }

  /** evalStates: the worst state with "Query: '<q>'" as message, or the
      alias verbatim when one is given; GetWorst's error is returned as is. */
  function EvalStates(lib: Library, states: seq<State>, alias: string, query: string): (r: QueryOutcome)
    ensures lib.getWorst(states).Failure? ==> r == Failed(lib.getWorst(states).error)
    ensures lib.getWorst(states).Success? ==> r.Exited? && r.state == lib.getWorst(states).value
    ensures r.Exited? ==> (alias == "" ==> r.msg == "Query: '" + query + "'") && (alias != "" ==> r.msg == alias)
  {
    match lib.getWorst(states)
    case Failure(e) => Failed(e)
    case Success(state) =>
      if alias == "" then Exited(state, "Query: '" + query + "'") else Exited(state, alias)
  }

  /** The state check_x assigns to each value, in order. */
  function EvaluateAll(lib: Library, warn: Threshold, crit: Threshold, values: seq<real>): (r: seq<State>)
    ensures |r| == |values|
    ensures forall i :: 0 <= i < |values| ==> r[i] == lib.evaluate(warn, crit, values[i])
  {
    seq(|values|, i requires 0 <= i < |values| => lib.evaluate(warn, crit, values[i]))
  }

  function SampleValues(samples: seq<Sample>): seq<real>
  {
    seq(|samples|, i requires 0 <= i < |samples| => samples[i].value)
  }

  function PairValues(pairs: seq<SamplePair>): seq<real>
  {
    seq(|pairs|, i requires 0 <= i < |pairs| => pairs[i].value)
  }

  /** Every value of a matrix, series by series and in order within each. */
  function MatrixValues(streams: seq<SampleStream>): seq<real>
  {
    if streams == [] then []
    else MatrixValues(streams[..|streams| - 1]) + PairValues(streams[|streams| - 1].values)
  }

  /** The total number of points across the series of a matrix. */
  function TotalPoints(streams: seq<SampleStream>): nat
  {
    if streams == [] then 0
    else TotalPoints(streams[..|streams| - 1]) + |streams[|streams| - 1].values|
  }

  /** A matrix yields exactly one value per point. */
  lemma {:induction false} MatrixValuesCount(streams: seq<SampleStream>)
    ensures |MatrixValues(streams)| == TotalPoints(streams)
  {
    if streams != [] {
      MatrixValuesCount(streams[..|streams| - 1]);
    }
  }

  /** The performance datum a vector sample registers. */
  function SampleDatum(go: GoLib, re: Option<Regex>, replace: string, warn: Threshold, crit: Threshold, s: Sample)
    : PerfDatum
  {
    PerfDatum(ReplaceLabel(go, go.labelSetString(s.metric), re, replace), s.value, warn, crit)
  }

  // ---------------------------------------------------------------------
  // The loops over a result
  // ---------------------------------------------------------------------

  /** The loop over a non-empty vector: per sample, in order, one performance
      datum, one evaluated state and one alias expansion appended. */
  method CollectVector(lib: Library, go: GoLib, warn: Threshold, crit: Threshold, re: Option<Regex>,
                       replace: string, alias: string, samples: seq<Sample>)
    returns (states: seq<State>, perf: seq<PerfDatum>, output: string)
    ensures states == EvaluateAll(lib, warn, crit, SampleValues(samples))
    ensures |perf| == |samples|
    ensures forall i :: 0 <= i < |samples| ==> perf[i] == SampleDatum(go, re, replace, warn, crit, samples[i])
    ensures output == Repeat(AliasPiece(go, alias), |samples|)
  {
    states, perf, output := [], [], "";
    for i := 0 to |samples|
      invariant states == EvaluateAll(lib, warn, crit, SampleValues(samples[..i]))
      invariant |perf| == i
      invariant forall j :: 0 <= j < i ==> perf[j] == SampleDatum(go, re, replace, warn, crit, samples[j])
      invariant output == Repeat(AliasPiece(go, alias), i)
    {
      var sample := samples[i];
      perf := perf + [SampleDatum(go, re, replace, warn, crit, sample)];
      states := states + [lib.evaluate(warn, crit, sample.value)];
      assert SampleValues(samples[..i + 1]) == SampleValues(samples[..i]) + [sample.value];
      var piece := ExpandAlias(go, alias, sample.metric, sample.value);
      ExpandAliasIgnoresSample(go, alias, sample.metric, sample.value);
      RepeatAppend(AliasPiece(go, alias), i);
      output := output + piece;
    }
    assert samples[..|samples|] == samples;
  }

  /** The loop over a matrix: one evaluated state per point, series by series. */
  method CollectMatrix(lib: Library, warn: Threshold, crit: Threshold, streams: seq<SampleStream>)
    returns (states: seq<State>)
    ensures states == EvaluateAll(lib, warn, crit, MatrixValues(streams))
    ensures |states| == TotalPoints(streams)
  {
    states := [];
    for i := 0 to |streams|
      invariant states == EvaluateAll(lib, warn, crit, MatrixValues(streams[..i]))
    {
      var values := streams[i].values;
      for j := 0 to |values|
        invariant states == EvaluateAll(lib, warn, crit, MatrixValues(streams[..i]) + PairValues(values[..j]))
      {
        states := states + [lib.evaluate(warn, crit, values[j].value)];
        assert PairValues(values[..j + 1]) == PairValues(values[..j]) + [values[j].value];
      }
      assert values[..|values|] == values;
      assert streams[..i + 1][..i] == streams[..i];
    }
    assert streams[..|streams|] == streams;
    MatrixValuesCount(streams);
  }

  // ---------------------------------------------------------------------
  // Query
  // ---------------------------------------------------------------------

  function ScalarMessage(go: GoLib, query: string, alias: string, value: real): string
  {
    if alias == "" then "Query: '" + query + "' returned: '" + go.formatFloat(value) + "'"
    else "Alias: '" + alias + "' returned: '" + go.formatFloat(value) + "'"
  }

  function EmptyVectorMessage(query: string, emptyQueryMessage: string): string
  {
    if emptyQueryMessage != "" then emptyQueryMessage else "Query '" + query + "' returned no data."
  }

  function UnsupportedTypeMessage(typeName: string, query: string): string
  {
    "The query did not return a supported type(scalar, vector, matrix), instead: '" + typeName
      + "'. Query: '" + query + "'"
  }

  /** Query. Preparation failures return the error before the server is
      contacted; a server error is returned as is. Then, by result shape:
      a scalar registers one datum labelled "scalar" and exits with its
      evaluated state; an empty vector exits with the configured empty-result
      state and message; a non-empty vector registers one datum and one state
      per sample and exits through evalStates with the concatenated alias
      expansions; a matrix registers no data and hands one state per point to
      evalStates with the alias; any other shape exits UNKNOWN. */
  method Query(lib: Library, go: GoLib, server: Result<QueryValue>,
               query: string, warning: string, critical: string, alias: string,
               search: string, replace: string, emptyQueryMessage: string, emptyQueryStatus: State)
    returns (run: QueryRun)
    ensures run.contactedServer <==> Prepare(lib, go, warning, critical, search).Success?
    ensures !run.contactedServer ==>
      run == QueryRun(Failed(Prepare(lib, go, warning, critical, search).error), [], false)
    ensures run.contactedServer && server.Failure? ==> run == QueryRun(Failed(server.error), [], true)
    ensures run.contactedServer && server.Success? ==>
      var (warn, crit, re) := Prepare(lib, go, warning, critical, search).value;
      match server.value
      case Scalar(v, _) =>
        && run.perf == [PerfDatum(ReplaceLabel(go, "scalar", re, replace), v, warn, crit)]
        && run.outcome == Exited(lib.evaluate(warn, crit, v), ScalarMessage(go, query, alias, v))
      case Vector(samples) =>
        if |samples| == 0 then
          run.perf == [] && run.outcome == Exited(emptyQueryStatus, EmptyVectorMessage(query, emptyQueryMessage))
        else
          && |run.perf| == |samples|
          && (forall i :: 0 <= i < |samples| ==> run.perf[i] == SampleDatum(go, re, replace, warn, crit, samples[i]))
          && run.outcome == EvalStates(lib, EvaluateAll(lib, warn, crit, SampleValues(samples)),
                                       Repeat(AliasPiece(go, alias), |samples|), query)
      case Matrix(streams) =>
        && run.perf == []
        && run.outcome == EvalStates(lib, EvaluateAll(lib, warn, crit, MatrixValues(streams)), alias, query)
      case Other(typeName) =>
        run.perf == [] && run.outcome == Exited(Unknown, UnsupportedTypeMessage(typeName, query))
    ensures search == "" && run.contactedServer && server.Success? && server.value.Scalar? ==>
      |run.perf| == 1 && run.perf[0].name == "scalar"
    ensures search == "" && run.contactedServer && server.Success? && server.value.Vector? ==>
      forall i :: 0 <= i < |run.perf| && i < |server.value.samples| ==>
        run.perf[i].name == go.labelSetString(server.value.samples[i].metric)
  {
    var prepared := Prepare(lib, go, warning, critical, search);
    if prepared.Failure? {
      return QueryRun(Failed(prepared.error), [], false);
    }
    var (warn, crit, re) := prepared.value;
    if server.Failure? {
      return QueryRun(Failed(server.error), [], true);
    }
    match server.value {
      case Scalar(v, _) =>
        var datum := PerfDatum(ReplaceLabel(go, "scalar", re, replace), v, warn, crit);
        var state := lib.evaluate(warn, crit, v);
        run := QueryRun(Exited(state, ScalarMessage(go, query, alias, v)), [datum], true);
      case Vector(samples) =>
        if |samples| == 0 {
          return QueryRun(Exited(emptyQueryStatus, EmptyVectorMessage(query, emptyQueryMessage)), [], true);
        }
        var states, perf, output := CollectVector(lib, go, warn, crit, re, replace, alias, samples);
        run := QueryRun(EvalStates(lib, states, output, query), perf, true);
      case Matrix(streams) =>
        var states := CollectMatrix(lib, warn, crit, streams);
        run := QueryRun(EvalStates(lib, states, alias, query), [], true);
      case Other(typeName) =>
        run := QueryRun(Exited(Unknown, UnsupportedTypeMessage(typeName, query)), [], true);
    }
  }

  // ---------------------------------------------------------------------
  // Consequences
  // ---------------------------------------------------------------------

  /** The message a non-empty vector ends with, once GetWorst succeeds: the
      alias repeated once per sample when the alias does not parse as a
      template, and "Query: '<q>'" otherwise, a parsable alias included. */
  lemma VectorMessage(lib: Library, go: GoLib, states: seq<State>, alias: string, query: string, n: nat)
    requires n > 0
    requires lib.getWorst(states).Success?
    ensures var r := EvalStates(lib, states, Repeat(AliasPiece(go, alias), n), query);
      && r.Exited?
      && r.state == lib.getWorst(states).value
      && (alias == "" || go.templateParses(alias) ==> r.msg == "Query: '" + query + "'")
      && (alias != "" && !go.templateParses(alias) ==> r.msg == Repeat(alias, n))
  {
  }

  /** With an empty vector the result is the empty-result exit, whatever the
      thresholds would have said: the configured message if there is one,
      else a message naming the query. */
  lemma EmptyVectorExit(query: string, emptyQueryMessage: string)
    ensures emptyQueryMessage != "" ==> EmptyVectorMessage(query, emptyQueryMessage) == emptyQueryMessage
    ensures emptyQueryMessage == "" ==>
      EmptyVectorMessage(query, emptyQueryMessage) == "Query '" + query + "' returned no data."
    ensures EmptyVectorMessage(query, emptyQueryMessage) != ""
  {
  }
}
