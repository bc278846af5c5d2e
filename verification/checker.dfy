/** The library entry points of pkg/checker/checker.go: the status line a
    check prints, the exit code it returns, and the decisions its command
    line flags make on their own — the cookie flag's validator and splitter
    and the query-encoding selector. Parsing the command line, the process
    globals the flags write to and the HTTP cookie jar are outside the model;
    each operation receives the flag's value and returns what the flag
    computes from it. */
module Checker {
  import opened Results
  import opened GoStrings
  import opened CheckX

  // ---------------------------------------------------------------------
  // Status line and exit code
  // ---------------------------------------------------------------------

  /** The separator between the plugin's text and its performance data. */
  const PerfSeparator := '|'

  /** GenerateStdout: `NAME - msg` then, only when the rendered performance
      data is non-empty, `|perf`; always a single trailing newline. `perf` is
      what PerformanceDataCollection.PrintAllPerformanceData renders. */
  function GenerateStdout(state: State, msg: string, perf: string): (out: string)
    ensures |out| > 0 && out[|out| - 1] == '\n'
    ensures |state.Name()| + 3 + |msg| < |out|
    ensures out[..|state.Name()| + 3] == state.Name() + " - "
    ensures out[|state.Name()| + 3..|state.Name()| + 3 + |msg|] == msg
    ensures perf == "" ==> |out| == |state.Name()| + 3 + |msg| + 1
    ensures perf != "" ==>
      && out[|state.Name()| + 3 + |msg|] == PerfSeparator
      && out[|state.Name()| + 3 + |msg| + 1..|out| - 1] == perf
  {
    var head := state.Name() + " - " + msg;
    if perf == "" then head + "\n" else head + [PerfSeparator] + perf + "\n"
  }

  /** How a monitoring supervisor reads a status line: drop the final newline
      and split at the first `|` into the text and the performance data. */
  function SplitStatusLine(out: string): (string, string)
  {
    var body := StripNewline(out);
    var i := IndexRune(body, PerfSeparator);
    if i == -1 then (body, "") else (body[..i], body[i + 1..])
  }

  /** Dropping the final newline of a status line. */
  function StripNewline(out: string): string
  {
    if |out| > 0 && out[|out| - 1] == '\n' then out[..|out| - 1] else out
  }

  /** Splitting `head|perf` plus a newline, where `head` holds no `|`. */
  lemma {:induction false} SplitWithPerf(head: string, perf: string)
    requires PerfSeparator !in head
    ensures SplitStatusLine(head + [PerfSeparator] + perf + "\n") == (head, perf)
  {
    var body := head + [PerfSeparator] + perf;
    var out := body + "\n";
    assert out[..|out| - 1] == body;
    assert StripNewline(out) == body;
    IndexRuneAfter(head, PerfSeparator, perf);
    assert body[..|head|] == head;
    assert body[|head| + 1..] == perf;
  }

  /** Splitting a line that holds no `|`. */
  lemma {:induction false} SplitWithoutPerf(head: string)
    requires PerfSeparator !in head
    ensures SplitStatusLine(head + "\n") == (head, "")
  {
    var out := head + "\n";
    assert out[..|out| - 1] == head;
    assert StripNewline(out) == head;
  }

  /** A supervisor recovers exactly the state name, the message and the
      performance data from GenerateStdout, provided the message holds no `|`
      of its own; with no performance data the line holds no `|` at all. */
  lemma StdoutRoundTrip(state: State, msg: string, perf: string)
    requires PerfSeparator !in msg
    ensures SplitStatusLine(GenerateStdout(state, msg, perf)) == (state.Name() + " - " + msg, perf)
    ensures perf == "" ==> PerfSeparator !in GenerateStdout(state, msg, perf)
  {
    var head := state.Name() + " - " + msg;
    assert PerfSeparator !in state.Name() + " - ";
    assert PerfSeparator !in head;
    if perf == "" {
      SplitWithoutPerf(head);
      assert GenerateStdout(state, msg, perf) == head + "\n";
    } else {
      SplitWithPerf(head, perf);
      assert GenerateStdout(state, msg, perf) == head + [PerfSeparator] + perf + "\n";
    }
  }

  /** A `|` inside the message breaks the round trip: the supervisor splits
      the line at the message's own `|`, so the text it reads back is cut
      short of the message. */
  lemma PipeInMessageSplitsEarly(state: State, msg: string, perf: string)
    requires PerfSeparator in msg
    ensures |SplitStatusLine(GenerateStdout(state, msg, perf)).0| < |state.Name() + " - " + msg|
  {
    var head := state.Name() + " - " + msg;
    var out := GenerateStdout(state, msg, perf);
    var body := StripNewline(out);
    assert body[..|head|] == head;
    var k :| 0 <= k < |msg| && msg[k] == PerfSeparator;
    assert body[|state.Name()| + 3 + k] == PerfSeparator;
  }

  /** A concrete instance: query mode puts the PromQL query in its message,
      and an alternation such as `up{job=~"a|b"}` holds a `|`; the supervisor
      then reads `OK - Query: 'up{job=~"a` as the text. */
  lemma PromQLAlternationSplitsEarly()
    ensures var msg := "Query: 'up{job=~\"a|b\"}'";
      SplitStatusLine(GenerateStdout(OK, msg, "'up'=1;;;;")) != ("OK - " + msg, "'up'=1;;;;")
  {
    var msg := "Query: 'up{job=~\"a|b\"}'";
    assert msg[18] == PerfSeparator;
    PipeInMessageSplitsEarly(OK, msg, "'up'=1;;;;");
  }

  /** The text every failed command-line run reports, before the error. */
  const CliErrorPrefix := "Error when executing cli action : "

  /** What a CheckMain call leaves behind: the text written to each output
      stream and the exit code returned. */
  datatype CliRun = CliRun(stdout: string, stderr: string, code: nat)

  /** CheckMain as written: run the command line (its outcome is `run`: the
      state and message the selected mode produced, or the error the run
      returned), emit the status line and return the state's exit code. A
      failed run is reported as UNKNOWN with the error behind CliErrorPrefix.
      The line is emitted with Go's builtin `print`, which writes to standard
      error, so nothing reaches standard output. */
  function CheckMain(run: Result<(State, string)>, perf: string): (r: CliRun)
    ensures r.code <= 3
    ensures r.stdout == ""
    ensures run.Failure? ==>
      r.stderr == GenerateStdout(Unknown, CliErrorPrefix + run.error, perf) && r.code == Unknown.Code()
    ensures run.Success? ==>
      r.stderr == GenerateStdout(run.value.0, run.value.1, perf) && r.code == run.value.0.Code()
  {
    var (state, msg) := Check(run);
    CliRun("", GenerateStdout(state, msg, perf), state.Code())
  }

  /** As written, a monitoring core that reads the plugin's standard output
      receives nothing, on every run, while the status line goes to standard
      error. */
  lemma StatusLineMissesStdout(run: Result<(State, string)>, perf: string)
    ensures CheckMain(run, perf).stdout == ""
    ensures |CheckMain(run, perf).stderr| > 0
  {
  }

  /** CheckMain corrected: the status line is written to standard output,
      where the Naemon plugin interface reads it. */
  function CheckMainToStdout(run: Result<(State, string)>, perf: string): (r: CliRun)
    ensures r.code <= 3
    ensures r.stderr == ""
    ensures run.Failure? ==>
      r.stdout == GenerateStdout(Unknown, CliErrorPrefix + run.error, perf) && r.code == Unknown.Code()
    ensures run.Success? ==>
      r.stdout == GenerateStdout(run.value.0, run.value.1, perf) && r.code == run.value.0.Code()
  {
    var (state, msg) := Check(run);
    CliRun(GenerateStdout(state, msg, perf), "", state.Code())
  }

  /** With the corrected CheckMain, standard output carries the status line:
      it splits back into "NAME - message" and exactly the performance data,
      provided the reported message holds no pipe character. */
  lemma CheckMainStdoutRoundTrip(run: Result<(State, string)>, perf: string)
    requires PerfSeparator !in Check(run).1
    ensures SplitStatusLine(CheckMainToStdout(run, perf).stdout)
      == (Check(run).0.Name() + " - " + Check(run).1, perf)
  {
    StdoutRoundTrip(Check(run).0, Check(run).1, perf);
  }

  /** The exit code and the line agree: the line starts with a state's name
      exactly when the code returned is that state's code. */
  lemma StatusLineNamesExitCode(run: Result<(State, string)>, perf: string, s: State)
    ensures s.Name() + " - " <= CheckMainToStdout(run, perf).stdout <==>
      CheckMainToStdout(run, perf).code == s.Code()
  {
    var t := Check(run).0;
    var out := CheckMainToStdout(run, perf).stdout;
    assert t.Name() + " - " <= out;
    CodeIdentifiesState(s, t);
    if s.Name() + " - " <= out {
      assert out[0] == s.Name()[0] == t.Name()[0];
    }
  }

  /** Check: the state and message of a run, with the run's error turned into
      an UNKNOWN result. */
  function Check(run: Result<(State, string)>): (r: (State, string))
    ensures run.Success? ==> r == run.value
    ensures run.Failure? ==>
      && r.0 == Unknown
      && CliErrorPrefix <= r.1
      && r.1[|CliErrorPrefix|..] == run.error
  {
    match run
    case Success(v) => v
    case Failure(e) => (Unknown, CliErrorPrefix + e)
  }

  // ---------------------------------------------------------------------
  // The cookie flag: `<name>=<value>`
  // ---------------------------------------------------------------------

  /** The longest cookie value the validator admits, in bytes. */
  const CookieValueMaxBytes := 4096

  const CookieSeparatorError := "there should be exactly one '=' in the cookie definition"
  const CookieKeyEmptyError := "cookie key cannot be empty"
  const CookieValueEmptyError := "cookie value cannot be empty"
  const CookieValueLongError := "cookie value cannot be longer than 4096 characters"

  /** The cookie flag's Action: the name is the text before the first `=`,
      the value the text after it. Without any `=` the Go slice expression
      panics, modelled as None. */
  function SplitCookie(value: string): (r: Option<(string, string)>)
    ensures r.None? <==> '=' !in value
    ensures r.Some? ==> r.value.0 + "=" + r.value.1 == value && '=' !in r.value.0
  {
    var i := IndexRune(value, '=');
    if i == -1 then None else Some((value[..i], value[i + 1..]))
  }

  /** The cookie flag's Validator, rules checked in this order: exactly one
      `=`; a non-empty name; a non-empty value; a value of at most 4096 bytes. */
  function ValidateCookie(value: string): (r: Outcome)
    ensures r.Pass? ==> SplitCookie(value).Some?
  {
    if Count(value, '=') != 1 then Fail(CookieSeparatorError)
    else
      var i := IndexRune(value, '=');
      var key := value[..i];
      var val := value[i + 1..];
      if key == "" then Fail(CookieKeyEmptyError)
      else if val == "" then Fail(CookieValueEmptyError)
      else if ByteLen(val) > CookieValueMaxBytes then Fail(CookieValueLongError)
      else Pass
  }

  /** A cookie definition the validator accepts: one name, one `=`, one value,
      neither side empty, the value at most 4096 bytes long. */
  ghost predicate WellFormedCookie(value: string)
  {
    exists key: string, val: string ::
      && value == key + "=" + val
      && '=' !in key && '=' !in val
      && key != "" && val != ""
      && ByteLen(val) <= CookieValueMaxBytes
  }

  /** Validating `key=val` with no other `=` applies the rules in order. */
  lemma {:induction false} ValidateJoinedCookie(key: string, val: string)
    requires '=' !in key && '=' !in val
    ensures SplitCookie(key + "=" + val) == Some((key, val))
    ensures ValidateCookie(key + "=" + val) ==
      if key == "" then Fail(CookieKeyEmptyError)
      else if val == "" then Fail(CookieValueEmptyError)
      else if ByteLen(val) > CookieValueMaxBytes then Fail(CookieValueLongError)
      else Pass
  {
    var value := key + "=" + val;
    IndexRuneAfter(key, '=', val);
    assert value[..|key|] == key;
    assert value[|key| + 1..] == val;
    CountAppend(key, "=", '=');
    CountAppend(key + "=", val, '=');
  }

  /** The validator accepts exactly the well-formed cookie definitions, and
      the Action then splits them back into their name and value. */
  lemma CookieValidatorIff(value: string)
    ensures ValidateCookie(value).Pass? <==> WellFormedCookie(value)
    ensures ValidateCookie(value).Pass? ==>
      var (key, val) := SplitCookie(value).value;
      key + "=" + val == value && key != "" && val != "" && ByteLen(val) <= CookieValueMaxBytes
  {
    if ValidateCookie(value).Pass? {
      var (key, val) := SplitCookie(value).value;
      CountAppend(key, "=", '=');
      CountAppend(key + "=", val, '=');
      assert '=' !in val;
      ValidateJoinedCookie(key, val);
      assert WellFormedCookie(value);
    }
    if WellFormedCookie(value) {
      var key: string, val: string :|
        && value == key + "=" + val
        && '=' !in key && '=' !in val
        && key != "" && val != ""
        && ByteLen(val) <= CookieValueMaxBytes;
      ValidateJoinedCookie(key, val);
    }
  }

  /** A definition without exactly one `=` is refused before anything else. */
  lemma CookieNeedsOneSeparator(value: string)
    requires Count(value, '=') != 1
    ensures ValidateCookie(value) == Fail(CookieSeparatorError)
  {
  }

  /** The length limit is inclusive: a 4096-character ASCII value passes, a
      4097-character one is refused. */
  lemma CookieValueLimit(key: string, val: string)
    requires '=' !in key && '=' !in val && key != ""
    requires IsAscii(val)
    ensures |val| == 4096 ==> ValidateCookie(key + "=" + val) == Pass
    ensures |val| == 4097 ==> ValidateCookie(key + "=" + val) == Fail(CookieValueLongError)
  {
    ValidateJoinedCookie(key, val);
    AsciiByteLen(val);
  }

  // ---------------------------------------------------------------------
  // The query-encoding flag
  // ---------------------------------------------------------------------

  datatype QueryEncoding = Raw | Base64 | Url

  /** The lower-case spelling that selects an encoding. */
  function EncodingName(e: QueryEncoding): string
  {
    match e
    case Raw => "raw"
    case Base64 => "base64"
    case Url => "url"
  }

  const UnknownEncodingError := "unknown query encoding, available values are 'raw', 'base64', 'url'"
  const EmptyQueryError := "query argument is empty, specify query-encoding after specifying query"
  const Base64DecodeError := "base64 query decoding failed with error: "
  const UrlDecodeError := "url query decoding failed with error: "

  /** The decoders the flag delegates to: base64.StdEncoding.DecodeString and
      url.QueryUnescape, each returning the decoded text or an error. */
  datatype Decoders = Decoders(
    base64Decode: string -> Result<string>,
    queryUnescape: string -> Result<string>)

  /** The query-encoding flag's Validator: which encoding a flag value names,
      ignoring case. */
  function ValidateQueryEncoding(value: string): (r: Result<QueryEncoding>)
    ensures r.Failure? ==> r.error == UnknownEncodingError
  {
    var v := Lower(value);
    if v == "raw" then Success(Raw)
    else if v == "base64" then Success(Base64)
    else if v == "url" then Success(Url)
    else Failure(UnknownEncodingError)
  }

  /** The validator accepts a value exactly when it is one of the three
      names in some mix of upper and lower case, and it then selects the
      encoding of that name; upper-casing a value never changes the verdict. */
  lemma QueryEncodingSelection(value: string, e: QueryEncoding)
    ensures ValidateQueryEncoding(value) == Success(e) <==> Lower(value) == EncodingName(e)
    ensures ValidateQueryEncoding(value).Failure? <==>
      Lower(value) !in {"raw", "base64", "url"}
    ensures ValidateQueryEncoding(Upper(value)) == ValidateQueryEncoding(value)
  {
    LowerUpper(value);
  }

  /** The query-encoding flag's Action: the query as it will be sent, decoded
      according to the flag, together with the encoding chosen. An empty query
      is refused before the value is looked at. */
  function QueryEncodingAction(dec: Decoders, query: string, value: string): (r: Result<(QueryEncoding, string)>)
    ensures query == "" ==> r == Failure(EmptyQueryError)
  {
    if query == "" then Failure(EmptyQueryError)
    else
      var v := Lower(value);
      if v == "raw" then Success((Raw, query))
      else if v == "base64" then
        match dec.base64Decode(query)
        case Success(text) => Success((Base64, text))
        case Failure(e) => Failure(Base64DecodeError + e)
      else if v == "url" then
        match dec.queryUnescape(query)
        case Success(text) => Success((Url, text))
        case Failure(e) => Failure(UrlDecodeError + e)
      else Failure(UnknownEncodingError)
  }

  /** The Action agrees with the Validator: it succeeds only with the
      encoding the Validator selects and fails whenever the Validator does.
      For a non-empty query, `raw` passes the query through unchanged, and
      `base64` and `url` yield the decoder's output when it decodes and its
      error behind the decoder's prefix when it does not. */
  lemma QueryEncodingActionAgrees(dec: Decoders, query: string, value: string)
    ensures QueryEncodingAction(dec, query, value).Success? ==>
      ValidateQueryEncoding(value) == Success(QueryEncodingAction(dec, query, value).value.0)
    ensures ValidateQueryEncoding(value).Failure? ==> QueryEncodingAction(dec, query, value).Failure?
    ensures query != "" && ValidateQueryEncoding(value) == Success(Raw) ==>
      QueryEncodingAction(dec, query, value) == Success((Raw, query))
    ensures query != "" && ValidateQueryEncoding(value) == Success(Base64) ==>
      var d := dec.base64Decode(query);
      && (d.Success? ==> QueryEncodingAction(dec, query, value) == Success((Base64, d.value)))
      && (d.Failure? ==> QueryEncodingAction(dec, query, value) == Failure(Base64DecodeError + d.error))
    ensures query != "" && ValidateQueryEncoding(value) == Success(Url) ==>
      var d := dec.queryUnescape(query);
      && (d.Success? ==> QueryEncodingAction(dec, query, value) == Success((Url, d.value)))
      && (d.Failure? ==> QueryEncodingAction(dec, query, value) == Failure(UrlDecodeError + d.error))
  {
  }

  /** The Action's verdict does not depend on the case of the flag value. */
  lemma QueryEncodingActionCaseInsensitive(dec: Decoders, query: string, value: string)
    ensures QueryEncodingAction(dec, query, Upper(value)) == QueryEncodingAction(dec, query, value)
    ensures QueryEncodingAction(dec, query, Lower(value)) == QueryEncodingAction(dec, query, value)
  {
    LowerUpper(value);
    LowerLower(value);
  }
}
