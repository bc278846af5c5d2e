/** The interface of the check_x monitoring-plugin library as this plugin
    uses it. The library's own source is not part of this model, so its
    range parser, evaluator and state reduction are uninterpreted: they are
    fields of a `Library` value that every operation receives, and nothing is
    assumed about them. What is fixed here is the data that flows through the
    library: the four plugin states and the performance-data records the
    plugin asks the library to keep. */
module CheckX {
  import opened Results

  /** A parsed nagios-plugin range, as returned by check_x.NewThreshold. */
  type Threshold

  /** The four plugin outcomes, each with the name printed at the head of the
      status line and the process exit code. */
  datatype State = OK | Warning | Critical | Unknown
  {
    function Name(): string
    {
      match this
      case OK => "OK"
      case Warning => "WARNING"
      case Critical => "CRITICAL"
      case Unknown => "UNKNOWN"
    }

    function Code(): nat
    {
      match this
      case OK => 0
      case Warning => 1
      case Critical => 2
      case Unknown => 3
    }
  }

  /** A state is recovered from its exit code, so the code a process returns
      identifies the outcome; every code is a valid plugin exit status. */
  lemma CodeIdentifiesState(s: State, t: State)
    ensures s.Code() <= 3
    ensures s.Code() == t.Code() ==> s == t
    ensures s.Name() == t.Name() ==> s == t
  {
  }

  /** One call on a PerformanceDataCollection, in the order the plugin makes
      them: AddPerformanceDataFloat64, Warn, Crit, Min, Max. */
  datatype PerfOp =
    | Add(name: string, value: real)
    | SetWarn(name: string, threshold: Threshold)
    | SetCrit(name: string, threshold: Threshold)
    | SetMin(name: string, bound: real)
    | SetMax(name: string, bound: real)

  /** The datum built by check_x.NewPerformanceData(label, value).Warn(w).Crit(c). */
  datatype PerfDatum = PerfDatum(name: string, value: real, warn: Threshold, crit: Threshold)

  /** The check_x operations the plugin calls, left uninterpreted:
      - newThreshold: check_x.NewThreshold, a range string to a threshold or an error;
      - evaluate: check_x.Evaluator{Warning: w, Critical: c}.Evaluate(v);
      - getWorst: check_x.States.GetWorst, the worst of a list of states or an error. */
  datatype Library = Library(
    newThreshold: string -> Result<Threshold>,
    evaluate: (Threshold, Threshold, real) -> State,
    getWorst: seq<State> -> Result<State>)
}
