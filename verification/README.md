# check_prometheus: a Dafny model of its decision and formatting rules

check_prometheus is a Nagios/Naemon monitoring plugin. It queries a
Prometheus server and reports one status line, `STATE - message|perfdata`,
with the state's exit code. It has three modes: `query`, `targets_health`
and `ping`. Range thresholds, the evaluation of a value against them, the
worst-state reduction and the rendering of performance data all live in the
external `check_x` library. The plugin's own code is a set of small,
deterministic rules around those calls. This project models those rules
and proves what they promise:

- `Checker` (pkg/checker/checker.go) models the status line, the exit code
  of a run, the cookie flag's validator and splitter, and the
  case-insensitive `raw|base64|url` query-encoding selector.
- `MainCli` (main.go) models the `getStatus` state mapping and main.go's own
  copy of the cookie validator.
- `TargetsHealth` (internal/mode/targetsHealth.go) models the guards, the
  healthy/unhealthy tally, the health rate, the label fallback, the
  performance data calls in order, and the message.
- `QueryMode` (internal/mode/query.go) models the preparation of thresholds
  and regex, the dispatch on the result shape (scalar, vector, matrix,
  other), empty-vector handling, `replaceLabel`, `expandAlias` and
  `evalStates`.
- `Freshness` (internal/helper/prometheus.go) models the freshness window.
  The wall clock is a parameter (`now`, in Unix nanoseconds).

Supporting modules:

- `Results` holds Option/Result/Outcome. A Go `error` is modelled by its text.
- `GoStrings` holds the Go string primitives the rules rest on:
  `strings.Count`, `strings.IndexRune`, `len` as a UTF-8 byte count, ASCII
  `ToLower`, and `%d`.
- `CheckX` holds the check_x interface: the four states with their names and
  exit codes, the opaque `Threshold`, the performance-data calls, and a
  `Library` record of uninterpreted functions (`newThreshold`, `evaluate`,
  `getWorst`).

The Go helpers (regexp, text/template, `strconv.FormatFloat`,
`model.LabelSet.String`, base64 and URL decoding) are function-valued
parameters too. The proofs therefore hold for every behaviour of those
collaborators. Server round trips are parameters as well: `server` is the
decoded response, or the error of the request.

Where the code and the program's own usage text differ, the model follows
the code:

- The `data-age` flag's usage (pkg/checker/checker.go:94) promises UNKNOWN
  for data older than the window, and says 0 disables the check. Query mode
  calls the freshness check for every scalar, sample and point, then
  discards the result (internal/mode/query.go:52, 76, 90). So no query
  verdict depends on freshness. A window of 0 does not disable the check
  either: CheckTimeFreshness reports it as an error
  (internal/helper/prometheus.go:131-133).
- The `-a` usage (pkg/checker/checker.go:170-185) shows an alias rendered
  with the sample's label values, and an unparseable alias shown unchanged.
  expandAlias parses the template but never executes it
  (internal/mode/query.go:105-123). A parseable alias therefore contributes
  the empty string, and the message falls back to "Query: '<q>'". An
  unparseable alias is appended once per sample, so the message repeats it
  (QueryMode.VectorMessage).

## Model

| member | source | states |
|---|---|---|
| Checker.GenerateStdout | pkg/checker/checker.go:62-68 | The line starts with the state name and " - ", then the message verbatim. It ends in a single newline. With empty perf data nothing follows the message. Otherwise a pipe character and the perf data follow. |
| Checker.StdoutRoundTrip | pkg/checker/checker.go:62-68 | Splitting the line at its first pipe character recovers "NAME - msg" and exactly the perf data, provided the message holds no pipe character. With empty perf data the line contains no pipe character at all. |
| Checker.PipeInMessageSplitsEarly | pkg/checker/checker.go:62-68 | When the message holds a pipe character, the text read back from the line is shorter than "NAME - msg": the split happens inside the message. |
| Checker.PromQLAlternationSplitsEarly | internal/mode/query.go:138-139 | A PromQL alternation, such as the regex match of job "a" or "b" written with a pipe character, puts that character into the message "Query: '<q>'". The line then does not split back into that message and its perf data. |
| Checker.CheckMain | pkg/checker/checker.go:52-59 | The returned code is the code of the reported state, always 0-3. A failed run reports UNKNOWN with "Error when executing cli action : " before the error, and returns 3. A successful run reports the mode's state and message. The status line goes to standard error and standard output stays empty, as Go's builtin `print` writes to standard error. |
| Checker.Check | pkg/checker/checker.go:407-411 | A successful run keeps its state and message. A failed run becomes UNKNOWN, and its message is "Error when executing cli action : " followed by the run's error, unchanged. |
| Checker.StatusLineMissesStdout | pkg/checker/checker.go:56 | On every run, standard output is empty while standard error holds the (non-empty) status line. |
| Checker.CheckMainToStdout | pkg/checker/checker.go:52-59 | Corrected CheckMain: the same status line and exit code, with the line on standard output and nothing on standard error. |
| Checker.CheckMainStdoutRoundTrip | pkg/checker/checker.go:52-68 | With the correction, standard output splits at its first pipe character back into "NAME - message" and exactly the perf data, provided the reported message holds no pipe character. |
| Checker.StatusLineNamesExitCode | pkg/checker/checker.go:52-68 | With the correction, the line starts with a state's name exactly when the returned exit code is that state's code, so the line and the code never disagree. |
| Checker.SplitCookie | pkg/checker/checker.go:260-262 | The name is the text before the first `=` and the value the text after it, so name + "=" + value rebuilds the input. Without any `=` the slice panics, modelled as None. |
| Checker.CookieValidatorIff | pkg/checker/checker.go:274-292 | The validator accepts exactly the `name=value` texts with one `=`, a non-empty name, a non-empty value and a value of at most 4096 bytes. For an accepted text the split returns that name and value. |
| Checker.ValidateJoinedCookie | pkg/checker/checker.go:279-289 | For `key=val` with no other `=`, the rules apply in source order: empty name, then empty value, then a value over 4096 bytes, each with its own error text. |
| Checker.CookieNeedsOneSeparator | pkg/checker/checker.go:276-278 | Any input whose count of `=` is not exactly one is refused with the separator error, before any other rule. |
| Checker.CookieValueLimit | pkg/checker/checker.go:287-289 | The limit is inclusive: a 4096-character ASCII value is accepted and a 4097-character one is refused. |
| Checker.ValidateQueryEncoding | pkg/checker/checker.go:340-352 | Every value other than the three names is refused with the "unknown query encoding" text. |
| Checker.QueryEncodingSelection | pkg/checker/checker.go:340-352 | A value selects encoding e exactly when its lower-case form is e's name ("raw", "base64", "url"). It is refused exactly when its lower-case form is none of the three. Upper-casing the value does not change the verdict. |
| Checker.QueryEncodingAction | pkg/checker/checker.go:312-315 | An empty query is an error for every encoding value, before any decoding is attempted. |
| Checker.QueryEncodingActionAgrees | pkg/checker/checker.go:312-352 | The Action succeeds only with the encoding the Validator selects, and it fails whenever the Validator does. For a non-empty query, `raw` passes the query through unchanged. `base64` and `url` yield the decoder's output when it decodes. When it does not, they fail with "base64 query decoding failed with error: " or "url query decoding failed with error: " followed by the decoder's error. |
| Checker.QueryEncodingActionCaseInsensitive | pkg/checker/checker.go:316-337 | The Action's result is the same for a value and for its upper- and lower-case forms. |
| MainCli.GetStatus | main.go:39-50 | "OK", "WARNING" and "CRITICAL" map to OK, Warning and Critical, each if and only if the text is exactly that name. Every other text maps to Unknown. The function is total. |
| MainCli.GetStatusReadsName | main.go:40-48 | getStatus inverts the state names: every state's printed name maps back to that state, "UNKNOWN" included. |
| MainCli.GetStatusCaseSensitive | main.go:40-48 | Lower-case spellings of the names, and the empty text, map to Unknown. |
| MainCli.CookieValidatorsAgree | main.go:236-254 | main.go's copy of the cookie validator gives the same verdict and error text as checker.go's on every input. It therefore also accepts exactly the well-formed definitions. |
| TargetsHealth.TallyTargets | internal/mode/targetsHealth.go:89-105 | The healthy count equals the number of targets whose health is exactly "up", and healthy + unhealthy equals the number of targets. Each target adds one datum, in order. The datum is labelled with the configured label's value, else the "instance" value ("" if absent). Its value is 0 if and only if the target is up, and 1 otherwise. |
| TargetsHealth.HealthRate | internal/mode/targetsHealth.go:106-112 | The rate is 0 with no targets and satisfies rate × total = healthy otherwise. It lies in [0, 1]. It is 1 exactly when all of at least one target are healthy, and 0 exactly when none is. |
| TargetsHealth.TargetsHealth | internal/mode/targetsHealth.go:58-124 | A nil address, a nil collection or a threshold parse failure returns Unknown with its error, and the server is never contacted. A request failure or a status other than "success" returns Unknown. No error path adds perf data. On success the per-target data come first, one per target in order, with the label fallback of TallyTargets and the value 0 for an up target and 1 otherwise. Then come, in order: health_rate with both thresholds, min 0 and max 1, then targets with min 0. The state is the evaluation of the rate, and the message is "There are H healthy and U unhealthy targets". |
| TargetsHealth.SummaryDeterminesCounts | internal/mode/targetsHealth.go:124 | The message determines the tally: two messages that are equal report the same healthy and the same unhealthy count. |
| QueryMode.Prepare | internal/mode/query.go:21-36 | The warning threshold, then the critical threshold, then (only when search is non-empty) the regex are prepared, and the first failure is returned. A regex exists exactly when search is non-empty. |
| QueryMode.ReplaceLabel | internal/mode/query.go:125-131 | Without a compiled regex the label is returned unchanged. |
| QueryMode.ExpandAlias | internal/mode/query.go:105-123 | The result is either "" or the alias. It is the alias exactly when the template fails to parse (or the alias is empty). The sample's labels and value never reach it. |
| QueryMode.EvalStates | internal/mode/query.go:133-145 | GetWorst's error is returned unchanged. Otherwise the run exits with the worst state, and the message is "Query: '<q>'" for an empty alias and the alias verbatim otherwise. |
| QueryMode.CollectVector | internal/mode/query.go:75-82 | For each sample, in order, there is one perf datum (the replaced label-set text, the value and both thresholds) and one evaluated state. The output is the per-sample alias piece repeated once per sample. |
| QueryMode.CollectMatrix | internal/mode/query.go:86-93 | The states are the evaluations of every point, series by series. There are exactly as many states as points in all series. |
| QueryMode.MatrixValuesCount | internal/mode/query.go:88-92 | A matrix contributes one value per point across all its series. |
| QueryMode.Query | internal/mode/query.go:20-103 | A preparation failure returns its error without contacting the server, and a server error is returned as is. A scalar registers one datum labelled "scalar" (after replace) and exits with its evaluated state and the "Query:"/"Alias:" message. An empty vector exits with the configured empty state and message. A non-empty vector registers one datum per sample and exits through evalStates. A matrix registers no data and exits through evalStates with the alias. Any other type exits Unknown with the unsupported-type message. With no search, the perf labels are unchanged. |
| QueryMode.VectorMessage | internal/mode/query.go:81-84 | After a non-empty vector, the message is "Query: '<q>'" when the alias is empty or parses as a template. Otherwise it is the alias repeated once per sample. |
| QueryMode.EmptyVectorExit | internal/mode/query.go:67-74 | The empty-vector message is the configured one if non-empty, else "Query '<q>' returned no data.". It is never empty, so an empty vector always exits. |
| Freshness.CheckTimeFreshness | internal/helper/prometheus.go:130-139 | A zero window is always an error. Otherwise the sample is fresh exactly when its age, truncated to whole seconds, is at most the window. A stale sample is reported with excess = age − window, which is positive. |
| Freshness.FreshnessBoundary | internal/helper/prometheus.go:134-136 | With a positive window W, a sample is fresh exactly when its age is below W + 1 seconds: an age of exactly W seconds is fresh, and so is one 1 ns short of W + 1 seconds. An age of W + 1 seconds is stale by 1. |
| Freshness.FutureIsFresh | internal/helper/prometheus.go:134-135 | With a positive window, a timestamp in the future is always fresh. |
| Freshness.FreshnessMonotone | internal/helper/prometheus.go:134-135 | A sample that is fresh under one positive window is fresh under every larger window. |
| Freshness.CheckTimestampFreshness | internal/helper/prometheus.go:125-127 | The raw timestamp is taken as whole Unix seconds: the verdict is the freshness of the instant timestamp × 10⁹ ns. |
| Freshness.MillisecondsReadAsSecondsAlwaysFresh | internal/helper/prometheus.go:125-127 | Read as seconds, every timestamp at or after the current Unix second passes a positive window, whatever its true age. |
| Freshness.StaleSampleReportedFresh | internal/helper/prometheus.go:125-127 | At now = 1700000000 s with W = 300, a millisecond timestamp 1000 s old passes as written. Read as milliseconds it is stale by 700 s. |
| Freshness.CheckTimestampMillisFreshness | internal/helper/prometheus.go:125-127 | Corrected reading: the timestamp is in milliseconds, and the verdict is the freshness of the instant timestamp × 10⁶ ns. |
| Freshness.MillisAge | internal/helper/prometheus.go:125-139 | With the millisecond reading, a past sample is fresh exactly when its true whole-second age is at most the window. A stale sample is reported with its true excess. |

## Findings

| source | as written | input that shows it | evidently intended | confidence | as-written member | corrected member |
|---|---|---|---|---|---|---|
| internal/helper/prometheus.go:125-127 | `time.Unix(int64(timestamp), 0)` reads a Prometheus `model.Time`, which counts milliseconds since the epoch, as a count of seconds. Every real sample therefore lies far in the future and passes the freshness check. | W = 300, now = 1700000000 s, timestamp = 1699999000000 (a sample 1000 s old): reported fresh | Read the timestamp as milliseconds (`timestamp.Time()`), which reports the sample stale by 700 s | high; not executed | Freshness.StaleSampleReportedFresh | Freshness.MillisAge |
| pkg/checker/checker.go:56 | `print(GenerateStdout(...))` emits the status line with Go's builtin `print`, which writes to standard error. A monitoring core that reads the plugin's standard output receives an empty output. | Any run, e.g. a successful mode run reporting OK with message "fine": standard output is "", standard error is "OK - fine" and a newline | Write the line to standard output (`fmt.Print`), where the Naemon plugin interface reads it | medium; not executed | Checker.StatusLineMissesStdout | Checker.CheckMainStdoutRoundTrip |

Nothing in the model depends on the freshness verdict: query mode discards
it, and ping is not modelled. Both readings are therefore kept side by side
rather than one replacing the other. The same holds for the two versions of
CheckMain: main.go does not call it, so no other member depends on where it
writes.

## Left out

- The check_x library (`NewThreshold`, `Evaluator.Evaluate`,
  `States.GetWorst`, `PerformanceDataCollection` with its rendering,
  `StateFromString`, `Exit`, `StartTimeout`) is not part of this model.
  `NewThreshold`, `Evaluate` and `GetWorst` are uninterpreted functions of
  the `CheckX.Library` record. Its state names and codes ("OK"/0,
  "WARNING"/1, "CRITICAL"/2, "UNKNOWN"/3) follow the plugin convention.
- QueryMode.Query: `check_x.Exit` is modelled as ending the process with
  its state and message (the `Exited` outcome), so nothing after an exit
  runs. In particular, an empty vector exits before `evalStates` and so
  never reaches `GetWorst`. The library's code is not part of this model,
  and this rests on `Exit` terminating the process.
- TargetsHealth.TargetsHealth and QueryMode.Query: a
  `PerformanceDataCollection` is modelled as the ordered list of calls made
  on it (`PerfOp`, `PerfDatum`), not as a function. Its rendering to text
  is the `perf` parameter of Checker.GenerateStdout.
- Checker.CheckMain: the zero `check_x.State{}` is not modelled. Check
  returns it when the command line runs no mode action
  (pkg/checker/checker.go:74, 411). The four-valued `State` cannot express
  a state with an empty name, so the line that run prints and its exit code
  are not covered.
- HTTP and TLS plumbing are network I/O: `NewAPIClientV1`, `DoAPIRequest`,
  the verbose `RoundTrip` interceptor, cookie jars, and `getTargets` with
  its JSON decoding. Their results enter as the `server` parameter. The
  errors of creating the API client and of running the query are merged
  into that one parameter, since both are returned unchanged.
- internal/mode/ping.go is a timed network round trip. Its only decisions
  are nil guards and a single-entry check, and it is not modelled.
- The urfave/cli command tree, the process-global flag variables and the
  order in which flags run are not modelled. The concurrent timeout timer is
  not modelled either. Every flag operation takes its value as a parameter.
- main.go's `getStatus` and cookie validator are modelled. Its command
  wiring is left out, and so are its address flag actions. `mode.Query` is
  called with exactly the nine parameters internal/mode/query.go:20
  declares, and main.go returns its error (main.go:164). It passes
  `getStatus(emptyQueryStatus)` as the empty-query state. That is why
  QueryMode.Query takes `emptyQueryStatus` as one of the four states:
  through that caller it is always the value of MainCli.GetStatus. The
  calls to `Ping` (main.go:87, against internal/mode/ping.go:29) and
  `TargetsHealth` (main.go:276, against internal/mode/targetsHealth.go:58)
  pass fewer arguments than those functions declare.
- The library calls `regexp`, `text/template`, `strconv.FormatFloat`,
  `model.LabelSet.String`, `base64.StdEncoding.DecodeString` and
  `url.QueryUnescape` are uninterpreted parameters.
- IEEE floating point is not modelled: health_rate and sample values are
  Dafny reals. `Duration.Seconds()` followed by `int(...)` is modelled as
  exact truncation toward zero. `Duration.Seconds()` adds the
  whole seconds and the fraction as two floats. Their sum rounds up to the
  next whole second once the age reaches about 2²⁴ s (1.7×10⁷ s, some 194
  days) and lies within a nanosecond of it. That rounding is not modelled.
- GoStrings.Lower: `strings.ToLower` is modelled on ASCII letters only. In
  Go's tables, only U+0130 and U+212A lower-case from outside ASCII into
  ASCII, to "i" and "k". Neither letter occurs in "raw", "base64" or "url",
  so the accepted set of encoding values is the same.
- Freshness.CheckTimeFreshness: the excess `age - window` is computed
  without 64-bit wrap-around. It could only wrap for a window below about
  −9.2×10¹⁸ seconds.
- The per-target text that TargetsHealth accumulates in `msg` is never
  used, because the function returns a different message, so it is not
  modelled.
- The freshness checks inside query mode discard their results. The model
  of query mode therefore does not consult freshness.
