/** The freshness rule of internal/helper/prometheus.go: a sample is fresh
    when it is at most `window` whole seconds old. The wall clock is a
    parameter: `now` and every time instant are Unix times in nanoseconds, the
    resolution of Go's time.Time. */
module Freshness {
  import opened Results
  import opened GoStrings

  const NanosPerSecond := 1_000_000_000
  const NanosPerMilli := 1_000_000

  /** The range of Go's time.Duration, an int64 count of nanoseconds. */
  const MinDuration := -0x8000_0000_0000_0000
  const MaxDuration := 0x7fff_ffff_ffff_ffff

  const ZeroWindowError := "error when checking time freshness, timestampFreshness is zero"

  /** time.Since(t) = now.Sub(t): the elapsed nanoseconds, saturated to the
      int64 range of time.Duration. */
  function Since(now: int, t: int): (d: int)
    ensures MinDuration <= d <= MaxDuration
    ensures MinDuration <= now - t <= MaxDuration ==> d == now - t
    ensures now - t < MinDuration ==> d == MinDuration
    ensures now - t > MaxDuration ==> d == MaxDuration
  {
    if now - t < MinDuration then MinDuration
    else if now - t > MaxDuration then MaxDuration
    else now - t
  }

  /** int(d.Seconds()): a duration in whole seconds, the fraction dropped
      toward zero as Go's float-to-int conversion does. */
  function WholeSeconds(d: int): (s: int)
    ensures d >= 0 ==> s * NanosPerSecond <= d < (s + 1) * NanosPerSecond
    ensures d < 0 ==> (s - 1) * NanosPerSecond < d <= s * NanosPerSecond
    ensures d >= 0 ==> s >= 0
    ensures d <= 0 ==> s <= 0
  {
    if d >= 0 then d / NanosPerSecond else -((-d) / NanosPerSecond)
  }

  /** The error text reporting how many seconds a sample is too old. */
  function StaleError(excess: nat): string
  {
    "one of the scraped data exceed the freshness by " + NatToString(excess) + "s"
  }

  /** CheckTimeFreshness: a zero window is always an error; otherwise the
      sample taken at `t` is fresh when its age in whole seconds does not exceed
      the window, and stale data is reported with the excess in seconds. */
  function CheckTimeFreshness(window: int, now: int, t: int): (r: Outcome)
    ensures window == 0 ==> r == Fail(ZeroWindowError)
    ensures window != 0 ==> (r.Pass? <==> WholeSeconds(Since(now, t)) <= window)
    ensures window != 0 && r.Fail? ==>
      var excess := WholeSeconds(Since(now, t)) - window;
      excess > 0 && r.error == StaleError(excess)
  {
    if window == 0 then Fail(ZeroWindowError)
    else
      var age := WholeSeconds(Since(now, t));
      if age > window then Fail(StaleError(age - window)) else Pass
  }

  /** The boundary is inclusive: with a positive window W a sample exactly
      W seconds old is fresh, and so is one a nanosecond short of W + 1
      seconds, while one W + 1 seconds old is stale by one second. In
      general a sample is fresh exactly when it is less than W + 1 seconds
      old. */
  lemma FreshnessBoundary(window: nat, now: int, t: int)
    requires 0 < window
    requires (window + 1) * NanosPerSecond <= MaxDuration
    ensures now - t == window * NanosPerSecond ==> CheckTimeFreshness(window, now, t) == Pass
    ensures now - t == (window + 1) * NanosPerSecond - 1 ==> CheckTimeFreshness(window, now, t) == Pass
    ensures now - t == (window + 1) * NanosPerSecond ==>
      CheckTimeFreshness(window, now, t) == Fail(StaleError(1))
    ensures CheckTimeFreshness(window, now, t) == Pass <==> now - t < (window + 1) * NanosPerSecond
  {
  }

  /** A sample stamped in the future is always fresh under a positive window. */
  lemma FutureIsFresh(window: int, now: int, t: int)
    requires 0 < window
    requires now <= t
    ensures CheckTimeFreshness(window, now, t) == Pass
  {
  }

  /** The verdict only ever loosens as the window grows: whatever is fresh
      under one positive window is fresh under every larger one. */
  lemma FreshnessMonotone(w1: int, w2: int, now: int, t: int)
    requires 0 < w1 <= w2
    requires CheckTimeFreshness(w1, now, t) == Pass
    ensures CheckTimeFreshness(w2, now, t) == Pass
  {
  }

  /** CheckTimestampFreshness as written: the Prometheus sample timestamp is
      handed to time.Unix as a count of whole seconds. */
  function CheckTimestampFreshness(window: int, now: int, timestamp: int): (r: Outcome)
    ensures window == 0 ==> r == Fail(ZeroWindowError)
    ensures window != 0 ==>
      (r.Pass? <==> WholeSeconds(Since(now, timestamp * NanosPerSecond)) <= window)
  {
    CheckTimeFreshness(window, now, timestamp * NanosPerSecond)
  }

  /** A Prometheus timestamp counts milliseconds, so read as seconds it lies
      far in the future: every timestamp at least the current Unix time in
      seconds passes, whatever its true age. In milliseconds that is every
      sample taken later than now/1000 seconds after the epoch, about twenty
      days into 1970 for a present-day clock. */
  lemma MillisecondsReadAsSecondsAlwaysFresh(window: int, now: int, timestamp: int)
    requires 0 < window
    requires now <= timestamp * NanosPerSecond
    ensures CheckTimestampFreshness(window, now, timestamp) == Pass
  {
    FutureIsFresh(window, now, timestamp * NanosPerSecond);
  }

  /** A concrete instance: at 2023-11-14T22:13:20Z a sample taken 1000 seconds
      earlier, stamped in milliseconds, passes a 300-second window as written,
      while reading the stamp as milliseconds reports it 700 seconds stale. */
  lemma StaleSampleReportedFresh()
    ensures CheckTimestampFreshness(300, 1_700_000_000 * NanosPerSecond, 1_699_999_000_000) == Pass
    ensures CheckTimestampMillisFreshness(300, 1_700_000_000 * NanosPerSecond, 1_699_999_000_000)
      == Fail(StaleError(700))
  {
    MillisecondsReadAsSecondsAlwaysFresh(300, 1_700_000_000 * NanosPerSecond, 1_699_999_000_000);
    MillisAge(300, 1_700_000_000 * NanosPerSecond, 1_699_999_000_000);
  }

  /** CheckTimestampFreshness corrected: the timestamp is read as the
      milliseconds since the epoch it is (model.Time.Time()). */
  function CheckTimestampMillisFreshness(window: int, now: int, timestamp: int): (r: Outcome)
    ensures window == 0 ==> r == Fail(ZeroWindowError)
    ensures window != 0 ==>
      (r.Pass? <==> WholeSeconds(Since(now, timestamp * NanosPerMilli)) <= window)
  {
    CheckTimeFreshness(window, now, timestamp * NanosPerMilli)
  }

  /** With the timestamp read as milliseconds, a past sample of positive
      window is fresh exactly when its true age, in whole seconds, is at most
      the window, and a stale one is reported with its true excess. */
  lemma MillisAge(window: int, now: int, timestamp: int)
    requires 0 < window
    requires 0 <= now - timestamp * NanosPerMilli <= MaxDuration
    ensures var age := (now - timestamp * NanosPerMilli) / NanosPerSecond;
      && (CheckTimestampMillisFreshness(window, now, timestamp).Pass? <==> age <= window)
      && (age > window ==> CheckTimestampMillisFreshness(window, now, timestamp) == Fail(StaleError(age - window)))
  {
  }
}
