/** The targets_health mode of internal/mode/targetsHealth.go: from the
    server's list of active scrape targets it derives a healthy/unhealthy
    tally, one performance datum per target, the health rate
    healthy / targets and the state check_x assigns to that rate. Fetching
    and decoding /api/v1/targets is a parameter: `server` is what getTargets
    returns for the address. */
module TargetsHealth {
  import opened Results
  import opened GoStrings
  import opened CheckX

  /** The label whose value names a target when the configured one is absent. */
  const DefaultLabel := "instance"

  /** The health a scrape target must report to count as healthy. */
  const HealthyStatus := "up"

  /** The API status of a usable response. */
  const SuccessStatus := "success"

  /** One active target of the /api/v1/targets response, reduced to the
      fields the mode reads. */
  datatype Target = Target(labels: map<string, string>, health: string, lastError: string)

  /** The decoded /api/v1/targets response. */
  datatype TargetsResponse = TargetsResponse(status: string, activeTargets: seq<Target>)

  /** What one TargetsHealth call returns and leaves behind: the state, the
      message and the error it returns, the calls it made on the performance
      data collection in order, and whether it asked the server for targets. */
  datatype HealthRun = HealthRun(
    state: State,
    msg: string,
    err: Option<string>,
    perf: seq<PerfOp>,
    contactedServer: bool)

  /** Indexing a Go map: the value under `key`, or "" when there is none. */
  function MapGet(m: map<string, string>, key: string): string
  {
    if key in m then m[key] else ""
  }

  /** The performance label of a target: the value of the configured label if
      the target has it, otherwise the value of its "instance" label. */
  function PerfLabel(t: Target, labelName: string): string
  {
    if labelName in t.labels then t.labels[labelName] else MapGet(t.labels, DefaultLabel)
  }

  predicate IsHealthy(t: Target)
  {
    t.health == HealthyStatus
  }

  /** The number of healthy targets: the reference the tally is proved against. */
  function CountHealthy(ts: seq<Target>): (n: nat)
    ensures n <= |ts|
  {
    if ts == [] then 0
    else CountHealthy(ts[..|ts| - 1]) + (if IsHealthy(ts[|ts| - 1]) then 1 else 0)
  }

  /** The health rate: 0 for no targets, healthy / total otherwise. It lies
      in [0, 1], reaches 1 exactly when every one of at least one target is
      healthy and 0 exactly when none is. */
  function HealthRate(healthy: nat, total: nat): (r: real)
    requires healthy <= total
    ensures 0.0 <= r <= 1.0
    ensures total > 0 ==> r * (total as real) == healthy as real
    ensures r == 1.0 <==> 0 < total && healthy == total
    ensures r == 0.0 <==> healthy == 0
  {
    if total == 0 then 0.0 else (healthy as real) / (total as real)
  }

  /** The loop over the active targets: every target adds one performance
      datum under its label, valued 0 when it is up and 1 otherwise, and
      counts towards exactly one of healthy and unhealthy. */
  method TallyTargets(ts: seq<Target>, labelName: string) returns (healthy: nat, unhealthy: nat, perf: seq<PerfOp>)
    ensures healthy == CountHealthy(ts)
    ensures healthy + unhealthy == |ts|
    ensures |perf| == |ts|
    ensures forall i :: 0 <= i < |ts| ==>
      && perf[i].Add?
      && perf[i].name == PerfLabel(ts[i], labelName)
      && (perf[i].value == 0.0 <==> IsHealthy(ts[i]))
      && (perf[i].value == 0.0 || perf[i].value == 1.0)
  {
    healthy, unhealthy, perf := 0, 0, [];
    for i := 0 to |ts|
      invariant healthy == CountHealthy(ts[..i])
      invariant healthy + unhealthy == i
      invariant |perf| == i
      invariant forall j :: 0 <= j < i ==>
        && perf[j].Add?
        && perf[j].name == PerfLabel(ts[j], labelName)
        && (perf[j].value == 0.0 <==> IsHealthy(ts[j]))
        && (perf[j].value == 0.0 || perf[j].value == 1.0)
    {
      var health := 0.0;
      if ts[i].health != HealthyStatus {
        health := 1.0;
        unhealthy := unhealthy + 1;
      } else {
        healthy := healthy + 1;
      }
      if labelName in ts[i].labels {
        perf := perf + [Add(ts[i].labels[labelName], health)];
      } else {
        perf := perf + [Add(MapGet(ts[i].labels, DefaultLabel), health)];
      }
      assert ts[..i + 1][..i] == ts[..i];
    }
    assert ts[..|ts|] == ts;
  }

  /** The message of a completed run. */
  function Summary(healthy: nat, unhealthy: nat): string
  {
    "There are " + NatToString(healthy) + " healthy and " + NatToString(unhealthy) + " unhealthy targets"
  }

  /** The message determines the tally: two runs that report the same
      message counted the same healthy and unhealthy targets. */
  lemma SummaryDeterminesCounts(h1: nat, u1: nat, h2: nat, u2: nat)
    requires Summary(h1, u1) == Summary(h2, u2)
    ensures h1 == h2 && u1 == u2
  {
    var p, m, e := "There are ", " healthy and ", " unhealthy targets";
    var a1, a2 := NatToString(h1), NatToString(h2);
    var b1, b2 := NatToString(u1), NatToString(u2);
    SummaryShape(h1, u1);
    SummaryShape(h2, u2);
    StripPrefix(p, a1 + (m + (b1 + e)), a2 + (m + (b2 + e)));
    assert (m + (b1 + e))[0] == ' ' && (m + (b2 + e))[0] == ' ';
    DigitsPrefixUnique(a1, m + (b1 + e), a2, m + (b2 + e));
    NatToStringInjective(h1, h2);
    StripPrefix(m, b1 + e, b2 + e);
    DigitsPrefixUnique(b1, e, b2, e);
    NatToStringInjective(u1, u2);
  }

  /** The message, grouped as its parts are read off. */
  lemma SummaryShape(h: nat, u: nat)
    ensures Summary(h, u) == "There are " + (NatToString(h) + (" healthy and " + (NatToString(u) + " unhealthy targets")))
  {
  }

  /** The collection calls that follow the per-target data: the health rate
      with both thresholds and the bounds 0 and 1, then the target count with
      the lower bound 0. */
  function Trailer(rate: real, warn: Threshold, crit: Threshold, total: nat): seq<PerfOp>
  {
    [ Add("health_rate", rate), SetWarn("health_rate", warn), SetCrit("health_rate", crit),
      SetMin("health_rate", 0.0), SetMax("health_rate", 1.0),
      Add("targets", total as real), SetMin("targets", 0.0) ]
  }

  const NilAddressError := "address to query is null"
  const NilCollectionError := "collection to store perf data is null"

  /** TargetsHealth. The guards run in order and each returns UNKNOWN with an
      error before anything later happens: a nil address, a nil collection,
      either threshold failing to parse (the server is not contacted for any
      of these), the request failing, or an API status other than "success";
      none of them adds performance data. Otherwise the tally, the trailer and
      the evaluation of the health rate make the result. */
  method TargetsHealth(
    lib: Library, address: Option<string>, collectionPresent: bool,
    labelName: string, warning: string, critical: string, server: Result<TargetsResponse>)
    returns (run: HealthRun)
    ensures run.err.Some? ==> run.state == Unknown && run.perf == []
    ensures address.None? ==>
      run == HealthRun(Unknown, "Error: " + NilAddressError, Some(NilAddressError), [], false)
    ensures address.Some? && !collectionPresent ==>
      run == HealthRun(Unknown, "Error: " + NilCollectionError, Some(NilCollectionError), [], false)
    ensures address.Some? && collectionPresent && lib.newThreshold(warning).Failure? ==>
      var e := lib.newThreshold(warning).error;
      run == HealthRun(Unknown, "Error creating warningThreshold from '" + warning + "' : " + e, Some(e), [], false)
    ensures (address.Some? && collectionPresent && lib.newThreshold(warning).Success?
             && lib.newThreshold(critical).Failure?) ==>
      var e := lib.newThreshold(critical).error;
      run == HealthRun(Unknown, "Error creating critThreshold from '" + critical + "' : " + e, Some(e), [], false)
    ensures run.contactedServer <==>
      address.Some? && collectionPresent
      && lib.newThreshold(warning).Success? && lib.newThreshold(critical).Success?
    ensures run.contactedServer && server.Failure? ==>
      run == HealthRun(Unknown,
        "Error getting targets out of address: " + address.value + " : " + server.error,
        Some(server.error), [], true)
    ensures run.contactedServer && server.Success? && server.value.status != SuccessStatus ==>
      var e := "the API target return status was " + server.value.status;
      run == HealthRun(Unknown, e, Some(e), [], true)
    ensures run.contactedServer && server.Success? && server.value.status == SuccessStatus ==>
      var ts := server.value.activeTargets;
      var warn := lib.newThreshold(warning).value;
      var crit := lib.newThreshold(critical).value;
      var healthy := CountHealthy(ts);
      var rate := HealthRate(healthy, |ts|);
      && run.err.None?
      && run.state == lib.evaluate(warn, crit, rate)
      && run.msg == Summary(healthy, |ts| - healthy)
      && |run.perf| == |ts| + 7
      && run.perf[|ts|..] == Trailer(rate, warn, crit, |ts|)
      && forall i :: 0 <= i < |ts| ==>
        && run.perf[i].Add?
        && run.perf[i].name == PerfLabel(ts[i], labelName)
        && run.perf[i].value == (if IsHealthy(ts[i]) then 0.0 else 1.0)
  {
    if address.None? {
      return HealthRun(Unknown, "Error: " + NilAddressError, Some(NilAddressError), [], false);
    }
    if !collectionPresent {
      return HealthRun(Unknown, "Error: " + NilCollectionError, Some(NilCollectionError), [], false);
    }
    var warnThreshold := lib.newThreshold(warning);
    if warnThreshold.Failure? {
      var e := warnThreshold.error;
      return HealthRun(Unknown, "Error creating warningThreshold from '" + warning + "' : " + e, Some(e), [], false);
    }
    var critThreshold := lib.newThreshold(critical);
    if critThreshold.Failure? {
      var e := critThreshold.error;
      return HealthRun(Unknown, "Error creating critThreshold from '" + critical + "' : " + e, Some(e), [], false);
    }
    if server.Failure? {
      return HealthRun(Unknown,
        "Error getting targets out of address: " + address.value + " : " + server.error,
        Some(server.error), [], true);
    }
    var targets := server.value;
    if targets.status != SuccessStatus {
      var e := "the API target return status was " + targets.status;
      return HealthRun(Unknown, e, Some(e), [], true);
    }
    var ts := targets.activeTargets;
    var healthy, unhealthy, perf := TallyTargets(ts, labelName);
    var healthRate := HealthRate(healthy, |ts|);
    var trailer := Trailer(healthRate, warnThreshold.value, critThreshold.value, |ts|);
    var state := lib.evaluate(warnThreshold.value, critThreshold.value, healthRate);
    run := HealthRun(state, Summary(healthy, unhealthy), None, perf + trailer, true);
    assert run.perf[|ts|..] == trailer;
  }
}
