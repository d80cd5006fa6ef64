// From response records to the report of a run: thresholds, response counts, the control
// requests of setup and teardown, and how RunWithOptions puts them together. What the network
// answers, and where the context interrupts the control requests, are parameters.
module Verdict {
  import opened Prelude
  import opened Sorting
  import opened Reports
  import opened TrafficPlan
  import TrafficPool
  import TrafficRace

  // ----- thresholds ----------------------------------------------------------

  datatype Thresholds = Thresholds(maxErrorRate: Option<real>, p95MS: Option<real>)

  function LimitCheck(name: string, actual: real, limit: Option<real>): seq<CheckResult> {
    if limit.None? then []
    else [CheckResult(name, actual <= limit.value, Compared(actual <= limit.value, actual, limit.value))]
  }

  function ThresholdChecks(t: Thresholds, records: seq<ResponseRecord>): seq<CheckResult> {
    LimitCheck("max_error_rate", SummaryOf(records).errorRate, t.maxErrorRate) +
    LimitCheck("p95_ms", SummaryOf(records).latency.p95MS, t.p95MS)
  }

  // How many records took no longer than the limit.
  function Within(records: seq<ResponseRecord>, limit: real): nat {
    AtMost(Durations(records), limit)
  }

  lemma P95OfSorted(records: seq<ResponseRecord>)
    requires |records| > 0
    ensures var s := Sort(Durations(records)); SummaryOf(records).latency.p95MS == Percentile(s, 0.95)
  {
    hide Sort, Sum, Percentile, Map;
  }

  lemma NothingSummed()
    ensures SummaryOf([]).errorRate == 0.0 && SummaryOf([]).latency.p95MS == 0.0
  {
  }

  // A p95 within the limit means that at least floor(0.95 (n - 1)) + 1 of the n records took no
  // longer than the limit; and if one more than that did, where the position falls between two
  // records, the p95 is within the limit. Where just as many did, the line between the two decides.
  lemma P95Meaning(records: seq<ResponseRecord>, limit: real)
    requires |records| > 0
    ensures 0 <= Lower(|records|, 0.95) <= Upper(|records|, 0.95) < |records|
    ensures SummaryOf(records).latency.p95MS <= limit ==> Within(records, limit) >= Lower(|records|, 0.95) + 1
    ensures Within(records, limit) >= Upper(|records|, 0.95) + 1 ==> SummaryOf(records).latency.p95MS <= limit
    ensures var s, k := Sort(Durations(records)), Lower(|records|, 0.95);
            Lower(|records|, 0.95) + 1 <= Within(records, limit) <= Upper(|records|, 0.95) ==>
              s[k] <= limit < s[k + 1] &&
              (SummaryOf(records).latency.p95MS <= limit <==>
                 s[k] + (0.95 * (|records| - 1) as real - k as real) * (s[k + 1] - s[k]) <= limit)
  {
    hide Sort, SummaryOf, Percentile, Position, AtMost, Map;
    var d := Durations(records);
    var s := Sort(d);
    SortSorts(d);
    P95OfSorted(records);
    PercentileBrackets(s, 0.95);
    AtMostPermutes(s, d, limit);
    AtMostOfSorted(s, Lower(|s|, 0.95), limit);
    AtMostOfSorted(s, Upper(|s|, 0.95), limit);
    if Lower(|s|, 0.95) < Upper(|s|, 0.95) {
      P95InGap(s);
    }
  }

  lemma P95InGap(s: seq<real>)
    requires |s| > 0 && Lower(|s|, 0.95) < Upper(|s|, 0.95)
    ensures var k := Lower(|s|, 0.95);
            0 <= k && k + 1 < |s| && Percentile(s, 0.95) == s[k] + (0.95 * (|s| - 1) as real - k as real) * (s[k + 1] - s[k])
  {
    PositionsInRange(|s|, 0.95);
    PercentileInGap(s, 0.95, Lower(|s|, 0.95));
  }

  // An error rate within the limit counts the records with errors.
  lemma ErrorRateMeaning(records: seq<ResponseRecord>, limit: real)
    requires |records| > 0
    ensures SummaryOf(records).errorRate <= limit <==>
            |Filter(records, HasError)| as real <= limit * |records| as real
  {
    hide StatusCounts, LatencyOf, Filter;
    RatioAtMost(|Filter(records, HasError)| as real, |records| as real, limit);
  }

  lemma RatioAtMost(part: real, whole: real, limit: real)
    requires whole > 0.0
    ensures part / whole <= limit <==> part <= limit * whole
  {
    var ratio := part / whole;
    assert ratio * whole == part;
    Scaled(ratio, limit, whole);
    Scaled(limit, ratio, whole);
  }

  lemma Scaled(a: real, b: real, factor: real)
    requires factor > 0.0
    ensures a <= b ==> a * factor <= b * factor
    ensures a < b ==> a * factor < b * factor
  {
    assert b * factor - a * factor == (b - a) * factor;
  }

  // What a caller learns from the checks of n records: there is one for each limit given, of that
  // limit; the error rate passes exactly when no more than limit * n records have an error, and the
  // p95 exactly when the p95 of the durations is within the limit, which says how many are.
  ghost predicate ThresholdsMean(t: Thresholds, records: seq<ResponseRecord>, results: seq<CheckResult>) {
    && (forall c | c in results :: c.name == "max_error_rate" || c.name == "p95_ms")
    && ((exists c :: c in results && c.name == "max_error_rate") <==> t.maxErrorRate.Some?)
    && ((exists c :: c in results && c.name == "p95_ms") <==> t.p95MS.Some?)
    && (forall c | c in results && c.name == "max_error_rate" :: t.maxErrorRate.Some? && RateMeans(records, t.maxErrorRate.value, c))
    && (forall c | c in results && c.name == "p95_ms" :: t.p95MS.Some? && P95Means(records, t.p95MS.value, c))
  }

  ghost predicate RateMeans(records: seq<ResponseRecord>, limit: real, c: CheckResult) {
    var errors := |set i | 0 <= i < |records| && records[i].error != ""| as real;
    && c.message.Compared? && c.message.passed == c.passed && c.message.limit == limit
    && c.message.actual * |records| as real == errors && (|records| == 0 ==> c.message.actual == 0.0)
    && (c.passed <==> if |records| == 0 then limit >= 0.0 else errors <= limit * |records| as real)
  }

  ghost predicate P95Means(records: seq<ResponseRecord>, limit: real, c: CheckResult) {
    && c.message.Compared? && c.message.passed == c.passed && c.message.limit == limit
    && IsPercentile(Durations(records), 0.95, c.message.actual)
    && (c.passed <==> c.message.actual <= limit)
    && (|records| > 0 && c.passed ==> Within(records, limit) >= Lower(|records|, 0.95) + 1)
    && (|records| > 0 && Within(records, limit) >= Upper(|records|, 0.95) + 1 ==> c.passed)
  }

  lemma RateCheckMeans(records: seq<ResponseRecord>, limit: real)
    ensures var c := LimitCheck("max_error_rate", SummaryOf(records).errorRate, Some(limit))[0]; RateMeans(records, limit, c)
  {
    hide SummaryOf, Filter;
    ErrorsCounted(records);
    if |records| > 0 {
      ErrorRateMeaning(records, limit);
    } else {
      NothingSummed();
    }
  }

  lemma ErrorsCounted(records: seq<ResponseRecord>)
    ensures |Filter(records, HasError)| == |set i | 0 <= i < |records| && records[i].error != ""|
    ensures SummaryOf(records).errorRate * |records| as real == |Filter(records, HasError)| as real
  {
    hide StatusCounts, LatencyOf, Filter;
    FilterIndexes(records, HasError);
    assert Indexes(records, HasError) == (set i | 0 <= i < |records| && records[i].error != "");
  }

  lemma P95CheckMeans(records: seq<ResponseRecord>, limit: real)
    ensures var c := LimitCheck("p95_ms", SummaryOf(records).latency.p95MS, Some(limit))[0]; P95Means(records, limit, c)
  {
    hide SummaryOf, Within, IsPercentile, Lower, Upper;
    LatencyIs(records);
    if |records| > 0 {
      P95Meaning(records, limit);
    }
  }

  lemma NamesDiffer()
    ensures "max_error_rate" != "p95_ms"
  {
    assert |"max_error_rate"| != |"p95_ms"|;
  }

  lemma ThresholdsMeaning(t: Thresholds, records: seq<ResponseRecord>)
    ensures ThresholdsMean(t, records, ThresholdChecks(t, records))
  {
    hide SummaryOf, RateMeans, P95Means;
    NamesDiffer();
    var rate, p95 := LimitCheck("max_error_rate", SummaryOf(records).errorRate, t.maxErrorRate),
                     LimitCheck("p95_ms", SummaryOf(records).latency.p95MS, t.p95MS);
    assert ThresholdChecks(t, records) == rate + p95;
    assert forall c | c in rate :: c.name == "max_error_rate";
    assert forall c | c in p95 :: c.name == "p95_ms";
    if t.maxErrorRate.Some? {
      assert rate[0] in rate + p95;
      RateCheckMeans(records, t.maxErrorRate.value);
    }
    if t.p95MS.Some? {
      assert p95[0] in rate + p95;
      P95CheckMeans(records, t.p95MS.value);
    }
  }

  method EvaluateThresholds(t: Thresholds, records: seq<ResponseRecord>) returns (results: seq<CheckResult>)
    ensures results == ThresholdChecks(t, records) && ThresholdsMean(t, records, results)
  {
    hide SummaryOf, ThresholdsMean;
    ThresholdsMeaning(t, records);
    results := [];
    var summary := Summarize(records);
    if t.maxErrorRate.Some? {
      var limit := t.maxErrorRate.value;
      var passed := summary.errorRate <= limit;
      results := results + [CheckResult("max_error_rate", passed, Compared(passed, summary.errorRate, limit))];
    }
    if t.p95MS.Some? {
      var limit := t.p95MS.value;
      var passed := summary.latency.p95MS <= limit;
      results := results + [CheckResult("p95_ms", passed, Compared(passed, summary.latency.p95MS, limit))];
    }
  }

  // ----- response counts -----------------------------------------------------

  // A probe gets no reply when its URL is bad, the limiter or the client refuses it, which both do
  // once the context is done, or reading fails; or it is judged by the reply.
  datatype Probe = Refused(error: string) | Replied(passed: bool, message: Message)

  datatype Invariant =
    | ResponseCount(name: string, request: string, status: Option<int>, equals: Option<int>, min: Option<int>, max: Option<int>)
    | HTTPProbe(name: string, probe: Probe)
    | OtherInvariant

  predicate Counts(inv: Invariant, r: ResponseRecord)
    requires inv.ResponseCount?
  {
    (inv.request == "" || r.requestName == inv.request) && (inv.status.Some? ==> r.statusCode == inv.status.value)
  }

  function CountedBy(inv: Invariant): ResponseRecord -> bool
    requires inv.ResponseCount?
  {
    (r: ResponseRecord) => Counts(inv, r)
  }

  predicate CountAccepted(inv: Invariant, count: int)
    requires inv.ResponseCount?
  {
    && (inv.equals.Some? ==> count == inv.equals.value)
    && (inv.min.Some? ==> count >= inv.min.value)
    && (inv.max.Some? ==> count <= inv.max.value)
  }

  function ExpectedBounds(inv: Invariant): seq<Bound>
    requires inv.ResponseCount?
  {
    (if inv.equals.Some? then [Equals(inv.equals.value)] else []) +
    (if inv.min.Some? then [AtLeast(inv.min.value)] else []) +
    (if inv.max.Some? then [NoMoreThan(inv.max.value)] else [])
  }

  function CountCheck(inv: Invariant, records: seq<ResponseRecord>): CheckResult
    requires inv.ResponseCount?
  {
    var count := |Filter(records, CountedBy(inv))|;
    var passed := CountAccepted(inv, count);
    CheckResult(inv.name, passed, Counted(passed, count, ExpectedBounds(inv)))
  }

  // The check counts the records that have the request name and the status, where one is asked for,
  // passes exactly when the number meets each bound that is given, and names the number and the bounds.
  ghost predicate CountMeans(inv: Invariant, records: seq<ResponseRecord>, r: CheckResult)
    requires inv.ResponseCount?
  {
    var n := |set i | 0 <= i < |records|
                      && (inv.request == "" || records[i].requestName == inv.request)
                      && (inv.status == None || inv.status == Some(records[i].statusCode))|;
    && r.name == inv.name
    && (r.passed <==>
          && (inv.equals.Some? ==> n == inv.equals.value)
          && (inv.min.Some? ==> inv.min.value <= n)
          && (inv.max.Some? ==> n <= inv.max.value))
    && r.message.Counted? && r.message.passed == r.passed && r.message.count == n
    && forall b :: b in r.message.expected <==>
         match b case Equals(k) => inv.equals == Some(k) case AtLeast(k) => inv.min == Some(k) case NoMoreThan(k) => inv.max == Some(k)
  }

  lemma BoundsGiven(inv: Invariant)
    requires inv.ResponseCount?
    ensures forall b :: b in ExpectedBounds(inv) <==>
              match b case Equals(k) => inv.equals == Some(k) case AtLeast(k) => inv.min == Some(k) case NoMoreThan(k) => inv.max == Some(k)
  {
    var equals := if inv.equals.Some? then [Equals(inv.equals.value)] else [];
    var min := if inv.min.Some? then [AtLeast(inv.min.value)] else [];
    var max := if inv.max.Some? then [NoMoreThan(inv.max.value)] else [];
    assert ExpectedBounds(inv) == equals + min + max;
    assert forall b :: b in equals + min + max <==> b in equals || b in min || b in max;
  }

  lemma CountMeaning(inv: Invariant, records: seq<ResponseRecord>)
    requires inv.ResponseCount?
    ensures CountMeans(inv, records, CountCheck(inv, records))
  {
    hide Filter, ExpectedBounds;
    BoundsGiven(inv);
    FilterIndexes(records, CountedBy(inv));
    assert Indexes(records, CountedBy(inv)) ==
           (set i | 0 <= i < |records|
                    && (inv.request == "" || records[i].requestName == inv.request)
                    && (inv.status == None || inv.status == Some(records[i].statusCode)));
  }

  method EvaluateResponseCount(inv: Invariant, records: seq<ResponseRecord>) returns (r: CheckResult)
    requires inv.ResponseCount?
    ensures r == CountCheck(inv, records) && CountMeans(inv, records, r)
  {
    CountMeaning(inv, records);
    hide CountMeans;
    var count := 0;
    assert records[..0] == [];
    for i := 0 to |records|
      invariant count == |Filter(records[..i], CountedBy(inv))|
    {
      assert records[..i + 1] == records[..i] + [records[i]];
      FilterPush(records[..i], records[i], CountedBy(inv));
      if inv.request != "" && records[i].requestName != inv.request {
        continue;
      }
      if inv.status.Some? && records[i].statusCode != inv.status.value {
        continue;
      }
      count := count + 1;
    }
    assert records[..|records|] == records;
    hide Filter;
    var passed, expected := true, [];
    if inv.equals.Some? {
      passed := passed && count == inv.equals.value;
      expected := expected + [Equals(inv.equals.value)];
    }
    if inv.min.Some? {
      passed := passed && count >= inv.min.value;
      expected := expected + [AtLeast(inv.min.value)];
    }
    if inv.max.Some? {
      passed := passed && count <= inv.max.value;
      expected := expected + [NoMoreThan(inv.max.value)];
    }
    assert expected == ExpectedBounds(inv);
    r := CheckResult(inv.name, passed, Counted(passed, count, expected));
  }

  function ProbeCheck(inv: Invariant): CheckResult
    requires inv.HTTPProbe?
  {
    match inv.probe
    case Refused(error) => CheckResult(inv.name, false, Text(error))
    case Replied(passed, message) => CheckResult(inv.name, passed, message)
  }

  function InvariantChecks(invariants: seq<Invariant>, records: seq<ResponseRecord>): seq<CheckResult> {
    if |invariants| == 0 then []
    else
      InvariantChecks(invariants[..|invariants| - 1], records) +
      match invariants[|invariants| - 1]
      case ResponseCount(_, _, _, _, _, _) => [CountCheck(invariants[|invariants| - 1], records)]
      case HTTPProbe(_, _) => [ProbeCheck(invariants[|invariants| - 1])]
      case OtherInvariant => []
  }

  method EvaluateInvariants(invariants: seq<Invariant>, records: seq<ResponseRecord>) returns (results: seq<CheckResult>)
    ensures results == InvariantChecks(invariants, records)
  {
    results := [];
    assert invariants[..0] == [];
    for i := 0 to |invariants|
      invariant results == InvariantChecks(invariants[..i], records)
    {
      hide CountCheck;
      assert invariants[..i + 1][..i] == invariants[..i];
      match invariants[i] {
        case ResponseCount(_, _, _, _, _, _) =>
          var check := EvaluateResponseCount(invariants[i], records);
          results := results + [check];
        case HTTPProbe(_, _) =>
          results := results + [ProbeCheck(invariants[i])];
        case OtherInvariant =>
      }
    }
    assert invariants[..|invariants|] == invariants;
  }

  // ----- order does not matter -----------------------------------------------

  lemma ChecksPermute(t: Thresholds, invariants: seq<Invariant>, a: seq<ResponseRecord>, b: seq<ResponseRecord>)
    requires multiset(a) == multiset(b)
    ensures ThresholdChecks(t, a) == ThresholdChecks(t, b)
    ensures InvariantChecks(invariants, a) == InvariantChecks(invariants, b)
  {
    SummaryPermutes(a, b);
    InvariantsPermute(invariants, a, b);
  }

  lemma {:induction false} InvariantsPermute(invariants: seq<Invariant>, a: seq<ResponseRecord>, b: seq<ResponseRecord>)
    requires multiset(a) == multiset(b)
    ensures InvariantChecks(invariants, a) == InvariantChecks(invariants, b)
  {
    if |invariants| > 0 {
      InvariantsPermute(invariants[..|invariants| - 1], a, b);
      var last := invariants[|invariants| - 1];
      if last.ResponseCount? {
        FilterPermutes(a, b, CountedBy(last));
      }
    }
  }

  // ----- setup and teardown --------------------------------------------------

  // A control request that was sent, with the record it led to, or the interruption before it.
  datatype Sent = Interrupted | Answered(record: ResponseRecord)

  function ControlCheck(phase: string, name: string, record: ResponseRecord): CheckResult {
    CheckResult(phase + ":" + name, record.error == "", Text(record.error))
  }

  // How many requests are sent: up to the first interruption, or through the first error.
  function SentCount(outcomes: seq<Sent>): (n: nat)
    ensures n <= |outcomes|
    ensures forall i | 0 <= i < n :: outcomes[i].Answered?
    ensures forall i | 0 <= i < n - 1 :: outcomes[i].record.error == ""
    ensures n < |outcomes| ==> outcomes[n].Interrupted? || (n > 0 && outcomes[n - 1].record.error != "")
  {
    if |outcomes| == 0 || outcomes[0].Interrupted? then 0
    else if outcomes[0].record.error != "" then 1
    else 1 + SentCount(outcomes[1..])
  }

  function ControlRecords(outcomes: seq<Sent>): (r: seq<ResponseRecord>)
    ensures |r| == SentCount(outcomes)
    ensures forall i | 0 <= i < |r| :: r[i] == outcomes[i].record
  {
    seq(SentCount(outcomes), i requires 0 <= i < SentCount(outcomes) => outcomes[i].record)
  }

  function ControlChecks(phase: string, names: seq<string>, outcomes: seq<Sent>): (r: seq<CheckResult>)
    requires |names| == |outcomes|
    ensures |r| == SentCount(outcomes)
    ensures forall i | 0 <= i < |r| :: r[i] == ControlCheck(phase, names[i], outcomes[i].record)
  {
    seq(SentCount(outcomes), i requires 0 <= i < SentCount(outcomes) => ControlCheck(phase, names[i], outcomes[i].record))
  }

  lemma SentCountIs(outcomes: seq<Sent>, n: nat)
    requires n <= |outcomes|
    requires forall i | 0 <= i < n :: outcomes[i].Answered?
    requires forall i | 0 <= i < n - 1 :: outcomes[i].record.error == ""
    requires n < |outcomes| ==> outcomes[n].Interrupted? || (n > 0 && outcomes[n - 1].record.error != "")
    ensures SentCount(outcomes) == n
  {
  }

  method RunControlRequests(phase: string, names: seq<string>, outcomes: seq<Sent>)
    returns (records: seq<ResponseRecord>, checks: seq<CheckResult>)
    requires |names| == |outcomes|
    ensures records == ControlRecords(outcomes) && checks == ControlChecks(phase, names, outcomes)
  {
    hide SentCount;
    records, checks := [], [];
    for i := 0 to |outcomes|
      invariant |records| == |checks| == i
      invariant forall j | 0 <= j < i :: outcomes[j].Answered? && outcomes[j].record.error == ""
      invariant forall j | 0 <= j < i :: records[j] == outcomes[j].record
      invariant forall j | 0 <= j < i :: checks[j] == ControlCheck(phase, names[j], outcomes[j].record)
    {
      if outcomes[i].Interrupted? {
        SentCountIs(outcomes, i);
        return;
      }
      var record := outcomes[i].record;
      records := records + [record];
      checks := checks + [ControlCheck(phase, names[i], record)];
      if record.error != "" {
        SentCountIs(outcomes, i + 1);
        return;
      }
    }
    SentCountIs(outcomes, |outcomes|);
  }

  method HasFailedCheck(checks: seq<CheckResult>) returns (failed: bool)
    ensures failed <==> AnyFailed(checks)
  {
    for i := 0 to |checks|
      invariant forall j | 0 <= j < i :: checks[j].passed
    {
      if !checks[i].passed {
        return true;
      }
    }
    return false;
  }

  predicate AnyFailed(checks: seq<CheckResult>) {
    exists c :: c in checks && !c.passed
  }

  // Control requests fail exactly when one that was sent has an error, and then it is the last
  // one sent. An interruption alone is no failure.
  lemma ControlFailsIff(phase: string, names: seq<string>, outcomes: seq<Sent>)
    requires |names| == |outcomes|
    ensures var checks, n := ControlChecks(phase, names, outcomes), SentCount(outcomes);
            && (AnyFailed(checks) <==> n > 0 && outcomes[n - 1].record.error != "")
            && (!AnyFailed(checks) && n < |outcomes| ==> outcomes[n].Interrupted?)
  {
    hide SentCount;
    var checks, n := ControlChecks(phase, names, outcomes), SentCount(outcomes);
    if n > 0 && outcomes[n - 1].record.error != "" {
      assert checks[n - 1] in checks;
    }
    if c :| c in checks && !c.passed {
      var i :| 0 <= i < n && checks[i] == c;
      assert i == n - 1;
    }
  }

  // ----- the whole run -------------------------------------------------------

  datatype Spec = Spec(
    setup: seq<string>, teardown: seq<string>, thresholds: Thresholds, invariants: seq<Invariant>)

  // The report, given what the control requests met and what the collector held.
  function RunReport(spec: Spec, setup: seq<Sent>, collected: seq<ResponseRecord>, teardown: seq<Sent>): Report
    requires |setup| == |spec.setup| && |teardown| == |spec.teardown|
  {
    var setupChecks := ControlChecks("setup", spec.setup, setup);
    if AnyFailed(setupChecks) then ReportOf(ControlRecords(setup), setupChecks, [])
    else
      var thresholds := ThresholdChecks(spec.thresholds, collected);
      var invariants := InvariantChecks(spec.invariants, collected);
      var teardownChecks := ControlChecks("teardown", spec.teardown, teardown);
      if AnyFailed(teardownChecks)
      then ReportOf(collected + ControlRecords(teardown), thresholds + teardownChecks, invariants)
      else ReportOf(collected, thresholds, invariants)
  }

  method RunWithOptions(spec: Spec, setup: seq<Sent>, collected: seq<ResponseRecord>, teardown: seq<Sent>)
    returns (rep: Report)
    requires |setup| == |spec.setup| && |teardown| == |spec.teardown|
    ensures rep == RunReport(spec, setup, collected, teardown)
  {
    hide ReportOf, ThresholdChecks, InvariantChecks, ControlChecks, ControlRecords, AnyFailed;
    var setupRecords, setupChecks := RunControlRequests("setup", spec.setup, setup);
    var setupFailed := HasFailedCheck(setupChecks);
    if setupFailed {
      rep := Build(setupRecords, setupChecks, []);
      return;
    }
    var records := collected;
    var thresholds := EvaluateThresholds(spec.thresholds, records);
    var invariants := EvaluateInvariants(spec.invariants, records);
    var teardownRecords, teardownChecks := RunControlRequests("teardown", spec.teardown, teardown);
    var teardownFailed := HasFailedCheck(teardownChecks);
    if teardownFailed {
      records := records + teardownRecords;
      thresholds := thresholds + teardownChecks;
    }
    rep := Build(records, thresholds, invariants);
  }

  predicate SomeError(records: seq<ResponseRecord>) {
    exists r :: r in records && r.error != ""
  }

  // When a run passes: nothing that was sent went wrong, and every threshold and invariant
  // holds of what the collector held, however little that is.
  lemma PassedMeans(spec: Spec, setup: seq<Sent>, collected: seq<ResponseRecord>, teardown: seq<Sent>)
    requires |setup| == |spec.setup| && |teardown| == |spec.teardown|
    ensures var rep := RunReport(spec, setup, collected, teardown);
            && (rep.status == ReportPassed <==>
                  && !AnyFailed(ControlChecks("setup", spec.setup, setup))
                  && !AnyFailed(ControlChecks("teardown", spec.teardown, teardown))
                  && !AnyFailed(ThresholdChecks(spec.thresholds, collected))
                  && !AnyFailed(InvariantChecks(spec.invariants, collected))
                  && !SomeError(collected))
            && (rep.status == ReportPassed ==> rep.summary == SummaryOf(collected) && rep.failures == [])
            && rep.status != ReportCanceled
  {
    var setupChecks := ControlChecks("setup", spec.setup, setup);
    var thresholds := ThresholdChecks(spec.thresholds, collected);
    var invariants := InvariantChecks(spec.invariants, collected);
    var teardownChecks := ControlChecks("teardown", spec.teardown, teardown);
    hide SummaryOf, ThresholdChecks, InvariantChecks, ControlChecks, ControlRecords;
    if AnyFailed(setupChecks) {
      VerdictMeaning(ControlRecords(setup), setupChecks, []);
    } else if AnyFailed(teardownChecks) {
      VerdictMeaning(collected + ControlRecords(teardown), thresholds + teardownChecks, invariants);
    } else {
      VerdictMeaning(collected, thresholds, invariants);
      NoFailures(collected, thresholds, invariants);
    }
  }

  lemma NoFailures(records: seq<ResponseRecord>, thresholds: seq<CheckResult>, invariants: seq<CheckResult>)
    ensures ReportOf(records, thresholds, invariants).status == ReportPassed ==>
              ReportOf(records, thresholds, invariants).failures == []
  {
  }

  // A setup that fails ends the run there: the report is about the setup requests sent, and
  // names the last one, which is the only one with an error.
  lemma FailedSetupIsTheReport(spec: Spec, setup: seq<Sent>, collected: seq<ResponseRecord>, teardown: seq<Sent>)
    requires |setup| == |spec.setup| && |teardown| == |spec.teardown|
    requires AnyFailed(ControlChecks("setup", spec.setup, setup))
    ensures var rep, n := RunReport(spec, setup, collected, teardown), SentCount(setup);
            && n > 0 && rep.status == ReportFailed
            && rep.failures == [CheckFailed("setup" + ":" + spec.setup[n - 1], Text(setup[n - 1].record.error))]
            && rep.summary.totalRequests == n && rep.summary.failedRequests == 1
  {
    hide SentCount, ReportOf, AnyFailed, ThresholdChecks, InvariantChecks, ControlRecords, ControlChecks;
    ControlFailsIff("setup", spec.setup, setup);
    assert forall i | 0 <= i < SentCount(setup) ::
      ControlChecks("setup", spec.setup, setup)[i] == ControlCheck("setup", spec.setup[i], setup[i].record);
    OneFailing(ControlRecords(setup), ControlChecks("setup", spec.setup, setup));
  }

  // What a teardown leaves: its records and checks appear only if one of its requests failed, and
  // then the run is failed and names that one, the last that was sent.
  lemma TeardownIs(spec: Spec, setup: seq<Sent>, collected: seq<ResponseRecord>, teardown: seq<Sent>)
    requires |setup| == |spec.setup| && |teardown| == |spec.teardown|
    requires !AnyFailed(ControlChecks("setup", spec.setup, setup))
    ensures var rep, n := RunReport(spec, setup, collected, teardown), SentCount(teardown);
            var thresholds, invariants := ThresholdChecks(spec.thresholds, collected), InvariantChecks(spec.invariants, collected);
            && rep.invariants == invariants
            && if n > 0 && teardown[n - 1].record.error != ""
               then
                 && rep.status == ReportFailed
                 && rep.responses == collected + ControlRecords(teardown) && rep.summary == SummaryOf(rep.responses)
                 && rep.failures == Map(Filter(thresholds, Failing), FailureOf)
                                    + [CheckFailed("teardown" + ":" + spec.teardown[n - 1], Text(teardown[n - 1].record.error))]
                                    + Map(Filter(invariants, Failing), FailureOf)
               else
                 rep.responses == collected && rep.summary == SummaryOf(collected) && rep.thresholds == thresholds
  {
    hide SentCount, SummaryOf, AnyFailed, ThresholdChecks, InvariantChecks, ControlRecords;
    ControlFailsIff("teardown", spec.teardown, teardown);
    var checks, n := ControlChecks("teardown", spec.teardown, teardown), SentCount(teardown);
    var thresholds, invariants := ThresholdChecks(spec.thresholds, collected), InvariantChecks(spec.invariants, collected);
    if AnyFailed(checks) {
      FailuresMeaning(collected + ControlRecords(teardown), thresholds + checks, invariants);
      assert forall i | 0 <= i < n :: checks[i] == ControlCheck("teardown", spec.teardown[i], teardown[i].record);
      OnlyLastKept(checks, Failing);
      FilterConcat(thresholds, checks, Failing);
      MapConcat(Filter(thresholds, Failing), [checks[n - 1]], FailureOf);
      MapPush([], checks[n - 1], FailureOf);
      assert [] + [checks[n - 1]] == [checks[n - 1]] && [] + [FailureOf(checks[n - 1])] == [FailureOf(checks[n - 1])];
      VerdictMeaning(collected + ControlRecords(teardown), thresholds + checks, invariants);
      assert (thresholds + checks)[|thresholds| + n - 1] == checks[n - 1];
    }
  }

  lemma OneFailing(records: seq<ResponseRecord>, checks: seq<CheckResult>)
    requires |records| == |checks| > 0
    requires forall i | 0 <= i < |checks| :: Failing(checks[i]) <==> i == |checks| - 1
    requires forall i | 0 <= i < |checks| :: HasError(records[i]) <==> i == |checks| - 1
    ensures var rep := ReportOf(records, checks, []);
            && rep.status == ReportFailed && rep.failures == [FailureOf(checks[|checks| - 1])]
            && rep.summary.totalRequests == |records| && rep.summary.failedRequests == 1
  {
    hide Filter, Map, StatusCounts, LatencyOf;
    assert checks + [] == checks;
    OnlyLastKept(checks, Failing);
    OnlyLastKept(records, HasError);
    MapPush([], checks[|checks| - 1], FailureOf);
    assert [] + [checks[|checks| - 1]] == [checks[|checks| - 1]];
    assert [] + [FailureOf(checks[|checks| - 1])] == [FailureOf(checks[|checks| - 1])];
  }

  lemma {:induction false} NoneKept<T>(s: seq<T>, keep: T -> bool)
    requires forall i | 0 <= i < |s| :: !keep(s[i])
    ensures Filter(s, keep) == []
  {
    if |s| > 0 {
      NoneKept(s[..|s| - 1], keep);
    }
  }

  lemma OnlyLastKept<T>(s: seq<T>, keep: T -> bool)
    requires |s| > 0 && keep(s[|s| - 1]) && forall i | 0 <= i < |s| - 1 :: !keep(s[i])
    ensures Filter(s, keep) == [s[|s| - 1]]
  {
    NoneKept(s[..|s| - 1], keep);
  }

  // ----- the schedule leaves no trace ----------------------------------------

  lemma BagsWithMore(a: seq<ResponseRecord>, b: seq<ResponseRecord>, more: seq<ResponseRecord>)
    requires multiset(a) == multiset(b)
    ensures multiset(a + more) == multiset(b + more)
  {
    assert multiset(a + more) == multiset(a) + multiset(more);
    assert multiset(b + more) == multiset(b) + multiset(more);
  }

  lemma ReportPermutes(spec: Spec, setup: seq<Sent>, a: seq<ResponseRecord>, b: seq<ResponseRecord>, teardown: seq<Sent>)
    requires |setup| == |spec.setup| && |teardown| == |spec.teardown|
    requires multiset(a) == multiset(b)
    ensures RunReport(spec, setup, a, teardown).(responses := []) == RunReport(spec, setup, b, teardown).(responses := [])
  {
    hide ThresholdChecks, InvariantChecks, ControlChecks, ControlRecords, ReportOf, AnyFailed;
    ChecksPermute(spec.thresholds, spec.invariants, a, b);
    var thresholds := ThresholdChecks(spec.thresholds, a);
    var invariants := InvariantChecks(spec.invariants, a);
    var teardownChecks, extra := ControlChecks("teardown", spec.teardown, teardown), ControlRecords(teardown);
    if AnyFailed(ControlChecks("setup", spec.setup, setup)) {
    } else if AnyFailed(teardownChecks) {
      BagsWithMore(a, b, extra);
      VerdictPermutes(a + extra, b + extra, thresholds + teardownChecks, invariants);
    } else {
      VerdictPermutes(a, b, thresholds, invariants);
    }
  }

  // Two pools that sent the whole plan come to the same report, whatever the interleaving and
  // however many workers, with or without limiter and backoff, as long as the target answers
  // each slot alike.
  lemma PoolVerdictIsScheduleFree(p: TrafficPool.Config, q: TrafficPool.Config, acts: seq<TrafficPool.Action>, others: seq<TrafficPool.Action>,
                                  answer: Slot -> ResponseRecord, spec: Spec, setup: seq<Sent>, teardown: seq<Sent>)
    requires TrafficPool.Valid(p) && TrafficPool.Valid(q)
    requires p.iterations == q.iterations && p.requests == q.requests && p.attempts == q.attempts
    requires TrafficPool.Allowed(p, TrafficPool.Start(p), acts) && TrafficPool.Allowed(q, TrafficPool.Start(q), others)
    requires var w := TrafficPool.Play(p, TrafficPool.Start(p), acts); w.returned && !w.done
    requires var v := TrafficPool.Play(q, TrafficPool.Start(q), others); v.returned && !v.done
    requires |setup| == |spec.setup| && |teardown| == |spec.teardown|
    ensures var a := Map(TrafficPool.Play(p, TrafficPool.Start(p), acts).records, answer);
            var b := Map(TrafficPool.Play(q, TrafficPool.Start(q), others).records, answer);
            RunReport(spec, setup, a, teardown).(responses := []) == RunReport(spec, setup, b, teardown).(responses := [])
  {
    hide TrafficPool.Allowed, TrafficPool.Play, RunReport, FullPlan;
    TrafficPool.EverythingOnce(p, acts);
    TrafficPool.EverythingOnce(q, others);
    var a, b := TrafficPool.Play(p, TrafficPool.Start(p), acts).records, TrafficPool.Play(q, TrafficPool.Start(q), others).records;
    MapPermutes(a, b, answer);
    ReportPermutes(spec, setup, Map(a, answer), Map(b, answer), teardown);
  }

  // The same for two races, whatever the order in which racers got through.
  lemma RaceVerdictIsScheduleFree(cfg: TrafficRace.Config, acts: seq<TrafficRace.Action>, others: seq<TrafficRace.Action>,
                                  answer: Slot -> ResponseRecord, spec: Spec, setup: seq<Sent>, teardown: seq<Sent>)
    requires TrafficRace.Allowed(cfg, TrafficRace.START, acts) && TrafficRace.Allowed(cfg, TrafficRace.START, others)
    requires var w := TrafficRace.Play(cfg, TrafficRace.START, acts); w.main == TrafficRace.Returned && !w.done
    requires var v := TrafficRace.Play(cfg, TrafficRace.START, others); v.main == TrafficRace.Returned && !v.done
    requires |setup| == |spec.setup| && |teardown| == |spec.teardown|
    ensures var a := Map(TrafficRace.Play(cfg, TrafficRace.START, acts).records, answer);
            var b := Map(TrafficRace.Play(cfg, TrafficRace.START, others).records, answer);
            RunReport(spec, setup, a, teardown).(responses := []) == RunReport(spec, setup, b, teardown).(responses := [])
  {
    hide TrafficRace.Allowed, TrafficRace.Play, RunReport, FullPlan;
    TrafficRace.EveryRacerOnce(cfg, acts);
    TrafficRace.EveryRacerOnce(cfg, others);
    var a, b := TrafficRace.Play(cfg, TrafficRace.START, acts).records, TrafficRace.Play(cfg, TrafficRace.START, others).records;
    MapPermutes(a, b, answer);
    ReportPermutes(spec, setup, Map(a, answer), Map(b, answer), teardown);
  }
}
