// The report a run ends with: response records, their summary and the verdict.
module Reports {
  import opened Prelude
  import opened Sorting
  import Decimal

  datatype ReportStatus = ReportPassed | ReportFailed | ReportCanceled

  datatype ResponseRecord = ResponseRecord(
    requestName: string, iteration: int, attempt: int,
    statusCode: int, durationMS: real, error: string, bodyPreview: string)

  datatype LatencyStats = LatencyStats(
    minMS: real, avgMS: real, p50MS: real, p95MS: real, p99MS: real, maxMS: real)

  datatype Summary = Summary(
    totalRequests: nat, failedRequests: nat, errorRate: real,
    statusCodes: map<string, nat>, latency: LatencyStats)

  datatype Bound = Equals(n: int) | AtLeast(n: int) | NoMoreThan(n: int)

  // A message keeps the values that the source formats into text.
  datatype Message =
    | Compared(passed: bool, actual: real, limit: real)
    | Counted(passed: bool, count: int, expected: seq<Bound>)
    | Text(text: string)

  datatype CheckResult = CheckResult(name: string, passed: bool, message: Message)

  datatype Failure = CheckFailed(name: string, message: Message) | Note(text: string)

  datatype Report = Report(
    status: ReportStatus, versionID: string, versionNumber: nat, summary: Summary,
    thresholds: seq<CheckResult>, invariants: seq<CheckResult>,
    failures: seq<Failure>, responses: seq<ResponseRecord>)

  const ZERO_LATENCY := LatencyStats(0.0, 0.0, 0.0, 0.0, 0.0, 0.0)
  const EMPTY_SUMMARY := Summary(0, 0, 0.0, map[], ZERO_LATENCY)

  // ----- percentiles ---------------------------------------------------------

  // Where the p-th percentile of n values falls among the indexes 0 .. n-1.
  function Position(n: nat, p: real): real {
    p * (n - 1) as real
  }

  function Lower(n: nat, p: real): int {
    Position(n, p).Floor
  }

  function Upper(n: nat, p: real): int {
    if Position(n, p) == Lower(n, p) as real then Lower(n, p) else Lower(n, p) + 1
  }

  lemma PositionsInRange(n: nat, p: real)
    requires n > 0 && 0.0 <= p <= 1.0
    ensures 0 <= Lower(n, p) <= Upper(n, p) < n
  {
    var top := (n - 1) as real;
    assert 0.0 <= p * top <= top;
  }

  function Percentile(sorted: seq<real>, p: real): real
    requires 0.0 <= p <= 1.0
  {
    if |sorted| == 0 then 0.0
    else if |sorted| == 1 then sorted[0]
    else
      PositionsInRange(|sorted|, p);
      var lower, upper := Lower(|sorted|, p), Upper(|sorted|, p);
      if lower == upper then sorted[lower]
      else
        var weight := Position(|sorted|, p) - lower as real;
        sorted[lower] * (1.0 - weight) + sorted[upper] * weight
  }

  lemma Interpolates(a: real, b: real, v: real, w: real)
    requires a <= b && 0.0 <= v <= w <= 1.0
    ensures a <= a * (1.0 - v) + b * v <= a * (1.0 - w) + b * w <= b
  {
    var d := b - a;
    assert a * (1.0 - v) + b * v == a + d * v;
    assert a * (1.0 - w) + b * w == a + d * w;
    assert 0.0 <= d * v;
    assert d * w - d * v == d * (w - v) >= 0.0;
    assert d - d * w == d * (1.0 - w) >= 0.0;
  }

  // The percentile lies between the two order statistics around its position.
  lemma PercentileBrackets(s: seq<real>, p: real)
    requires Sorted(s) && |s| > 0 && 0.0 <= p <= 1.0
    ensures 0 <= Lower(|s|, p) <= Upper(|s|, p) < |s|
    ensures s[Lower(|s|, p)] <= Percentile(s, p) <= s[Upper(|s|, p)]
  {
    PositionsInRange(|s|, p);
    var lower, upper := Lower(|s|, p), Upper(|s|, p);
    if lower < upper {
      hide Position;
      var weight := Position(|s|, p) - lower as real;
      Interpolates(s[lower], s[upper], weight, weight);
    }
  }

  lemma PercentileInGap(s: seq<real>, p: real, k: nat)
    requires k + 1 < |s| && 0.0 <= p <= 1.0 && Lower(|s|, p) == k
    ensures Percentile(s, p) == s[k] + (Position(|s|, p) - k as real) * (s[k + 1] - s[k])
  {
    hide Position;
    var weight := Position(|s|, p) - k as real;
    assert s[k] * (1.0 - weight) + s[k + 1] * weight == s[k] + weight * (s[k + 1] - s[k]);
  }

  // At the position of an order statistic the percentile is that one, ...
  lemma PercentileAt(s: seq<real>, p: real, k: nat)
    requires k < |s| && 0.0 <= p <= 1.0 && p * (|s| - 1) as real == k as real
    ensures Percentile(s, p) == s[k]
  {
  }

  // ... and from there to the next one it grows in a straight line.
  lemma PercentileBetween(s: seq<real>, p: real, k: nat)
    requires k + 1 < |s| && 0.0 <= p <= 1.0 && k as real <= p * (|s| - 1) as real <= (k + 1) as real
    ensures Percentile(s, p) == s[k] + (p * (|s| - 1) as real - k as real) * (s[k + 1] - s[k])
  {
    if p * (|s| - 1) as real == (k + 1) as real {
      PercentileAt(s, p, k + 1);
    } else {
      PercentileInGap(s, p, k);
    }
  }

  // What the p-th percentile of some values is: the value at position p (n - 1) of the sorted ones,
  // in proportion between its two neighbours where the position falls between them.
  ghost predicate IsPercentile(values: seq<real>, p: real, v: real) {
    if |values| == 0 then v == 0.0 else IsAt(Sort(values), p, v)
  }

  ghost predicate IsAt(s: seq<real>, p: real, v: real) {
    var at := p * (|s| - 1) as real;
    var k := at.Floor;
    && 0 <= k < |s|
    && if at == k as real then v == s[k] else k + 1 < |s| && v == s[k] + (at - k as real) * (s[k + 1] - s[k])
  }

  lemma PercentileIs(values: seq<real>, p: real)
    requires 0.0 <= p <= 1.0
    ensures IsPercentile(values, p, Percentile(Sort(values), p))
  {
    var s := Sort(values);
    assert |s| == |values|;
    hide IsAt, Sort;
    if |s| > 0 {
      hide Percentile;
      PercentileIsAt(s, p);
    }
  }

  lemma PercentileIsAt(s: seq<real>, p: real)
    requires |s| > 0 && 0.0 <= p <= 1.0
    ensures IsAt(s, p, Percentile(s, p))
  {
    PositionsInRange(|s|, p);
    var k := Lower(|s|, p);
    if k == Upper(|s|, p) {
      PercentileAt(s, p, k);
    } else {
      PercentileInGap(s, p, k);
      hide Percentile;
    }
  }

  lemma PositionGrows(n: nat, p: real, q: real)
    requires n > 0 && p <= q
    ensures Position(n, p) <= Position(n, q)
  {
    var top := (n - 1) as real;
    assert q * top - p * top == (q - p) * top;
  }

  lemma SameGapMonotone(s: seq<real>, p: real, q: real)
    requires Sorted(s) && |s| > 1 && 0.0 <= p <= q <= 1.0
    requires Lower(|s|, p) == Lower(|s|, q)
    ensures Percentile(s, p) <= Percentile(s, q)
  {
    hide Position;
    PositionGrows(|s|, p, q);
    PositionsInRange(|s|, p);
    PositionsInRange(|s|, q);
    var l := Lower(|s|, p);
    if l < Upper(|s|, p) {
      var at, to := Position(|s|, p), Position(|s|, q);
      Interpolates(s[l], s[l + 1], at - l as real, to - l as real);
    } else {
      PercentileBrackets(s, q);
    }
  }

  lemma PercentileMonotone(s: seq<real>, p: real, q: real)
    requires Sorted(s) && 0.0 <= p <= q <= 1.0
    ensures Percentile(s, p) <= Percentile(s, q)
  {
    if |s| > 1 {
      if Lower(|s|, p) == Lower(|s|, q) {
        SameGapMonotone(s, p, q);
      } else {
        hide Percentile, Position;
        PositionGrows(|s|, p, q);
        assert Upper(|s|, p) <= Lower(|s|, q);
        PercentileBrackets(s, p);
        PercentileBrackets(s, q);
      }
    }
  }

  // ----- summaries -----------------------------------------------------------

  predicate HasError(r: ResponseRecord) {
    r.error != ""
  }

  function DurationOf(r: ResponseRecord): real {
    r.durationMS
  }

  function StatusKey(r: ResponseRecord): string {
    if r.statusCode > 0 then Decimal.FormatNat(r.statusCode) else "error"
  }

  function HasKey(key: string): ResponseRecord -> bool {
    (r: ResponseRecord) => StatusKey(r) == key
  }

  function Durations(records: seq<ResponseRecord>): (d: seq<real>)
    ensures |d| == |records|
  {
    Map(records, DurationOf)
  }

  function Bump(counts: map<string, nat>, key: string): map<string, nat> {
    counts[key := (if key in counts then counts[key] else 0) + 1]
  }

  function StatusCounts(records: seq<ResponseRecord>): map<string, nat> {
    if |records| == 0 then map[]
    else Bump(StatusCounts(records[..|records| - 1]), StatusKey(records[|records| - 1]))
  }

  function Sum(s: seq<real>): real {
    if |s| == 0 then 0.0 else Sum(s[..|s| - 1]) + s[|s| - 1]
  }

  function StatsOf(sorted: seq<real>, total: real): LatencyStats
    requires |sorted| > 0
  {
    LatencyStats(
      sorted[0], total / |sorted| as real,
      Percentile(sorted, 0.50), Percentile(sorted, 0.95), Percentile(sorted, 0.99),
      sorted[|sorted| - 1])
  }

  function LatencyOf(durations: seq<real>): LatencyStats
    requires |durations| > 0
  {
    StatsOf(Sort(durations), Sum(durations))
  }

  function SummaryOf(records: seq<ResponseRecord>): Summary {
    if |records| == 0 then EMPTY_SUMMARY
    else
      var failed := |Filter(records, HasError)|;
      Summary(
        |records|, failed, failed as real / |records| as real,
        StatusCounts(records), LatencyOf(Durations(records)))
  }

  // The count under a key is the number of records with that key; absent keys have none.
  lemma {:induction false} StatusCountsMeaning(records: seq<ResponseRecord>, key: string)
    ensures var counts, n := StatusCounts(records), |Filter(records, HasKey(key))|;
            (key in counts <==> n > 0) && (key in counts ==> counts[key] == n)
  {
    if |records| > 0 {
      hide Filter, StatusKey;
      var front, last := records[..|records| - 1], records[|records| - 1];
      StatusCountsMeaning(front, key);
      assert records == front + [last];
      FilterPush(front, last, HasKey(key));
    }
  }

  lemma SumPush(s: seq<real>, x: real)
    ensures Sum(s + [x]) == Sum(s) + x
  {
    assert (s + [x])[..|s|] == s;
  }

  lemma StatusCountsPush(records: seq<ResponseRecord>, r: ResponseRecord)
    ensures StatusCounts(records + [r]) == Bump(StatusCounts(records), StatusKey(r))
  {
    assert (records + [r])[..|records|] == records;
  }

  // What one more record adds to each of the running totals.
  lemma OneMoreRecord(records: seq<ResponseRecord>, i: nat)
    requires i < |records|
    ensures |Filter(records[..i + 1], HasError)| == |Filter(records[..i], HasError)| + if HasError(records[i]) then 1 else 0
    ensures StatusCounts(records[..i + 1]) == Bump(StatusCounts(records[..i]), StatusKey(records[i]))
    ensures Durations(records[..i + 1]) == Durations(records[..i]) + [records[i].durationMS]
    ensures Sum(Durations(records[..i + 1])) == Sum(Durations(records[..i])) + records[i].durationMS
  {
    assert records[..i + 1] == records[..i] + [records[i]];
    FilterPush(records[..i], records[i], HasError);
    StatusCountsPush(records[..i], records[i]);
    MapPush(records[..i], records[i], DurationOf);
    SumPush(Durations(records[..i]), records[i].durationMS);
  }

  // Records have the same key exactly when they have the same status; without one they share a key.
  lemma KeysAreStatuses(a: ResponseRecord, b: ResponseRecord)
    ensures StatusKey(a) == StatusKey(b) <==> a.statusCode == b.statusCode || (a.statusCode <= 0 && b.statusCode <= 0)
    ensures a.statusCode <= 0 <==> StatusKey(a) == "error"
    ensures 0 < a.statusCode <= Decimal.MAX_INT64 ==> Decimal.ParseInt(StatusKey(a)) == Some(a.statusCode)
  {
    if a.statusCode > 0 {
      assert Decimal.IsDigit(StatusKey(a)[0]);
      if a.statusCode <= Decimal.MAX_INT64 {
        Decimal.ParseOfFormat(a.statusCode);
      }
    }
    if b.statusCode > 0 {
      assert Decimal.IsDigit(StatusKey(b)[0]);
    }
    if a.statusCode > 0 && b.statusCode > 0 && StatusKey(a) == StatusKey(b) {
      Decimal.FormatNatInjective(a.statusCode, b.statusCode);
    }
  }

  // The counters of one iteration of Summarize.
  method CountRecord(s: Summary, record: ResponseRecord) returns (r: Summary)
    ensures r == s.(totalRequests := s.totalRequests + 1,
                    failedRequests := s.failedRequests + (if HasError(record) then 1 else 0),
                    statusCodes := Bump(s.statusCodes, StatusKey(record)))
  {
    r := s.(totalRequests := s.totalRequests + 1);
    if record.error != "" {
      r := r.(failedRequests := r.failedRequests + 1);
    }
    var statusKey := "error";
    if record.statusCode > 0 {
      statusKey := Decimal.FormatNat(record.statusCode);
    }
    var seen := if statusKey in r.statusCodes then r.statusCodes[statusKey] else 0;
    r := r.(statusCodes := r.statusCodes[statusKey := seen + 1]);
  }

  method Summarize(records: seq<ResponseRecord>) returns (s: Summary)
    ensures s == SummaryOf(records)
  {
    assert Sum([]) == 0.0 && StatusCounts([]) == map[] && Durations([]) == [] && Filter([], HasError) == [];
    hide StatsOf, Filter, Map, Sum, StatusCounts, Durations, Bump, StatusKey, HasError, Sort;
    s := EMPTY_SUMMARY;
    if |records| == 0 {
      return;
    }
    var durations: seq<real> := [];
    var total := 0.0;
    assert records[..0] == [];
    for i := 0 to |records|
      invariant s == EMPTY_SUMMARY.(totalRequests := i, failedRequests := |Filter(records[..i], HasError)|,
                                   statusCodes := StatusCounts(records[..i]))
      invariant durations == Durations(records[..i]) && total == Sum(durations)
    {
      OneMoreRecord(records, i);
      s := CountRecord(s, records[i]);
      durations := durations + [records[i].durationMS];
      total := total + records[i].durationMS;
    }
    assert records[..|records|] == records;
    s := s.(errorRate := s.failedRequests as real / s.totalRequests as real);
    s := s.(latency := StatsOf(Sort(durations), total));
  }

  // ----- what a summary says -------------------------------------------------

  lemma {:induction false} SumBounds(s: seq<real>, lo: real, hi: real)
    requires forall i | 0 <= i < |s| :: lo <= s[i] <= hi
    ensures lo * |s| as real <= Sum(s) <= hi * |s| as real
  {
    if |s| > 0 {
      SumBounds(s[..|s| - 1], lo, hi);
      var n := (|s| - 1) as real;
      assert lo * (n + 1.0) == lo * n + lo && hi * (n + 1.0) == hi * n + hi;
    }
  }

  lemma MeanWithin(sum: real, n: real, lo: real, hi: real)
    requires n > 0.0 && lo * n <= sum <= hi * n
    ensures lo <= sum / n <= hi
  {
    assert sum / n - lo == (sum - lo * n) / n;
    assert hi - sum / n == (hi * n - sum) / n;
  }

  lemma EndsOfSort(d: seq<real>)
    requires |d| > 0
    ensures var s := Sort(d);
            Sorted(s) && (forall x | x in d :: s[0] <= x <= s[|s| - 1]) && s[0] in d && s[|s| - 1] in d
  {
    SortSorts(d);
    var s := Sort(d);
    forall x | x in d
      ensures s[0] <= x <= s[|s| - 1]
    {
      assert x in multiset(s);
      assert x in s;
    }
    assert s[0] in multiset(d) && s[|s| - 1] in multiset(d);
  }

  lemma PercentileOrder(s: seq<real>)
    requires Sorted(s) && |s| > 0
    ensures s[0] <= Percentile(s, 0.50) <= Percentile(s, 0.95) <= Percentile(s, 0.99) <= s[|s| - 1]
  {
    hide Percentile;
    PercentileBrackets(s, 0.50);
    PercentileBrackets(s, 0.99);
    PercentileMonotone(s, 0.50, 0.95);
    PercentileMonotone(s, 0.95, 0.99);
  }

  lemma MeanBetween(d: seq<real>, lo: real, hi: real)
    requires |d| > 0 && forall x | x in d :: lo <= x <= hi
    ensures lo <= Sum(d) / |d| as real <= hi
  {
    hide Sum;
    assert forall i | 0 <= i < |d| :: d[i] in d;
    SumBounds(d, lo, hi);
    MeanWithin(Sum(d), |d| as real, lo, hi);
  }

  lemma LatencyOrder(d: seq<real>)
    requires |d| > 0
    ensures var l := LatencyOf(d);
            && l.minMS <= l.p50MS <= l.p95MS <= l.p99MS <= l.maxMS
            && l.minMS <= l.avgMS <= l.maxMS
            && (forall x | x in d :: l.minMS <= x <= l.maxMS) && l.minMS in d && l.maxMS in d
  {
    hide Percentile, Sum, Sort;
    var s := Sort(d);
    EndsOfSort(d);
    PercentileOrder(s);
    MeanBetween(d, s[0], s[|s| - 1]);
  }

  // min <= p50 <= p95 <= p99 <= max and min <= avg <= max; the ends bound every
  // record and are attained.
  lemma LatencyIsOrdered(records: seq<ResponseRecord>)
    requires |records| > 0
    ensures var l := SummaryOf(records).latency;
            && l.minMS <= l.p50MS <= l.p95MS <= l.p99MS <= l.maxMS
            && l.minMS <= l.avgMS <= l.maxMS
            && (forall i | 0 <= i < |records| :: l.minMS <= records[i].durationMS <= l.maxMS)
            && (exists i :: 0 <= i < |records| && records[i].durationMS == l.minMS)
            && (exists i :: 0 <= i < |records| && records[i].durationMS == l.maxMS)
  {
    hide LatencyOf;
    var d := Durations(records);
    LatencyOrder(d);
    var l := LatencyOf(d);
    forall i | 0 <= i < |records|
      ensures l.minMS <= records[i].durationMS <= l.maxMS
    {
      assert records[i].durationMS == d[i] && d[i] in d;
    }
    var i :| 0 <= i < |d| && d[i] == l.minMS;
    var j :| 0 <= j < |d| && d[j] == l.maxMS;
    assert records[i].durationMS == d[i] && records[j].durationMS == d[j];
  }

  // The percentiles are those of the durations, and the average is their sum over their number.
  lemma LatencyIs(records: seq<ResponseRecord>)
    ensures var l, d := SummaryOf(records).latency, Durations(records);
            && IsPercentile(d, 0.5, l.p50MS) && IsPercentile(d, 0.95, l.p95MS) && IsPercentile(d, 0.99, l.p99MS)
            && l.avgMS * |records| as real == Sum(d)
            && (|records| == 0 ==> l.avgMS == 0.0)
  {
    hide Percentile, IsPercentile, Sort, StatusCounts, Filter;
    var d := Durations(records);
    PercentileIs(d, 0.5);
    PercentileIs(d, 0.95);
    PercentileIs(d, 0.99);
    if |records| == 0 {
      NoPercentile(0.5);
      NoPercentile(0.95);
      NoPercentile(0.99);
    }
  }

  lemma NoPercentile(p: real)
    ensures IsPercentile([], p, 0.0)
  {
  }

  lemma BumpAddsOne(counts: map<string, nat>, key: string)
    ensures SumValues(Bump(counts, key)) == SumValues(counts) + 1
  {
    hide SumValues;
    SumValuesUpdate(counts, key, (if key in counts then counts[key] else 0) + 1);
  }

  // Every record is counted under exactly one status key.
  lemma {:induction false} StatusCountsSumToTotal(records: seq<ResponseRecord>)
    ensures SumValues(StatusCounts(records)) == |records|
  {
    hide Bump, StatusKey;
    if |records| > 0 {
      StatusCountsSumToTotal(records[..|records| - 1]);
      BumpAddsOne(StatusCounts(records[..|records| - 1]), StatusKey(records[|records| - 1]));
    }
  }

  lemma StatusCountsPermute(a: seq<ResponseRecord>, b: seq<ResponseRecord>)
    requires multiset(a) == multiset(b)
    ensures StatusCounts(a) == StatusCounts(b)
  {
    var ca, cb := StatusCounts(a), StatusCounts(b);
    forall key: string
      ensures key in ca <==> key in cb
      ensures key in ca ==> ca[key] == cb[key]
    {
      FilterPermutes(a, b, HasKey(key));
      StatusCountsMeaning(a, key);
      StatusCountsMeaning(b, key);
    }
  }

  lemma {:induction false} SumInsert(x: real, s: seq<real>)
    ensures Sum(Insert(x, s)) == Sum(s) + x
  {
    if |s| == 0 || x <= s[0] {
      SumConcat([x], s);
    } else {
      SumInsert(x, s[1..]);
      SumConcat([s[0]], Insert(x, s[1..]));
      SumConcat([s[0]], s[1..]);
      assert s == [s[0]] + s[1..];
    }
  }

  lemma {:induction false} SumConcat(a: seq<real>, b: seq<real>)
    ensures Sum(a + b) == Sum(a) + Sum(b)
  {
    if |b| == 0 {
      assert a + b == a;
    } else {
      assert (a + b)[..|a + b| - 1] == a + b[..|b| - 1];
      SumConcat(a, b[..|b| - 1]);
    }
  }

  lemma {:induction false} SumOfSort(s: seq<real>)
    ensures Sum(Sort(s)) == Sum(s)
  {
    if |s| > 0 {
      SumOfSort(s[..|s| - 1]);
      SumInsert(s[|s| - 1], Sort(s[..|s| - 1]));
    }
  }

  // The order in which workers delivered their records leaves no trace in the summary.
  lemma SummaryPermutes(a: seq<ResponseRecord>, b: seq<ResponseRecord>)
    requires multiset(a) == multiset(b)
    ensures SummaryOf(a) == SummaryOf(b)
  {
    assert |multiset(a)| == |multiset(b)|;
    if |a| > 0 {
      FilterPermutes(a, b, HasError);
      StatusCountsPermute(a, b);
      MapPermutes(a, b, DurationOf);
      var da, db := Durations(a), Durations(b);
      SortSorts(da);
      SortSorts(db);
      SortedIsUnique(Sort(da), Sort(db));
      SumOfSort(da);
      SumOfSort(db);
    }
  }

  // ----- the verdict ---------------------------------------------------------

  predicate Failing(check: CheckResult) {
    !check.passed
  }

  function FailureOf(check: CheckResult): Failure {
    CheckFailed(check.name, check.message)
  }

  function ReportOf(records: seq<ResponseRecord>, thresholds: seq<CheckResult>, invariants: seq<CheckResult>): Report {
    var failing := Filter(thresholds + invariants, Failing);
    var failed := |failing| > 0 || |Filter(records, HasError)| > 0;
    Report(
      if failed then ReportFailed else ReportPassed, "", 0, SummaryOf(records),
      thresholds, invariants, Map(failing, FailureOf), records)
  }

  method Build(records: seq<ResponseRecord>, thresholds: seq<CheckResult>, invariants: seq<CheckResult>)
    returns (r: Report)
    ensures r == ReportOf(records, thresholds, invariants)
  {
    hide SummaryOf, Filter, Map;
    var summary := Summarize(records);
    r := Report(ReportPassed, "", 0, summary, thresholds, invariants, [], records);
    ghost var base := r;
    var checks := thresholds + invariants;
    for i := 0 to |checks|
      invariant r.failures == Map(Filter(checks[..i], Failing), FailureOf)
      invariant r.status == if |r.failures| > 0 then ReportFailed else ReportPassed
      invariant r == base.(status := r.status, failures := r.failures)
    {
      var check := checks[i];
      assert checks[..i + 1] == checks[..i] + [check];
      FilterPush(checks[..i], check, Failing);
      if !check.passed {
        MapPush(Filter(checks[..i], Failing), check, FailureOf);
        r := r.(status := ReportFailed, failures := r.failures + [CheckFailed(check.name, check.message)]);
      }
    }
    assert checks[..|checks|] == checks;
    var broken := AnyError(records);
    if broken {
      r := r.(status := ReportFailed);
    }
  }

  // The scan of Build that stops at the first record with an error.
  method AnyError(records: seq<ResponseRecord>) returns (found: bool)
    ensures found <==> |Filter(records, HasError)| > 0
  {
    FilterMembers(records, HasError);
    ghost var errors := Filter(records, HasError);
    assert |errors| > 0 ==> errors[0] in errors;
    for i := 0 to |records|
      invariant forall j | 0 <= j < i :: !HasError(records[j])
    {
      if records[i].error != "" {
        assert records[i] in errors;
        return true;
      }
    }
    return false;
  }

  lemma SomeKept<T>(s: seq<T>, keep: T -> bool)
    ensures |Filter(s, keep)| > 0 <==> exists x :: x in s && keep(x)
  {
    FilterMembers(s, keep);
    var kept := Filter(s, keep);
    if |kept| > 0 {
      assert kept[0] in kept;
    }
  }

  // Failed exactly when a check failed or a response carries an error.
  lemma VerdictMeaning(records: seq<ResponseRecord>, thresholds: seq<CheckResult>, invariants: seq<CheckResult>)
    ensures var r := ReportOf(records, thresholds, invariants);
            && r.status != ReportCanceled
            && (r.status == ReportFailed <==>
                || (exists c :: c in thresholds && !c.passed)
                || (exists c :: c in invariants && !c.passed)
                || (exists x :: x in records && x.error != ""))
  {
    FilterConcat(thresholds, invariants, Failing);
    SomeKept(thresholds, Failing);
    SomeKept(invariants, Failing);
    SomeKept(records, HasError);
    assert forall c :: c in thresholds && Failing(c) <==> c in thresholds && !c.passed;
    assert forall c :: c in invariants && Failing(c) <==> c in invariants && !c.passed;
    assert forall x :: x in records && HasError(x) <==> x in records && x.error != "";
  }

  // The failures name exactly the failing checks in order, thresholds before invariants.
  lemma FailuresMeaning(records: seq<ResponseRecord>, thresholds: seq<CheckResult>, invariants: seq<CheckResult>)
    ensures ReportOf(records, thresholds, invariants).failures ==
            Map(Filter(thresholds, Failing), FailureOf) + Map(Filter(invariants, Failing), FailureOf)
  {
    FilterConcat(thresholds, invariants, Failing);
    MapConcat(Filter(thresholds, Failing), Filter(invariants, Failing), FailureOf);
  }

  // A verdict depends on the bag of records and the checks, never on arrival order.
  lemma VerdictPermutes(a: seq<ResponseRecord>, b: seq<ResponseRecord>, thresholds: seq<CheckResult>, invariants: seq<CheckResult>)
    requires multiset(a) == multiset(b)
    ensures ReportOf(a, thresholds, invariants).(responses := []) == ReportOf(b, thresholds, invariants).(responses := [])
  {
    SummaryPermutes(a, b);
    FilterPermutes(a, b, HasError);
  }
}
