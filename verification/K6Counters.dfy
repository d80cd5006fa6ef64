// Records rebuilt from the counters of a k6 summary, whatever order the summary's map is
// walked in.
module K6Counters {
  import opened Prelude
  import opened Decimal
  import opened Reports
  import opened CounterKeys
  import opened Verdict
  import opened K6Plan

  // The "count" of every metric of the summary, by the metric's key; zero where there is none.
  type Metrics = map<string, int>

  function MockRecord(name: string, code: int, avg: real): ResponseRecord {
    ResponseRecord(name, 0, 0, code, avg, if code == 0 || code >= 500 then "status code " + FormatInt(code) else "", "")
  }

  // A record of the average duration, with an error exactly for no status and for server errors.
  predicate IsMock(r: ResponseRecord, avg: real) {
    && r.iteration == 0 && r.attempt == 0 && r.durationMS == avg && (r.error != "" <==> r.statusCode == 0 || r.statusCode >= 500)
    && (r.error != "" ==> r.error == "status code " + FormatInt(r.statusCode))
  }

  function Produced(key: string, avg: real): Option<ResponseRecord> {
    var m := FindSubmatch(key);
    if m.None? || !AllDigits(m.value.digits) then None else Some(MockRecord(m.value.name, Atoi(m.value.digits), avg))
  }

  function Copies(count: int): nat {
    if count > 0 then count else 0
  }

  // How many of the metrics' counts stand for a record.
  function Standing(metrics: Metrics, record: ResponseRecord, avg: real): map<string, nat> {
    map k | k in metrics && Produced(k, avg) == Some(record) :: Copies(metrics[k])
  }

  ghost function TotalFor(metrics: Metrics, record: ResponseRecord, avg: real): nat {
    SumValues(Standing(metrics, record, avg))
  }

  lemma FoundDigits(key: string)
    ensures var m := FindSubmatch(key); m.Some? ==> AllDigits(m.value.digits)
  {
    if FindSubmatch(key).Some? {
      FindSubmatchIff(key, FindSubmatch(key).value);
    }
  }

  // One more metric adds its count to the record it stands for.
  lemma TotalGrows(metrics: Metrics, key: string, count: int, record: ResponseRecord, avg: real)
    requires key !in metrics
    ensures TotalFor(metrics[key := count], record, avg) ==
            TotalFor(metrics, record, avg) + if Produced(key, avg) == Some(record) then Copies(count) else 0
  {
    hide Produced, SumValues;
    var before, after := Standing(metrics, record, avg), Standing(metrics[key := count], record, avg);
    if Produced(key, avg) == Some(record) {
      assert after == before[key := Copies(count)];
      SumValuesUpdate(before, key, Copies(count));
    } else {
      assert after == before;
    }
  }

  lemma PushBag(records: seq<ResponseRecord>, record: ResponseRecord)
    ensures multiset(records + [record]) == multiset(records)[record := multiset(records)[record] + 1]
  {
  }

  method AddCopies(records: seq<ResponseRecord>, record: ResponseRecord, count: int) returns (r: seq<ResponseRecord>)
    ensures multiset(r) == multiset(records)[record := multiset(records)[record] + Copies(count)]
  {
    r := records;
    var i := 0;
    while i < count
      invariant 0 <= i <= Copies(count)
      invariant multiset(r) == multiset(records)[record := multiset(records)[record] + i]
    {
      PushBag(r, record);
      r := r + [record];
      i := i + 1;
    }
  }

  lemma OnlyOneMore(before: seq<ResponseRecord>, record: ResponseRecord, n: nat, after: seq<ResponseRecord>)
    requires multiset(after) == multiset(before)[record := n]
    ensures forall r | r in after :: r in before || r == record
  {
    forall r | r in after
      ensures r in before || r == record
    {
      assert r in multiset(after);
    }
  }

  lemma TotalOfNone(record: ResponseRecord, avg: real)
    ensures TotalFor(map[], record, avg) == 0
  {
    assert Standing(map[], record, avg) == map[];
  }

  method ReconstructRecords(metrics: Metrics, avg: real) returns (records: seq<ResponseRecord>)
    ensures forall r :: multiset(records)[r] == TotalFor(metrics, r, avg)
    ensures forall r | r in records ::
              && r.iteration == 0 && r.attempt == 0 && r.durationMS == avg && (r.error != "" <==> r.statusCode == 0 || r.statusCode >= 500)
              && (r.error != "" ==> r.error == "status code " + FormatInt(r.statusCode))
  {
    hide TotalFor, Produced;
    records := [];
    ghost var done: Metrics := map[];
    var todo := metrics.Keys;
    forall r {
      TotalOfNone(r, avg);
    }
    while todo != {}
      invariant todo <= metrics.Keys
      invariant done == map k | k in metrics && k !in todo :: metrics[k]
      invariant forall r :: multiset(records)[r] == TotalFor(done, r, avg)
      invariant forall r | r in records :: IsMock(r, avg)
      decreases |todo|
    {
      var key :| key in todo;
      forall r {
        TotalGrows(done, key, metrics[key], r, avg);
      }
      FoundDigits(key);
      todo := todo - {key};
      done := done[key := metrics[key]];
      var record := Rebuilt(key, avg);
      if record.Some? {
        ghost var before := records;
        records := AddCopies(records, record.value, metrics[key]);
        OnlyOneMore(before, record.value, multiset(before)[record.value] + Copies(metrics[key]), records);
      }
    }
    assert done == metrics;
  }

  // One key: the match, the status with its error dropped, and the mock record.
  method Rebuilt(key: string, avg: real) returns (record: Option<ResponseRecord>)
    ensures record == Produced(key, avg)
    ensures record.Some? ==> IsMock(record.value, avg)
  {
    var m := FindSubmatch(key);
    FoundDigits(key);
    if m.None? {
      return None;
    }
    var statusCode := Atoi(m.value.digits);
    var error := "";
    if statusCode == 0 || statusCode >= 500 {
      error := "status code " + FormatInt(statusCode);
    }
    record := Some(ResponseRecord(m.value.name, 0, 0, statusCode, avg, error, ""));
  }

  // ----- from counters to records and back -----------------------------------

  type Counters = map<(string, int), nat>

  // Names and codes whose keys read back.
  predicate Readable(c: Counters, printable: Printable) {
    forall p | p in c :: |p.0| > 0 && AllPlain(p.0, printable) && 0 <= p.1 <= MAX_INT64
  }

  // The summary holds exactly these counters, among metrics that are no such counters.
  ghost predicate Exports(metrics: Metrics, c: Counters, printable: Printable, avg: real) {
    && (forall p | p in c :: Key(p.0, p.1, printable) in metrics && metrics[Key(p.0, p.1, printable)] == c[p])
    && (forall k | k in metrics && Produced(k, avg).Some? :: exists p :: p in c && k == Key(p.0, p.1, printable))
  }

  lemma KeyProduces(name: string, code: int, printable: Printable, avg: real)
    requires |name| > 0 && AllPlain(name, printable) && 0 <= code <= MAX_INT64
    ensures Produced(Key(name, code, printable), avg) == Some(MockRecord(name, code, avg))
  {
    hide FindSubmatch, FormatInt, Key;
    GoodKeyReadsBack(name, code, printable);
    DigitsOf(code);
  }

  function CountIn(c: Counters, r: ResponseRecord, avg: real): nat {
    var p := (r.requestName, r.statusCode);
    if p in c && r == MockRecord(p.0, p.1, avg) then c[p] else 0
  }

  // A record stands exactly as often as its counter says.
  lemma TotalIsCounter(metrics: Metrics, c: Counters, printable: Printable, avg: real, r: ResponseRecord)
    requires Exports(metrics, c, printable, avg) && Readable(c, printable)
    ensures TotalFor(metrics, r, avg) == CountIn(c, r, avg)
  {
    hide Produced, Key, MockRecord, FormatInt;
    var standing := Standing(metrics, r, avg);
    var p := (r.requestName, r.statusCode);
    forall k | k in standing
      ensures p in c && k == Key(p.0, p.1, printable) && r == MockRecord(p.0, p.1, avg)
    {
      var q :| q in c && k == Key(q.0, q.1, printable);
      KeyProduces(q.0, q.1, printable, avg);
      MockOf(q.0, q.1, avg);
    }
    if p in c && r == MockRecord(p.0, p.1, avg) {
      var k := Key(p.0, p.1, printable);
      KeyProduces(p.0, p.1, printable, avg);
      assert standing == map[k := c[p]];
      SumValuesUpdate(map[], k, c[p]);
    } else {
      assert standing == map[];
    }
  }

  lemma MockOf(name: string, code: int, avg: real)
    ensures MockRecord(name, code, avg).requestName == name && MockRecord(name, code, avg).statusCode == code
  {
  }

  // ----- response counts -----------------------------------------------------

  function Repeated(r: ResponseRecord, n: nat): seq<ResponseRecord> {
    seq(n, _ => r)
  }

  // The counters in some order, each as often as it counts.
  ghost function Expanded(c: Counters, avg: real): seq<ResponseRecord>
    decreases |c|
  {
    if c == map[] then []
    else
      var p :| p in c;
      Repeated(MockRecord(p.0, p.1, avg), c[p]) + Expanded(c - {p}, avg)
  }

  lemma {:induction false} AlikeFiltered(n: nat, r: ResponseRecord, keep: ResponseRecord -> bool)
    ensures |Filter(Repeated(r, n), keep)| == if keep(r) then n else 0
    ensures forall x :: multiset(Repeated(r, n))[x] == if x == r then n else 0
  {
    var s := Repeated(r, n);
    if n > 0 {
      AlikeFiltered(n - 1, r, keep);
      assert s[..n - 1] == Repeated(r, n - 1);
      assert s == s[..n - 1] + [r];
    }
  }

  lemma {:induction false} ExpandedCounts(c: Counters, avg: real, r: ResponseRecord)
    ensures multiset(Expanded(c, avg))[r] == CountIn(c, r, avg)
    decreases |c|
  {
    if c != map[] {
      var p :| p in c && Expanded(c, avg) == Repeated(MockRecord(p.0, p.1, avg), c[p]) + Expanded(c - {p}, avg);
      ExpandedCounts(c - {p}, avg, r);
      AlikeFiltered(c[p], MockRecord(p.0, p.1, avg), HasError);
      MockOf(p.0, p.1, avg);
      hide MockRecord;
    }
  }

  predicate PairCounts(inv: Invariant, p: (string, int))
    requires inv.ResponseCount?
  {
    (inv.request == "" || p.0 == inv.request) && (inv.status.Some? ==> p.1 == inv.status.value)
  }

  function PairsOf(inv: Invariant): ((string, int)) -> bool
    requires inv.ResponseCount?
  {
    p => PairCounts(inv, p)
  }

  // The counters of some pairs.
  function Picked(c: Counters, pick: ((string, int)) -> bool): map<(string, int), nat> {
    map p | p in c && pick(p) :: c[p]
  }

  // Records that are kept by name and status are as many as the counters of those pairs say.
  lemma {:induction false} ExpandedFiltered(c: Counters, avg: real, keep: ResponseRecord -> bool, pick: ((string, int)) -> bool)
    requires forall p: (string, int) :: keep(MockRecord(p.0, p.1, avg)) == pick(p)
    ensures |Filter(Expanded(c, avg), keep)| == SumValues(Picked(c, pick))
    decreases |c|
  {
    if c == map[] {
      assert Picked(c, pick) == map[];
    } else {
      var p :| p in c && Expanded(c, avg) == Repeated(MockRecord(p.0, p.1, avg), c[p]) + Expanded(c - {p}, avg);
      var alike, rest := Repeated(MockRecord(p.0, p.1, avg), c[p]), Expanded(c - {p}, avg);
      ExpandedFiltered(c - {p}, avg, keep, pick);
      AlikeFiltered(c[p], MockRecord(p.0, p.1, avg), keep);
      FilterConcat(alike, rest, keep);
      hide SumValues, Expanded, Filter;
      WithoutPair(c, p, pick);
    }
  }

  lemma WithoutPair(c: Counters, p: (string, int), pick: ((string, int)) -> bool)
    requires p in c
    ensures SumValues(Picked(c, pick)) == SumValues(Picked(c - {p}, pick)) + if pick(p) then c[p] else 0
  {
    hide SumValues;
    if pick(p) {
      SumValuesWithout(Picked(c, pick), p);
      assert Picked(c, pick) - {p} == Picked(c - {p}, pick);
    } else {
      assert Picked(c, pick) == Picked(c - {p}, pick);
    }
  }

  // The rebuilt records are the counters in some order, whatever order the metrics came in.
  lemma RecordsAreCounters(metrics: Metrics, c: Counters, printable: Printable, avg: real, records: seq<ResponseRecord>)
    requires Exports(metrics, c, printable, avg) && Readable(c, printable)
    requires forall r :: multiset(records)[r] == TotalFor(metrics, r, avg)
    ensures multiset(records) == multiset(Expanded(c, avg))
  {
    hide Exports, Readable, TotalFor, CountIn, Expanded;
    var all := Expanded(c, avg);
    forall r | r in records || r in all
      ensures multiset(records)[r] == multiset(all)[r]
    {
      TotalIsCounter(metrics, c, printable, avg, r);
      ExpandedCounts(c, avg, r);
    }
    SameCounts(records, all);
  }

  // Rebuilding keeps every count, and a response count over the records is the sum of the
  // matching counters, whatever order the metrics came in.
  lemma CountsSurvive(metrics: Metrics, c: Counters, printable: Printable, avg: real, records: seq<ResponseRecord>, inv: Invariant)
    requires Exports(metrics, c, printable, avg) && Readable(c, printable) && inv.ResponseCount?
    requires forall r :: multiset(records)[r] == TotalFor(metrics, r, avg)
    ensures |Filter(records, CountedBy(inv))| == SumValues(map p | p in c && PairCounts(inv, p) :: c[p])
  {
    hide Exports, Readable, TotalFor, Expanded;
    RecordsAreCounters(metrics, c, printable, avg, records);
    FilterPermutes(records, Expanded(c, avg), CountedBy(inv));
    ExpandedFiltered(c, avg, CountedBy(inv), PairsOf(inv));
    assert Picked(c, PairsOf(inv)) == map p | p in c && PairCounts(inv, p) :: c[p];
  }

  // ----- failures ------------------------------------------------------------

  lemma {:induction false} NoneCounted<K>(m: map<K, nat>)
    ensures SumValues(m) > 0 <==> exists k :: k in m && m[k] > 0
    decreases |m|
  {
    if m != map[] {
      var k :| k in m;
      SumValuesWithout(m, k);
      NoneCounted(m - {k});
      assert forall j :: j in m <==> j == k || j in m - {k};
    }
  }

  lemma ErrorsCounted(metrics: Metrics, c: Counters, printable: Printable, avg: real, records: seq<ResponseRecord>)
    requires Exports(metrics, c, printable, avg) && Readable(c, printable)
    requires forall r :: multiset(records)[r] == TotalFor(metrics, r, avg)
    ensures |Filter(records, HasError)| == SumValues(map p | p in c && (p.1 == 0 || p.1 >= 500) :: c[p])
  {
    RecordsAreCounters(metrics, c, printable, avg, records);
    hide *;
    FilterPermutes(records, Expanded(c, avg), HasError);
    ErrorsExpanded(c, avg);
  }

  lemma ErrorsExpanded(c: Counters, avg: real)
    ensures |Filter(Expanded(c, avg), HasError)| == SumValues(map p | p in c && (p.1 == 0 || p.1 >= 500) :: c[p])
  {
    var pick := (p: (string, int)) => p.1 == 0 || p.1 >= 500;
    hide Filter, Expanded, SumValues;
    ExpandedFiltered(c, avg, HasError, pick);
    assert Picked(c, pick) == map p | p in c && (p.1 == 0 || p.1 >= 500) :: c[p];
  }

  // The failed requests of the summary are the counts of the server errors, and apart from checks
  // the run is failed exactly when one of these counters is not zero.
  lemma FailuresSurvive(metrics: Metrics, c: Counters, printable: Printable, avg: real, records: seq<ResponseRecord>,
                        thresholds: seq<CheckResult>, invariants: seq<CheckResult>)
    requires Exports(metrics, c, printable, avg) && Readable(c, printable)
    requires forall r :: multiset(records)[r] == TotalFor(metrics, r, avg)
    ensures var rep, errors := ReportOf(records, thresholds, invariants), map p | p in c && (p.1 == 0 || p.1 >= 500) :: c[p];
            && rep.summary.failedRequests == SumValues(errors)
            && (rep.status == ReportFailed <==>
                  || (exists check :: (check in thresholds || check in invariants) && !check.passed)
                  || (exists p :: p in errors && errors[p] > 0))
  {
    ErrorsCounted(metrics, c, printable, avg, records);
    hide *;
    NoneCounted(map p | p in c && (p.1 == 0 || p.1 >= 500) :: c[p]);
    FailedByRecords(records, thresholds, invariants);
  }

  lemma FailedByRecords(records: seq<ResponseRecord>, thresholds: seq<CheckResult>, invariants: seq<CheckResult>)
    ensures var rep, failed := ReportOf(records, thresholds, invariants), |Filter(records, HasError)|;
            && rep.summary.failedRequests == failed
            && (rep.status == ReportFailed <==> (exists check :: (check in thresholds || check in invariants) && !check.passed) || failed > 0)
  {
    hide LatencyOf, StatusCounts;
    SomeKept(records, HasError);
    VerdictMeaning(records, thresholds, invariants);
  }

  // Two walks over the same summary give the same report, but for the order of the responses.
  lemma WalkOrderLeavesNoTrace(metrics: Metrics, avg: real, a: seq<ResponseRecord>, b: seq<ResponseRecord>,
                               thresholds: seq<CheckResult>, invariants: seq<Invariant>)
    requires forall r :: multiset(a)[r] == TotalFor(metrics, r, avg)
    requires forall r :: multiset(b)[r] == TotalFor(metrics, r, avg)
    ensures ReportOf(a, thresholds, InvariantChecks(invariants, a)).(responses := []) ==
            ReportOf(b, thresholds, InvariantChecks(invariants, b)).(responses := [])
  {
    hide ReportOf, InvariantChecks, TotalFor;
    SameCounts(a, b);
    InvariantsPermute(invariants, a, b);
    VerdictPermutes(a, b, thresholds, InvariantChecks(invariants, a));
  }

  // ----- statuses without a counter ------------------------------------------

  datatype TrackedRequest = TrackedRequest(name: string, expected: seq<int>)

  predicate Tracked(r: TrackedRequest, code: int) {
    code in DEFAULT_CODES || code in r.expected
  }

  // The counter thresholds of setup, requests and teardown, in that order.
  method CounterThresholds(requests: seq<TrackedRequest>, printable: Printable) returns (keys: set<string>)
    ensures forall k :: k in keys <==> exists r, code :: r in requests && Tracked(r, code) && k == Key(r.name, code, printable)
  {
    hide Key;
    keys := {};
    for i := 0 to |requests|
      invariant forall k :: k in keys <==>
        exists r, code :: r in requests[..i] && Tracked(r, code) && k == Key(r.name, code, printable)
    {
      assert requests[..i + 1] == requests[..i] + [requests[i]];
      var codes := StatusCodesToTrack(requests[i].expected);
      var more := KeysFor(requests[i].name, codes, printable);
      keys := keys + more;
      assert forall code :: code in codes <==> Tracked(requests[i], code);
    }
    assert requests[..|requests|] == requests;
  }

  method KeysFor(name: string, codes: seq<int>, printable: Printable) returns (keys: set<string>)
    ensures forall k :: k in keys <==> exists code :: code in codes && k == Key(name, code, printable)
  {
    hide Key;
    keys := {};
    for j := 0 to |codes|
      invariant forall k :: k in keys <==> exists code :: code in codes[..j] && k == Key(name, code, printable)
    {
      assert codes[..j + 1] == codes[..j] + [codes[j]];
      keys := keys + {Key(name, codes[j], printable)};
    }
    assert codes[..|codes|] == codes;
  }

  // A status gets a counter exactly when it is a default one or expected by a request of that
  // name; responses with any other status leave no record behind.
  lemma HasCounterIff(requests: seq<TrackedRequest>, keys: set<string>, printable: Printable, name: string, code: int)
    requires forall k :: k in keys <==> exists r, c :: r in requests && Tracked(r, c) && k == Key(r.name, c, printable)
    ensures Key(name, code, printable) in keys <==> exists r :: r in requests && r.name == name && Tracked(r, code)
    ensures Key(name, code, printable) in keys <==>
              && (exists r :: r in requests && r.name == name)
              && (code in {0, 200, 201, 204, 400, 401, 403, 404, 409, 500, 502, 503, 504} ||
                  exists r :: r in requests && r.name == name && code in r.expected)
  {
    hide Key;
    if Key(name, code, printable) in keys {
      var r, c :| r in requests && Tracked(r, c) && Key(name, code, printable) == Key(r.name, c, printable);
      KeyInjective(name, code, r.name, c, printable);
    }
  }
}
