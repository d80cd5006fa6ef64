// What a k6 run's report loses: only responses whose request name and status have a counter come
// back as records.
module LostResponses {
  import opened Prelude
  import opened Decimal
  import opened Reports
  import opened CounterKeys
  import opened K6Plan
  import opened K6Counters

  // A response: the name of its request and its status.
  type Response = (string, int)

  function KeyOf(p: Response, printable: Printable): string {
    Key(p.0, p.1, printable)
  }

  function HasKey(key: string, printable: Printable): Response -> bool {
    (p: Response) => KeyOf(p, printable) == key
  }

  // k6 counts the responses of every counter threshold.
  function Aggregated(keys: set<string>, responses: seq<Response>, printable: Printable): Metrics {
    map k | k in keys :: |Filter(responses, HasKey(k, printable))|
  }

  // The summary holds those counters, among metrics that are read as no counter.
  predicate Summarizes(metrics: Metrics, keys: set<string>, responses: seq<Response>, printable: Printable, avg: real) {
    && (forall k | k in keys :: k in metrics && metrics[k] == |Filter(responses, HasKey(k, printable))|)
    && (forall k | k in metrics && k !in keys :: Produced(k, avg).None?)
  }

  // A response that leaves a record, and the record it leaves.
  function ComesBack(keys: set<string>, printable: Printable, avg: real): Response -> bool {
    (p: Response) => KeyOf(p, printable) in keys && Produced(KeyOf(p, printable), avg).Some?
  }

  function Left(printable: Printable, avg: real): Response -> ResponseRecord {
    (p: Response) =>
      var r := Produced(KeyOf(p, printable), avg);
      if r.Some? then r.value else MockRecord("", 0, avg)
  }

  // ----- counting ------------------------------------------------------------

  lemma TotalRises(metrics: Metrics, key: string, record: ResponseRecord, avg: real)
    requires key in metrics && metrics[key] >= 0
    ensures TotalFor(metrics[key := metrics[key] + 1], record, avg) ==
            TotalFor(metrics, record, avg) + if Produced(key, avg) == Some(record) then 1 else 0
  {
    hide Produced, SumValues;
    var n := metrics[key];
    var before, after := Standing(metrics, record, avg), Standing(metrics[key := n + 1], record, avg);
    if Produced(key, avg) == Some(record) {
      assert after == before[key := n + 1];
      SumValuesUpdate(before, key, n + 1);
    } else {
      assert after == before;
    }
  }

  lemma AggregatedPush(keys: set<string>, responses: seq<Response>, p: Response, printable: Printable)
    ensures var before, after := Aggregated(keys, responses, printable), Aggregated(keys, responses + [p], printable);
            after == if KeyOf(p, printable) in keys then before[KeyOf(p, printable) := before[KeyOf(p, printable)] + 1] else before
  {
    hide Filter, Key;
    forall k | k in keys
      ensures |Filter(responses + [p], HasKey(k, printable))| ==
              |Filter(responses, HasKey(k, printable))| + if KeyOf(p, printable) == k then 1 else 0
    {
      FilterPush(responses, p, HasKey(k, printable));
    }
  }

  lemma TotalOfZeros(keys: set<string>, printable: Printable, record: ResponseRecord, avg: real)
    ensures TotalFor(Aggregated(keys, [], printable), record, avg) == 0
  {
    hide Produced;
    AllZero(Standing(Aggregated(keys, [], printable), record, avg));
  }

  lemma {:induction false} AllZero<K>(m: map<K, nat>)
    requires forall k | k in m :: m[k] == 0
    ensures SumValues(m) == 0
    decreases |m|
  {
    if m != map[] {
      var k :| k in m;
      SumValuesWithout(m, k);
      AllZero(m - {k});
    }
  }

  // A record stands as often as responses that leave it.
  lemma {:induction false} TotalsAre(keys: set<string>, responses: seq<Response>, printable: Printable, avg: real, record: ResponseRecord)
    ensures TotalFor(Aggregated(keys, responses, printable), record, avg) ==
            multiset(Map(Filter(responses, ComesBack(keys, printable, avg)), Left(printable, avg)))[record]
  {
    hide TotalFor, Aggregated, Produced, Key;
    if |responses| == 0 {
      TotalOfZeros(keys, printable, record, avg);
      assert responses == [];
    } else {
      var front, p := responses[..|responses| - 1], responses[|responses| - 1];
      assert responses == front + [p];
      TotalsAre(keys, front, printable, avg, record);
      AggregatedPush(keys, front, p, printable);
      FilterPush(front, p, ComesBack(keys, printable, avg));
      TotalsPush(keys, front, p, printable, avg, record);
      LeftPush(keys, front, p, printable, avg, record);
    }
  }

  lemma TotalsPush(keys: set<string>, front: seq<Response>, p: Response, printable: Printable, avg: real, record: ResponseRecord)
    ensures TotalFor(Aggregated(keys, front + [p], printable), record, avg) ==
            TotalFor(Aggregated(keys, front, printable), record, avg) +
            if KeyOf(p, printable) in keys && Produced(KeyOf(p, printable), avg) == Some(record) then 1 else 0
  {
    hide TotalFor, Produced, Key, Filter;
    AggregatedPush(keys, front, p, printable);
    if KeyOf(p, printable) in keys {
      TotalRises(Aggregated(keys, front, printable), KeyOf(p, printable), record, avg);
    }
  }

  lemma LeftPush(keys: set<string>, front: seq<Response>, p: Response, printable: Printable, avg: real, record: ResponseRecord)
    ensures var back, more := Filter(front, ComesBack(keys, printable, avg)), Filter(front + [p], ComesBack(keys, printable, avg));
            multiset(Map(more, Left(printable, avg)))[record] ==
            multiset(Map(back, Left(printable, avg)))[record] +
            if KeyOf(p, printable) in keys && Produced(KeyOf(p, printable), avg) == Some(record) then 1 else 0
  {
    hide Produced, KeyOf, Filter, Map;
    var back, left := Filter(front, ComesBack(keys, printable, avg)), Left(printable, avg);
    FilterPush(front, p, ComesBack(keys, printable, avg));
    if ComesBack(keys, printable, avg)(p) {
      MapPush(back, p, left);
      PushBag(Map(back, left), left(p));
    } else {
      assert back + [] == back;
    }
  }

  // ----- what comes back -----------------------------------------------------

  lemma OthersCountNothing(metrics: Metrics, keys: set<string>, responses: seq<Response>, printable: Printable, avg: real, record: ResponseRecord)
    requires Summarizes(metrics, keys, responses, printable, avg)
    ensures TotalFor(metrics, record, avg) == TotalFor(Aggregated(keys, responses, printable), record, avg)
  {
    hide Produced, Filter, SumValues;
    assert Standing(metrics, record, avg) == Standing(Aggregated(keys, responses, printable), record, avg);
  }

  function Not(keep: Response -> bool): Response -> bool {
    (p: Response) => !keep(p)
  }

  lemma {:induction false} KeptOrNot(responses: seq<Response>, keep: Response -> bool)
    ensures |Filter(responses, keep)| + |Filter(responses, Not(keep))| == |responses|
  {
    if |responses| > 0 {
      KeptOrNot(responses[..|responses| - 1], keep);
    }
  }

  // Whatever the names and statuses, the records are what the responses that come back leave,
  // each as often as it occurred, and all others are lost.
  lemma RecordsAre(metrics: Metrics, keys: set<string>, responses: seq<Response>, printable: Printable, avg: real,
                   records: seq<ResponseRecord>)
    requires Summarizes(metrics, keys, responses, printable, avg)
    requires forall r :: multiset(records)[r] == TotalFor(metrics, r, avg)
    ensures multiset(records) == multiset(Map(Filter(responses, ComesBack(keys, printable, avg)), Left(printable, avg)))
    ensures |responses| - |records| == |Filter(responses, Not(ComesBack(keys, printable, avg)))|
  {
    hide Summarizes, TotalFor, Produced, Key, Filter, Map;
    var back := Filter(responses, ComesBack(keys, printable, avg));
    var left := Map(back, Left(printable, avg));
    forall r
      ensures multiset(records)[r] == multiset(left)[r]
    {
      OthersCountNothing(metrics, keys, responses, printable, avg, r);
      TotalsAre(keys, responses, printable, avg, r);
    }
    SameCounts(records, left);
    assert |multiset(records)| == |multiset(left)|;
    KeptOrNot(responses, ComesBack(keys, printable, avg));
  }

  // A status counted for a request of that name.
  predicate TrackedPair(requests: seq<TrackedRequest>, p: Response) {
    exists r :: r in requests && r.name == p.0 && Tracked(r, p.1)
  }

  function IsTracked(requests: seq<TrackedRequest>): Response -> bool {
    (p: Response) => TrackedPair(requests, p)
  }

  function Mock(avg: real): Response -> ResponseRecord {
    (p: Response) => MockRecord(p.0, p.1, avg)
  }

  // The keys of the counter thresholds.
  ghost predicate KeysOf(requests: seq<TrackedRequest>, keys: set<string>, printable: Printable) {
    forall k :: k in keys <==> exists r, code :: r in requests && Tracked(r, code) && k == Key(r.name, code, printable)
  }

  // A name that is printed as it is, and a status k6 can report.
  predicate Ordinary(p: Response, printable: Printable) {
    |p.0| > 0 && AllPlain(p.0, printable) && 0 <= p.1 <= MAX_INT64
  }

  lemma OrdinaryComesBackIff(requests: seq<TrackedRequest>, keys: set<string>, p: Response, printable: Printable, avg: real)
    requires KeysOf(requests, keys, printable) && Ordinary(p, printable)
    ensures ComesBack(keys, printable, avg)(p) <==> TrackedPair(requests, p)
    ensures Left(printable, avg)(p) == MockRecord(p.0, p.1, avg)
  {
    hide Key, Produced, MockRecord, Tracked;
    KeyProduces(p.0, p.1, printable, avg);
    HasCounterIff(requests, keys, printable, p.0, p.1);
  }

  lemma {:induction false} SameFilter(s: seq<Response>, f: Response -> bool, g: Response -> bool)
    requires forall x | x in s :: f(x) == g(x)
    ensures Filter(s, f) == Filter(s, g)
  {
    if |s| > 0 {
      assert s == s[..|s| - 1] + [s[|s| - 1]];
      SameFilter(s[..|s| - 1], f, g);
    }
  }

  lemma SameMap(s: seq<Response>, f: Response -> ResponseRecord, g: Response -> ResponseRecord)
    requires forall x | x in s :: f(x) == g(x)
    ensures Map(s, f) == Map(s, g)
  {
  }

  // With ordinary names, a record comes back for every response with a tracked status, of its
  // name and status, and what the report lacks are the responses with other statuses.
  lemma UntrackedAreLost(metrics: Metrics, requests: seq<TrackedRequest>, keys: set<string>, responses: seq<Response>,
                         printable: Printable, avg: real, records: seq<ResponseRecord>)
    requires KeysOf(requests, keys, printable) && Summarizes(metrics, keys, responses, printable, avg)
    requires forall r :: multiset(records)[r] == TotalFor(metrics, r, avg)
    requires forall p | p in responses :: Ordinary(p, printable)
    ensures multiset(records) == multiset(Map(Filter(responses, IsTracked(requests)), Mock(avg)))
    ensures |responses| - |records| == |Filter(responses, Not(IsTracked(requests)))|
    ensures SummaryOf(records).totalRequests == |responses| - |Filter(responses, Not(IsTracked(requests)))|
  {
    hide Summarizes, KeysOf, TotalFor, Filter, Map, Ordinary, TrackedPair;
    RecordsAre(metrics, keys, responses, printable, avg, records);
    forall p | p in responses
      ensures ComesBack(keys, printable, avg)(p) == IsTracked(requests)(p)
      ensures Not(ComesBack(keys, printable, avg))(p) == Not(IsTracked(requests))(p)
      ensures Left(printable, avg)(p) == Mock(avg)(p)
    {
      OrdinaryComesBackIff(requests, keys, p, printable, avg);
    }
    SameFilter(responses, ComesBack(keys, printable, avg), IsTracked(requests));
    SameFilter(responses, Not(ComesBack(keys, printable, avg)), Not(IsTracked(requests)));
    var back := Filter(responses, IsTracked(requests));
    FilterMembers(responses, IsTracked(requests));
    SameMap(back, Left(printable, avg), Mock(avg));
    TotalIsLength(records);
  }

  lemma TotalIsLength(records: seq<ResponseRecord>)
    ensures SummaryOf(records).totalRequests == |records|
  {
  }

  lemma LoginIsOrdinary(code: nat, printable: Printable)
    requires code <= MAX_INT64
    ensures Ordinary(("login", code), printable)
  {
    assert forall c | c in "login" :: c in "login" && c as int < 0x80 && 0x20 <= c as int < 0x7f && c != '"' && c != '\\';
  }

  lemma LoginTracks(code: int)
    ensures TrackedPair([TrackedRequest("login", [])], ("login", code)) <==> code in DEFAULT_CODES
  {
    var requests := [TrackedRequest("login", [])];
    assert requests[0] in requests;
    assert forall r | r in requests :: r == requests[0];
  }

  lemma FirstOfTwo(a: Response, b: Response, keep: Response -> bool)
    requires keep(a) && !keep(b)
    ensures Filter([a, b], keep) == [a]
  {
    assert [a, b][..1] == [a] && [a][..0] == [];
    assert Filter([a], keep) == Filter([], keep) + [a];
  }

  lemma MapOne(a: Response, f: Response -> ResponseRecord)
    ensures Map([a], f) == [f(a)]
  {
  }

  // A target that answers 429 to a request that expects no status in particular: of the two
  // responses the report knows one.
  lemma ThrottledIsLost(metrics: Metrics, keys: set<string>, printable: Printable, avg: real, records: seq<ResponseRecord>)
    requires KeysOf([TrackedRequest("login", [])], keys, printable)
    requires Summarizes(metrics, keys, [("login", 200), ("login", 429)], printable, avg)
    requires forall r :: multiset(records)[r] == TotalFor(metrics, r, avg)
    ensures records == [MockRecord("login", 200, avg)]
  {
    hide KeysOf, Summarizes, TotalFor, MockRecord, Ordinary, TrackedPair, Filter, Map, SummaryOf;
    var requests, a, b: Response := [TrackedRequest("login", [])], ("login", 200), ("login", 429);
    LoginIsOrdinary(200, printable);
    LoginIsOrdinary(429, printable);
    UntrackedAreLost(metrics, requests, keys, [a, b], printable, avg, records);
    LoginTracks(200);
    LoginTracks(429);
    FirstOfTwo(a, b, IsTracked(requests));
    MapOne(a, Mock(avg));
    OnlyOne(records, MockRecord("login", 200, avg));
  }

  lemma OnlyOne(records: seq<ResponseRecord>, r: ResponseRecord)
    requires multiset(records) == multiset([r])
    ensures records == [r]
  {
    assert |multiset(records)| == 1 && records[0] in multiset(records);
  }
}
