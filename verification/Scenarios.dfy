// Scenarios as they live in memory: slices and header maps are shared by every copy of a
// scenario value, and WithEnv and Normalized write through them.
module Scenarios {
  import opened Environment

  // ----- the data ------------------------------------------------------------

  // A Go map[string]string: copies of the reference share the entries.
  class HeaderMap {
    var entries: map<string, string>

    constructor (entries: map<string, string>)
      ensures this.entries == entries
    {
      this.entries := entries;
    }
  }

  datatype Request = Request(
    name: string, verb: string, path: string, headers: HeaderMap?,
    json: string, body: string, expected: seq<int>)

  datatype TrafficType = Unset | Load | Burst | Spike | Race | RetryStorm | Unknown(text: string)

  datatype Traffic = Traffic(
    kind: TrafficType, concurrency: int, iterations: int, ratePerSecond: int, attempts: int, backoffMS: int)

  // The slices are setup, requests, teardown and invariants, in that order. An invariant is
  // edited exactly like a request whose body is the invariant's request text and whose JSON
  // is empty, and is kept as one.
  datatype Scenario = Scenario(
    version: int, name: string, description: string, targetID: string, baseURL: string, targetHeaders: HeaderMap?,
    traffic: Traffic, slices: seq<array<Request>>)

  // ----- deep values ---------------------------------------------------------

  // None stands for a nil map.
  datatype Headers = Nil | Entries(entries: map<string, string>)

  datatype RequestValue = RequestValue(
    name: string, verb: string, path: string, headers: Headers, json: string, body: string, expected: seq<int>)

  function HeadersValue(h: HeaderMap?): Headers
    reads h
  {
    if h == null then Nil else Entries(h.entries)
  }

  function ValueOf(r: Request): RequestValue
    reads r.headers
  {
    RequestValue(r.name, r.verb, r.path, HeadersValue(r.headers), r.json, r.body, r.expected)
  }

  function HeaderObjects(a: array<Request>): set<HeaderMap>
    reads a
  {
    set i | 0 <= i < a.Length && a[i].headers != null :: a[i].headers
  }

  ghost function Values(a: array<Request>): (r: seq<RequestValue>)
    reads a, HeaderObjects(a)
    ensures |r| == a.Length
    ensures forall i | 0 <= i < a.Length :: r[i] == ValueOf(a[i])
  {
    seq(a.Length, i requires 0 <= i < a.Length reads a, HeaderObjects(a) => ValueOf(a[i]))
  }

  // ----- what the in-place edits compute -------------------------------------

  function ExpandEntries(m: map<string, string>, env: Environment): map<string, string> {
    map k | k in m :: Expand(env, m[k])
  }

  function ExpandHeaders(h: Headers, env: Environment): Headers {
    if h.Nil? then Nil else Entries(ExpandEntries(h.entries, env))
  }

  function ExpandRequest(r: RequestValue, env: Environment): RequestValue {
    r.(name := Expand(env, r.name), path := Expand(env, r.path), body := Expand(env, r.body),
       json := if |r.json| > 0 then Expand(env, r.json) else r.json,
       headers := ExpandHeaders(r.headers, env))
  }

  function ExpandAll(values: seq<RequestValue>, env: Environment): (r: seq<RequestValue>)
    ensures |r| == |values|
    ensures forall i | 0 <= i < |values| :: r[i] == ExpandRequest(values[i], env)
  {
    seq(|values|, i requires 0 <= i < |values| => ExpandRequest(values[i], env))
  }

  function NormalizeAll(values: seq<RequestValue>): (r: seq<RequestValue>)
    ensures |r| == |values|
    ensures forall i | 0 <= i < |values| :: r[i] == NormalizeRequest(values[i])
  {
    seq(|values|, i requires 0 <= i < |values| => NormalizeRequest(values[i]))
  }

  function UpperChar(c: char): char {
    if 'a' <= c <= 'z' then c - 'a' + 'A' else c
  }

  // strings.ToUpper on ASCII text.
  function Upper(s: string): (r: string)
    ensures |r| == |s|
    ensures forall i | 0 <= i < |s| :: r[i] == UpperChar(s[i])
  {
    seq(|s|, i requires 0 <= i < |s| => UpperChar(s[i]))
  }

  function NormalVerb(verb: string): string {
    Upper(if verb == "" then "GET" else verb)
  }

  function NormalizeRequest(r: RequestValue): RequestValue {
    r.(verb := NormalVerb(r.verb), headers := if r.headers.Nil? then Entries(map[]) else r.headers)
  }

  lemma NormalVerbIdempotent(verb: string)
    ensures NormalVerb(NormalVerb(verb)) == NormalVerb(verb)
  {
    var v := NormalVerb(verb);
    assert Upper(v) == v;
  }

  // Normalizing twice is normalizing once.
  lemma NormalizeIdempotent(r: RequestValue)
    ensures NormalizeRequest(NormalizeRequest(r)) == NormalizeRequest(r)
  {
    NormalVerbIdempotent(r.verb);
  }

  function NormalTraffic(t: Traffic): Traffic {
    var kind := if t.kind == Unset then Load else t.kind;
    t.(kind := kind,
       concurrency := if t.concurrency <= 0 then 1 else t.concurrency,
       iterations := if t.iterations <= 0 then 1 else t.iterations,
       attempts := if kind == RetryStorm && t.attempts <= 0 then 3 else t.attempts)
  }

  // Traffic that needs no defaults.
  predicate Usable(t: Traffic) {
    t.kind != Unset && t.concurrency >= 1 && t.iterations >= 1 && (t.kind == RetryStorm ==> t.attempts >= 1)
  }

  // The defaults make every traffic usable, change only what was not, and are one worker, one
  // iteration, and three attempts of a retry storm.
  lemma NormalTrafficMeans(t: Traffic)
    ensures var n := NormalTraffic(t);
            && Usable(n) && (n == t <==> Usable(t))
            && (n.kind == t.kind || (t.kind == Unset && n.kind == Load))
            && (n.concurrency == t.concurrency || (t.concurrency < 1 && n.concurrency == 1))
            && (n.iterations == t.iterations || (t.iterations < 1 && n.iterations == 1))
            && (n.attempts == t.attempts || (t.kind == RetryStorm && t.attempts < 1 && n.attempts == 3))
            && n.ratePerSecond == t.ratePerSecond && n.backoffMS == t.backoffMS
  {
  }

  // A request without a verb gets GET, and any other verb is put in capital letters; a request without
  // a header map gets one, and nothing else changes.
  lemma NormalizeRequestMeans(r: RequestValue)
    ensures var n := NormalizeRequest(r);
            && (r.verb == "" ==> n.verb == ['G', 'E', 'T'])
            && (r.verb != "" ==> |n.verb| == |r.verb|)
            && (forall i | 0 <= i < |n.verb| :: !('a' <= n.verb[i] <= 'z'))
            && (forall i | 0 <= i < |r.verb| ::
                  n.verb[i] == r.verb[i] || ('a' <= r.verb[i] <= 'z' && n.verb[i] as int == r.verb[i] as int - 32))
            && n.headers == (if r.headers == Nil then Entries(map[]) else r.headers)
            && n == r.(verb := n.verb, headers := n.headers)
  {
  }

  // ----- the in-place edits --------------------------------------------------

  // No two requests of the slice share a header map.
  ghost predicate Separate(a: array<Request>)
    reads a
  {
    forall i, j | 0 <= i < j < a.Length && a[i].headers != null :: a[i].headers != a[j].headers
  }

  // Nothing in the slice is changed by the expansion.
  ghost predicate Fixed(values: seq<RequestValue>, env: Environment) {
    forall i | 0 <= i < |values| :: ExpandRequest(values[i], env) == values[i]
  }

  ghost predicate Normal(values: seq<RequestValue>) {
    forall i | 0 <= i < |values| :: NormalizeRequest(values[i]) == values[i]
  }

  method ExpandEntriesInPlace(h: HeaderMap, env: Environment)
    modifies h
    ensures h.entries == ExpandEntries(old(h.entries), env)
  {
    var todo := h.entries.Keys;
    while todo != {}
      invariant todo <= h.entries.Keys == old(h.entries).Keys
      invariant forall k | k in h.entries ::
        h.entries[k] == if k in todo then old(h.entries)[k] else Expand(env, old(h.entries)[k])
      decreases |todo|
    {
      var k :| k in todo;
      h.entries := h.entries[k := Expand(env, h.entries[k])];
      todo := todo - {k};
    }
  }

  // One iteration of expandRequestEnv.
  method ExpandAt(requests: array<Request>, i: nat, env: Environment)
    requires i < requests.Length
    modifies requests, requests[i].headers
    ensures requests[..] == old(requests[..])[i := requests[i]]
    ensures requests[i].headers == old(requests[i].headers)
    ensures ValueOf(requests[i]) == ExpandRequest(old(ValueOf(requests[i])), env)
  {
    var r := requests[i];
    requests[i] := r.(name := Expand(env, r.name), path := Expand(env, r.path), body := Expand(env, r.body),
                      json := if |r.json| > 0 then Expand(env, r.json) else r.json);
    if r.headers != null {
      ExpandEntriesInPlace(r.headers, env);
    }
  }

  method ExpandRequestEnv(requests: array<Request>, env: Environment)
    modifies requests, HeaderObjects(requests)
    ensures HeaderObjects(requests) == old(HeaderObjects(requests))
    ensures old(Separate(requests)) ==> Values(requests) == ExpandAll(old(Values(requests)), env)
    ensures old(Fixed(Values(requests), env)) ==> forall b: array<Request> | old(allocated(b)) :: b[..] == old(b[..])
    ensures old(Fixed(Values(requests), env)) ==> forall h: HeaderMap | old(allocated(h)) :: h.entries == old(h.entries)
  {
    hide ExpandRequest;
    ghost var separate, fixed := Separate(requests), Fixed(Values(requests), env);
    ghost var values, refs := Values(requests), requests[..];
    for i := 0 to requests.Length
      invariant forall j | 0 <= j < requests.Length :: requests[j].headers == refs[j].headers
      invariant separate ==> forall j | i <= j < requests.Length :: ValueOf(requests[j]) == values[j]
      invariant separate ==> forall j | 0 <= j < i :: ValueOf(requests[j]) == ExpandRequest(values[j], env)
      invariant fixed ==> requests[..] == refs
      invariant fixed ==> forall j | 0 <= j < requests.Length :: ValueOf(requests[j]) == values[j]
    {
      label before:
      assert requests[i].headers == refs[i].headers;
      assert requests[i].headers != null ==> requests[i].headers in old(HeaderObjects(requests));
      ExpandAt(requests, i, env);
      assert fixed ==> ValueOf(requests[i]) == values[i];
      assert forall j | 0 <= j < requests.Length && j != i :: requests[j] == old@before(requests[j]);
      if fixed {
        assert requests[i] == refs[i];
        assert forall j | 0 <= j < requests.Length :: ValueOf(requests[j]) == old@before(ValueOf(requests[j]));
      }
    }
  }

  // One iteration of normalizeRequests.
  method NormalizeAt(requests: array<Request>, i: nat)
    requires i < requests.Length
    modifies requests
    ensures requests[..] == old(requests[..])[i := requests[i]]
    ensures ValueOf(requests[i]) == NormalizeRequest(old(ValueOf(requests[i])))
    ensures requests[i].headers != null
    ensures if old(requests[i].headers) == null then fresh(requests[i].headers) else requests[i].headers == old(requests[i].headers)
  {
    var r := requests[i];
    if r.verb == "" {
      r := r.(verb := "GET");
    }
    r := r.(verb := Upper(r.verb));
    if r.headers == null {
      var h := new HeaderMap(map[]);
      r := r.(headers := h);
    }
    requests[i] := r;
  }

  method NormalizeRequests(requests: array<Request>)
    modifies requests
    ensures Values(requests) == NormalizeAll(old(Values(requests)))
    ensures forall h | h in HeaderObjects(requests) :: h in old(HeaderObjects(requests)) || fresh(h)
    ensures old(Normal(Values(requests))) ==> forall b: array<Request> | old(allocated(b)) :: b[..] == old(b[..])
    ensures old(Normal(Values(requests))) ==> forall h: HeaderMap | old(allocated(h)) :: h.entries == old(h.entries)
  {
    hide NormalizeRequest;
    ghost var normal, values, refs := Normal(Values(requests)), Values(requests), requests[..];
    for i := 0 to requests.Length
      invariant forall j | 0 <= j < i :: ValueOf(requests[j]) == NormalizeRequest(values[j])
      invariant forall j | 0 <= j < i ::
        if refs[j].headers == null then requests[j].headers != null && fresh(requests[j].headers)
        else requests[j].headers == refs[j].headers
      invariant forall j | i <= j < requests.Length :: requests[j] == refs[j]
      invariant normal ==> requests[..] == refs
    {
      label before:
      assert ValueOf(requests[i]) == values[i];
      if normal {
        NormalHasHeaders(values[i]);
      }
      NormalizeAt(requests, i);
      assert forall j | 0 <= j < requests.Length && j != i :: requests[j] == old@before(requests[j]);
    }
  }

  lemma NormalHasHeaders(r: RequestValue)
    requires NormalizeRequest(r) == r
    ensures r.headers.Entries?
  {
  }

  // ----- whole scenarios -----------------------------------------------------

  ghost function HeaderObjectsOf(slices: seq<array<Request>>): set<HeaderMap>
    reads slices
  {
    set i, h | 0 <= i < |slices| && h in HeaderObjects(slices[i]) :: h
  }

  // A scenario as decoding builds it: no slice and no header map occurs in it twice.
  ghost predicate Apart(slices: seq<array<Request>>)
    reads slices
  {
    && (forall i | 0 <= i < |slices| :: Separate(slices[i]))
    && (forall i, j | 0 <= i < j < |slices| :: slices[i] != slices[j] && HeaderObjects(slices[i]) !! HeaderObjects(slices[j]))
  }

  ghost predicate AllFixed(slices: seq<array<Request>>, env: Environment)
    reads slices, HeaderObjectsOf(slices)
  {
    forall i | 0 <= i < |slices| :: Fixed(Values(slices[i]), env)
  }

  ghost predicate AllNormal(slices: seq<array<Request>>)
    reads slices, HeaderObjectsOf(slices)
  {
    forall i | 0 <= i < |slices| :: Normal(Values(slices[i]))
  }

  // A slice whose storage and header maps are as before has the value it had before.
  twostate lemma KeptValues(a: array<Request>)
    requires a[..] == old(a[..])
    requires forall h | h in HeaderObjects(a) :: old(allocated(h)) && h.entries == old(h.entries)
    ensures Values(a) == old(Values(a))
  {
    forall i | 0 <= i < a.Length
      ensures Values(a)[i] == old(Values(a))[i]
    {
      assert a[i] == a[..][i] && old(a[i]) == old(a[..])[i];
    }
  }

  method ExpandSlices(slices: seq<array<Request>>, env: Environment)
    modifies slices, HeaderObjectsOf(slices)
    ensures forall k | 0 <= k < |slices| :: HeaderObjects(slices[k]) == old(HeaderObjects(slices[k]))
    ensures old(Apart(slices)) ==>
              forall k | 0 <= k < |slices| :: Values(slices[k]) == ExpandAll(old(Values(slices[k])), env)
    ensures old(AllFixed(slices, env)) ==> forall b: array<Request> | old(allocated(b)) :: b[..] == old(b[..])
    ensures old(AllFixed(slices, env)) ==> forall h: HeaderMap | old(allocated(h)) :: h.entries == old(h.entries)
  {
    hide Fixed, ExpandAll, ExpandRequest, ValueOf, Values, Expand, ExpandEntries;
    ghost var apart, fixed := Apart(slices), AllFixed(slices, env);
    for k := 0 to |slices|
      invariant forall j | 0 <= j < |slices| :: HeaderObjects(slices[j]) == old(HeaderObjects(slices[j]))
      invariant apart ==> forall j | k <= j < |slices| :: slices[j][..] == old(slices[j][..])
      invariant apart ==> forall j | 0 <= j < k :: Values(slices[j]) == ExpandAll(old(Values(slices[j])), env)
      invariant apart ==> forall j | k <= j < |slices| :: Values(slices[j]) == old(Values(slices[j]))
      invariant fixed ==> forall b: array<Request> | old(allocated(b)) :: b[..] == old(b[..])
      invariant fixed ==> forall h: HeaderMap | old(allocated(h)) :: h.entries == old(h.entries)
    {
      label before:
      assert apart ==> Separate(slices[k]);
      if fixed {
        assert slices[k][..] == old(slices[k][..]);
        assert forall h | h in HeaderObjects(slices[k]) :: h in old(HeaderObjects(slices[k]));
        KeptValues(slices[k]);
      }
      ExpandRequestEnv(slices[k], env);
      if apart {
        forall j | 0 <= j < |slices| && j != k
          ensures slices[j][..] == old@before(slices[j][..])
          ensures Values(slices[j]) == old@before(Values(slices[j]))
        {
          assert HeaderObjects(slices[j]) !! HeaderObjects(slices[k]);
          KeptValues@before(slices[j]);
        }
      }
    }
  }

  method NormalizeSlices(slices: seq<array<Request>>)
    modifies slices
    ensures (forall i, j | 0 <= i < j < |slices| :: slices[i] != slices[j]) ==>
              forall k | 0 <= k < |slices| :: Values(slices[k]) == NormalizeAll(old(Values(slices[k])))
    ensures forall h | h in HeaderObjectsOf(slices) :: h in old(HeaderObjectsOf(slices)) || fresh(h)
    ensures old(AllNormal(slices)) ==> forall b: array<Request> | old(allocated(b)) :: b[..] == old(b[..])
  {
    hide Normal, NormalizeAll, NormalizeRequest, ValueOf, Values;
    ghost var distinct, normal := forall i, j | 0 <= i < j < |slices| :: slices[i] != slices[j], AllNormal(slices);
    for k := 0 to |slices|
      invariant forall j, h | 0 <= j < |slices| && h in HeaderObjects(slices[j]) :: h in old(HeaderObjectsOf(slices)) || fresh(h)
      invariant distinct ==> forall j | 0 <= j < k :: Values(slices[j]) == NormalizeAll(old(Values(slices[j])))
      invariant distinct ==> forall j | k <= j < |slices| :: slices[j][..] == old(slices[j][..])
      invariant normal ==> forall b: array<Request> | old(allocated(b)) :: b[..] == old(b[..])
    {
      label before:
      if normal || distinct {
        assert slices[k][..] == old(slices[k][..]);
        assert forall h | h in HeaderObjects(slices[k]) :: h in old(HeaderObjects(slices[k]));
        KeptValues(slices[k]);
      }
      NormalizeRequests(slices[k]);
      if distinct {
        forall j | 0 <= j < |slices| && j != k
          ensures Values(slices[j]) == old@before(Values(slices[j]))
        {
          assert slices[j][..] == old@before(slices[j][..]);
          KeptValues@before(slices[j]);
        }
      }
    }
  }

  // The slices of a scenario a store may keep: neither edit would change them.
  ghost predicate Settled(slices: seq<array<Request>>, env: Environment)
    reads slices, HeaderObjectsOf(slices)
  {
    AllFixed(slices, env) && AllNormal(slices)
  }

  predicate HeadersFixed(h: HeaderMap?, env: Environment)
    reads h
  {
    ExpandHeaders(HeadersValue(h), env) == HeadersValue(h)
  }

  // Expanding the target headers does not show in the slices.
  ghost predicate HeadersBeside(sc: Scenario, env: Environment)
    reads sc.targetHeaders, sc.slices
  {
    HeadersFixed(sc.targetHeaders, env) || sc.targetHeaders !in HeaderObjectsOf(sc.slices)
  }

  method WithEnv(sc: Scenario, env: Environment) returns (r: Scenario)
    modifies sc.targetHeaders, sc.slices, HeaderObjectsOf(sc.slices)
    ensures r == sc.(name := Expand(env, sc.name), description := Expand(env, sc.description), baseURL := Expand(env, sc.baseURL))
    ensures forall k | 0 <= k < |sc.slices| :: HeaderObjects(sc.slices[k]) == old(HeaderObjects(sc.slices[k]))
    ensures old(Apart(sc.slices)) && sc.targetHeaders !in old(HeaderObjectsOf(sc.slices)) ==>
              HeadersValue(sc.targetHeaders) == ExpandHeaders(old(HeadersValue(sc.targetHeaders)), env)
    ensures old(Apart(sc.slices) && HeadersBeside(sc, env)) ==>
              forall k | 0 <= k < |sc.slices| :: Values(sc.slices[k]) == ExpandAll(old(Values(sc.slices[k])), env)
    ensures old(AllFixed(sc.slices, env) && HeadersBeside(sc, env)) ==>
              && (forall b: array<Request> | old(allocated(b)) :: b[..] == old(b[..]))
              && (forall h: HeaderMap | old(allocated(h)) && h != sc.targetHeaders :: h.entries == old(h.entries))
              && (old(HeadersFixed(sc.targetHeaders, env)) ==> HeadersValue(sc.targetHeaders) == old(HeadersValue(sc.targetHeaders)))
  {
    hide Fixed, ExpandAll, ExpandRequest, ValueOf, Values, Separate;
    r := sc.(name := Expand(env, sc.name), description := Expand(env, sc.description), baseURL := Expand(env, sc.baseURL));
    ghost var apart := Apart(sc.slices) && HeadersBeside(sc, env);
    ghost var fixed := AllFixed(sc.slices, env) && HeadersBeside(sc, env);
    if sc.targetHeaders != null {
      ExpandEntriesInPlace(sc.targetHeaders, env);
    }
    if apart || fixed {
      forall k | 0 <= k < |sc.slices|
        ensures Values(sc.slices[k]) == old(Values(sc.slices[k]))
      {
        assert forall h | h in HeaderObjects(sc.slices[k]) :: h in old(HeaderObjectsOf(sc.slices));
        KeptValues(sc.slices[k]);
      }
    }
    ExpandSlices(sc.slices, env);
  }

  method Normalized(sc: Scenario) returns (r: Scenario)
    modifies sc.slices
    ensures r == sc.(version := if sc.version == 0 then 1 else sc.version,
                     traffic := NormalTraffic(sc.traffic), targetHeaders := r.targetHeaders)
    ensures if sc.targetHeaders == null then r.targetHeaders != null && fresh(r.targetHeaders) && r.targetHeaders.entries == map[]
            else r.targetHeaders == sc.targetHeaders
    ensures (forall i, j | 0 <= i < j < |sc.slices| :: sc.slices[i] != sc.slices[j]) ==>
              forall k | 0 <= k < |sc.slices| :: Values(sc.slices[k]) == NormalizeAll(old(Values(sc.slices[k])))
    ensures forall h | h in HeaderObjectsOf(sc.slices) :: h in old(HeaderObjectsOf(sc.slices)) || fresh(h)
    ensures old(AllNormal(sc.slices)) ==> forall b: array<Request> | old(allocated(b)) :: b[..] == old(b[..])
  {
    hide Normal, NormalizeAll, NormalizeRequest, ValueOf, Values;
    r := sc;
    if r.version == 0 {
      r := r.(version := 1);
    }
    if r.traffic.kind == Unset {
      r := r.(traffic := r.traffic.(kind := Load));
    }
    if r.traffic.concurrency <= 0 {
      r := r.(traffic := r.traffic.(concurrency := 1));
    }
    if r.traffic.iterations <= 0 {
      r := r.(traffic := r.traffic.(iterations := 1));
    }
    if r.traffic.kind == RetryStorm && r.traffic.attempts <= 0 {
      r := r.(traffic := r.traffic.(attempts := 3));
    }
    if r.targetHeaders == null {
      var h := new HeaderMap(map[]);
      r := r.(targetHeaders := h);
      forall k | 0 <= k < |sc.slices|
        ensures Values(sc.slices[k]) == old(Values(sc.slices[k]))
      {
        KeptValues(sc.slices[k]);
      }
    }
    NormalizeSlices(sc.slices);
  }

  // ----- when a prepared scenario stays as it is -----------------------------

  // What one pass of WithEnv and Normalized makes of a slice.
  function Prepared(values: seq<RequestValue>, env: Environment): (r: seq<RequestValue>)
    ensures |r| == |values|
  {
    NormalizeAll(ExpandAll(values, env))
  }

  function HeaderTexts(h: Headers): set<string> {
    if h.Nil? then {} else h.entries.Values
  }

  // Every text of a request that is expanded.
  function Texts(r: RequestValue): set<string> {
    {r.name, r.path, r.body, r.json} + HeaderTexts(r.headers)
  }

  // Texts that a second expansion would leave as the first did.
  ghost predicate Stay(texts: set<string>, env: Environment) {
    forall t | t in texts :: IdempotentOn(env, t)
  }

  ghost predicate AllStay(values: seq<RequestValue>, env: Environment) {
    forall i | 0 <= i < |values| :: Stay(Texts(values[i]), env)
  }

  lemma HeadersStayIff(h: Headers, env: Environment)
    ensures ExpandHeaders(ExpandHeaders(h, env), env) == ExpandHeaders(h, env) <==> Stay(HeaderTexts(h), env)
  {
    hide Expand;
    if h.Entries? {
      var once := ExpandEntries(h.entries, env);
      var twice := ExpandEntries(once, env);
      assert forall k | k in h.entries :: once[k] == Expand(env, h.entries[k]) && twice[k] == Expand(env, once[k]);
      if Stay(HeaderTexts(h), env) {
        assert forall k | k in h.entries :: h.entries[k] in h.entries.Values;
        assert twice == once;
      }
    }
  }

  // A prepared request stays as it is under a second pass exactly when a second expansion of
  // each of its texts would change nothing.
  lemma PreparedRequestStaysIff(r: RequestValue, env: Environment)
    ensures var p := NormalizeRequest(ExpandRequest(r, env));
            && (ExpandRequest(p, env) == p <==> Stay(Texts(r), env))
            && NormalizeRequest(p) == p
  {
    hide Expand, NormalVerb, ExpandEntries;
    var p := NormalizeRequest(ExpandRequest(r, env));
    HeadersStayIff(r.headers, env);
    NormalizeIdempotent(ExpandRequest(r, env));
    NothingExpands(env);
    assert Stay(Texts(r), env) <==>
      IdempotentOn(env, r.name) && IdempotentOn(env, r.path) && IdempotentOn(env, r.body) && IdempotentOn(env, r.json) &&
      Stay(HeaderTexts(r.headers), env);
  }

  lemma NothingExpands(env: Environment)
    ensures Expand(env, "") == "" && ExpandEntries(map[], env) == map[]
  {
  }

  lemma PreparedStaysIff(values: seq<RequestValue>, env: Environment)
    ensures Fixed(Prepared(values, env), env) <==> AllStay(values, env)
    ensures Normal(Prepared(values, env))
  {
    hide ExpandRequest, NormalizeRequest, Stay, Texts;
    var prepared := Prepared(values, env);
    forall i | 0 <= i < |values|
      ensures ExpandRequest(prepared[i], env) == prepared[i] <==> Stay(Texts(values[i]), env)
      ensures NormalizeRequest(prepared[i]) == prepared[i]
    {
      PreparedRequestStaysIff(values[i], env);
    }
  }

  // Saved text can never change under later runs exactly when the environment is stable: a
  // value that itself holds a reference, or ends inside one, lets a later run rewrite it.
  lemma SavedTextStaysIff(env: Environment)
    ensures (forall values :: Fixed(Prepared(values, env), env)) <==> StableEnvironment(env)
  {
    hide Fixed, Prepared, StableEnvironment, IdempotentOn;
    IdempotentIff(env);
    if StableEnvironment(env) {
      forall values
        ensures Fixed(Prepared(values, env), env)
      {
        PreparedStaysIff(values, env);
      }
    }
    if forall values :: Fixed(Prepared(values, env), env) {
      forall s: string
        ensures IdempotentOn(env, s)
      {
        var r := RequestValue(s, "GET", "", Nil, "", "", []);
        PreparedStaysIff([r], env);
        assert s in Texts([r][0]);
      }
    }
  }

  ghost predicate PlainTexts(values: seq<RequestValue>) {
    forall i, t | 0 <= i < |values| && t in Texts(values[i]) :: Plain(t)
  }

  // Text without a dollar stays under every environment.
  lemma PlainStays(values: seq<RequestValue>, env: Environment)
    requires PlainTexts(values)
    ensures AllStay(values, env) && Fixed(Prepared(values, env), env)
  {
    hide Expand, Texts, Plain;
    forall i, t | 0 <= i < |values| && t in Texts(values[i])
      ensures IdempotentOn(env, t)
    {
      PlainExpands(env, t);
    }
    PreparedStaysIff(values, env);
    hide Fixed, Prepared;
  }
}
