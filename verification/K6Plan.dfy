// What the compiled k6 script sends, against what the built-in runner sends.
module K6Plan {
  import opened Prelude
  import opened Scenarios
  import opened TrafficPlan
  import TrafficPool
  import TrafficRace

  // ----- the built-in runner -------------------------------------------------

  // How often each request is sent in one iteration: once, once per attempt, or once per racer.
  function RunnerAttempts(t: Traffic): nat {
    match t.kind
    case Race => if t.concurrency > 0 then t.concurrency else 0
    case RetryStorm => if t.attempts > 1 then t.attempts else 1
    case _ => 1
  }

  function RunnerPlan(t: Traffic, requests: nat): seq<Slot> {
    FullPlan(if t.iterations > 0 then t.iterations else 0, requests, RunnerAttempts(t))
  }

  function RequestOf(s: Slot): nat {
    s.request
  }

  // ----- the compiled script -------------------------------------------------

  function K6Iterations(t: Traffic): int {
    if t.kind == Race then t.concurrency * t.iterations else t.iterations
  }

  // The loop bound written into the default function of a retry storm.
  function ScriptAttempts(t: Traffic): int {
    if t.attempts <= 0 then 3 else t.attempts
  }

  // The script and the normalization agree on the attempts of a retry storm that names none.
  lemma SameDefaultAttempts(t: Traffic)
    requires t.kind == RetryStorm
    ensures ScriptAttempts(t) == NormalTraffic(t).attempts == ScriptAttempts(NormalTraffic(t))
  {
  }

  // All requests in order, as often as said.
  function Passes(n: nat, requests: nat): seq<nat> {
    if n == 0 then [] else Passes(n - 1, requests) + seq(requests, (r: nat) => r)
  }

  function DefaultCalls(t: Traffic, requests: nat): seq<nat> {
    Passes(if t.kind == RetryStorm then ScriptAttempts(t) else 1, requests)
  }

  // The generated default function: attempt by attempt, and within it request by request.
  method SendDefault(t: Traffic, requests: nat) returns (sent: seq<nat>)
    ensures sent == DefaultCalls(t, requests)
  {
    sent := [];
    if t.kind == RetryStorm {
      for attempt := 0 to ScriptAttempts(t)
        invariant sent == Passes(attempt, requests)
      {
        var pass := SendPass(requests);
        sent := sent + pass;
      }
    } else {
      sent := SendPass(requests);
      assert Passes(0, requests) + sent == sent;
    }
  }

  method SendPass(requests: nat) returns (sent: seq<nat>)
    ensures sent == seq(requests, (r: nat) => r)
  {
    sent := [];
    for r := 0 to requests
      invariant |sent| == r && forall k | 0 <= k < r :: sent[k] == k
    {
      sent := sent + [r];
    }
  }

  // The shared-iterations executor calls the default function that often in all.
  function ScriptPlan(calls: nat, t: Traffic, requests: nat): seq<nat> {
    if calls == 0 then [] else ScriptPlan(calls - 1, t, requests) + DefaultCalls(t, requests)
  }

  function K6Sends(t: Traffic, requests: nat): seq<nat> {
    ScriptPlan(if K6Iterations(t) > 0 then K6Iterations(t) else 0, t, requests)
  }

  // ----- the same work -------------------------------------------------------

  lemma BagOfSum(a: seq<nat>, b: seq<nat>, r: nat)
    ensures multiset(a + b)[r] == multiset(a)[r] + multiset(b)[r]
  {
    assert multiset(a + b) == multiset(a) + multiset(b);
  }

  lemma OnePass(requests: nat, r: nat)
    ensures multiset(seq(requests, (k: nat) => k))[r] == if r < requests then 1 else 0
  {
    var pass := seq(requests, (k: nat) => k);
    DistinctCounts(pass, r);
    if r < requests {
      assert pass[r] == r;
    }
  }

  lemma {:induction false} PassesCount(n: nat, requests: nat, r: nat)
    ensures multiset(Passes(n, requests))[r] == if r < requests then n else 0
  {
    if n > 0 {
      PassesCount(n - 1, requests, r);
      OnePass(requests, r);
      BagOfSum(Passes(n - 1, requests), seq(requests, (k: nat) => k), r);
    }
  }

  lemma {:induction false} ScriptCount(calls: nat, t: Traffic, requests: nat, r: nat)
    ensures multiset(ScriptPlan(calls, t, requests))[r] ==
            if r < requests then calls * (if t.kind == RetryStorm then ScriptAttempts(t) else 1) else 0
  {
    if calls > 0 {
      hide Passes;
      ScriptCount(calls - 1, t, requests, r);
      var attempts := if t.kind == RetryStorm then ScriptAttempts(t) else 1;
      PassesCount(attempts, requests, r);
      BagOfSum(ScriptPlan(calls - 1, t, requests), DefaultCalls(t, requests), r);
      assert calls * attempts == (calls - 1) * attempts + attempts;
    }
  }

  // How many slots of a plan are for a request.
  function SlotsFor(plan: seq<Slot>, r: nat): nat {
    multiset(Map<Slot, nat>(plan, RequestOf))[r]
  }

  lemma SlotsForSum(a: seq<Slot>, b: seq<Slot>, r: nat)
    ensures SlotsFor(a + b, r) == SlotsFor(a, r) + SlotsFor(b, r)
    ensures SlotsFor([], r) == 0
  {
    MapConcat<Slot, nat>(a, b, RequestOf);
    BagOfSum(Map<Slot, nat>(a, RequestOf), Map<Slot, nat>(b, RequestOf), r);
  }

  lemma SlotsForRow(i: nat, request: nat, attempts: nat, r: nat)
    ensures SlotsFor(Row(i, request, attempts), r) == if r == request then attempts else 0
  {
    AllAlike(Map<Slot, nat>(Row(i, request, attempts), RequestOf), request, r);
  }

  lemma {:induction false} AllAlike(s: seq<nat>, value: nat, r: nat)
    requires forall k | 0 <= k < |s| :: s[k] == value
    ensures multiset(s)[r] == if r == value then |s| else 0
  {
    if |s| > 0 {
      AllAlike(s[..|s| - 1], value, r);
      assert s == s[..|s| - 1] + [s[|s| - 1]];
    }
  }

  lemma {:induction false} PlanRequests(i: nat, requests: nat, attempts: nat, r: nat)
    ensures SlotsFor(Plan(i, requests, attempts), r) == if r < requests then attempts else 0
  {
    hide SlotsFor;
    if requests > 0 {
      PlanRequests(i, requests - 1, attempts, r);
      SlotsForRow(i, requests - 1, attempts, r);
      SlotsForSum(Plan(i, requests - 1, attempts), Row(i, requests - 1, attempts), r);
    } else {
      SlotsForSum([], [], r);
    }
  }

  lemma {:induction false} FullPlanRequests(iterations: nat, requests: nat, attempts: nat, r: nat)
    ensures SlotsFor(FullPlan(iterations, requests, attempts), r) == if r < requests then iterations * attempts else 0
  {
    hide SlotsFor, Plan;
    if iterations > 0 {
      FullPlanRequests(iterations - 1, requests, attempts, r);
      PlanRequests(iterations - 1, requests, attempts, r);
      SlotsForSum(FullPlan(iterations - 1, requests, attempts), Plan(iterations - 1, requests, attempts), r);
      assert iterations * attempts == (iterations - 1) * attempts + attempts;
    } else {
      SlotsForSum([], [], r);
    }
  }

  // After normalization the script sends every request exactly as often as the built-in runner,
  // for every traffic type and all sizes: a retry storm goes attempt by attempt instead of
  // request by request, and a race runs more iterations instead of starting racers.
  lemma SameWork(traffic: Traffic, requests: nat)
    ensures var t := NormalTraffic(traffic);
            multiset(K6Sends(t, requests)) == multiset(Map<Slot, nat>(RunnerPlan(t, requests), RequestOf))
  {
    var t := NormalTraffic(traffic);
    var calls, iterations, attempts := K6Iterations(t), t.iterations, RunnerAttempts(t);
    var sends, plan := K6Sends(t, requests), Map<Slot, nat>(RunnerPlan(t, requests), RequestOf);
    hide FullPlan, ScriptPlan, Map;
    CallsTimesAttempts(t);
    forall r | r in sends || r in plan
      ensures multiset(sends)[r] == multiset(plan)[r]
    {
      ScriptCount(calls, t, requests, r);
      FullPlanRequests(iterations, requests, attempts, r);
    }
    SameCounts<nat>(sends, plan);
  }

  lemma CallsTimesAttempts(t: Traffic)
    requires t.concurrency >= 1 && t.iterations >= 1 && (t.kind == RetryStorm ==> t.attempts >= 1)
    ensures K6Iterations(t) >= 1
    ensures K6Iterations(t) * (if t.kind == RetryStorm then ScriptAttempts(t) else 1) == t.iterations * RunnerAttempts(t)
  {
    if t.kind == Race {
      assert t.concurrency * t.iterations >= t.iterations;
    }
  }

  // How RunWithOptions sets up the pool and the race.
  function PoolFor(t: Traffic, requests: nat): TrafficPool.Config
    requires t.concurrency >= 1 && t.iterations >= 1
  {
    TrafficPool.Config(t.iterations, requests, RunnerAttempts(t), t.concurrency, t.ratePerSecond > 0,
                       t.kind == RetryStorm && t.backoffMS > 0)
  }

  function RaceFor(t: Traffic, requests: nat): TrafficRace.Config
    requires t.concurrency >= 1 && t.iterations >= 1
  {
    TrafficRace.Config(t.iterations, requests, t.concurrency, t.ratePerSecond > 0)
  }

  // Every finished pool has sent, request by request, what the script sends.
  lemma PoolSendsTheSame(traffic: Traffic, requests: nat, acts: seq<TrafficPool.Action>)
    requires traffic.kind != Race
    requires var cfg := PoolFor(NormalTraffic(traffic), requests);
             TrafficPool.Allowed(cfg, TrafficPool.Start(cfg), acts) &&
             var w := TrafficPool.Play(cfg, TrafficPool.Start(cfg), acts); w.returned && !w.done
    ensures var t := NormalTraffic(traffic);
            var cfg := PoolFor(t, requests);
            multiset(Map<Slot, nat>(TrafficPool.Play(cfg, TrafficPool.Start(cfg), acts).records, RequestOf)) == multiset(K6Sends(t, requests))
  {
    hide TrafficPool.Allowed, TrafficPool.Play, FullPlan, K6Sends, RunnerAttempts;
    var t := NormalTraffic(traffic);
    var cfg := PoolFor(t, requests);
    AttemptsPositive(t);
    TrafficPool.EverythingOnce(cfg, acts);
    MapPermutes<Slot, nat>(TrafficPool.Play(cfg, TrafficPool.Start(cfg), acts).records, RunnerPlan(t, requests), RequestOf);
    SameWork(traffic, requests);
  }

  lemma AttemptsPositive(t: Traffic)
    requires t.kind != Race
    ensures RunnerAttempts(t) >= 1
  {
  }

  // So has every finished race.
  lemma RaceSendsTheSame(traffic: Traffic, requests: nat, acts: seq<TrafficRace.Action>)
    requires traffic.kind == Race
    requires var cfg := RaceFor(NormalTraffic(traffic), requests);
             TrafficRace.Allowed(cfg, TrafficRace.START, acts) &&
             var w := TrafficRace.Play(cfg, TrafficRace.START, acts); w.main == TrafficRace.Returned && !w.done
    ensures var t := NormalTraffic(traffic);
            multiset(Map<Slot, nat>(TrafficRace.Play(RaceFor(t, requests), TrafficRace.START, acts).records, RequestOf)) ==
            multiset(K6Sends(t, requests))
  {
    hide TrafficRace.Allowed, TrafficRace.Play, FullPlan, K6Sends;
    var t := NormalTraffic(traffic);
    TrafficRace.EveryRacerOnce(RaceFor(t, requests), acts);
    MapPermutes<Slot, nat>(TrafficRace.Play(RaceFor(t, requests), TrafficRace.START, acts).records, RunnerPlan(t, requests), RequestOf);
    SameWork(traffic, requests);
  }

  // ----- the statuses that get a counter -------------------------------------

  const DEFAULT_CODES := [0, 200, 201, 204, 400, 401, 403, 404, 409, 500, 502, 503, 504]

  // The default codes, then each expected code that is not there yet, in the order listed.
  method StatusCodesToTrack(expected: seq<int>) returns (codes: seq<int>)
    ensures DEFAULT_CODES <= codes && Distinct(codes)
    ensures forall c :: c in codes <==> c in DEFAULT_CODES || c in expected
  {
    codes := DEFAULT_CODES;
    for i := 0 to |expected|
      invariant DEFAULT_CODES <= codes && Distinct(codes)
      invariant forall c :: c in codes <==> c in DEFAULT_CODES || c in expected[..i]
    {
      var c := expected[i];
      var found := false;
      for j := 0 to |codes|
        invariant c !in codes[..j]
        invariant !found
      {
        if codes[j] == c {
          found := true;
          break;
        }
      }
      assert found <==> c in codes;
      assert expected[..i + 1] == expected[..i] + [c];
      if !found {
        codes := codes + [c];
      }
    }
    assert expected[..|expected|] == expected;
  }
}
