// The requests a run of traffic is meant to send. A slot stands for one request: its iteration,
// the index of the request in the scenario, and the attempt (or, in race mode, the racer).
module TrafficPlan {
  import opened Prelude

  datatype Slot = Slot(iteration: nat, request: nat, attempt: nat)

  // Attempts 1 .. attempts of one request of one iteration.
  function Row(iteration: nat, request: nat, attempts: nat): (r: seq<Slot>)
    ensures |r| == attempts
    ensures forall t | 0 <= t < attempts :: r[t] == Slot(iteration, request, t + 1)
  {
    seq(attempts, (t: nat) => Slot(iteration, request, t + 1))
  }

  // One iteration, request by request, each with all its attempts.
  function Plan(iteration: nat, requests: nat, attempts: nat): (p: seq<Slot>)
    ensures |p| == requests * attempts
  {
    if requests == 0 then [] else Plan(iteration, requests - 1, attempts) + Row(iteration, requests - 1, attempts)
  }

  function FullPlan(iterations: nat, requests: nat, attempts: nat): seq<Slot> {
    if iterations == 0 then []
    else FullPlan(iterations - 1, requests, attempts) + Plan(iterations - 1, requests, attempts)
  }

  lemma {:induction false} FullPlanLength(iterations: nat, requests: nat, attempts: nat)
    ensures |FullPlan(iterations, requests, attempts)| == iterations * (requests * attempts)
  {
    if iterations > 0 {
      FullPlanLength(iterations - 1, requests, attempts);
    }
  }

  predicate InPlan(s: Slot, iterations: nat, requests: nat, attempts: nat) {
    s.iteration < iterations && s.request < requests && 1 <= s.attempt <= attempts
  }

  // The position of a slot in the plan of its iteration.
  function Rank(request: nat, attempt: nat, attempts: nat): nat
    requires 1 <= attempt
  {
    request * attempts + attempt - 1
  }

  lemma RankBelow(request: nat, attempt: nat, requests: nat, attempts: nat)
    requires request < requests && 1 <= attempt <= attempts
    ensures Rank(request, attempt, attempts) < requests * attempts
    ensures attempt == attempts ==> Rank(request, attempt, attempts) + 1 == (request + 1) * attempts
  {
    var rest := requests - 1 - request;
    assert requests * attempts == request * attempts + attempts + rest * attempts;
  }

  lemma {:induction false} PlanAt(iteration: nat, request: nat, attempt: nat, requests: nat, attempts: nat)
    requires request < requests && 1 <= attempt <= attempts
    ensures Rank(request, attempt, attempts) < requests * attempts
    ensures Plan(iteration, requests, attempts)[Rank(request, attempt, attempts)] == Slot(iteration, request, attempt)
  {
    RankBelow(request, attempt, requests, attempts);
    if request < requests - 1 {
      PlanAt(iteration, request, attempt, requests - 1, attempts);
    }
  }

  lemma ConcatCounts(a: seq<Slot>, b: seq<Slot>, s: Slot)
    ensures multiset(a + b)[s] == multiset(a)[s] + multiset(b)[s]
  {
    assert multiset(a + b) == multiset(a) + multiset(b);
  }

  // Which slots a plan holds, each once.
  lemma {:induction false} PlanCounts(iteration: nat, requests: nat, attempts: nat, s: Slot)
    ensures multiset(Plan(iteration, requests, attempts))[s] ==
            if s.iteration == iteration && s.request < requests && 1 <= s.attempt <= attempts then 1 else 0
  {
    if requests > 0 {
      hide Row;
      PlanCounts(iteration, requests - 1, attempts, s);
      RowCounts(iteration, requests - 1, attempts, s);
      ConcatCounts(Plan(iteration, requests - 1, attempts), Row(iteration, requests - 1, attempts), s);
    }
  }

  lemma RowCounts(iteration: nat, request: nat, attempts: nat, s: Slot)
    ensures multiset(Row(iteration, request, attempts))[s] ==
            if s.iteration == iteration && s.request == request && 1 <= s.attempt <= attempts then 1 else 0
  {
    var row := Row(iteration, request, attempts);
    DistinctCounts(row, s);
    if s.iteration == iteration && s.request == request && 1 <= s.attempt <= attempts {
      assert row[s.attempt - 1] == s;
    }
  }

  lemma {:induction false} FullPlanCounts(iterations: nat, requests: nat, attempts: nat, s: Slot)
    ensures multiset(FullPlan(iterations, requests, attempts))[s] == if InPlan(s, iterations, requests, attempts) then 1 else 0
  {
    hide Plan;
    if iterations > 0 {
      var front, last := FullPlan(iterations - 1, requests, attempts), Plan(iterations - 1, requests, attempts);
      assert FullPlan(iterations, requests, attempts) == front + last;
      hide FullPlan;
      FullPlanCounts(iterations - 1, requests, attempts, s);
      PlanCounts(iterations - 1, requests, attempts, s);
      ConcatCounts(front, last, s);
    }
  }

  // ----- the records of one iteration ----------------------------------------

  function InIteration(i: nat): Slot -> bool {
    (s: Slot) => s.iteration == i
  }

  function Of(records: seq<Slot>, i: nat): seq<Slot> {
    Filter(records, InIteration(i))
  }

  // Every iteration's records are a prefix of its request-major order.
  ghost predicate Prefixes(records: seq<Slot>, requests: nat, attempts: nat) {
    forall i: nat :: Of(records, i) <= Plan(i, requests, attempts)
  }

  lemma PrefixCount(p: seq<Slot>, q: seq<Slot>, s: Slot)
    requires p <= q
    ensures multiset(p)[s] <= multiset(q)[s]
  {
    assert q == p + q[|p|..];
  }

  // No slot is recorded twice.
  lemma PrefixesMeanNoRepeats(records: seq<Slot>, requests: nat, attempts: nat, s: Slot)
    requires Prefixes(records, requests, attempts)
    ensures multiset(records)[s] <= 1
    ensures multiset(records)[s] == 1 ==> s.request < requests && 1 <= s.attempt <= attempts
  {
    FilterCounts(records, InIteration(s.iteration), s);
    PrefixCount(Of(records, s.iteration), Plan(s.iteration, requests, attempts), s);
    PlanCounts(s.iteration, requests, attempts, s);
  }

  // Records that make up every iteration's plan make up the whole plan, each slot once.
  lemma CompleteMeansAll(records: seq<Slot>, iterations: nat, requests: nat, attempts: nat)
    requires forall i: nat :: Of(records, i) == if i < iterations then Plan(i, requests, attempts) else []
    ensures multiset(records) == multiset(FullPlan(iterations, requests, attempts))
    ensures |records| == iterations * (requests * attempts)
  {
    var all := FullPlan(iterations, requests, attempts);
    forall s | s in records || s in all
      ensures multiset(records)[s] == multiset(all)[s]
    {
      FilterCounts(records, InIteration(s.iteration), s);
      PlanCounts(s.iteration, requests, attempts, s);
      FullPlanCounts(iterations, requests, attempts, s);
    }
    SameCounts(records, all);
    FullPlanLength(iterations, requests, attempts);
    assert |multiset(records)| == |multiset(all)|;
  }

  lemma OfPush(records: seq<Slot>, s: Slot, i: nat)
    ensures Of(records + [s], i) == Of(records, i) + if s.iteration == i then [s] else []
  {
    FilterPush(records, s, InIteration(i));
  }
}
