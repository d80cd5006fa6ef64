// The worker pool: one producer hands iterations to any number of workers over an unbuffered
// channel; every worker, the producer, the limiter's ticker and the cancellation of the context
// interleave step by step.
module TrafficPool {
  import opened Prelude
  import opened TrafficPlan

  // backoff stands for a retry storm with a positive backoff.
  datatype Config = Config(iterations: nat, requests: nat, attempts: nat, workers: nat, limited: bool, backoff: bool)

  // The smallest counts are those that Normalized leaves.
  predicate Valid(cfg: Config) {
    cfg.attempts >= 1 && cfg.workers >= 1
  }

  // Where a worker stands; the line numbers are those of runner.go.
  datatype Pc =
    | Receiving                                      // 97
    | Received(i: nat)                               // 98
    | AtAttempt(i: nat, request: nat, attempt: nat)  // 103
    | Waiting(i: nat, request: nat, attempt: nat)    // 106
    | Sending(i: nat, request: nat, attempt: nat)    // 109 and 110
    | Sleeping(i: nat, request: nat, attempt: nat)   // 114
    | Woken(i: nat, request: nat, attempt: nat)      // 115
    | Exited

  // next is the iteration on offer; token is the tick waiting in the limiter's channel.
  datatype World = World(
    next: nat, closed: bool, returned: bool, workers: seq<Pc>, done: bool, token: bool, records: seq<Slot>)

  datatype Action =
    | Handoff(w: nat)    // 130: the producer's send meets a worker's receive
    | Close              // 127 or 133
    | Return             // 128 or 134, after wg.Wait
    | Advance(w: nat)    // a worker's next step, when it has only one
    | TakeTick(w: nat)   // 106: the limiter lets it through
    | GiveUp(w: nat)     // 106: the context is done
    | Tick
    | CancelContext

  function Start(cfg: Config): World {
    World(0, false, false, seq(cfg.workers, _ => Receiving), false, false, [])
  }

  // The next position of the two inner loops.
  function Onward(cfg: Config, i: nat, request: nat, attempt: nat): Pc {
    if attempt < cfg.attempts then AtAttempt(i, request, attempt + 1)
    else if request + 1 < cfg.requests then AtAttempt(i, request + 1, 1)
    else Receiving
  }

  function AfterStep(cfg: Config, w: World, pc: Pc): Pc {
    match pc
    case Receiving => Exited
    case Received(i) => if w.done then Exited else if cfg.requests == 0 then Receiving else AtAttempt(i, 0, 1)
    case AtAttempt(i, r, t) => if w.done then Exited else Waiting(i, r, t)
    case Waiting(i, r, t) => if w.done then Exited else Sending(i, r, t)
    case Sending(i, r, t) => if cfg.backoff && t != cfg.attempts then Sleeping(i, r, t) else Onward(cfg, i, r, t)
    case Sleeping(i, r, t) => Woken(i, r, t)
    case Woken(i, r, t) => if w.done then Exited else Onward(cfg, i, r, t)
    case Exited => Exited
  }

  predicate CanAdvance(cfg: Config, w: World, pc: Pc) {
    match pc
    case Receiving => w.closed
    case Waiting(_, _, _) => !cfg.limited
    case Exited => false
    case _ => true
  }

  predicate Enabled(cfg: Config, w: World, act: Action) {
    match act
    case Handoff(k) => !w.closed && w.next < cfg.iterations && k < |w.workers| && w.workers[k] == Receiving
    case Close => !w.closed && (w.next == cfg.iterations || w.done)
    case Return => w.closed && !w.returned && forall k | 0 <= k < |w.workers| :: w.workers[k] == Exited
    case Advance(k) => k < |w.workers| && CanAdvance(cfg, w, w.workers[k])
    case TakeTick(k) => k < |w.workers| && w.workers[k].Waiting? && cfg.limited && w.token
    case GiveUp(k) => k < |w.workers| && w.workers[k].Waiting? && cfg.limited && w.done
    case Tick => cfg.limited
    case CancelContext => true
  }

  function Next(cfg: Config, w: World, act: Action): World
    requires Enabled(cfg, w, act)
  {
    match act
    case Handoff(k) => w.(next := w.next + 1, workers := w.workers[k := Received(w.next)])
    case Close => w.(closed := true)
    case Return => w.(returned := true)
    case Advance(k) =>
      var pc := w.workers[k];
      w.(workers := w.workers[k := AfterStep(cfg, w, pc)],
         records := if pc.Sending? then w.records + [Slot(pc.i, pc.request, pc.attempt)] else w.records)
    case TakeTick(k) =>
      var pc := w.workers[k];
      w.(workers := w.workers[k := Sending(pc.i, pc.request, pc.attempt)], token := false)
    case GiveUp(k) => w.(workers := w.workers[k := Exited])
    case Tick => w.(token := true)
    case CancelContext => w.(done := true)
  }

  predicate Allowed(cfg: Config, w: World, acts: seq<Action>)
    decreases |acts|
  {
    |acts| == 0 || (Enabled(cfg, w, acts[0]) && Allowed(cfg, Next(cfg, w, acts[0]), acts[1..]))
  }

  function Play(cfg: Config, w: World, acts: seq<Action>): World
    requires Allowed(cfg, w, acts)
    decreases |acts|
  {
    if |acts| == 0 then w else Play(cfg, Next(cfg, w, acts[0]), acts[1..])
  }

  // ----- the invariant -------------------------------------------------------

  predicate Holds(pc: Pc) {
    pc != Receiving && pc != Exited
  }

  // A worker's position exists in the plan.
  predicate InRange(cfg: Config, pc: Pc) {
    pc.AtAttempt? || pc.Waiting? || pc.Sending? || pc.Sleeping? || pc.Woken? ==>
      pc.request < cfg.requests && 1 <= pc.attempt <= cfg.attempts &&
      (pc.Sleeping? || pc.Woken? ==> pc.attempt < cfg.attempts)
  }

  // How many records of its iteration a worker has made.
  function Made(cfg: Config, pc: Pc): nat
    requires InRange(cfg, pc)
  {
    match pc
    case AtAttempt(_, r, t) => Rank(r, t, cfg.attempts)
    case Waiting(_, r, t) => Rank(r, t, cfg.attempts)
    case Sending(_, r, t) => Rank(r, t, cfg.attempts)
    case Sleeping(_, r, t) => Rank(r, t, cfg.attempts) + 1
    case Woken(_, r, t) => Rank(r, t, cfg.attempts) + 1
    case _ => 0
  }

  predicate WorkerOk(cfg: Config, w: World, pc: Pc) {
    && InRange(cfg, pc)
    && (Holds(pc) ==> pc.i < w.next && |Of(w.records, pc.i)| == Made(cfg, pc))
    && (pc == Exited ==> w.closed || w.done)
  }

  predicate Held(w: World, i: nat) {
    exists k :: 0 <= k < |w.workers| && Holds(w.workers[k]) && w.workers[k].i == i
  }

  // An iteration handed out and no longer held is complete, or its worker gave up.
  ghost predicate LetGo(cfg: Config, w: World, i: nat) {
    i < w.next && !Held(w, i) ==> w.done || |Of(w.records, i)| == cfg.requests * cfg.attempts
  }

  ghost predicate Separate(w: World) {
    forall j, k | 0 <= j < k < |w.workers| && Holds(w.workers[j]) && Holds(w.workers[k]) :: w.workers[j].i != w.workers[k].i
  }

  ghost predicate WorldInv(cfg: Config, w: World) {
    && Valid(cfg) && |w.workers| == cfg.workers && w.next <= cfg.iterations
    && (w.closed ==> w.next == cfg.iterations || w.done)
    && (w.returned ==> w.closed && forall k | 0 <= k < |w.workers| :: w.workers[k] == Exited)
    && Prefixes(w.records, cfg.requests, cfg.attempts)
    && (forall i: nat | i >= w.next :: Of(w.records, i) == [])
    && (forall k | 0 <= k < |w.workers| :: WorkerOk(cfg, w, w.workers[k]))
    && Separate(w)
    && (forall i: nat :: LetGo(cfg, w, i))
  }

  lemma OnwardOk(cfg: Config, i: nat, request: nat, attempt: nat)
    requires request < cfg.requests && 1 <= attempt <= cfg.attempts
    ensures var pc, made := Onward(cfg, i, request, attempt), Rank(request, attempt, cfg.attempts) + 1;
            && InRange(cfg, pc)
            && (if Holds(pc) then pc.i == i && Made(cfg, pc) == made
                else pc == Receiving && made == cfg.requests * cfg.attempts)
  {
    RankBelow(request, attempt, cfg.requests, cfg.attempts);
  }

  predicate HoldsIt(pc: Pc, i: nat) {
    Holds(pc) && pc.i == i
  }

  // An iteration held by another worker stays held.
  lemma HeldByOther(w: World, k: nat, w': World, i: nat)
    requires k < |w.workers| && |w'.workers| == |w.workers| && w'.workers == w.workers[k := w'.workers[k]]
    requires Held(w, i) && !HoldsIt(w.workers[k], i)
    ensures Held(w', i)
  {
    var j :| 0 <= j < |w.workers| && Holds(w.workers[j]) && w.workers[j].i == i;
    assert w'.workers[j] == w.workers[j];
  }

  lemma HeldBy(w: World, k: nat, i: nat)
    requires k < |w.workers| && HoldsIt(w.workers[k], i)
    ensures Held(w, i)
  {
  }

  // A worker moves within its iteration, or leaves it complete or canceled.
  lemma MoveKeeps(cfg: Config, w: World, k: nat, pc: Pc, w': World)
    requires WorldInv(cfg, w) && k < |w.workers| && !w.returned
    requires w' == w.(workers := w.workers[k := pc], token := w'.token)
    requires WorkerOk(cfg, w, pc)
    requires Holds(pc) ==> Holds(w.workers[k]) && pc.i == w.workers[k].i
    requires Holds(w.workers[k]) && !Holds(pc) ==> w.done || |Of(w.records, w.workers[k].i)| == cfg.requests * cfg.attempts
    ensures WorldInv(cfg, w')
  {
    hide Of, Prefixes, Made, InRange, Held;
    forall i: nat
      ensures LetGo(cfg, w', i)
    {
      assert LetGo(cfg, w, i);
      if HoldsIt(w'.workers[k], i) {
        HeldBy(w', k, i);
      } else if Held(w, i) && !HoldsIt(w.workers[k], i) {
        HeldByOther(w, k, w', i);
      }
    }
  }

  lemma RecordLog(cfg: Config, w: World, s: Slot)
    requires Prefixes(w.records, cfg.requests, cfg.attempts)
    requires s.request < cfg.requests && 1 <= s.attempt <= cfg.attempts
    requires |Of(w.records, s.iteration)| == Rank(s.request, s.attempt, cfg.attempts)
    ensures Prefixes(w.records + [s], cfg.requests, cfg.attempts)
    ensures |Of(w.records + [s], s.iteration)| == |Of(w.records, s.iteration)| + 1
    ensures forall i: nat | i != s.iteration :: Of(w.records + [s], i) == Of(w.records, i)
  {
    hide Of, Plan;
    PlanAt(s.iteration, s.request, s.attempt, cfg.requests, cfg.attempts);
    forall i: nat
      ensures Of(w.records + [s], i) <= Plan(i, cfg.requests, cfg.attempts)
      ensures i != s.iteration ==> Of(w.records + [s], i) == Of(w.records, i)
    {
      OfPush(w.records, s, i);
      assert Of(w.records, i) <= Plan(i, cfg.requests, cfg.attempts);
    }
    OfPush(w.records, s, s.iteration);
  }

  // A worker records the slot it is at and moves on.
  lemma RecordKeeps(cfg: Config, w: World, k: nat)
    requires WorldInv(cfg, w) && k < |w.workers| && w.workers[k].Sending?
    ensures WorldInv(cfg, Next(cfg, w, Advance(k)))
  {
    hide Of, Prefixes, Made, InRange, Onward, Held;
    var pc := w.workers[k];
    var s := Slot(pc.i, pc.request, pc.attempt);
    var w' := Next(cfg, w, Advance(k));
    var pc' := w'.workers[k];
    assert WorkerOk(cfg, w, pc);
    SendingOk(cfg, w, pc);
    RecordLog(cfg, w, s);
    forall j | 0 <= j < |w'.workers|
      ensures WorkerOk(cfg, w', w'.workers[j])
    {
      if j != k {
        assert WorkerOk(cfg, w, w.workers[j]);
      }
    }
    forall i: nat
      ensures LetGo(cfg, w', i)
    {
      assert LetGo(cfg, w, i);
      if HoldsIt(w'.workers[k], i) {
        HeldBy(w', k, i);
      } else if Held(w, i) && !HoldsIt(w.workers[k], i) {
        HeldByOther(w, k, w', i);
      }
    }
  }

  lemma SendingOk(cfg: Config, w: World, pc: Pc)
    requires pc.Sending? && WorkerOk(cfg, w, pc)
    ensures pc.request < cfg.requests && 1 <= pc.attempt <= cfg.attempts
    ensures |Of(w.records, pc.i)| == Rank(pc.request, pc.attempt, cfg.attempts)
    ensures var pc', made := AfterStep(cfg, w, pc), Rank(pc.request, pc.attempt, cfg.attempts) + 1;
            && InRange(cfg, pc') && pc' != Exited
            && (if Holds(pc') then pc'.i == pc.i && Made(cfg, pc') == made else made == cfg.requests * cfg.attempts)
  {
    OnwardOk(cfg, pc.i, pc.request, pc.attempt);
  }

  // The other steps of a worker record nothing.
  lemma QuietStep(cfg: Config, w: World, pc: Pc)
    requires WorkerOk(cfg, w, pc) && CanAdvance(cfg, w, pc) && !pc.Sending? && Valid(cfg)
    ensures var pc' := AfterStep(cfg, w, pc);
            && WorkerOk(cfg, w, pc')
            && (Holds(pc') ==> Holds(pc) && pc'.i == pc.i)
            && (Holds(pc) && !Holds(pc') ==> w.done || |Of(w.records, pc.i)| == cfg.requests * cfg.attempts)
  {
    hide Of;
    if pc.Woken? {
      OnwardOk(cfg, pc.i, pc.request, pc.attempt);
    }
  }

  lemma AdvanceKeeps(cfg: Config, w: World, k: nat)
    requires WorldInv(cfg, w) && Enabled(cfg, w, Advance(k))
    ensures WorldInv(cfg, Next(cfg, w, Advance(k)))
  {
    if w.workers[k].Sending? {
      RecordKeeps(cfg, w, k);
    } else {
      assert WorkerOk(cfg, w, w.workers[k]);
      QuietStep(cfg, w, w.workers[k]);
      hide WorldInv, WorkerOk;
      NotReturned(cfg, w, k);
      MoveKeeps(cfg, w, k, AfterStep(cfg, w, w.workers[k]), Next(cfg, w, Advance(k)));
    }
  }

  lemma NotReturned(cfg: Config, w: World, k: nat)
    requires WorldInv(cfg, w) && k < |w.workers| && w.workers[k] != Exited
    ensures !w.returned
  {
  }

  lemma LimiterKeeps(cfg: Config, w: World, act: Action)
    requires WorldInv(cfg, w) && Enabled(cfg, w, act) && (act.TakeTick? || act.GiveUp?)
    ensures WorldInv(cfg, Next(cfg, w, act))
  {
    var k := act.w;
    assert WorkerOk(cfg, w, w.workers[k]);
    NotReturned(cfg, w, k);
    hide WorldInv, Of;
    MoveKeeps(cfg, w, k, Next(cfg, w, act).workers[k], Next(cfg, w, act));
  }

  lemma HandoffKeeps(cfg: Config, w: World, k: nat)
    requires WorldInv(cfg, w) && Enabled(cfg, w, Handoff(k))
    ensures WorldInv(cfg, Next(cfg, w, Handoff(k)))
  {
    hide Of, Prefixes, Made, InRange;
    var w' := Next(cfg, w, Handoff(k));
    assert Of(w.records, w.next) == [];
    forall j | 0 <= j < |w'.workers|
      ensures WorkerOk(cfg, w', w'.workers[j])
    {
      if j != k {
        assert WorkerOk(cfg, w, w.workers[j]);
      } else {
        ReceivedOk(cfg, w.next);
      }
    }
    forall i: nat
      ensures LetGo(cfg, w', i)
    {
      assert LetGo(cfg, w, i);
      if i == w.next {
        assert Holds(w'.workers[k]) && w'.workers[k].i == i;
      } else if Held(w, i) {
        var j :| 0 <= j < |w.workers| && Holds(w.workers[j]) && w.workers[j].i == i;
        assert w'.workers[j] == w.workers[j];
      }
    }
    assert forall j | 0 <= j < |w.workers| && Holds(w.workers[j]) :: WorkerOk(cfg, w, w.workers[j]);
  }

  lemma ReceivedOk(cfg: Config, i: nat)
    ensures InRange(cfg, Received(i)) && Made(cfg, Received(i)) == 0
  {
  }

  lemma EnvironmentKeeps(cfg: Config, w: World, act: Action)
    requires WorldInv(cfg, w) && Enabled(cfg, w, act)
    requires act.Close? || act.Return? || act.Tick? || act.CancelContext?
    ensures WorldInv(cfg, Next(cfg, w, act))
  {
    hide Of, Prefixes, Made, InRange;
    var w' := Next(cfg, w, act);
    forall i: nat
      ensures LetGo(cfg, w', i)
    {
      assert LetGo(cfg, w, i);
      assert Held(w', i) <==> Held(w, i);
    }
    assert forall j | 0 <= j < |w.workers| :: WorkerOk(cfg, w, w.workers[j]);
  }

  lemma NextInv(cfg: Config, w: World, act: Action)
    requires WorldInv(cfg, w) && Enabled(cfg, w, act)
    ensures WorldInv(cfg, Next(cfg, w, act))
  {
    hide WorldInv, Next, Enabled;
    match act
    case Handoff(k) => HandoffKeeps(cfg, w, k);
    case Advance(k) => AdvanceKeeps(cfg, w, k);
    case TakeTick(k) => LimiterKeeps(cfg, w, act);
    case GiveUp(k) => LimiterKeeps(cfg, w, act);
    case _ => EnvironmentKeeps(cfg, w, act);
  }

  lemma {:induction false} PlayInv(cfg: Config, w: World, acts: seq<Action>)
    requires WorldInv(cfg, w) && Allowed(cfg, w, acts)
    ensures WorldInv(cfg, Play(cfg, w, acts))
    decreases |acts|
  {
    if |acts| > 0 {
      NextInv(cfg, w, acts[0]);
      hide WorldInv, Next, Enabled;
      PlayInv(cfg, Next(cfg, w, acts[0]), acts[1..]);
    }
  }

  lemma StartInv(cfg: Config)
    requires Valid(cfg)
    ensures WorldInv(cfg, Start(cfg))
  {
  }

  // ----- conservation of work ------------------------------------------------

  // In every interleaving each iteration's records are a prefix of its request-major order,
  // and no slot is recorded twice.
  lemma NothingTwice(cfg: Config, acts: seq<Action>)
    requires Valid(cfg) && Allowed(cfg, Start(cfg), acts)
    ensures var records := Play(cfg, Start(cfg), acts).records;
            && Prefixes(records, cfg.requests, cfg.attempts)
            && (forall s :: multiset(records)[s] <= 1)
            && (forall s | s in records :: InPlan(s, cfg.iterations, cfg.requests, cfg.attempts))
  {
    StartInv(cfg);
    PlayInv(cfg, Start(cfg), acts);
    hide Allowed, Play, Start;
    var w := Play(cfg, Start(cfg), acts);
    forall s: Slot
      ensures multiset(w.records)[s] <= 1
      ensures s in w.records ==> InPlan(s, cfg.iterations, cfg.requests, cfg.attempts)
    {
      PrefixesMeanNoRepeats(w.records, cfg.requests, cfg.attempts, s);
      FilterMembers(w.records, InIteration(s.iteration));
      assert s in w.records ==> s in Of(w.records, s.iteration);
    }
  }

  // When the pool ends and the context was never done, every slot was recorded exactly once.
  lemma EverythingOnce(cfg: Config, acts: seq<Action>)
    requires Valid(cfg) && Allowed(cfg, Start(cfg), acts)
    requires Play(cfg, Start(cfg), acts).returned && !Play(cfg, Start(cfg), acts).done
    ensures var records := Play(cfg, Start(cfg), acts).records;
            && multiset(records) == multiset(FullPlan(cfg.iterations, cfg.requests, cfg.attempts))
            && |records| == cfg.iterations * (cfg.requests * cfg.attempts)
  {
    StartInv(cfg);
    PlayInv(cfg, Start(cfg), acts);
    hide Allowed, Play, Start, Of, Plan;
    var w := Play(cfg, Start(cfg), acts);
    forall i: nat
      ensures Of(w.records, i) == if i < cfg.iterations then Plan(i, cfg.requests, cfg.attempts) else []
    {
      if i < cfg.iterations {
        assert LetGo(cfg, w, i) && !Held(w, i);
        assert Of(w.records, i) <= Plan(i, cfg.requests, cfg.attempts);
      }
    }
    CompleteMeansAll(w.records, cfg.iterations, cfg.requests, cfg.attempts);
  }

  // ----- no stuck state, and an end ------------------------------------------

  predicate Own(act: Action) {
    !act.Tick? && !act.CancelContext?
  }

  // Until the pool has returned it has a step of its own, if need be after the next tick.
  lemma NotStuck(cfg: Config, w: World) returns (act: Action)
    requires WorldInv(cfg, w) && !w.returned
    ensures Own(act)
    ensures || Enabled(cfg, w, act)
            || (Enabled(cfg, w, Tick) && !w.token && !w.done && Enabled(cfg, Next(cfg, w, Tick), act))
  {
    hide LetGo, Separate, Prefixes, Of;
    if k :| 0 <= k < |w.workers| && Holds(w.workers[k]) {
      if w.workers[k].Waiting? && cfg.limited {
        act := if w.done then GiveUp(k) else TakeTick(k);
      } else {
        act := Advance(k);
      }
    } else if k :| 0 <= k < |w.workers| && w.workers[k] == Receiving {
      act := if w.closed then Advance(k) else if w.next == cfg.iterations || w.done then Close else Handoff(k);
    } else if w.closed {
      act := Return;
    } else {
      assert WorkerOk(cfg, w, w.workers[0]) && w.workers[0] == Exited;
      act := Close;
    }
  }

  function Slots(cfg: Config): nat {
    cfg.requests * cfg.attempts
  }

  lemma SlotBelow(cfg: Config, request: nat, attempt: nat)
    requires request < cfg.requests && 1 <= attempt <= cfg.attempts
    ensures Rank(request, attempt, cfg.attempts) < Slots(cfg)
  {
    RankBelow(request, attempt, cfg.requests, cfg.attempts);
  }

  // Five steps at most for each slot that is left.
  function LeftAt(cfg: Config, request: nat, attempt: nat): (n: int)
    requires request < cfg.requests && 1 <= attempt <= cfg.attempts
    ensures n >= 5
  {
    SlotBelow(cfg, request, attempt);
    5 * (Slots(cfg) - Rank(request, attempt, cfg.attempts))
  }

  // What a worker still has to do before it is at the channel again, and then to leave.
  function Left(cfg: Config, pc: Pc): nat {
    if !InRange(cfg, pc) then 0
    else
      match pc
      case Exited => 0
      case Receiving => 1
      case Received(_) => 2 + 5 * Slots(cfg)
      case AtAttempt(_, r, t) => LeftAt(cfg, r, t) + 1
      case Waiting(_, r, t) => LeftAt(cfg, r, t)
      case Sending(_, r, t) => LeftAt(cfg, r, t) - 1
      case Sleeping(_, r, t) => LeftAt(cfg, r, t) - 2
      case Woken(_, r, t) => LeftAt(cfg, r, t) - 3
  }

  function LeftOf(cfg: Config, workers: seq<Pc>): nat {
    if |workers| == 0 then 0 else LeftOf(cfg, workers[..|workers| - 1]) + Left(cfg, workers[|workers| - 1])
  }

  // What is on offer, what the workers have left, and the two steps of the producer's end.
  function Measure(cfg: Config, w: World): int {
    Offered(cfg, w.next) + LeftOf(cfg, w.workers) + (if w.closed then 0 else 1) + (if w.returned then 0 else 1)
  }

  function Offered(cfg: Config, next: nat): int {
    (cfg.iterations - next) * (2 + 5 * Slots(cfg))
  }

  lemma OfferedDrops(cfg: Config, next: nat)
    ensures Offered(cfg, next + 1) == Offered(cfg, next) - Left(cfg, Received(next))
  {
    var n, size := cfg.iterations - next, 2 + 5 * Slots(cfg);
    assert (n - 1) * size == n * size - size;
  }

  lemma {:induction false} LeftUpdate(cfg: Config, workers: seq<Pc>, k: nat, pc: Pc)
    requires k < |workers|
    ensures LeftOf(cfg, workers[k := pc]) == LeftOf(cfg, workers) - Left(cfg, workers[k]) + Left(cfg, pc)
  {
    hide Left;
    var front := workers[..|workers| - 1];
    var workers' := workers[k := pc];
    if k == |front| {
      assert workers'[..|front|] == front;
    } else {
      LeftUpdate(cfg, front, k, pc);
      assert workers'[..|front|] == front[k := pc];
    }
  }

  lemma OnwardSpends(cfg: Config, i: nat, r: nat, t: nat)
    requires r < cfg.requests && 1 <= t <= cfg.attempts
    ensures Left(cfg, Onward(cfg, i, r, t)) == LeftAt(cfg, r, t) - 4
  {
    OnwardOk(cfg, i, r, t);
    hide Rank, Onward;
  }

  lemma FirstRank(attempts: nat)
    ensures Rank(0, 1, attempts) == 0
  {
  }

  lemma AdvanceSpends(cfg: Config, w: World, pc: Pc)
    requires InRange(cfg, pc) && CanAdvance(cfg, w, pc) && Valid(cfg)
    ensures Left(cfg, AfterStep(cfg, w, pc)) < Left(cfg, pc)
  {
    FirstRank(cfg.attempts);
    hide Rank, Slots, Onward;
    match pc
    case Sending(i, r, t) => OnwardSpends(cfg, i, r, t);
    case Woken(i, r, t) => OnwardSpends(cfg, i, r, t);
    case _ =>
  }

  lemma WorkerSpends(cfg: Config, w: World, k: nat, pc: Pc, w': World)
    requires k < |w.workers| && w'.workers == w.workers[k := pc]
    requires w'.next == w.next && w'.closed == w.closed && w'.returned == w.returned
    requires Left(cfg, pc) < Left(cfg, w.workers[k])
    ensures Measure(cfg, w') < Measure(cfg, w)
  {
    hide Left, LeftOf, Offered;
    LeftUpdate(cfg, w.workers, k, pc);
  }

  lemma AdvanceDrops(cfg: Config, w: World, k: nat)
    requires WorldInv(cfg, w) && Enabled(cfg, w, Advance(k))
    ensures Measure(cfg, Next(cfg, w, Advance(k))) < Measure(cfg, w)
  {
    assert WorkerOk(cfg, w, w.workers[k]);
    hide WorldInv, Left, Measure, AfterStep;
    InvValid(cfg, w);
    AdvanceSpends(cfg, w, w.workers[k]);
    WorkerSpends(cfg, w, k, AfterStep(cfg, w, w.workers[k]), Next(cfg, w, Advance(k)));
  }

  lemma LimiterDrops(cfg: Config, w: World, act: Action)
    requires WorldInv(cfg, w) && Enabled(cfg, w, act) && (act.TakeTick? || act.GiveUp?)
    ensures Measure(cfg, Next(cfg, w, act)) < Measure(cfg, w)
  {
    assert WorkerOk(cfg, w, w.workers[act.w]);
    hide WorldInv, Measure, Slots, Rank, Of;
    WorkerSpends(cfg, w, act.w, Next(cfg, w, act).workers[act.w], Next(cfg, w, act));
  }

  lemma HandoffDrops(cfg: Config, w: World, k: nat)
    requires WorldInv(cfg, w) && Enabled(cfg, w, Handoff(k))
    ensures Measure(cfg, Next(cfg, w, Handoff(k))) < Measure(cfg, w)
  {
    hide WorldInv, LeftOf, Offered, Slots;
    LeftUpdate(cfg, w.workers, k, Received(w.next));
    OfferedDrops(cfg, w.next);
  }

  // Every step of the pool brings it closer to its end; ticks and cancellation cost nothing.
  lemma MeasureDrops(cfg: Config, w: World, act: Action)
    requires WorldInv(cfg, w) && Enabled(cfg, w, act)
    ensures if Own(act) then Measure(cfg, Next(cfg, w, act)) < Measure(cfg, w)
            else Measure(cfg, Next(cfg, w, act)) == Measure(cfg, w)
  {
    hide LeftOf, Offered, WorldInv, AfterStep;
    match act
    case Handoff(k) => HandoffDrops(cfg, w, k);
    case Advance(k) => AdvanceDrops(cfg, w, k);
    case TakeTick(k) => LimiterDrops(cfg, w, act);
    case GiveUp(k) => LimiterDrops(cfg, w, act);
    case _ =>
  }

  lemma InvValid(cfg: Config, w: World)
    requires WorldInv(cfg, w)
    ensures Valid(cfg)
  {
  }

  lemma Product(a: nat, b: nat)
    ensures a * b >= 0
  {
  }

  lemma MeasureNonnegative(cfg: Config, w: World)
    requires WorldInv(cfg, w)
    ensures Measure(cfg, w) >= 0
  {
    hide LeftOf, Slots;
    Product(cfg.iterations - w.next, 2 + 5 * Slots(cfg));
  }

  function OwnSteps(acts: seq<Action>): nat {
    if |acts| == 0 then 0 else (if Own(acts[0]) then 1 else 0) + OwnSteps(acts[1..])
  }

  // However the scheduler interleaves them, the pool's own steps are bounded from the start.
  lemma {:induction false} AlwaysEnds(cfg: Config, w: World, acts: seq<Action>)
    requires WorldInv(cfg, w) && Allowed(cfg, w, acts)
    ensures OwnSteps(acts) + Measure(cfg, Play(cfg, w, acts)) <= Measure(cfg, w)
    ensures OwnSteps(acts) <= Measure(cfg, w)
    decreases |acts|
  {
    if |acts| > 0 {
      MeasureDrops(cfg, w, acts[0]);
      NextInv(cfg, w, acts[0]);
      hide WorldInv, Next, Enabled, Measure;
      AlwaysEnds(cfg, Next(cfg, w, acts[0]), acts[1..]);
    } else {
      MeasureNonnegative(cfg, w);
    }
  }
}
