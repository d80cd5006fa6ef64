// What the limiter and the context mean for the requests of the worker pool.
module PoolPacing {
  import opened Prelude
  import opened Scenarios
  import opened Guardrails
  import opened TrafficPlan
  import opened TrafficPool
  import opened TrafficPacing
  import opened K6Plan
  import Limiter = RequestLimiter

  function RoleOf(act: Action): Role {
    if act.Tick? then Ticking else if act.TakeTick? then Taking else Other
  }

  predicate UnderWay(pc: Pc) {
    pc.Sending?
  }

  // Requests that have been started: recorded, or still under way.
  function Started(w: World): nat {
    |w.records| + Count(w.workers, UnderWay)
  }

  // In a limited pool a step starts a request exactly when it takes a tick, and a tick is taken
  // only once.
  lemma StepStarts(cfg: Config, w: World, act: Action)
    requires Enabled(cfg, w, act) && cfg.limited
    ensures var w', taken := Next(cfg, w, act), if act.TakeTick? then 1 else 0;
            && Started(w') == Started(w) + taken
            && taken + Token(w'.token) <= Token(w.token) + (if act.Tick? then 1 else 0)
  {
    hide Filter;
    match act
    case Handoff(k) => CountUpdate(w.workers, k, Received(w.next), UnderWay);
    case Advance(k) => CountUpdate(w.workers, k, AfterStep(cfg, w, w.workers[k]), UnderWay);
    case TakeTick(k) => CountUpdate(w.workers, k, Next(cfg, w, act).workers[k], UnderWay);
    case GiveUp(k) => CountUpdate(w.workers, k, Exited, UnderWay);
    case _ =>
  }

  lemma {:induction false} PlayStarts(cfg: Config, w: World, acts: seq<Action>)
    requires Allowed(cfg, w, acts) && cfg.limited
    ensures var w' := Play(cfg, w, acts);
            && Started(w') == Started(w) + Playing(acts, RoleOf, Taking)
            && Playing(acts, RoleOf, Taking) + Token(w'.token) <= Token(w.token) + Playing(acts, RoleOf, Ticking)
            && TokensSuffice(w.token, acts, RoleOf)
    decreases |acts|
  {
    if |acts| > 0 {
      StepStarts(cfg, w, acts[0]);
      TokenStep(cfg, w, acts[0]);
      hide Enabled, Next, Started;
      PlayStarts(cfg, Next(cfg, w, acts[0]), acts[1..]);
    }
  }

  lemma TokenStep(cfg: Config, w: World, act: Action)
    requires Enabled(cfg, w, act)
    ensures Next(cfg, w, act).token == (match RoleOf(act) case Ticking => true case Taking => false case Other => w.token)
    ensures act.TakeTick? ==> w.token
  {
  }

  // In every interleaving of a limited pool the requests started, which are the records and the
  // requests under way, are exactly the ticks taken, and no more are taken than there were.
  lemma StartsAreTicks(cfg: Config, acts: seq<Action>)
    requires cfg.limited && Allowed(cfg, Start(cfg), acts)
    ensures var w := Play(cfg, Start(cfg), acts);
            && Started(w) == Playing(acts, RoleOf, Taking)
            && Playing(acts, RoleOf, Taking) + Token(w.token) <= Playing(acts, RoleOf, Ticking)
  {
    NothingStarted(cfg, cfg.workers);
    hide Filter;
    PlayStarts(cfg, Start(cfg), acts);
  }

  lemma {:induction false} NothingStarted(cfg: Config, n: nat)
    ensures Count(seq(n, _ => Receiving), UnderWay) == 0
  {
    if n > 0 {
      NothingStarted(cfg, n - 1);
      assert seq(n, _ => Receiving)[..n - 1] == seq(n - 1, _ => Receiving);
    }
  }

  // The pool from any moment of the limiter on, whatever setup has taken from it before: what is
  // started until a second after the limiter was made is, with what was taken before, within the
  // budget of a second, and what is started in any second is at most two more than the budget.
  lemma PoolIsPaced(cfg: Config, rate: int, w: World, l: Limiter.World, timed: seq<Timed<Action>>)
    requires cfg.limited && rate >= 1 && Limiter.WorldInv(Limiter.Interval(rate), l)
    requires Allowed(cfg, w, Untimed(timed))
    requires Limiter.Allowed(Limiter.Interval(rate), l, LimiterActs(timed, RoleOf))
    ensures var w', l' := Play(cfg, w, Untimed(timed)), Limiter.Play(l, LimiterActs(timed, RoleOf));
            var started, budget := Started(w') - Started(w), Limiter.SECOND / Limiter.Interval(rate);
            && started == |l'.times| - |l.times|
            && (l'.now <= Limiter.SECOND ==> |l.times| + started <= budget)
            && (l'.now <= l.now + Limiter.SECOND ==> started <= budget + 2)
  {
    hide Started, Limiter.Interval, Limiter.WorldInv;
    PlayStarts(cfg, w, Untimed(timed));
    TakesAreTimes(Limiter.Interval(rate), l, timed, RoleOf);
    PassesArePaced(rate, l, timed, RoleOf);
  }

  // Time adds nothing to the pool's schedules and takes none away: each can happen on the limiter's
  // clock, from any moment at which both sides agree whether a tick is waiting.
  lemma PoolCanBeTimed(cfg: Config, d: nat, w: World, l: Limiter.World, acts: seq<Action>) returns (timed: seq<Timed<Action>>)
    requires cfg.limited && Allowed(cfg, w, acts) && Limiter.WorldInv(d, l) && (w.token <==> l.token.Some?)
    ensures Untimed(timed) == acts && Limiter.Allowed(d, l, LimiterActs(timed, RoleOf))
  {
    PlayStarts(cfg, w, acts);
    timed := TimingExists(d, l, acts, RoleOf);
  }

  // A run has a limiter exactly when its author or the cap gives it a rate.
  lemma LimitedIff(t: Traffic, caps: Caps, requests: nat)
    requires Admissible(t, caps)
    ensures var r := ApplyRunGuardrails(t, caps);
            && (PoolFor(r, requests).limited <==> t.ratePerSecond >= 1 || caps.maxRequestRate >= 1)
            && (RaceFor(r, requests).limited <==> t.ratePerSecond >= 1 || caps.maxRequestRate >= 1)
  {
  }

  // The pool of an admitted run under a positive cap has a limiter, and if its rate keeps its budget
  // no more records than the cap in its first second.
  lemma AdmittedPoolIsPaced(t: Traffic, caps: Caps, requests: nat, timed: seq<Timed<Action>>)
    requires Admissible(t, caps) && caps.maxRequestRate >= 1
    requires var r := ApplyRunGuardrails(t, caps);
             var cfg := PoolFor(r, requests);
             && Allowed(cfg, Start(cfg), Untimed(timed))
             && (r.ratePerSecond >= 1 ==> Limiter.Allowed(Limiter.Interval(r.ratePerSecond), Limiter.START, LimiterActs(timed, RoleOf)))
    ensures var r := ApplyRunGuardrails(t, caps);
            var cfg := PoolFor(r, requests);
            && cfg.limited && r.ratePerSecond >= 1
            && (Limiter.KeepsBudget(r.ratePerSecond) && Limiter.Play(Limiter.START, LimiterActs(timed, RoleOf)).now <= Limiter.SECOND ==>
                  |Play(cfg, Start(cfg), Untimed(timed)).records| <= caps.maxRequestRate)
  {
    AdmittedRunIsCapped(t, caps);
    var r := ApplyRunGuardrails(t, caps);
    var cfg := PoolFor(r, requests);
    NothingStarted(cfg, cfg.workers);
    hide Filter, Limiter.Interval, Limiter.KeepsBudget, Limiter.Allowed, Limiter.Play, Allowed, Play;
    assert Limiter.WorldInv(Limiter.Interval(r.ratePerSecond), Limiter.START);
    PoolIsPaced(cfg, r.ratePerSecond, Start(cfg), Limiter.START, timed);
    Limiter.KeepsBudgetIff(r.ratePerSecond);
  }

  // ----- after the context is done -------------------------------------------

  // Workers that may still start or finish a request: those under way, and those that wait on the
  // limiter, where a tick and the end of the context can both be there.
  function Pending(cfg: Config): Pc -> bool {
    (pc: Pc) => pc.Sending? || (pc.Waiting? && cfg.limited)
  }

  lemma StepAfterDone(cfg: Config, w: World, act: Action)
    requires Enabled(cfg, w, act) && w.done
    ensures var w' := Next(cfg, w, act);
            w'.done && |w'.records| + Count(w'.workers, Pending(cfg)) <= |w.records| + Count(w.workers, Pending(cfg))
  {
    hide Filter;
    match act
    case Handoff(k) => CountUpdate(w.workers, k, Received(w.next), Pending(cfg));
    case Advance(k) => CountUpdate(w.workers, k, AfterStep(cfg, w, w.workers[k]), Pending(cfg));
    case TakeTick(k) => CountUpdate(w.workers, k, Next(cfg, w, act).workers[k], Pending(cfg));
    case GiveUp(k) => CountUpdate(w.workers, k, Exited, Pending(cfg));
    case _ =>
  }

  // Once the context is done the pool records at most one more request for each of these workers,
  // and an unlimited pool only what is under way.
  lemma {:induction false} StopsSoon(cfg: Config, w: World, acts: seq<Action>)
    requires Allowed(cfg, w, acts) && w.done
    ensures |Play(cfg, w, acts).records| <= |w.records| + Count(w.workers, Pending(cfg))
    decreases |acts|
  {
    if |acts| > 0 {
      StepAfterDone(cfg, w, acts[0]);
      hide Enabled, Next, Count;
      StopsSoon(cfg, Next(cfg, w, acts[0]), acts[1..]);
    }
  }

  // ----- backing off ---------------------------------------------------------

  predicate Asleep(pc: Pc) {
    pc.Sleeping?
  }

  // Records of attempts that are not the last of their request.
  function HasNext(cfg: Config): Slot -> bool {
    (s: Slot) => s.attempt != cfg.attempts
  }

  // How often a worker ends a sleep in the course of a schedule.
  ghost function Sleeps(cfg: Config, w: World, acts: seq<Action>): nat
    requires Allowed(cfg, w, acts)
    decreases |acts|
  {
    if |acts| == 0 then 0
    else (if acts[0].Advance? && Asleep(w.workers[acts[0].w]) then 1 else 0) + Sleeps(cfg, Next(cfg, w, acts[0]), acts[1..])
  }

  lemma StepSleeps(cfg: Config, w: World, act: Action)
    requires Enabled(cfg, w, act)
    ensures var w', woken := Next(cfg, w, act), if act.Advance? && Asleep(w.workers[act.w]) then 1 else 0;
            if cfg.backoff
            then Count(w'.workers, Asleep) + woken - Count(w.workers, Asleep) == Count(w'.records, HasNext(cfg)) - Count(w.records, HasNext(cfg))
            else Count(w'.workers, Asleep) + woken == Count(w.workers, Asleep)
  {
    hide Filter;
    match act
    case Handoff(k) => CountUpdate(w.workers, k, Received(w.next), Asleep);
    case Advance(k) =>
      var pc := w.workers[k];
      CountUpdate(w.workers, k, AfterStep(cfg, w, pc), Asleep);
      if pc.Sending? {
        FilterPush(w.records, Slot(pc.i, pc.request, pc.attempt), HasNext(cfg));
      }
    case TakeTick(k) => CountUpdate(w.workers, k, Next(cfg, w, act).workers[k], Asleep);
    case GiveUp(k) => CountUpdate(w.workers, k, Exited, Asleep);
    case _ =>
  }

  lemma {:induction false} PlaySleeps(cfg: Config, w: World, acts: seq<Action>)
    requires Allowed(cfg, w, acts)
    ensures var w' := Play(cfg, w, acts);
            if cfg.backoff
            then Count(w'.workers, Asleep) + Sleeps(cfg, w, acts) - Count(w.workers, Asleep) ==
                 Count(w'.records, HasNext(cfg)) - Count(w.records, HasNext(cfg))
            else Count(w'.workers, Asleep) + Sleeps(cfg, w, acts) == Count(w.workers, Asleep)
    decreases |acts|
  {
    if |acts| > 0 {
      StepSleeps(cfg, w, acts[0]);
      hide Enabled, Next, Count, Asleep;
      PlaySleeps(cfg, Next(cfg, w, acts[0]), acts[1..]);
    }
  }

  // A retry storm with a backoff sleeps once after each attempt but the last of a request, in every
  // interleaving, and no other traffic sleeps.
  lemma SleepsBetweenAttempts(t: Traffic, requests: nat, acts: seq<Action>)
    requires t.concurrency >= 1 && t.iterations >= 1
    requires var cfg := PoolFor(t, requests); Allowed(cfg, Start(cfg), acts)
    ensures var cfg := PoolFor(t, requests);
            var w, sleeps := Play(cfg, Start(cfg), acts), Sleeps(cfg, Start(cfg), acts);
            if t.kind == RetryStorm && t.backoffMS > 0
            then Count(w.workers, Asleep) + sleeps == |Filter(w.records, (s: Slot) => s.attempt != cfg.attempts)|
            else sleeps == 0 && Count(w.workers, Asleep) == 0
  {
    var cfg := PoolFor(t, requests);
    NoneAsleep(cfg.workers);
    PlaySleeps(cfg, Start(cfg), acts);
    assert Count<Slot>([], HasNext(cfg)) == 0;
  }

  lemma {:induction false} NoneAsleep(n: nat)
    ensures Count(seq(n, _ => Receiving), Asleep) == 0
  {
    if n > 0 {
      NoneAsleep(n - 1);
      assert seq(n, _ => Receiving)[..n - 1] == seq(n - 1, _ => Receiving);
    }
  }
}
