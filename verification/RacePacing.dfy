// What the limiter and the context mean for the requests of a race.
module RacePacing {
  import opened Prelude
  import opened Scenarios
  import opened Guardrails
  import opened TrafficRace
  import opened TrafficPacing
  import opened K6Plan
  import Limiter = RequestLimiter

  function RoleOf(act: Action): Role {
    if act.Tick? then Ticking else if act.TakeTick? then Taking else Other
  }

  predicate UnderWay(x: Racer) {
    x == Sending
  }

  // Requests that have been started: recorded, or still under way.
  function Started(w: World): nat {
    |w.records| + Count(w.racers, UnderWay)
  }

  lemma {:induction false} NoneOf(racers: seq<Racer>, keep: Racer -> bool)
    requires forall k | 0 <= k < |racers| :: !keep(racers[k])
    ensures Count(racers, keep) == 0
  {
    if |racers| > 0 {
      NoneOf(racers[..|racers| - 1], keep);
    }
  }

  // The main loop starts and ends rounds, in which nobody is under way then.
  lemma MainCounts(cfg: Config, w: World, keep: Racer -> bool)
    requires WorldInv(cfg, w) && Enabled(cfg, w, StepMain)
    requires !keep(AtLine) && !keep(Recorded) && !keep(Gone)
    ensures var w' := Next(cfg, w, StepMain);
            Count(w'.racers, keep) == Count(w.racers, keep) && w'.records == w.records && w'.done == w.done && w'.token == w.token
  {
    hide Complete, ByRound, CurrentOk, Filter;
    if w.main.RequestHead? {
      NoneOf(w.racers, keep);
      NoneOf([], keep);
    } else if w.main.Launching? {
      FilterPush(w.racers, AtLine, keep);
    }
  }

  // In a limited race a step starts a request exactly when it takes a tick, and a tick is taken
  // only once.
  lemma StepStarts(cfg: Config, w: World, act: Action)
    requires WorldInv(cfg, w) && Enabled(cfg, w, act) && cfg.limited
    ensures var w', taken := Next(cfg, w, act), if act.TakeTick? then 1 else 0;
            && Started(w') == Started(w) + taken
            && taken + Token(w'.token) <= Token(w.token) + (if act.Tick? then 1 else 0)
  {
    if act.StepMain? {
      MainCounts(cfg, w, UnderWay);
    }
    hide Filter, WorldInv, MainStep;
    match act
    case Cross(k) => CountUpdate(w.racers, k, Released, UnderWay);
    case Advance(k) => CountUpdate(w.racers, k, RacerStep(w, w.racers[k]), UnderWay);
    case TakeTick(k) => CountUpdate(w.racers, k, Sending, UnderWay);
    case Leave(k) => CountUpdate(w.racers, k, Gone, UnderWay);
    case _ =>
  }

  lemma TokenStep(cfg: Config, w: World, act: Action)
    requires Enabled(cfg, w, act)
    ensures Next(cfg, w, act).token == (match RoleOf(act) case Ticking => true case Taking => false case Other => w.token)
    ensures act.TakeTick? ==> w.token
  {
  }

  lemma {:induction false} PlayStarts(cfg: Config, w: World, acts: seq<Action>)
    requires WorldInv(cfg, w) && Allowed(cfg, w, acts) && cfg.limited
    ensures var w' := Play(cfg, w, acts);
            && Started(w') == Started(w) + Playing(acts, RoleOf, Taking)
            && Playing(acts, RoleOf, Taking) + Token(w'.token) <= Token(w.token) + Playing(acts, RoleOf, Ticking)
            && TokensSuffice(w.token, acts, RoleOf)
    decreases |acts|
  {
    if |acts| > 0 {
      StepStarts(cfg, w, acts[0]);
      TokenStep(cfg, w, acts[0]);
      NextInv(cfg, w, acts[0]);
      hide Enabled, Next, Started, WorldInv;
      PlayStarts(cfg, Next(cfg, w, acts[0]), acts[1..]);
    }
  }

  // In every interleaving of a limited race the requests started, which are the records and the
  // requests under way, are exactly the ticks taken, and no more are taken than there were.
  lemma StartsAreTicks(cfg: Config, acts: seq<Action>)
    requires cfg.limited && Allowed(cfg, START, acts)
    ensures var w := Play(cfg, START, acts);
            && Started(w) == Playing(acts, RoleOf, Taking)
            && Playing(acts, RoleOf, Taking) + Token(w.token) <= Playing(acts, RoleOf, Ticking)
  {
    NoneOf([], UnderWay);
    StartInv(cfg);
    hide WorldInv;
    PlayStarts(cfg, START, acts);
  }

  // The race from any moment of the limiter on, whatever setup has taken from it before: what is
  // started until a second after the limiter was made is, with what was taken before, within the
  // budget of a second, and what is started in any second is at most two more than the budget.
  lemma RaceIsPaced(cfg: Config, rate: int, w: World, l: Limiter.World, timed: seq<Timed<Action>>)
    requires cfg.limited && rate >= 1 && WorldInv(cfg, w) && Limiter.WorldInv(Limiter.Interval(rate), l)
    requires Allowed(cfg, w, Untimed(timed))
    requires Limiter.Allowed(Limiter.Interval(rate), l, LimiterActs(timed, RoleOf))
    ensures var w', l' := Play(cfg, w, Untimed(timed)), Limiter.Play(l, LimiterActs(timed, RoleOf));
            var started, budget := Started(w') - Started(w), Limiter.SECOND / Limiter.Interval(rate);
            && started == |l'.times| - |l.times|
            && (l'.now <= Limiter.SECOND ==> |l.times| + started <= budget)
            && (l'.now <= l.now + Limiter.SECOND ==> started <= budget + 2)
  {
    hide Started, WorldInv, Limiter.Interval, Limiter.WorldInv;
    PlayStarts(cfg, w, Untimed(timed));
    TakesAreTimes(Limiter.Interval(rate), l, timed, RoleOf);
    PassesArePaced(rate, l, timed, RoleOf);
  }

  // Time adds nothing to the race's schedules and takes none away: each can happen on the limiter's
  // clock, from any moment at which both sides agree whether a tick is waiting.
  lemma RaceCanBeTimed(cfg: Config, d: nat, w: World, l: Limiter.World, acts: seq<Action>) returns (timed: seq<Timed<Action>>)
    requires cfg.limited && WorldInv(cfg, w) && Allowed(cfg, w, acts) && Limiter.WorldInv(d, l) && (w.token <==> l.token.Some?)
    ensures Untimed(timed) == acts && Limiter.Allowed(d, l, LimiterActs(timed, RoleOf))
  {
    hide WorldInv;
    PlayStarts(cfg, w, acts);
    timed := TimingExists(d, l, acts, RoleOf);
  }

  // The race of an admitted run under a positive cap has a limiter, and if its rate keeps its budget
  // no more records than the cap in its first second.
  lemma AdmittedRaceIsPaced(t: Traffic, caps: Caps, requests: nat, timed: seq<Timed<Action>>)
    requires Admissible(t, caps) && caps.maxRequestRate >= 1
    requires var r := ApplyRunGuardrails(t, caps);
             var cfg := RaceFor(r, requests);
             && Allowed(cfg, START, Untimed(timed))
             && (r.ratePerSecond >= 1 ==> Limiter.Allowed(Limiter.Interval(r.ratePerSecond), Limiter.START, LimiterActs(timed, RoleOf)))
    ensures var r := ApplyRunGuardrails(t, caps);
            var cfg := RaceFor(r, requests);
            && cfg.limited && r.ratePerSecond >= 1
            && (Limiter.KeepsBudget(r.ratePerSecond) && Limiter.Play(Limiter.START, LimiterActs(timed, RoleOf)).now <= Limiter.SECOND ==>
                  |Play(cfg, START, Untimed(timed)).records| <= caps.maxRequestRate)
  {
    AdmittedRunIsCapped(t, caps);
    NoneOf([], UnderWay);
    var r := ApplyRunGuardrails(t, caps);
    var cfg := RaceFor(r, requests);
    StartInv(cfg);
    hide Filter, WorldInv, Limiter.Interval, Limiter.KeepsBudget, Limiter.Allowed, Limiter.Play, Allowed, Play;
    assert Limiter.WorldInv(Limiter.Interval(r.ratePerSecond), Limiter.START);
    RaceIsPaced(cfg, r.ratePerSecond, START, Limiter.START, timed);
    Limiter.KeepsBudgetIff(r.ratePerSecond);
  }

  // ----- after the context is done -------------------------------------------

  // Racers that may still start or finish a request: those under way, and those that wait on the
  // limiter, where a tick and the end of the context can both be there.
  function Pending(cfg: Config): Racer -> bool {
    (x: Racer) => x == Sending || (x == Waiting && cfg.limited)
  }

  lemma StepAfterDone(cfg: Config, w: World, act: Action)
    requires WorldInv(cfg, w) && Enabled(cfg, w, act) && w.done
    ensures var w' := Next(cfg, w, act);
            w'.done && |w'.records| + Count(w'.racers, Pending(cfg)) <= |w.records| + Count(w.racers, Pending(cfg))
  {
    if act.StepMain? {
      MainCounts(cfg, w, Pending(cfg));
    }
    hide Filter, WorldInv, MainStep;
    match act
    case Cross(k) => CountUpdate(w.racers, k, Released, Pending(cfg));
    case Advance(k) => CountUpdate(w.racers, k, RacerStep(w, w.racers[k]), Pending(cfg));
    case TakeTick(k) => CountUpdate(w.racers, k, Sending, Pending(cfg));
    case Leave(k) => CountUpdate(w.racers, k, Gone, Pending(cfg));
    case _ =>
  }

  // Once the context is done the race records at most one more request for each of these racers,
  // and an unlimited race only what is under way.
  lemma {:induction false} StopsSoon(cfg: Config, w: World, acts: seq<Action>)
    requires WorldInv(cfg, w) && Allowed(cfg, w, acts) && w.done
    ensures |Play(cfg, w, acts).records| <= |w.records| + Count(w.racers, Pending(cfg))
    decreases |acts|
  {
    if |acts| > 0 {
      StepAfterDone(cfg, w, acts[0]);
      NextInv(cfg, w, acts[0]);
      hide Enabled, Next, Count, WorldInv;
      StopsSoon(cfg, Next(cfg, w, acts[0]), acts[1..]);
    }
  }

  // The context can end at any time, and that alone changes nothing else.
  lemma ContextCanEnd(cfg: Config, w: World)
    ensures Enabled(cfg, w, CancelContext) && Next(cfg, w, CancelContext) == w.(done := true)
  {
  }
}
