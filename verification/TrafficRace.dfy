// Race mode: for every iteration and every request all racers wait at one start line, and the
// next round begins only when the last racer of this one is done.
module TrafficRace {
  import opened Prelude
  import opened TrafficPlan

  datatype Config = Config(iterations: nat, requests: nat, racers: nat, limited: bool)

  // Where the main loop stands; the line numbers are those of runner.go.
  datatype Main =
    | IterationHead(i: nat)            // 138 and 139
    | RequestHead(i: nat, r: nat)      // 142 and 143
    | Launching(i: nat, r: nat)        // 148: racers start, the line still closed
    | Racing(i: nat, r: nat)           // 168: the line is open, wg.Wait
    | Returned

  // Where a racer stands. Recorded and Gone have both left; only the first has a record.
  datatype Racer =
    | AtLine      // 152
    | Released    // 157
    | Waiting     // 160
    | Sending     // 163 and 164
    | Recorded
    | Gone

  // round is the round last started, and mark the length of the collector when it started.
  datatype World = World(
    main: Main, racers: seq<Racer>, round: (nat, nat), mark: nat, done: bool, token: bool, records: seq<Slot>)

  datatype Action =
    | StepMain
    | Cross(k: nat)      // through the open line
    | Advance(k: nat)    // a racer's next step, when it has only one
    | TakeTick(k: nat)   // 160: the limiter lets it through
    | Leave(k: nat)      // at the line or at the limiter, because the context is done
    | Tick
    | CancelContext

  const START := World(IterationHead(0), [], (0, 0), 0, false, false, [])

  predicate HasLeft(x: Racer) {
    x == Recorded || x == Gone
  }

  predicate AllLeft(racers: seq<Racer>) {
    forall k | 0 <= k < |racers| :: HasLeft(racers[k])
  }

  function MainStep(cfg: Config, w: World): World {
    match w.main
    case IterationHead(i) => w.(main := if i >= cfg.iterations || w.done then Returned else RequestHead(i, 0))
    case RequestHead(i, r) =>
      if r >= cfg.requests then w.(main := IterationHead(i + 1))
      else if w.done then w.(main := Returned)
      else w.(main := Launching(i, r), racers := [], round := (i, r), mark := |w.records|)
    case Launching(i, r) =>
      if |w.racers| < cfg.racers then w.(racers := w.racers + [AtLine]) else w.(main := Racing(i, r))
    case Racing(i, r) => w.(main := RequestHead(i, r + 1))
    case Returned => w
  }

  function RacerStep(w: World, x: Racer): Racer {
    match x
    case Released => if w.done then Gone else Waiting
    case Waiting => if w.done then Gone else Sending
    case Sending => Recorded
    case _ => x
  }

  predicate Enabled(cfg: Config, w: World, act: Action) {
    match act
    case StepMain => w.main != Returned && (w.main.Racing? ==> AllLeft(w.racers))
    case Cross(k) => k < |w.racers| && w.racers[k] == AtLine && w.main.Racing?
    case Advance(k) =>
      k < |w.racers| && (w.racers[k] == Released || w.racers[k] == Sending || (w.racers[k] == Waiting && !cfg.limited))
    case TakeTick(k) => k < |w.racers| && w.racers[k] == Waiting && cfg.limited && w.token
    case Leave(k) => k < |w.racers| && w.done && (w.racers[k] == AtLine || (w.racers[k] == Waiting && cfg.limited))
    case Tick => cfg.limited
    case CancelContext => true
  }

  function Next(cfg: Config, w: World, act: Action): World
    requires Enabled(cfg, w, act)
  {
    match act
    case StepMain => MainStep(cfg, w)
    case Cross(k) => w.(racers := w.racers[k := Released])
    case Advance(k) =>
      w.(racers := w.racers[k := RacerStep(w, w.racers[k])],
         records := if w.racers[k] == Sending then w.records + [Slot(w.round.0, w.round.1, k + 1)] else w.records)
    case TakeTick(k) => w.(racers := w.racers[k := Sending], token := false)
    case Leave(k) => w.(racers := w.racers[k := Gone])
    case Tick => w.(token := true)
    case CancelContext => w.(done := true)
  }

  predicate Allowed(cfg: Config, w: World, acts: seq<Action>)
    decreases |acts|
  {
    |acts| == 0 || (Enabled(cfg, w, acts[0]) && Allowed(cfg, Next(cfg, w, acts[0]), acts[1..]))
  }

  function Play(cfg: Config, w: World, acts: seq<Action>): World
    requires Allowed(cfg, w, acts)
    decreases |acts|
  {
    if |acts| == 0 then w else Play(cfg, Next(cfg, w, acts[0]), acts[1..])
  }

  // ----- rounds --------------------------------------------------------------

  predicate Before(s: Slot, i: nat, r: nat) {
    s.iteration < i || (s.iteration == i && s.request < r)
  }

  // The records are those of all rounds before (i, r), one for each racer 1 .. racers.
  ghost predicate Complete(cfg: Config, records: seq<Slot>, i: nat, r: nat) {
    forall s :: multiset(records)[s] == if Before(s, i, r) && s.request < cfg.requests && 1 <= s.attempt <= cfg.racers then 1 else 0
  }

  predicate HasRecorded(w: World, s: Slot) {
    (s.iteration, s.request) == w.round && 1 <= s.attempt <= |w.racers| && w.racers[s.attempt - 1] == Recorded
  }

  // Since the mark, each racer that has recorded did so once, and nobody else did.
  ghost predicate CurrentOk(w: World)
    requires w.mark <= |w.records|
  {
    forall s :: multiset(w.records[w.mark..])[s] == if HasRecorded(w, s) then 1 else 0
  }

  predicate NotAfter(a: Slot, b: Slot) {
    a.iteration < b.iteration || (a.iteration == b.iteration && a.request <= b.request)
  }

  // A barrier: every record of a round precedes every record of the next.
  ghost predicate ByRound(records: seq<Slot>) {
    forall a, b | 0 <= a < b < |records| :: NotAfter(records[a], records[b])
  }

  ghost predicate MainOk(cfg: Config, w: World) {
    match w.main
    case IterationHead(i) => AllLeft(w.racers) && i <= cfg.iterations && (!w.done ==> Complete(cfg, w.records, i, 0))
    case RequestHead(i, r) =>
      AllLeft(w.racers) && i < cfg.iterations && r <= cfg.requests && (!w.done ==> Complete(cfg, w.records, i, r))
    case Launching(i, r) => i < cfg.iterations && r < cfg.requests && w.round == (i, r)
    case Racing(i, r) => i < cfg.iterations && r < cfg.requests && w.round == (i, r) && |w.racers| == cfg.racers
    case Returned => AllLeft(w.racers) && (!w.done ==> Complete(cfg, w.records, cfg.iterations, 0))
  }

  ghost predicate WorldInv(cfg: Config, w: World) {
    && w.mark <= |w.records| && |w.racers| <= cfg.racers
    && (|w.racers| > 0 ==> w.round.1 < cfg.requests && w.round.0 < cfg.iterations)
    && Complete(cfg, w.records[..w.mark], w.round.0, w.round.1)
    && CurrentOk(w)
    && (forall k | 0 <= k < |w.racers| && w.racers[k] == Gone :: w.done)
    && ByRound(w.records)
    && MainOk(cfg, w)
  }

  lemma CutCounts(records: seq<Slot>, mark: nat, s: Slot)
    requires mark <= |records|
    ensures multiset(records)[s] == multiset(records[..mark])[s] + multiset(records[mark..])[s]
  {
    assert records == records[..mark] + records[mark..];
    ConcatCounts(records[..mark], records[mark..], s);
  }

  // A racer moves without recording.
  lemma RacerMoves(cfg: Config, w: World, k: nat, x: Racer, w': World)
    requires WorldInv(cfg, w) && k < |w.racers| && !HasLeft(w.racers[k]) && x != Recorded && (x == Gone ==> w.done)
    requires w' == w.(racers := w.racers[k := x], token := w'.token)
    ensures WorldInv(cfg, w')
  {
    hide Complete, ByRound;
    forall s
      ensures multiset(w'.records[w'.mark..])[s] == if HasRecorded(w', s) then 1 else 0
    {
      assert HasRecorded(w', s) == HasRecorded(w, s);
    }
  }

  // Every record so far is of this round or of an earlier one.
  lemma RecordsNotAfter(cfg: Config, w: World, x: Slot)
    requires WorldInv(cfg, w) && x in w.records
    ensures NotAfter(x, Slot(w.round.0, w.round.1, 1))
  {
    hide ByRound, MainOk;
    CutCounts(w.records, w.mark, x);
    assert x in multiset(w.records);
  }

  lemma ByRoundPush(cfg: Config, w: World, s: Slot)
    requires WorldInv(cfg, w) && (s.iteration, s.request) == w.round
    ensures ByRound(w.records + [s])
  {
    var records := w.records + [s];
    forall a, b | 0 <= a < b < |records|
      ensures NotAfter(records[a], records[b])
    {
      hide WorldInv;
      if b == |w.records| {
        RecordsNotAfter(cfg, w, w.records[a]);
      } else {
        assert ByRound(w.records) by { OrderedSoFar(cfg, w); }
      }
    }
  }

  lemma OrderedSoFar(cfg: Config, w: World)
    requires WorldInv(cfg, w)
    ensures ByRound(w.records)
  {
  }

  lemma CurrentPush(w: World, k: nat, w': World)
    requires w.mark <= |w.records| && CurrentOk(w) && k < |w.racers| && w.racers[k] == Sending
    requires w' == w.(racers := w.racers[k := Recorded], records := w.records + [Slot(w.round.0, w.round.1, k + 1)])
    ensures CurrentOk(w')
  {
    var s := Slot(w.round.0, w.round.1, k + 1);
    assert w'.records[w.mark..] == w.records[w.mark..] + [s];
    forall t
      ensures multiset(w'.records[w'.mark..])[t] == if HasRecorded(w', t) then 1 else 0
    {
      ConcatCounts(w.records[w.mark..], [s], t);
      if t != s {
        assert HasRecorded(w', t) == HasRecorded(w, t);
      }
    }
  }

  lemma RacerRecords(cfg: Config, w: World, k: nat)
    requires WorldInv(cfg, w) && k < |w.racers| && w.racers[k] == Sending
    ensures WorldInv(cfg, Next(cfg, w, Advance(k)))
  {
    hide Complete, ByRound, CurrentOk;
    var w' := Next(cfg, w, Advance(k));
    ByRoundPush(cfg, w, Slot(w.round.0, w.round.1, k + 1));
    CurrentPush(w, k, w');
    assert w'.records[..w.mark] == w.records[..w.mark];
  }

  // A round that nobody left early is complete when the last racer is done.
  lemma RoundCompletes(cfg: Config, w: World)
    requires WorldInv(cfg, w) && w.main.Racing? && AllLeft(w.racers) && !w.done
    ensures Complete(cfg, w.records, w.main.i, w.main.r + 1)
  {
    hide ByRound;
    forall s
      ensures multiset(w.records)[s] ==
              if Before(s, w.main.i, w.main.r + 1) && s.request < cfg.requests && 1 <= s.attempt <= cfg.racers then 1 else 0
    {
      CutCounts(w.records, w.mark, s);
      if (s.iteration, s.request) == w.round && 1 <= s.attempt <= |w.racers| {
        assert HasLeft(w.racers[s.attempt - 1]);
      }
    }
  }

  lemma LaunchKeeps(cfg: Config, w: World)
    requires WorldInv(cfg, w) && w.main.RequestHead? && w.main.r < cfg.requests && !w.done
    ensures WorldInv(cfg, MainStep(cfg, w))
  {
    hide ByRound, Complete;
    assert w.records[..|w.records|] == w.records;
    assert multiset(w.records[|w.records|..]) == multiset{};
  }

  lemma HeadKeeps(cfg: Config, w: World)
    requires WorldInv(cfg, w)
    requires w.main.IterationHead? || (w.main.RequestHead? && (w.main.r == cfg.requests || w.done))
    ensures WorldInv(cfg, MainStep(cfg, w))
  {
    HeadCompletes(cfg, w);
    hide ByRound, Complete, CurrentOk;
    assert CurrentOk(w) ==> CurrentOk(MainStep(cfg, w)) by { SameCurrent(w, MainStep(cfg, w)); }
  }

  lemma SameCurrent(w: World, w': World)
    requires w.mark <= |w.records| && w'.mark == w.mark && w'.records == w.records && w'.round == w.round
    requires |w'.racers| >= |w.racers|
    requires forall k | 0 <= k < |w.racers| :: w'.racers[k] == w.racers[k]
    requires forall k | |w.racers| <= k < |w'.racers| :: w'.racers[k] != Recorded
    ensures CurrentOk(w) ==> CurrentOk(w')
  {
    forall s
      ensures HasRecorded(w', s) == HasRecorded(w, s)
    {
    }
  }

  // The end of an iteration is the beginning of the next.
  lemma HeadCompletes(cfg: Config, w: World)
    ensures w.main.RequestHead? && w.main.r == cfg.requests && Complete(cfg, w.records, w.main.i, w.main.r) ==>
              Complete(cfg, w.records, w.main.i + 1, 0)
  {
  }

  lemma SpawnKeeps(cfg: Config, w: World)
    requires WorldInv(cfg, w) && w.main.Launching?
    ensures WorldInv(cfg, MainStep(cfg, w))
  {
    hide Complete, ByRound, CurrentOk;
    SameCurrent(w, MainStep(cfg, w));
  }

  lemma MainKeeps(cfg: Config, w: World)
    requires WorldInv(cfg, w) && Enabled(cfg, w, StepMain)
    ensures WorldInv(cfg, Next(cfg, w, StepMain))
  {
    if w.main.Launching? {
      hide WorldInv, MainStep;
      SpawnKeeps(cfg, w);
    } else if w.main.RequestHead? && w.main.r < cfg.requests && !w.done {
      hide WorldInv, MainStep;
      LaunchKeeps(cfg, w);
    } else if w.main.Racing? {
      hide Complete, CurrentOk, ByRound;
      SameCurrent(w, MainStep(cfg, w));
      if !w.done {
        RoundCompletes(cfg, w);
      }
    } else {
      HeadInRange(cfg, w);
      hide WorldInv, MainStep;
      HeadKeeps(cfg, w);
    }
  }

  lemma HeadInRange(cfg: Config, w: World)
    requires WorldInv(cfg, w)
    ensures w.main.RequestHead? ==> w.main.r <= cfg.requests
  {
  }

  lemma NextInv(cfg: Config, w: World, act: Action)
    requires WorldInv(cfg, w) && Enabled(cfg, w, act)
    ensures WorldInv(cfg, Next(cfg, w, act))
  {
    match act
    case StepMain => MainKeeps(cfg, w);
    case Cross(k) => hide WorldInv; RacerMoves(cfg, w, k, Released, Next(cfg, w, act));
    case Advance(k) =>
      hide WorldInv;
      if w.racers[k] == Sending {
        RacerRecords(cfg, w, k);
      } else {
        RacerMoves(cfg, w, k, RacerStep(w, w.racers[k]), Next(cfg, w, act));
      }
    case TakeTick(k) => hide WorldInv; RacerMoves(cfg, w, k, Sending, Next(cfg, w, act));
    case Leave(k) => hide WorldInv; RacerMoves(cfg, w, k, Gone, Next(cfg, w, act));
    case _ => hide Complete, ByRound; EnvironmentKeeps(cfg, w, act);
  }

  lemma EnvironmentKeeps(cfg: Config, w: World, act: Action)
    requires WorldInv(cfg, w) && Enabled(cfg, w, act) && (act.Tick? || act.CancelContext?)
    ensures WorldInv(cfg, Next(cfg, w, act))
  {
    hide Complete, ByRound;
    var w' := Next(cfg, w, act);
    forall s
      ensures multiset(w'.records[w'.mark..])[s] == if HasRecorded(w', s) then 1 else 0
    {
      assert HasRecorded(w', s) == HasRecorded(w, s);
    }
  }

  lemma {:induction false} PlayInv(cfg: Config, w: World, acts: seq<Action>)
    requires WorldInv(cfg, w) && Allowed(cfg, w, acts)
    ensures WorldInv(cfg, Play(cfg, w, acts))
    decreases |acts|
  {
    if |acts| > 0 {
      NextInv(cfg, w, acts[0]);
      hide WorldInv, Next, Enabled;
      PlayInv(cfg, Next(cfg, w, acts[0]), acts[1..]);
    }
  }

  lemma StartInv(cfg: Config)
    ensures WorldInv(cfg, START)
  {
    assert START.records[..0] == [] && START.records[0..] == [];
  }

  // ----- what holds over every interleaving ----------------------------------

  // Records come round by round; all rounds before the one last started are complete, and that
  // one has each racer at most once. Only it can be partial, and only after cancellation.
  lemma RoundsAreSeparate(cfg: Config, acts: seq<Action>)
    requires Allowed(cfg, START, acts)
    ensures var w := Play(cfg, START, acts);
            && ByRound(w.records)
            && w.mark <= |w.records| && Complete(cfg, w.records[..w.mark], w.round.0, w.round.1)
            && (forall s | s in w.records[w.mark..] :: (s.iteration, s.request) == w.round)
            && (forall s :: multiset(w.records)[s] <= 1)
  {
    StartInv(cfg);
    PlayInv(cfg, START, acts);
    hide Allowed, Play, ByRound;
    var w := Play(cfg, START, acts);
    forall s
      ensures multiset(w.records)[s] <= 1
      ensures s in w.records[w.mark..] ==> (s.iteration, s.request) == w.round
    {
      CutCounts(w.records, w.mark, s);
      if s in w.records[w.mark..] {
        assert s in multiset(w.records[w.mark..]);
      }
    }
  }

  // Without cancellation every round has exactly one record for each racer: the same bag of
  // slots as a pool with as many attempts as there are racers.
  lemma EveryRacerOnce(cfg: Config, acts: seq<Action>)
    requires Allowed(cfg, START, acts)
    requires Play(cfg, START, acts).main == Returned && !Play(cfg, START, acts).done
    ensures multiset(Play(cfg, START, acts).records) == multiset(FullPlan(cfg.iterations, cfg.requests, cfg.racers))
    ensures |Play(cfg, START, acts).records| == cfg.iterations * (cfg.requests * cfg.racers)
  {
    StartInv(cfg);
    PlayInv(cfg, START, acts);
    hide Allowed, Play, ByRound;
    var w, all := Play(cfg, START, acts), FullPlan(cfg.iterations, cfg.requests, cfg.racers);
    forall s | s in w.records || s in all
      ensures multiset(w.records)[s] == multiset(all)[s]
    {
      FullPlanCounts(cfg.iterations, cfg.requests, cfg.racers, s);
      assert Complete(cfg, w.records, cfg.iterations, 0);
    }
    SameCounts(w.records, all);
    FullPlanLength(cfg.iterations, cfg.requests, cfg.racers);
    assert |multiset(w.records)| == |multiset(all)|;
  }

  // ----- no stuck state, and an end ------------------------------------------

  predicate Own(act: Action) {
    !act.Tick? && !act.CancelContext?
  }

  // Until the race has returned it has a step of its own, if need be after the next tick.
  lemma NotStuck(cfg: Config, w: World) returns (act: Action)
    requires w.main != Returned
    ensures Own(act)
    ensures || Enabled(cfg, w, act)
            || (Enabled(cfg, w, Tick) && !w.token && !w.done && Enabled(cfg, Next(cfg, w, Tick), act))
  {
    if !w.main.Racing? || AllLeft(w.racers) {
      act := StepMain;
    } else {
      var k :| 0 <= k < |w.racers| && !HasLeft(w.racers[k]);
      if w.racers[k] == AtLine {
        act := Cross(k);
      } else if w.racers[k] == Waiting && cfg.limited {
        act := if w.done then Leave(k) else TakeTick(k);
      } else {
        act := Advance(k);
      }
    }
  }

  function RacerLeft(x: Racer): nat {
    match x
    case AtLine => 4
    case Released => 3
    case Waiting => 2
    case Sending => 1
    case _ => 0
  }

  function RacersLeft(racers: seq<Racer>): nat {
    if |racers| == 0 then 0 else RacersLeft(racers[..|racers| - 1]) + RacerLeft(racers[|racers| - 1])
  }

  function RoundCost(cfg: Config): nat {
    6 * cfg.racers + 4
  }

  function RoundsLeft(cfg: Config, r: nat): int {
    (cfg.requests - r) * RoundCost(cfg)
  }

  function IterationsLeft(cfg: Config, i: nat): int {
    (cfg.iterations - i) * (RoundsLeft(cfg, 0) + 2)
  }

  function MainLeft(cfg: Config, main: Main, racers: nat): int {
    match main
    case IterationHead(i) => IterationsLeft(cfg, i) + 1
    case RequestHead(i, r) => IterationsLeft(cfg, i + 1) + RoundsLeft(cfg, r) + 2
    case Launching(i, r) => IterationsLeft(cfg, i + 1) + RoundsLeft(cfg, r + 1) + 6 * (cfg.racers - racers) + 4
    case Racing(i, r) => IterationsLeft(cfg, i + 1) + RoundsLeft(cfg, r + 1) + 3
    case Returned => 0
  }

  function Measure(cfg: Config, w: World): int {
    MainLeft(cfg, w.main, |w.racers|) + RacersLeft(w.racers)
  }

  lemma IterationSpends(cfg: Config, i: nat)
    ensures IterationsLeft(cfg, i + 1) == IterationsLeft(cfg, i) - RoundsLeft(cfg, 0) - 2
    ensures i <= cfg.iterations ==> IterationsLeft(cfg, i) >= 0
  {
    var n, size := cfg.iterations - i, RoundsLeft(cfg, 0) + 2;
    assert (n - 1) * size == n * size - size;
    assert cfg.requests * RoundCost(cfg) >= 0;
    if n >= 0 {
      assert n * size >= 0;
    }
  }

  lemma RoundSpends(cfg: Config, r: nat)
    ensures RoundsLeft(cfg, r + 1) == RoundsLeft(cfg, r) - RoundCost(cfg)
    ensures r <= cfg.requests ==> RoundsLeft(cfg, r) >= 0
  {
    var n, size := cfg.requests - r, RoundCost(cfg);
    assert (n - 1) * size == n * size - size;
  }

  lemma {:induction false} RacerUpdate(racers: seq<Racer>, k: nat, x: Racer)
    requires k < |racers|
    ensures RacersLeft(racers[k := x]) == RacersLeft(racers) - RacerLeft(racers[k]) + RacerLeft(x)
  {
    hide RacerLeft;
    var front, racers' := racers[..|racers| - 1], racers[k := x];
    if k == |front| {
      assert racers'[..|front|] == front;
    } else {
      RacerUpdate(front, k, x);
      assert racers'[..|front|] == front[k := x];
    }
  }

  lemma {:induction false} NoneLeft(racers: seq<Racer>)
    requires AllLeft(racers)
    ensures RacersLeft(racers) == 0
  {
    if |racers| > 0 {
      NoneLeft(racers[..|racers| - 1]);
    }
  }

  lemma MainDrops(cfg: Config, w: World)
    requires WorldInv(cfg, w) && Enabled(cfg, w, StepMain)
    ensures Measure(cfg, MainStep(cfg, w)) < Measure(cfg, w)
  {
    hide Complete, CurrentOk, ByRound, IterationsLeft, RoundsLeft, RacersLeft, HasRecorded;
    match w.main
    case IterationHead(i) =>
      IterationSpends(cfg, i);
    case RequestHead(i, r) =>
      IterationSpends(cfg, i + 1);
      RoundSpends(cfg, r);
      NoneLeft([]);
    case Launching(i, r) =>
      SpawnCosts(w.racers);
    case Racing(i, r) =>
      NoneLeft(w.racers);
  }

  lemma SpawnCosts(racers: seq<Racer>)
    ensures RacersLeft(racers + [AtLine]) == RacersLeft(racers) + 4
  {
    assert (racers + [AtLine])[..|racers|] == racers;
  }

  // Every step of the race brings it closer to its end; ticks and cancellation cost nothing.
  lemma MeasureDrops(cfg: Config, w: World, act: Action)
    requires WorldInv(cfg, w) && Enabled(cfg, w, act)
    ensures if Own(act) then Measure(cfg, Next(cfg, w, act)) < Measure(cfg, w)
            else Measure(cfg, Next(cfg, w, act)) == Measure(cfg, w)
  {
    if act.StepMain? {
      MainDrops(cfg, w);
      hide WorldInv, Measure, MainStep;
    } else {
      hide WorldInv, MainLeft, RacersLeft;
      if Own(act) {
        RacerUpdate(w.racers, act.k, Next(cfg, w, act).racers[act.k]);
      }
    }
  }

  lemma MeasureNonnegative(cfg: Config, w: World)
    requires WorldInv(cfg, w)
    ensures Measure(cfg, w) >= 0
  {
    hide Complete, CurrentOk, ByRound, IterationsLeft, RoundsLeft, RacersLeft, HasRecorded;
    match w.main
    case Returned =>
    case IterationHead(i) => IterationSpends(cfg, i);
    case RequestHead(i, r) => IterationSpends(cfg, i + 1); RoundSpends(cfg, r);
    case Launching(i, r) => IterationSpends(cfg, i + 1); RoundSpends(cfg, r + 1);
    case Racing(i, r) => IterationSpends(cfg, i + 1); RoundSpends(cfg, r + 1);
  }

  function OwnSteps(acts: seq<Action>): nat {
    if |acts| == 0 then 0 else (if Own(acts[0]) then 1 else 0) + OwnSteps(acts[1..])
  }

  // However the scheduler interleaves them, the race's own steps are bounded from the start.
  lemma {:induction false} AlwaysEnds(cfg: Config, w: World, acts: seq<Action>)
    requires WorldInv(cfg, w) && Allowed(cfg, w, acts)
    ensures OwnSteps(acts) + Measure(cfg, Play(cfg, w, acts)) <= Measure(cfg, w)
    ensures OwnSteps(acts) <= Measure(cfg, w)
    decreases |acts|
  {
    if |acts| > 0 {
      MeasureDrops(cfg, w, acts[0]);
      NextInv(cfg, w, acts[0]);
      hide WorldInv, Next, Enabled, Measure;
      AlwaysEnds(cfg, Next(cfg, w, acts[0]), acts[1..]);
    } else {
      MeasureNonnegative(cfg, w);
    }
  }
}
