// Runs whose context is done before the plan is sent: what stands against a verdict of passed is
// only what the records at hand, however few, and the refused probes say.
module InterruptedRuns {
  import opened Prelude
  import opened Reports
  import opened TrafficPlan
  import opened Verdict
  import TrafficPool

  // ----- invariants ----------------------------------------------------------

  predicate InvariantFails(inv: Invariant, records: seq<ResponseRecord>) {
    match inv
    case ResponseCount(_, _, _, _, _, _) => !CountAccepted(inv, |Filter(records, CountedBy(inv))|)
    case HTTPProbe(_, probe) => probe.Refused? || !probe.passed
    case OtherInvariant => false
  }

  lemma {:induction false} InvariantsFailIff(invariants: seq<Invariant>, records: seq<ResponseRecord>)
    ensures AnyFailed(InvariantChecks(invariants, records)) <==>
            exists i :: 0 <= i < |invariants| && InvariantFails(invariants[i], records)
  {
    if |invariants| > 0 {
      var front, last := invariants[..|invariants| - 1], invariants[|invariants| - 1];
      InvariantsFailIff(front, records);
      LastFails(invariants, records);
      hide InvariantChecks, AnyFailed, InvariantFails;
      assert forall i | 0 <= i < |front| :: front[i] == invariants[i];
    }
  }

  lemma LastFails(invariants: seq<Invariant>, records: seq<ResponseRecord>)
    requires |invariants| > 0
    ensures AnyFailed(InvariantChecks(invariants, records)) <==>
            AnyFailed(InvariantChecks(invariants[..|invariants| - 1], records)) || InvariantFails(invariants[|invariants| - 1], records)
  {
    hide Filter;
    var front, last := InvariantChecks(invariants[..|invariants| - 1], records), invariants[|invariants| - 1];
    var checks := InvariantChecks(invariants, records);
    var more := checks[|front|..];
    assert checks == front + more;
    assert forall c | c in checks :: c in front || c in more;
    if |more| > 0 {
      assert more == [more[0]] && more[0] in checks;
    }
  }

  // What the end of a context means for the rest of the run: no probe is answered and no teardown
  // request is sent.
  predicate ContextDone(spec: Spec, teardown: seq<Sent>) {
    && (forall i | 0 <= i < |spec.invariants| && spec.invariants[i].HTTPProbe? :: spec.invariants[i].probe.Refused?)
    && (forall i | 0 <= i < |teardown| :: teardown[i].Interrupted?)
  }

  // The invariants that can hold without a reply: none probes, and every count is accepted.
  predicate CountsAccepted(invariants: seq<Invariant>, records: seq<ResponseRecord>) {
    forall i | 0 <= i < |invariants| ::
      && !invariants[i].HTTPProbe?
      && (invariants[i].ResponseCount? ==> CountAccepted(invariants[i], |Filter(records, CountedBy(invariants[i]))|))
  }

  lemma DoneInvariants(spec: Spec, records: seq<ResponseRecord>, teardown: seq<Sent>)
    requires ContextDone(spec, teardown)
    ensures AnyFailed(InvariantChecks(spec.invariants, records)) <==> !CountsAccepted(spec.invariants, records)
  {
    hide Filter, AnyFailed, InvariantChecks;
    InvariantsFailIff(spec.invariants, records);
  }

  predicate NonNegative(limit: Option<real>) {
    limit.Some? ==> limit.value >= 0.0
  }

  // ----- nothing sent --------------------------------------------------------

  // A run whose context was done before any request was sent passes exactly when its thresholds
  // are not negative, no invariant is a probe and the bounds of every response count hold of zero.
  lemma NothingSentCanPass(spec: Spec, setup: seq<Sent>, teardown: seq<Sent>)
    requires |setup| == |spec.setup| && |teardown| == |spec.teardown|
    requires ContextDone(spec, teardown) && forall i | 0 <= i < |setup| :: setup[i].Interrupted?
    ensures RunReport(spec, setup, [], teardown).status == ReportPassed <==>
              && NonNegative(spec.thresholds.maxErrorRate) && NonNegative(spec.thresholds.p95MS)
              && (forall inv | inv in spec.invariants :: !inv.HTTPProbe?)
              && (forall inv | inv in spec.invariants && inv.ResponseCount? ::
                    && (inv.equals.Some? ==> inv.equals.value == 0)
                    && (inv.min.Some? ==> inv.min.value <= 0)
                    && (inv.max.Some? ==> inv.max.value >= 0))
  {
    PassedMeans(spec, setup, [], teardown);
    ControlFailsIff("setup", spec.setup, setup);
    ControlFailsIff("teardown", spec.teardown, teardown);
    DoneInvariants(spec, [], teardown);
    NothingSummed();
    hide RunReport, ControlChecks, InvariantChecks, ThresholdChecks, SummaryOf;
    ThresholdsFailIff(spec.thresholds, []);
  }

  lemma ThresholdsFailIff(t: Thresholds, records: seq<ResponseRecord>)
    ensures var summary := SummaryOf(records);
            AnyFailed(ThresholdChecks(t, records)) <==>
              (t.maxErrorRate.Some? && summary.errorRate > t.maxErrorRate.value) ||
              (t.p95MS.Some? && summary.latency.p95MS > t.p95MS.value)
  {
    hide SummaryOf;
    var a := LimitCheck("max_error_rate", SummaryOf(records).errorRate, t.maxErrorRate);
    var b := LimitCheck("p95_ms", SummaryOf(records).latency.p95MS, t.p95MS);
    assert ThresholdChecks(t, records) == a + b;
    if t.maxErrorRate.Some? {
      assert a[0] in a + b;
    }
    if t.p95MS.Some? {
      assert b[0] in a + b;
    }
  }

  // ----- a part of the plan sent ---------------------------------------------

  predicate P95Within(t: Thresholds, records: seq<ResponseRecord>) {
    t.p95MS.Some? ==> SummaryOf(records).latency.p95MS <= t.p95MS.value
  }

  lemma NoErrorRate(records: seq<ResponseRecord>)
    requires !SomeError(records)
    ensures SummaryOf(records).errorRate == 0.0
  {
    hide StatusCounts, LatencyOf;
    assert forall i | 0 <= i < |records| :: records[i] in records;
    NoneKept(records, HasError);
  }

  predicate NoErrors(records: seq<Slot>, answer: Slot -> ResponseRecord) {
    forall s | s in records :: answer(s).error == ""
  }

  // A pool that its context cut short, after a setup without errors: the run passes exactly when
  // what was sent, if anything, met no error, no invariant is a probe, and the counts and limits
  // accept the records at hand. How much of the plan was sent plays no part.
  lemma InterruptedPassesIff(cfg: TrafficPool.Config, acts: seq<TrafficPool.Action>, answer: Slot -> ResponseRecord,
                             spec: Spec, setup: seq<Sent>, teardown: seq<Sent>)
    requires TrafficPool.Valid(cfg) && TrafficPool.Allowed(cfg, TrafficPool.Start(cfg), acts)
    requires var w := TrafficPool.Play(cfg, TrafficPool.Start(cfg), acts); w.returned && w.done
    requires |setup| == |spec.setup| && |teardown| == |spec.teardown| && ContextDone(spec, teardown)
    requires forall i | 0 <= i < |setup| :: setup[i].Answered? && setup[i].record.error == ""
    ensures var records := TrafficPool.Play(cfg, TrafficPool.Start(cfg), acts).records;
            var collected := Map(records, answer);
            && (forall s | s in records :: multiset(records)[s] == 1 && InPlan(s, cfg.iterations, cfg.requests, cfg.attempts))
            && (RunReport(spec, setup, collected, teardown).status == ReportPassed <==>
                  && NoErrors(records, answer)
                  && NonNegative(spec.thresholds.maxErrorRate) && P95Within(spec.thresholds, collected)
                  && CountsAccepted(spec.invariants, collected))
  {
    hide TrafficPool.Allowed, TrafficPool.Play, RunReport, ControlChecks, InvariantChecks, SummaryOf, ThresholdChecks, InPlan;
    TrafficPool.NothingTwice(cfg, acts);
    var records := TrafficPool.Play(cfg, TrafficPool.Start(cfg), acts).records;
    var collected := Map(records, answer);
    PassedMeans(spec, setup, collected, teardown);
    ControlFailsIff("setup", spec.setup, setup);
    ControlFailsIff("teardown", spec.teardown, teardown);
    DoneInvariants(spec, collected, teardown);
    ErrorsOfMap(records, answer);
    if !SomeError(collected) {
      NoErrorRate(collected);
      ThresholdsFailIff(spec.thresholds, collected);
    }
  }

  lemma ErrorsOfMap(records: seq<Slot>, answer: Slot -> ResponseRecord)
    ensures SomeError(Map(records, answer)) <==> !NoErrors(records, answer)
  {
    var collected := Map(records, answer);
    if s :| s in records && answer(s).error != "" {
      var i :| 0 <= i < |records| && records[i] == s;
      assert collected[i] in collected;
    }
  }

  // ----- a run that passes on half its plan ----------------------------------

  const ONE_WORKER := TrafficPool.Config(2, 1, 1, 1, false, false)

  function WorkerAt(pc: TrafficPool.Pc, next: nat, records: seq<Slot>): TrafficPool.World {
    TrafficPool.World(next, false, false, [pc], false, false, records)
  }

  lemma FourSteps(cfg: TrafficPool.Config, w: TrafficPool.World, a: TrafficPool.Action, b: TrafficPool.Action,
                  c: TrafficPool.Action, d: TrafficPool.Action)
    requires TrafficPool.Enabled(cfg, w, a)
    requires var w1 := TrafficPool.Next(cfg, w, a);
             TrafficPool.Enabled(cfg, w1, b) &&
             var w2 := TrafficPool.Next(cfg, w1, b);
             TrafficPool.Enabled(cfg, w2, c) && TrafficPool.Enabled(cfg, TrafficPool.Next(cfg, w2, c), d)
    ensures TrafficPool.Allowed(cfg, w, [a, b, c, d])
    ensures TrafficPool.Play(cfg, w, [a, b, c, d]) ==
            TrafficPool.Next(cfg, TrafficPool.Next(cfg, TrafficPool.Next(cfg, TrafficPool.Next(cfg, w, a), b), c), d)
  {
    hide TrafficPool.Next, TrafficPool.Enabled;
    assert [a, b, c, d][1..] == [b, c, d] && [b, c, d][1..] == [c, d] && [c, d][1..] == [d] && [d][1..] == [];
    var w1 := TrafficPool.Next(cfg, w, a);
    var w2 := TrafficPool.Next(cfg, w1, b);
    var w3 := TrafficPool.Next(cfg, w2, c);
    var w4 := TrafficPool.Next(cfg, w3, d);
    assert TrafficPool.Allowed(cfg, w4, []) && TrafficPool.Play(cfg, w4, []) == w4;
    assert TrafficPool.Allowed(cfg, w3, [d]) && TrafficPool.Play(cfg, w3, [d]) == w4;
    assert TrafficPool.Allowed(cfg, w2, [c, d]) && TrafficPool.Play(cfg, w2, [c, d]) == w4;
    assert TrafficPool.Allowed(cfg, w1, [b, c, d]) && TrafficPool.Play(cfg, w1, [b, c, d]) == w4;
  }

  lemma {:induction false} PlayConcat(cfg: TrafficPool.Config, w: TrafficPool.World, acts: seq<TrafficPool.Action>, more: seq<TrafficPool.Action>)
    requires TrafficPool.Allowed(cfg, w, acts) && TrafficPool.Allowed(cfg, TrafficPool.Play(cfg, w, acts), more)
    ensures TrafficPool.Allowed(cfg, w, acts + more)
    ensures TrafficPool.Play(cfg, w, acts + more) == TrafficPool.Play(cfg, TrafficPool.Play(cfg, w, acts), more)
    decreases |acts|
  {
    hide TrafficPool.Next, TrafficPool.Enabled;
    if |acts| == 0 {
      assert acts + more == more;
    } else {
      assert (acts + more)[1..] == acts[1..] + more;
      PlayConcat(cfg, TrafficPool.Next(cfg, w, acts[0]), acts[1..], more);
    }
  }

  // The worker takes the first iteration and is about to send its request; ...
  lemma TakesFirst()
    ensures var acts := [TrafficPool.Handoff(0), TrafficPool.Advance(0), TrafficPool.Advance(0), TrafficPool.Advance(0)];
            && TrafficPool.Allowed(ONE_WORKER, TrafficPool.Start(ONE_WORKER), acts)
            && TrafficPool.Play(ONE_WORKER, TrafficPool.Start(ONE_WORKER), acts) == WorkerAt(TrafficPool.Sending(0, 0, 1), 1, [])
  {
    var cfg, w := ONE_WORKER, TrafficPool.Start(ONE_WORKER);
    assert w == WorkerAt(TrafficPool.Receiving, 0, []);
    var w1 := TrafficPool.Next(cfg, w, TrafficPool.Handoff(0));
    assert w1 == WorkerAt(TrafficPool.Received(0), 1, []);
    var w2 := TrafficPool.Next(cfg, w1, TrafficPool.Advance(0));
    assert w2 == WorkerAt(TrafficPool.AtAttempt(0, 0, 1), 1, []);
    var w3 := TrafficPool.Next(cfg, w2, TrafficPool.Advance(0));
    assert w3 == WorkerAt(TrafficPool.Waiting(0, 0, 1), 1, []);
    FourSteps(cfg, w, TrafficPool.Handoff(0), TrafficPool.Advance(0), TrafficPool.Advance(0), TrafficPool.Advance(0));
  }

  // ... it is sent, and then the context is done and the pool winds up.
  lemma WindsUp(w: TrafficPool.World)
    requires w == WorkerAt(TrafficPool.Sending(0, 0, 1), 1, [])
    ensures var acts := [TrafficPool.Advance(0), TrafficPool.CancelContext, TrafficPool.Close, TrafficPool.Advance(0)];
            && TrafficPool.Allowed(ONE_WORKER, w, acts)
            && TrafficPool.Play(ONE_WORKER, w, acts) ==
               TrafficPool.World(1, true, false, [TrafficPool.Exited], true, false, [Slot(0, 0, 1)])
  {
    var cfg := ONE_WORKER;
    var w1 := TrafficPool.Next(cfg, w, TrafficPool.Advance(0));
    assert w1 == WorkerAt(TrafficPool.Receiving, 1, [Slot(0, 0, 1)]);
    var w3 := TrafficPool.Next(cfg, TrafficPool.Next(cfg, w1, TrafficPool.CancelContext), TrafficPool.Close);
    assert w3 == TrafficPool.World(1, true, false, [TrafficPool.Receiving], true, false, [Slot(0, 0, 1)]);
    FourSteps(cfg, w, TrafficPool.Advance(0), TrafficPool.CancelContext, TrafficPool.Close, TrafficPool.Advance(0));
  }

  // Of a plan of two requests one is sent before the context is done, and the run passes.
  lemma PartialPlanCanPass(answer: Slot -> ResponseRecord) returns (acts: seq<TrafficPool.Action>)
    requires answer(Slot(0, 0, 1)).error == ""
    ensures TrafficPool.Allowed(ONE_WORKER, TrafficPool.Start(ONE_WORKER), acts)
    ensures var w, spec := TrafficPool.Play(ONE_WORKER, TrafficPool.Start(ONE_WORKER), acts), Spec([], [], Thresholds(Some(0.0), None), []);
            && w.returned && w.done && |w.records| == 1 && |FullPlan(2, 1, 1)| == 2
            && RunReport(spec, [], Map(w.records, answer), []).status == ReportPassed
  {
    var cfg, start := ONE_WORKER, TrafficPool.Start(ONE_WORKER);
    TakesFirst();
    var first := [TrafficPool.Handoff(0), TrafficPool.Advance(0), TrafficPool.Advance(0), TrafficPool.Advance(0)];
    var w := TrafficPool.Play(cfg, start, first);
    WindsUp(w);
    var second := [TrafficPool.Advance(0), TrafficPool.CancelContext, TrafficPool.Close, TrafficPool.Advance(0)];
    hide TrafficPool.Allowed, TrafficPool.Play, RunReport;
    PlayConcat(cfg, start, first, second);
    acts := first + second;
    ReturnOne(TrafficPool.Play(cfg, start, acts));
    PlayConcat(cfg, start, acts, [TrafficPool.Return]);
    acts := acts + [TrafficPool.Return];
    FullPlanLength(2, 1, 1);
    var spec := Spec([], [], Thresholds(Some(0.0), None), []);
    InterruptedPassesIff(cfg, acts, answer, spec, [], []);
  }

  lemma ReturnOne(w: TrafficPool.World)
    requires w == TrafficPool.World(1, true, false, [TrafficPool.Exited], true, false, [Slot(0, 0, 1)])
    ensures TrafficPool.Allowed(ONE_WORKER, w, [TrafficPool.Return])
    ensures TrafficPool.Play(ONE_WORKER, w, [TrafficPool.Return]) == w.(returned := true)
  {
    var v := w.(returned := true);
    assert [TrafficPool.Return][1..] == [];
    assert TrafficPool.Allowed(ONE_WORKER, v, []) && TrafficPool.Play(ONE_WORKER, v, []) == v;
  }
}
