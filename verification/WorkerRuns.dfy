// When an Execute attempt starts a run, sends its requests, cancels it and returns.
module WorkerRuns {
  import opened Prelude
  import opened RunEvents
  import opened Reports
  import opened RunLifecycle
  import opened CancelHandler
  import opened WorkerProtocol

  // What a step does to one attempt, and to the run.
  lemma AttemptAt(w: World, act: Action, a: nat)
    requires Enabled(w, act)
    ensures var w' := Next(w, act);
            && (Owner(act) == Some(a) ==> a in w.attempts && AttemptEnabled(w.attempts[a], act))
            && (a in w.attempts ==>
                  a in w'.attempts &&
                  w'.attempts[a] == if Owner(act) == Some(a) then AttemptAfter(w.cell, w.attempts[a], act) else w.attempts[a])
            && (a !in w.attempts && a in w'.attempts ==> w'.attempts[a] == NEW_ATTEMPT)
  {
    hide Apply, HasRequest, OpOf, UploadOf, HandlersAfter, SightsAfter, AttemptAfter, AttemptEnabled;
  }

  lemma RunAfter(w: World, act: Action)
    requires Enabled(w, act) && w.cell.run.Some?
    ensures var c := Next(w, act).cell;
            && c.run.Some? && (StatusOf(w) != Queued ==> StatusIn(c) != Queued) && (IsTerminal(StatusOf(w)) ==> IsTerminal(StatusIn(c)))
  {
    HonestOp(w, act);
    hide Apply, HasRequest, OpOf, UploadOf, HandlersAfter, SightsAfter, AttemptsAfter, Enabled, Inv;
    CellStep(w.cell, OpOf(w, act));
  }

  // ----- a finished run is not executed --------------------------------------

  // Not in the runner and not to come back from it.
  predicate Outside(x: Attempt) {
    BeforeRunner(x.pc) || !Live(x) || x.pc == UploadingCanceled(BeforeStart) || x.pc == Canceling(OVERRIDE)
  }

  ghost predicate StaysOut(w: World, a: nat) {
    w.cell.run.Some? && IsTerminal(StatusOf(w)) && (a in w.attempts ==> Outside(w.attempts[a]))
  }

  lemma OutsideStays(c: Cell, x: Attempt, act: Action)
    requires c.run.Some? && IsTerminal(StatusIn(c)) && Outside(x) && AttemptEnabled(x, act)
    ensures Outside(AttemptAfter(c, x, act))
  {
    hide HasRequest;
  }

  lemma StaysOutStep(w: World, act: Action, a: nat)
    requires StaysOut(w, a) && Enabled(w, act)
    ensures StaysOut(Next(w, act), a)
  {
    AttemptAt(w, act, a);
    RunAfter(w, act);
    NewcomerIsOutside();
    hide Next, Enabled, Outside, AttemptAfter;
    if Owner(act) == Some(a) {
      OutsideStays(w.cell, w.attempts[a], act);
    }
  }

  lemma NewcomerIsOutside()
    ensures Outside(NEW_ATTEMPT) && Watched(NEW_ATTEMPT)
  {
  }

  // Once a run is finished, an attempt that is not executing it by then never does: not one that is
  // about to, and not one that is delivered later.
  lemma FinishedRunIsNotExecuted(w: World, acts: seq<Action>, a: nat)
    requires w.cell.run.Some? && IsTerminal(StatusOf(w)) && Allowed(w, acts)
    requires a in w.attempts ==> BeforeRunner(w.attempts[a].pc)
    ensures var w' := Exec(w, acts); a in w'.attempts ==> Outside(w'.attempts[a]) && w'.attempts[a].pc != InRunner
  {
    StaysOutExec(w, acts, a);
  }

  lemma {:induction false} StaysOutExec(w: World, acts: seq<Action>, a: nat)
    requires StaysOut(w, a) && Allowed(w, acts)
    ensures StaysOut(Exec(w, acts), a)
    decreases |acts|
  {
    if |acts| > 0 {
      StaysOutStep(w, acts[0], a);
      hide StaysOut, Next, Enabled;
      StaysOutExec(Next(w, acts[0]), acts[1..], a);
    }
  }

  // ----- a started run is not started again ----------------------------------

  // The attempt has not found the run queued, and will not.
  predicate FoundStarted(x: Attempt) {
    x.pc != Starting && x.pc != Checking(Queued)
  }

  ghost predicate NotStartedBy(w: World, a: nat) {
    w.cell.run.Some? && StatusOf(w) != Queued && (a in w.attempts ==> FoundStarted(w.attempts[a]))
  }

  lemma NotStartedStep(w: World, act: Action, a: nat)
    requires NotStartedBy(w, a) && Enabled(w, act)
    ensures NotStartedBy(Next(w, act), a)
  {
    AttemptAt(w, act, a);
    RunAfter(w, act);
    hide Next, Enabled, AttemptAfter;
    if Owner(act) == Some(a) {
      FoundStartedStays(w.cell, w.attempts[a], act);
    }
  }

  lemma FoundStartedStays(c: Cell, x: Attempt, act: Action)
    requires StatusIn(c) != Queued && FoundStarted(x) && AttemptEnabled(x, act)
    ensures FoundStarted(AttemptAfter(c, x, act))
  {
    hide HasRequest;
  }

  // Only an attempt that found the run queued starts it: one that comes to a run that is no longer
  // queued never does, and leaves no run_started of its own.
  lemma {:induction false} StartedRunIsNotStarted(w: World, acts: seq<Action>, a: nat)
    requires NotStartedBy(w, a) && Allowed(w, acts)
    ensures var w' := Exec(w, acts); NotStartedBy(w', a) && (a in w'.attempts ==> AttemptOp(w'.attempts[a].pc) != Some(MarkStarted))
    decreases |acts|
  {
    if |acts| > 0 {
      NotStartedStep(w, acts[0], a);
      hide NotStartedBy, Next, Enabled;
      StartedRunIsNotStarted(Next(w, acts[0]), acts[1..], a);
    }
  }

  // ----- when an attempt returns ---------------------------------------------

  // The step by which an attempt returns: it could not read the run, or found it finished, or found
  // it still queued after its start, or this was its finishing write, whatever became of that.
  lemma ReturnsIff(w: World, a: nat, outcome: Outcome)
    requires WorldInv(w) && Enabled(w, Step(a, outcome))
    ensures var x, x' := w.attempts[a], Next(w, Step(a, outcome)).attempts[a];
            && (x'.pc == Returned <==>
                  || ((x.pc == Entered || x.pc == Confirming) && (outcome != Committed || IsTerminal(StatusOf(w))))
                  || (x.pc == Confirming && StatusOf(w) == Queued)
                  || (AttemptOp(x.pc).Some? && AttemptOp(x.pc).value != MarkStarted))
            && (x'.pc == Returned ==> (x'.blind <==> ReadsRun(x.pc) && outcome != Committed))
            && (x'.pc == Returned && !ReadsRun(x.pc) ==> (x'.lost <==> outcome == RolledBack))
  {
    hide HasRequest, Inv, FinisherOk;
    assert AttemptOk(w.cell, w.attempts[a]);
  }

  // ----- the monitor ---------------------------------------------------------

  predicate Watched(x: Attempt) {
    x.pc == InRunner ==> x.monitor != NotStarted
  }

  lemma WatchedStays(c: Cell, x: Attempt, act: Action)
    requires Watched(x) && AttemptEnabled(x, act)
    ensures Watched(AttemptAfter(c, x, act))
  {
    hide HasRequest;
  }

  // While its runner is at work an attempt has a monitor: in every interleaving one was started.
  lemma {:induction false} RunnerIsWatched(w: World, acts: seq<Action>, a: nat)
    requires Allowed(w, acts) && (a in w.attempts ==> Watched(w.attempts[a]))
    ensures var w' := Exec(w, acts); a in w'.attempts && w'.attempts[a].pc == InRunner ==> w'.attempts[a].monitor != NotStarted
    decreases |acts|
  {
    if |acts| > 0 {
      AttemptAt(w, acts[0], a);
      NewcomerIsOutside();
      hide Watched, Next, Enabled, AttemptAfter;
      if Owner(acts[0]) == Some(a) {
        WatchedStays(w.cell, w.attempts[a], acts[0]);
      }
      RunnerIsWatched(Next(w, acts[0]), acts[1..], a);
    }
  }

  // A monitor that can read the log sets the flag of its attempt in two steps once a request is on
  // it.
  lemma MonitorSetsFlag(w: World, a: nat, outcome: Outcome)
    requires a in w.attempts && w.attempts[a].monitor == Watching && HasRequest(w.cell.events)
    ensures var acts := [Watch(a, Committed), Watch(a, outcome)];
            && Allowed(w, acts)
            && Exec(w, acts) == w.(attempts := w.attempts[a := w.attempts[a].(flag := true, monitor := Stopped)])
  {
    hide HasRequest, Allowed, Exec;
    var w1 := Next(w, Watch(a, Committed));
    assert w1 == w.(attempts := w.attempts[a := w.attempts[a].(monitor := SawRequest)]);
    TwoSteps(w, Watch(a, Committed), Watch(a, outcome));
    var w2 := Next(w1, Watch(a, outcome));
    assert w2.attempts == w.attempts[a := w.attempts[a].(flag := true, monitor := Stopped)];
  }

  // Where an attempt is whose flag is set: on its way to cancel the run, or gone.
  predicate BoundToCancel(x: Attempt) {
    || !Live(x) || x.pc.UploadingCanceled? || x.pc.Canceling?
    || (x.flag && (x.pc == InRunner || x.pc.LoadingFlag?))
  }

  lemma CanceledStays(c: Cell, x: Attempt, act: Action)
    requires BoundToCancel(x) && AttemptEnabled(x, act)
    ensures BoundToCancel(AttemptAfter(c, x, act))
  {
    hide HasRequest;
  }

  lemma CanceledStep(w: World, act: Action, a: nat)
    requires a in w.attempts && BoundToCancel(w.attempts[a]) && Enabled(w, act)
    ensures var w' := Next(w, act); a in w'.attempts && BoundToCancel(w'.attempts[a])
  {
    AttemptAt(w, act, a);
    hide Next, Enabled, AttemptAfter, BoundToCancel;
    if Owner(act) == Some(a) {
      CanceledStays(w.cell, w.attempts[a], act);
    }
  }

  // An attempt whose flag is set while its runner is at work, or before it loads it, does not
  // complete the run or report an error: it cancels it, or does not get as far, even if its own look
  // at the log would fail.
  lemma {:induction false} FlagMeansCancel(w: World, acts: seq<Action>, a: nat)
    requires a in w.attempts && BoundToCancel(w.attempts[a]) && Allowed(w, acts)
    ensures var w' := Exec(w, acts);
            && a in w'.attempts && BoundToCancel(w'.attempts[a]) && !PastCheck(w'.attempts[a])
    decreases |acts|
  {
    if |acts| > 0 {
      CanceledStep(w, acts[0], a);
      hide BoundToCancel, Next, Enabled;
      FlagMeansCancel(Next(w, acts[0]), acts[1..], a);
    }
  }

  // What a monitor that has seen a request comes to: it sets the flag, unless the attempt crashes.
  predicate Seen(x: Attempt) {
    x.monitor == SawRequest || x.flag || x.pc == Crashed
  }

  lemma SeenStays(c: Cell, x: Attempt, act: Action)
    requires Seen(x) && AttemptEnabled(x, act) && (x.monitor == SawRequest ==> !BeforeRunner(x.pc))
    ensures Seen(AttemptAfter(c, x, act))
  {
    hide HasRequest;
  }

  lemma {:induction false} SeenMeansFlagged(w: World, acts: seq<Action>, a: nat)
    requires WorldInv(w) && Allowed(w, acts) && a in w.attempts && Seen(w.attempts[a])
    ensures var w' := Exec(w, acts); a in w'.attempts && Seen(w'.attempts[a])
    decreases |acts|
  {
    if |acts| > 0 {
      NextInv(w, acts[0]);
      AttemptAt(w, acts[0], a);
      MonitorsInRunner(w, a);
      hide WorldInv, Seen, Next, Enabled, AttemptAfter;
      if Owner(acts[0]) == Some(a) {
        SeenStays(w.cell, w.attempts[a], acts[0]);
      }
      SeenMeansFlagged(Next(w, acts[0]), acts[1..], a);
    }
  }

  lemma MonitorsInRunner(w: World, a: nat)
    requires WorldInv(w) && a in w.attempts
    ensures w.attempts[a].monitor == SawRequest ==> !BeforeRunner(w.attempts[a].pc)
  {
    hide Inv, HasRequest, FinisherOk;
    assert AttemptOk(w.cell, w.attempts[a]);
  }

  // ----- failures that the store knows nothing of ----------------------------

  // An attempt can crash wherever it is; nothing but the attempt and its monitor is changed by that.
  lemma CrashLeavesRun(w: World, a: nat)
    requires a in w.attempts && Live(w.attempts[a])
    ensures Allowed(w, [Crash(a)])
    ensures Exec(w, [Crash(a)]) == w.(attempts := w.attempts[a := w.attempts[a].(pc := Crashed, monitor := Stopped)])
  {
    hide Allowed, Exec, HasRequest;
    OneStep(w, Crash(a));
  }

  // A run whose task could not be queued is errored, unless it was finished or that is rolled back.
  lemma EnqueueFailureIs(w: World, message: string, outcome: Outcome)
    requires w.submitting
    ensures Enabled(w, EnqueueFailed(message, outcome))
    ensures var w' := Next(w, EnqueueFailed(message, outcome));
            && !w'.submitting
            && (outcome == RolledBack || !Open(w.cell) ==> w'.cell == w.cell)
            && (outcome != RolledBack && Open(w.cell) ==>
                  StatusOf(w') == Errored && w'.cell.run.value.error == message && w'.finisher == Some(BySubmitter))
  {
    hide HasRequest, Appended;
  }
}
