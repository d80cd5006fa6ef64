// Schedules from the creation of a run that show what its design does not rule out.
module WorkerSchedules {
  import opened Prelude
  import opened RunEvents
  import opened Reports
  import opened RunLifecycle
  import opened CancelHandler
  import opened WorkerProtocol
  import opened WorkerFutures

  // A step of an attempt that leaves the store alone.
  lemma QuietStep(w: World, a: nat)
    requires a in w.attempts && Steps(w.attempts[a].pc) && AttemptOp(w.attempts[a].pc) == None
    ensures Enabled(w, Step(a, Committed))
    ensures Next(w, Step(a, Committed)) == w.(attempts := w.attempts[a := AttemptStep(w.cell, w.attempts[a], Committed)])
  {
    hide HasRequest, AttemptStep;
  }

  function ToRunner(a: nat): seq<Action> {
    [Step(a, Committed), Step(a, Committed)] + [Step(a, Committed), Step(a, Committed)]
  }

  function ToUpload(a: nat, rep: Report): seq<Action> {
    [Finish(a, Produced(rep)), Step(a, Committed)] + [Step(a, Committed)]
  }

  // Alone, an attempt on a queued run without a request comes to start it.
  lemma ReachStart(w: World, a: nat)
    requires Open(w.cell) && StatusOf(w) == Queued && !HasRequest(w.cell.events)
    requires a in w.attempts && w.attempts[a].pc == Entered
    ensures Allowed(w, [Step(a, Committed), Step(a, Committed)])
    ensures Exec(w, [Step(a, Committed), Step(a, Committed)]) ==
            w.(attempts := w.attempts[a := w.attempts[a].(pc := Starting, checkedAt := |w.cell.events|, missed := false)])
  {
    hide Allowed, Exec;
    QuietStep(w, a);
    var w1 := Next(w, Step(a, Committed));
    QuietStep(w1, a);
    TwoSteps(w, Step(a, Committed), Step(a, Committed));
    hide Next, HasRequest;
    assert w1.attempts[a] == w.attempts[a].(pc := Checking(Queued));
  }

  // Then it reaches the runner, having started the run.
  lemma ReachRunner(w: World, a: nat)
    requires Open(w.cell) && StatusOf(w) == Queued && !HasRequest(w.cell.events)
    requires a in w.attempts && w.attempts[a].pc == Entered
    ensures Allowed(w, ToRunner(a))
    ensures Exec(w, ToRunner(a)) ==
            w.(cell := MarkRunStarted(w.cell),
               attempts := w.attempts[a := w.attempts[a].(pc := InRunner, monitor := Watching, checkedAt := |w.cell.events|, missed := false, lost := false)])
  {
    hide HasRequest, MarkRunStarted, Allowed, Exec;
    var x := w.attempts[a];
    ReachStart(w, a);
    var w2 := Exec(w, [Step(a, Committed), Step(a, Committed)]);
    StartedIsRunning(w.cell);
    var w3 := Next(w2, Step(a, Committed));
    assert w3 == w.(cell := MarkRunStarted(w.cell), attempts := w.attempts[a := x.(pc := Confirming, checkedAt := |w.cell.events|, missed := false, lost := false)]);
    QuietStep(w3, a);
    TwoSteps(w2, Step(a, Committed), Step(a, Committed));
    ExecConcat(w, [Step(a, Committed), Step(a, Committed)], [Step(a, Committed), Step(a, Committed)]);
  }

  lemma FinishMoves(w: World, a: nat, rep: Report)
    requires a in w.attempts && w.attempts[a].pc == InRunner && rep.status == ReportPassed
    ensures var act := Finish(a, Produced(rep));
            Enabled(w, act) && Next(w, act) == w.(attempts := w.attempts[a := w.attempts[a].(pc := LoadingFlag(Produced(rep)))])
  {
    hide HasRequest;
  }

  // From the runner, a produced report and a look that finds no request lead to the upload.
  lemma ReachUpload(w: World, a: nat, rep: Report)
    requires !HasRequest(w.cell.events) && rep.status == ReportPassed
    requires a in w.attempts && w.attempts[a].pc == InRunner && !w.attempts[a].flag
    ensures Allowed(w, ToUpload(a, rep))
    ensures Exec(w, ToUpload(a, rep)) ==
            w.(attempts := w.attempts[a := w.attempts[a].(pc := Uploading(rep), checkedAt := |w.cell.events|, missed := false)])
  {
    hide Allowed, Exec, Next, Enabled, HasRequest;
    var x := w.attempts[a];
    FinishMoves(w, a, rep);
    var w1 := Next(w, Finish(a, Produced(rep)));
    QuietStep(w1, a);
    var w2 := Next(w1, Step(a, Committed));
    TwoSteps(w, Finish(a, Produced(rep)), Step(a, Committed));
    assert w2 == w.(attempts := w.attempts[a := x.(pc := Rechecking(Produced(rep)))]);
    QuietStep(w2, a);
    OneStep(w2, Step(a, Committed));
    ExecConcat(w, [Finish(a, Produced(rep)), Step(a, Committed)], [Step(a, Committed)]);
  }

  lemma {:induction false} ExecConcat(w: World, acts: seq<Action>, more: seq<Action>)
    requires Allowed(w, acts) && Allowed(Exec(w, acts), more)
    ensures Allowed(w, acts + more) && Exec(w, acts + more) == Exec(Exec(w, acts), more)
    decreases |acts|
  {
    hide Next, Enabled;
    if |acts| == 0 {
      assert acts + more == more;
    } else {
      assert (acts + more)[1..] == acts[1..] + more;
      ExecConcat(Next(w, acts[0]), acts[1..], more);
    }
  }

  lemma CreatedRun(versionID: string, versionNumber: nat)
    ensures var c := Init(versionID, versionNumber).cell;
            && Open(c) && StatusIn(c) == Queued && !HasRequest(c.events)
            && Open(MarkRunStarted(c)) && !HasRequest(MarkRunStarted(c).events)
  {
    var c := Init(versionID, versionNumber).cell;
    AppendedEffect([], Body(Info, RunQueued, "run queued"));
    AppendedEffect(c.events, Body(Info, RunStarted, "run started"));
  }

  lemma HandlerLooksFirst(w: World) returns (acts: seq<Action>)
    requires Open(w.cell) && StatusOf(w) == Queued && 0 !in w.attempts && 0 !in w.handlers
    ensures Allowed(w, acts)
    ensures Exec(w, acts) == w.(attempts := w.attempts[0 := NEW_ATTEMPT],
                                handlers := w.handlers[0 := Requesting(Queued)],
                                sights := w.sights[0 := [Sight(Queued, Committed, false)]])
  {
    hide HasRequest, Allowed, Exec;
    AskMoves(Next(w, Deliver(0)), 0);
    TwoSteps(w, Deliver(0), Ask(0));
    var w2 := Exec(w, [Deliver(0), Ask(0)]);
    assert w2 == w.(attempts := w.attempts[0 := NEW_ATTEMPT], handlers := w.handlers[0 := Looking], sights := w.sights[0 := []]);
    OneStep(w2, Serve(0, Committed));
    var w3 := Next(w2, Serve(0, Committed));
    assert Saw(w.cell, Committed, false, Looking, []) == [Sight(Queued, Committed, false)];
    assert w3.sights == w.sights[0 := [Sight(Queued, Committed, false)]];
    assert w3.handlers == w.handlers[0 := Requesting(Queued)];
    ExecConcat(w, [Deliver(0), Ask(0)], [Serve(0, Committed)]);
    acts := [Deliver(0), Ask(0)] + [Serve(0, Committed)];
  }

  // A handler saw the run queued before attempt 0 started it; the attempt then looked and
  // found no request, so its report is ready to upload when the request arrives.
  lemma RaceSetUp(versionID: string, versionNumber: nat, rep: Report) returns (acts: seq<Action>)
    requires rep.status == ReportPassed
    ensures Allowed(Init(versionID, versionNumber), acts)
    ensures var w := Exec(Init(versionID, versionNumber), acts);
            && Open(w.cell) && StatusOf(w) == Running && !HasRequest(w.cell.events)
            && 0 in w.attempts && w.attempts[0].pc == Uploading(rep)
            && 0 in w.handlers && w.handlers[0] == Requesting(Queued)
  {
    hide HasRequest, Allowed, Exec, Next, Enabled, Created, ToRunner, ToUpload, MarkRunStarted;
    var init := Init(versionID, versionNumber);
    CreatedRun(versionID, versionNumber);
    StartedIsRunning(init.cell);
    acts := HandlerLooksFirst(init);
    ReachRunner(Exec(init, acts), 0);
    ExecConcat(init, acts, ToRunner(0));
    acts := acts + ToRunner(0);
    ReachUpload(Exec(init, acts), 0, rep);
    ExecConcat(init, acts, ToUpload(0, rep));
    acts := acts + ToUpload(0, rep);
  }

  lemma StartedIsRunning(c: Cell)
    requires Open(c)
    ensures MarkRunStarted(c).run.Some? && MarkRunStarted(c).run.value.status == Running
  {
  }

  lemma Extend(w: World, acts: seq<Action>, act: Action)
    requires Allowed(w, acts) && Enabled(Exec(w, acts), act)
    ensures Allowed(w, acts + [act]) && Exec(w, acts + [act]) == Next(Exec(w, acts), act)
  {
    hide Next, Enabled, Allowed, Exec;
    OneStep(Exec(w, acts), act);
    ExecConcat(w, acts, [act]);
  }

  // One step of an attempt, of a handler, and an upload that succeeds.
  lemma AttemptMoves(w: World, a: nat, outcome: Outcome)
    requires a in w.attempts && Steps(w.attempts[a].pc)
    ensures Enabled(w, Step(a, outcome))
    ensures var w' := Next(w, Step(a, outcome));
            && w'.cell == After(w.cell, Effect(AttemptOp(w.attempts[a].pc), outcome))
            && w'.attempts == w.attempts[a := AttemptStep(w.cell, w.attempts[a], outcome)]
            && w'.handlers == w.handlers && w'.blob == w.blob
  {
    hide HasRequest, AttemptStep, After;
  }

  lemma HandlerMoves(w: World, h: nat, outcome: Outcome)
    requires h in w.handlers
    ensures Enabled(w, Serve(h, outcome))
    ensures var w' := Next(w, Serve(h, outcome));
            && w'.cell == After(w.cell, Effect(HandlerOp(w.handlers[h]), outcome))
            && w'.handlers == w.handlers[h := HandlerNext(w.cell, outcome, false, w.handlers[h])]
            && w'.attempts == w.attempts && w'.blob == w.blob
  {
    hide HasRequest, HandlerNext, After;
  }

  lemma PutMoves(w: World, a: nat)
    requires a in w.attempts && (w.attempts[a].pc.Uploading? || w.attempts[a].pc.UploadingCanceled?)
    ensures Enabled(w, Put(a, true))
    ensures var w', pc := Next(w, Put(a, true)), w.attempts[a].pc;
            && w'.cell == w.cell && w'.handlers == w.handlers && w'.blob == Some(if pc.Uploading? then pc.rep else CancelReport(pc.branch))
            && w'.attempts == w.attempts[a := w.attempts[a].(pc := if pc.Uploading? then Completing(pc.rep) else Canceling(CancelReport(pc.branch)))]
  {
    hide HasRequest;
  }

  lemma RequestLogged(c: Cell)
    requires Open(c) && !HasRequest(c.events)
    ensures var d := Apply(c, RequestCancel); d.run == c.run && Open(d) && HasRequest(d.events)
  {
    AppendedEffect(c.events, Body(Warn, CancelRequested, "run cancellation requested"));
    hide HasRequest;
  }

  // The request of the handler arrives after the attempt's last look.
  lemma RequestTooLate(versionID: string, versionNumber: nat, rep: Report) returns (acts: seq<Action>)
    requires rep.status == ReportPassed
    ensures Allowed(Init(versionID, versionNumber), acts)
    ensures var w := Exec(Init(versionID, versionNumber), acts);
            && Open(w.cell) && StatusOf(w) == Running && HasRequest(w.cell.events)
            && 0 in w.attempts && w.attempts[0].pc == Completing(rep) && w.blob == Some(rep)
            && 0 in w.handlers && w.handlers[0] == Consulting(Queued)
  {
    acts := RaceSetUp(versionID, versionNumber, rep);
    var init := Init(versionID, versionNumber);
    hide Allowed, Exec, Init, HasRequest, Next, Enabled, Open, AttemptStep;
    var w := Exec(init, acts);
    HandlerMoves(w, 0, Committed);
    RequestLogged(w.cell);
    Extend(init, acts, Serve(0, Committed));
    acts := acts + [Serve(0, Committed)];
    w := Exec(init, acts);
    PutMoves(w, 0);
    Extend(init, acts, Put(0, true));
    acts := acts + [Put(0, true)];
  }

  lemma FinishedStatus(c: Cell, op: Op)
    requires Open(c) && Finishes(op)
    ensures var d := Apply(c, op);
            && d.run.Some? && !Open(d)
            && (op.Cancel? ==> StatusIn(d) == Canceled && d.run.value.report.Some? && d.run.value.report.value.status == ReportCanceled)
            && (op.Complete? ==> IsTerminal(StatusIn(d)) && StatusIn(d) != Canceled)
  {
  }

  // The uploaded report can say passed while the store says canceled: the upload comes first,
  // and an API handler that saw the run queued can still cancel it before CompleteRun.
  lemma BlobCanContradictStore(versionID: string, versionNumber: nat, rep: Report) returns (acts: seq<Action>)
    requires rep.status == ReportPassed
    ensures Allowed(Init(versionID, versionNumber), acts)
    ensures var w := Exec(Init(versionID, versionNumber), acts);
            && w.blob == Some(rep) && StatusOf(w) == Canceled
            && w.cell.run.Some? && w.cell.run.value.report.Some? && w.cell.run.value.report.value.status == ReportCanceled
  {
    acts := RequestTooLate(versionID, versionNumber, rep);
    var init := Init(versionID, versionNumber);
    hide Allowed, Exec, Init, HasRequest, Next, Enabled, Open, Apply;
    var w := Exec(init, acts);
    HandlerMoves(w, 0, Committed);
    Extend(init, acts, Serve(0, Committed));
    acts := acts + [Serve(0, Committed)];
    w := Exec(init, acts);
    HandlerMoves(w, 0, Committed);
    FinishedStatus(w.cell, Cancel(OVERRIDE));
    Extend(init, acts, Serve(0, Committed));
    acts := acts + [Serve(0, Committed)];
  }

  // A cancel answered with 202 can lose: the request is on the log and accepted, and the run
  // still completes.
  lemma AcceptedCancelCanLose(versionID: string, versionNumber: nat, rep: Report) returns (acts: seq<Action>)
    requires rep.status == ReportPassed
    ensures Allowed(Init(versionID, versionNumber), acts)
    ensures var w := Exec(Init(versionID, versionNumber), acts);
            && 0 in w.handlers && w.handlers[0] == Answered(Accepted)
            && IsTerminal(StatusOf(w)) && StatusOf(w) != Canceled
  {
    acts := RequestTooLate(versionID, versionNumber, rep);
    var init := Init(versionID, versionNumber);
    hide Allowed, Exec, Init, HasRequest, Next, Enabled, Open, Apply, AttemptStep;
    var w := Exec(init, acts);
    AttemptMoves(w, 0, Committed);
    FinishedStatus(w.cell, Complete(rep));
    Extend(init, acts, Step(0, Committed));
    acts := acts + [Step(0, Committed)];
    w := Exec(init, acts);
    HandlerMoves(w, 0, Committed);
    Extend(init, acts, Serve(0, Committed));
    acts := acts + [Serve(0, Committed)];
    w := Exec(init, acts);
    HandlerMoves(w, 0, Committed);
    ClosedIgnoresCancel(w.cell);
    Extend(init, acts, Serve(0, Committed));
    acts := acts + [Serve(0, Committed)];
  }

  lemma ClosedIgnoresCancel(c: Cell)
    requires !Open(c)
    ensures Apply(c, Cancel(OVERRIDE)) == c
  {
  }

  // ----- writes that are rolled back -----------------------------------------

  // The attempt returns without an error and the run stays queued for good: its start was
  // rolled back.
  lemma ReturnedYetQueued(versionID: string, versionNumber: nat) returns (acts: seq<Action>)
    ensures Allowed(Init(versionID, versionNumber), acts)
    ensures var w := Exec(Init(versionID, versionNumber), acts);
            && 0 in w.attempts && w.attempts[0].pc == Returned && Open(w.cell) && StatusOf(w) == Queued
  {
    var init := Init(versionID, versionNumber);
    CreatedRun(versionID, versionNumber);
    acts := HandlerLooksFirst(init);
    hide Allowed, Exec, Init, HasRequest, Next, Enabled, MarkRunStarted;
    ReachStart(Exec(init, acts), 0);
    ExecConcat(init, acts, [Step(0, Committed), Step(0, Committed)]);
    acts := acts + [Step(0, Committed), Step(0, Committed)];
    var w := Exec(init, acts);
    AttemptMoves(w, 0, RolledBack);
    Extend(init, acts, Step(0, RolledBack));
    acts := acts + [Step(0, RolledBack)];
    w := Exec(init, acts);
    AttemptMoves(w, 0, Committed);
    Extend(init, acts, Step(0, Committed));
    acts := acts + [Step(0, Committed)];
  }

  // The attempt uploads its report and returns without an error, and the run stays running for
  // good: its completion was rolled back.
  lemma ReturnedYetRunning(versionID: string, versionNumber: nat, rep: Report) returns (acts: seq<Action>)
    requires rep.status == ReportPassed
    ensures Allowed(Init(versionID, versionNumber), acts)
    ensures var w := Exec(Init(versionID, versionNumber), acts);
            && 0 in w.attempts && w.attempts[0].pc == Returned && StatusOf(w) == Running && HasRequest(w.cell.events) && w.blob == Some(rep)
  {
    acts := RequestTooLate(versionID, versionNumber, rep);
    var init := Init(versionID, versionNumber);
    hide Allowed, Exec, Init, HasRequest, Next, Enabled, Open, Apply;
    var w := Exec(init, acts);
    AttemptMoves(w, 0, RolledBack);
    Extend(init, acts, Step(0, RolledBack));
    acts := acts + [Step(0, RolledBack)];
  }

  // A request that came in time, was seen by the only attempt and answered with 202 comes to
  // nothing when both cancels are rolled back.
  lemma SeenRequestCanBeLost(versionID: string, versionNumber: nat) returns (acts: seq<Action>)
    ensures Allowed(Init(versionID, versionNumber), acts)
    ensures var w := Exec(Init(versionID, versionNumber), acts);
            && 0 in w.attempts && w.attempts[0].pc == Returned && w.attempts.Keys == {0}
            && 0 in w.handlers && w.handlers[0] == Answered(Accepted)
            && Open(w.cell) && HasRequest(w.cell.events)
  {
    var init := Init(versionID, versionNumber);
    CreatedRun(versionID, versionNumber);
    acts := HandlerLooksFirst(init);
    hide Allowed, Exec, Init, HasRequest, Next, Enabled, Apply;
    var w := Exec(init, acts);
    HandlerMoves(w, 0, Committed);
    RequestLogged(w.cell);
    Extend(init, acts, Serve(0, Committed));
    acts := acts + [Serve(0, Committed)];
    acts := SeenAndRolledBack(init, acts);
    acts := AnswersWithoutCancel(init, acts);
  }

  // The handler of a run it saw queued answers, and its cancel is rolled back.
  lemma AnswersWithoutCancel(init: World, before: seq<Action>) returns (acts: seq<Action>)
    requires Allowed(init, before)
    requires var w := Exec(init, before); 0 in w.handlers && w.handlers[0] == Consulting(Queued)
    ensures Allowed(init, acts)
    ensures var w, w' := Exec(init, before), Exec(init, acts);
            w'.cell == w.cell && w'.attempts == w.attempts && 0 in w'.handlers && w'.handlers[0] == Answered(Accepted)
  {
    hide Allowed, Exec, HasRequest, Next, Enabled, Apply;
    acts := before;
    HandlerMoves(Exec(init, acts), 0, Committed);
    Extend(init, acts, Serve(0, Committed));
    acts := acts + [Serve(0, Committed)];
    HandlerMoves(Exec(init, acts), 0, RolledBack);
    Extend(init, acts, Serve(0, RolledBack));
    acts := acts + [Serve(0, RolledBack)];
  }

  // The attempt enters, sees the request, and its cancel is rolled back.
  lemma SeenAndRolledBack(init: World, before: seq<Action>) returns (acts: seq<Action>)
    requires Allowed(init, before)
    requires var w := Exec(init, before); Open(w.cell) && HasRequest(w.cell.events) && 0 in w.attempts && w.attempts[0].pc == Entered
    ensures Allowed(init, acts)
    ensures var w, w' := Exec(init, before), Exec(init, acts);
            && w'.cell == w.cell && w'.handlers == w.handlers && w'.attempts.Keys == w.attempts.Keys
            && w'.attempts[0].pc == Returned
  {
    hide Allowed, Exec, HasRequest, Next, Enabled, Apply;
    acts := before;
    var w := Exec(init, acts);
    AttemptMoves(w, 0, Committed);
    Extend(init, acts, Step(0, Committed));
    acts := acts + [Step(0, Committed)];
    w := Exec(init, acts);
    AttemptMoves(w, 0, Committed);
    Extend(init, acts, Step(0, Committed));
    acts := acts + [Step(0, Committed)];
    w := Exec(init, acts);
    PutMoves(w, 0);
    Extend(init, acts, Put(0, true));
    acts := acts + [Put(0, true)];
    w := Exec(init, acts);
    AttemptMoves(w, 0, RolledBack);
    Extend(init, acts, Step(0, RolledBack));
    acts := acts + [Step(0, RolledBack)];
  }

  // ----- reads that fail -----------------------------------------------------

  lemma Delivered(versionID: string, versionNumber: nat)
    ensures var init := Init(versionID, versionNumber);
            && Allowed(init, [Deliver(0)])
            && Exec(init, [Deliver(0)]) == init.(attempts := map[0 := NEW_ATTEMPT])
  {
    OneStep(Init(versionID, versionNumber), Deliver(0));
  }

  // The attempt starts the run, cannot read it afterwards and returns without an error; no write
  // was rolled back and the run stays running for good.
  lemma ReturnedUnread(versionID: string, versionNumber: nat) returns (acts: seq<Action>)
    ensures Allowed(Init(versionID, versionNumber), acts)
    ensures var w := Exec(Init(versionID, versionNumber), acts);
            && 0 in w.attempts && w.attempts[0].pc == Returned && !w.attempts[0].lost && StatusOf(w) == Running
  {
    var init := Init(versionID, versionNumber);
    CreatedRun(versionID, versionNumber);
    Delivered(versionID, versionNumber);
    acts := [Deliver(0)];
    hide Allowed, Exec, HasRequest, Next, Enabled, MarkRunStarted;
    ReachStart(Exec(init, acts), 0);
    ExecConcat(init, acts, [Step(0, Committed), Step(0, Committed)]);
    acts := acts + [Step(0, Committed), Step(0, Committed)];
    var w := Exec(init, acts);
    StartedIsRunning(w.cell);
    AttemptMoves(w, 0, Committed);
    Extend(init, acts, Step(0, Committed));
    acts := acts + [Step(0, Committed)];
    w := Exec(init, acts);
    AttemptMoves(w, 0, RolledBack);
    Extend(init, acts, Step(0, RolledBack));
    acts := acts + [Step(0, RolledBack)];
  }

  lemma AskMoves(w: World, h: nat)
    requires h !in w.handlers
    ensures Enabled(w, Ask(h))
    ensures Next(w, Ask(h)) == w.(handlers := w.handlers[h := Looking], sights := w.sights[h := []])
  {
    hide HasRequest;
  }

  // A handler that comes while the run is at work logs its request and answers.
  lemma AnswersInTime(init: World, before: seq<Action>) returns (acts: seq<Action>)
    requires Allowed(init, before)
    requires var w := Exec(init, before);
             Open(w.cell) && StatusOf(w) == Running && !HasRequest(w.cell.events) && 0 !in w.handlers
    ensures Allowed(init, acts)
    ensures var w, w' := Exec(init, before), Exec(init, acts);
            && w'.attempts == w.attempts && Open(w'.cell) && HasRequest(w'.cell.events)
            && 0 in w'.handlers && w'.handlers[0] == Answered(Accepted)
  {
    hide Allowed, Exec, HasRequest, Next, Enabled, Apply;
    acts := before;
    AskMoves(Exec(init, acts), 0);
    Extend(init, acts, Ask(0));
    acts := acts + [Ask(0)];
    HandlerMoves(Exec(init, acts), 0, Committed);
    Extend(init, acts, Serve(0, Committed));
    acts := acts + [Serve(0, Committed)];
    HandlerMoves(Exec(init, acts), 0, Committed);
    RequestLogged(Exec(init, acts).cell);
    Extend(init, acts, Serve(0, Committed));
    acts := acts + [Serve(0, Committed)];
    HandlerMoves(Exec(init, acts), 0, Committed);
    Extend(init, acts, Serve(0, Committed));
    acts := acts + [Serve(0, Committed)];
  }

  // The only attempt is at work, and a cancel request is logged and answered.
  lemma AcceptedInTime(versionID: string, versionNumber: nat) returns (acts: seq<Action>)
    ensures Allowed(Init(versionID, versionNumber), acts)
    ensures var w := Exec(Init(versionID, versionNumber), acts);
            && Open(w.cell) && HasRequest(w.cell.events)
            && w.attempts.Keys == {0} && w.attempts[0].pc == InRunner && !w.attempts[0].flag
            && 0 in w.handlers && w.handlers[0] == Answered(Accepted)
  {
    var init := Init(versionID, versionNumber);
    CreatedRun(versionID, versionNumber);
    StartedIsRunning(init.cell);
    Delivered(versionID, versionNumber);
    hide Allowed, Exec, HasRequest, Next, Enabled, Apply, MarkRunStarted, ToRunner;
    ReachRunner(Exec(init, [Deliver(0)]), 0);
    ExecConcat(init, [Deliver(0)], ToRunner(0));
    acts := AnswersInTime(init, [Deliver(0)] + ToRunner(0));
  }

  // The way of an attempt whose runner passes and whose check of the log fails to read.
  function PastFailedCheck(a: nat, rep: Report): seq<Action> {
    [Finish(a, Produced(rep)), Step(a, Committed), Step(a, RolledBack), Put(a, true), Step(a, Committed)]
  }

  // A request that was logged and answered with 202 while the only attempt was at work loses: the
  // check that comes after it fails to read the log, and the run completes.
  lemma LoggedRequestCanLose(versionID: string, versionNumber: nat, rep: Report) returns (acts: seq<Action>)
    requires rep.status == ReportPassed
    ensures Allowed(Init(versionID, versionNumber), acts)
    ensures Allowed(Init(versionID, versionNumber), acts + PastFailedCheck(0, rep))
    ensures var w := Exec(Init(versionID, versionNumber), acts);
            && Open(w.cell) && HasRequest(w.cell.events)
            && w.attempts.Keys == {0} && w.attempts[0].pc == InRunner
            && 0 in w.handlers && w.handlers[0] == Answered(Accepted)
    ensures var w := Exec(Init(versionID, versionNumber), acts + PastFailedCheck(0, rep));
            w.attempts.Keys == {0} && IsTerminal(StatusOf(w)) && StatusOf(w) != Canceled
  {
    acts := AcceptedInTime(versionID, versionNumber);
    var init := Init(versionID, versionNumber);
    hide Allowed, Exec, Init, HasRequest, Next, Enabled, Apply, Open;
    var all := acts;
    FinishMoves(Exec(init, all), 0, rep);
    Extend(init, all, Finish(0, Produced(rep)));
    all := all + [Finish(0, Produced(rep))];
    AttemptMoves(Exec(init, all), 0, Committed);
    Extend(init, all, Step(0, Committed));
    all := all + [Step(0, Committed)];
    AttemptMoves(Exec(init, all), 0, RolledBack);
    Extend(init, all, Step(0, RolledBack));
    all := all + [Step(0, RolledBack)];
    PutMoves(Exec(init, all), 0);
    Extend(init, all, Put(0, true));
    all := all + [Put(0, true)];
    AttemptMoves(Exec(init, all), 0, Committed);
    FinishedStatus(Exec(init, all).cell, Complete(rep));
    Extend(init, all, Step(0, Committed));
    all := all + [Step(0, Committed)];
    assert all == acts + PastFailedCheck(0, rep);
  }
}
