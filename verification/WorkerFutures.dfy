// Which cancellations win: what the futures of a run with a request on its log have in common,
// over failing reads and writes, crashes and redelivered tasks.
module WorkerFutures {
  import opened Prelude
  import opened RunEvents
  import opened Reports
  import opened RunLifecycle
  import opened CancelHandler
  import opened WorkerProtocol

  // ----- kinds of futures ----------------------------------------------------

  // A look for a request, by an attempt, that fails.
  predicate MissesCheck(w: World, act: Action) {
    act.Step? && ReadFails(act.outcome) && act.a in w.attempts &&
    (w.attempts[act.a].pc.Checking? || w.attempts[act.a].pc.Rechecking?)
  }

  // No check fails in the schedule.
  ghost predicate ChecksRead(w: World, acts: seq<Action>)
    decreases |acts|
  {
    |acts| == 0 || (!MissesCheck(w, acts[0]) && ChecksRead(Next(w, acts[0]), acts[1..]))
  }

  predicate NoDelivery(acts: seq<Action>) {
    forall act | act in acts :: !act.Deliver?
  }

  predicate CanceledIfAtAll(w: World) {
    IsTerminal(StatusOf(w)) ==> StatusOf(w) == Canceled
  }

  // ----- while checks can be read --------------------------------------------

  // Someone may still finish the run otherwise than canceled without failing to look.
  ghost predicate RivalAtLarge(w: World) {
    w.submitting || exists a :: a in w.attempts && PastCheck(w.attempts[a])
  }

  ghost predicate CancelSettled(w: World) {
    && w.cell.run.Some? && HasRequest(w.cell.events)
    && !RivalAtLarge(w)
    && (Open(w.cell) || StatusOf(w) == Canceled)
  }

  // With a request on the log, an attempt that looks ends up canceling.
  lemma StillLooking(c: Cell, x: Attempt, act: Action)
    requires HasRequest(c.events) && !PastCheck(x) && AttemptEnabled(x, act)
    requires act.Step? && (x.pc.Checking? || x.pc.Rechecking?) ==> !ReadFails(act.outcome)
    ensures !PastCheck(AttemptAfter(c, x, act))
    ensures act.Step? && AttemptOp(x.pc).Some? && Finishes(AttemptOp(x.pc).value) ==> AttemptOp(x.pc).value.Cancel?
  {
    hide HasRequest;
  }

  lemma SettledAttempts(w: World, act: Action)
    requires CancelSettled(w) && Enabled(w, act) && !MissesCheck(w, act)
    ensures forall a | a in AttemptsAfter(w, act) :: !PastCheck(AttemptsAfter(w, act)[a])
    ensures act.Step? && OpOf(w, act).Some? && Finishes(OpOf(w, act).value) ==> OpOf(w, act).value.Cancel?
  {
    hide HasRequest, AttemptAfter;
    assert forall a | a in w.attempts :: !PastCheck(w.attempts[a]);
    if Owner(act).Some? {
      StillLooking(w.cell, w.attempts[Owner(act).value], act);
    }
  }

  lemma SettledStep(w: World, act: Action)
    requires CancelSettled(w) && Enabled(w, act) && !MissesCheck(w, act)
    ensures CancelSettled(Next(w, act))
  {
    hide HasRequest, Inv, Apply, AttemptsAfter, UploadOf, HandlersAfter, AttemptEnabled, MissesCheck;
    HonestOp(w, act);
    SettledAttempts(w, act);
    var op := OpOf(w, act);
    CellStep(w.cell, op);
    if Open(w.cell) && op.Some? && Finishes(op.value) {
      FinishingStatus(w.cell, op.value);
    }
  }

  lemma {:induction false} SettledExec(w: World, acts: seq<Action>)
    requires CancelSettled(w) && Allowed(w, acts) && ChecksRead(w, acts)
    ensures CancelSettled(Exec(w, acts))
    decreases |acts|
  {
    hide CancelSettled, Next, Enabled, MissesCheck;
    if |acts| > 0 {
      SettledStep(w, acts[0]);
      SettledExec(Next(w, acts[0]), acts[1..]);
    }
  }

  lemma OneRead(w: World, act: Action)
    requires !MissesCheck(w, act)
    ensures ChecksRead(w, [act])
  {
    hide Next, MissesCheck;
    assert [act][1..] == [];
    assert ChecksRead(Next(w, act), []);
  }

  lemma RivalCanWin(w: World) returns (acts: seq<Action>)
    requires w.cell.run.Some? && Open(w.cell) && RivalAtLarge(w)
    ensures Allowed(w, acts) && ChecksRead(w, acts)
    ensures !CanceledIfAtAll(Exec(w, acts))
  {
    hide HasRequest;
    if w.submitting {
      acts := [EnqueueFailed("", Committed)];
      OneStep(w, EnqueueFailed("", Committed));
      OneRead(w, EnqueueFailed("", Committed));
    } else {
      var a :| a in w.attempts && PastCheck(w.attempts[a]);
      if w.attempts[a].pc.Uploading? {
        acts := [Put(a, false), Step(a, Committed)];
        TwoSteps(w, Put(a, false), Step(a, Committed));
        OneRead(Next(w, Put(a, false)), Step(a, Committed));
        assert acts[1..] == [Step(a, Committed)];
      } else {
        acts := [Step(a, Committed)];
        OneStep(w, Step(a, Committed));
        OneRead(w, Step(a, Committed));
      }
    }
  }

  // ----- when checks can fail ------------------------------------------------

  // The attempt can still finish the run otherwise than canceled, if need be because it fails to
  // see the request. Bound to cancel or to do nothing are only attempts that have seen it, by
  // themselves or through a monitor that told them in time, that are gone, or that are about to
  // find the run queued.
  ghost predicate CanFinish(c: Cell, x: Attempt) {
    match x.pc
    case Entered => true
    case Checking(_) => true
    case Starting => true
    case Confirming => StatusIn(c) == Running
    case InRunner => !x.flag
    case LoadingFlag(_) => !x.flag
    case Rechecking(_) => true
    case Failing(_) => true
    case Uploading(_) => true
    case Completing(_) => true
    case _ => false
  }

  ghost predicate SomeCanFinish(w: World) {
    w.submitting || exists a :: a in w.attempts && CanFinish(w.cell, w.attempts[a])
  }

  ghost predicate Doomed(w: World) {
    w.cell.run.Some? && !SomeCanFinish(w) && (Open(w.cell) || StatusOf(w) == Canceled)
  }

  lemma DoomedAttempt(c: Cell, x: Attempt, act: Action)
    requires !CanFinish(c, x) && AttemptEnabled(x, act)
    ensures !CanFinish(c, AttemptAfter(c, x, act))
    ensures act.Step? && AttemptOp(x.pc).Some? ==> AttemptOp(x.pc).value.Cancel?
  {
    hide HasRequest;
  }

  // Without a start, a cell does not become running.
  lemma NoStart(c: Cell, op: Option<Op>)
    requires c.run.Some? && op != Some(MarkStarted)
    ensures StatusIn(After(c, op)) == Running ==> StatusIn(c) == Running
    ensures (Open(c) || StatusIn(c) == Canceled) && (op.Some? && Finishes(op.value) ==> op.value.Cancel?) ==>
              Open(After(c, op)) || StatusIn(After(c, op)) == Canceled
    ensures After(c, op).run.Some?
  {
  }

  lemma DoomedOp(w: World, act: Action)
    requires Doomed(w) && Enabled(w, act)
    ensures var op := OpOf(w, act);
            op != Some(MarkStarted) && (op.Some? && Finishes(op.value) ==> op.value.Cancel?)
  {
    hide HasRequest, AttemptAfter;
    if act.Step? {
      DoomedAttempt(w.cell, w.attempts[act.a], act);
    }
  }

  lemma DoomedStep(w: World, act: Action)
    requires Doomed(w) && Enabled(w, act) && !act.Deliver?
    ensures Doomed(Next(w, act))
  {
    DoomedOp(w, act);
    NoStart(w.cell, OpOf(w, act));
    hide HasRequest, Inv, Apply, After, UploadOf, HandlersAfter, AttemptEnabled, AttemptAfter, OpOf;
    var w' := Next(w, act);
    forall a | a in w'.attempts
      ensures !CanFinish(w'.cell, w'.attempts[a])
    {
      if Owner(act) == Some(a) {
        DoomedAttempt(w.cell, w.attempts[a], act);
      }
      assert !CanFinish(w.cell, w'.attempts[a]);
    }
  }

  lemma {:induction false} DoomedExec(w: World, acts: seq<Action>)
    requires Doomed(w) && Allowed(w, acts) && NoDelivery(acts)
    ensures Doomed(Exec(w, acts))
    decreases |acts|
  {
    hide Doomed, Next, Enabled;
    if |acts| > 0 {
      assert acts[0] in acts && forall act | act in acts[1..] :: act in acts;
      DoomedStep(w, acts[0]);
      DoomedExec(Next(w, acts[0]), acts[1..]);
    }
  }

  // The next action of an attempt that gets past every check by failing to look.
  function Onward(x: Attempt, a: nat): Action {
    match x.pc
    case InRunner => Finish(a, Broke(""))
    case Uploading(_) => Put(a, false)
    case Checking(_) => Step(a, RolledBack)
    case Rechecking(_) => Step(a, RolledBack)
    case _ => Step(a, Committed)
  }

  // How many actions it is from finishing the run.
  function Distance(pc: Pc): nat {
    match pc
    case Entered => 9
    case Checking(_) => 8
    case Starting => 7
    case Confirming => 6
    case InRunner => 5
    case LoadingFlag(_) => 4
    case Rechecking(_) => 3
    case Uploading(_) => 2
    case _ => 1
  }

  lemma OnwardAttempt(c: Cell, x: Attempt, a: nat)
    requires c.run.Some? && AttemptOk(c, x) && CanFinish(c, x) && Open(c)
    ensures AttemptEnabled(x, Onward(x, a))
    ensures var op := if Onward(x, a).Step? then Effect(AttemptOp(x.pc), Onward(x, a).outcome) else None;
            var d, y := After(c, op), AttemptAfter(c, x, Onward(x, a));
            if Distance(x.pc) == 1 then op.Some? && Finishes(op.value) && !op.value.Cancel?
            else Open(d) && CanFinish(d, y) && Distance(y.pc) < Distance(x.pc)
  {
    hide HasRequest, Inv;
  }

  lemma OnwardStep(w: World, a: nat)
    requires WorldInv(w) && Open(w.cell) && a in w.attempts && CanFinish(w.cell, w.attempts[a])
    ensures var act := Onward(w.attempts[a], a);
            && Enabled(w, act) && !act.Deliver? && WorldInv(Next(w, act)) && a in Next(w, act).attempts
            && if Distance(w.attempts[a].pc) == 1 then !CanceledIfAtAll(Next(w, act))
               else && Open(Next(w, act).cell) && CanFinish(Next(w, act).cell, Next(w, act).attempts[a])
                    && Distance(Next(w, act).attempts[a].pc) < Distance(w.attempts[a].pc)
  {
    OnwardAttempt(w.cell, w.attempts[a], a);
    hide Inv, HasRequest, FinisherOk, AttemptOk, AttemptAfter, AttemptEnabled, Apply, CanFinish, Distance;
    var act := Onward(w.attempts[a], a);
    assert OpOf(w, act) == if act.Step? then Effect(AttemptOp(w.attempts[a].pc), act.outcome) else None;
    NextInv(w, act);
    if OpOf(w, act).Some? && Finishes(OpOf(w, act).value) {
      FinishingStatus(w.cell, OpOf(w, act).value);
      OperationStatus(w.cell, OpOf(w, act).value);
    }
  }

  lemma {:induction false} CanFinishOtherwise(w: World, a: nat) returns (acts: seq<Action>)
    requires WorldInv(w) && Open(w.cell) && a in w.attempts && CanFinish(w.cell, w.attempts[a])
    ensures Allowed(w, acts) && NoDelivery(acts) && !CanceledIfAtAll(Exec(w, acts))
    decreases Distance(w.attempts[a].pc)
  {
    hide WorldInv, CanFinish, Distance, Next, Enabled, Onward;
    var act := Onward(w.attempts[a], a);
    OnwardStep(w, a);
    if Distance(w.attempts[a].pc) == 1 {
      acts := [act];
      OneStep(w, act);
    } else {
      var rest := CanFinishOtherwise(Next(w, act), a);
      acts := [act] + rest;
      assert acts[1..] == rest;
    }
  }

  // ----- the three answers ---------------------------------------------------

  ghost predicate CanceledWhileChecksRead(w: World) {
    forall acts | Allowed(w, acts) && ChecksRead(w, acts) :: CanceledIfAtAll(Exec(w, acts))
  }

  ghost predicate CanceledUnlessRedelivered(w: World) {
    forall acts | Allowed(w, acts) && NoDelivery(acts) :: CanceledIfAtAll(Exec(w, acts))
  }

  ghost predicate AlwaysCanceled(w: World) {
    forall acts | Allowed(w, acts) :: CanceledIfAtAll(Exec(w, acts))
  }

  // Once a request is logged on an open run, every future in which no check fails ends canceled
  // if and only if no live attempt is past its last check and the enqueueing handler is done.
  lemma CancelWinsExactly(w: World)
    requires WorldInv(w) && Open(w.cell) && HasRequest(w.cell.events)
    ensures CanceledWhileChecksRead(w) <==> !RivalAtLarge(w)
  {
    if RivalAtLarge(w) {
      var acts := RivalCanWin(w);
      assert !CanceledWhileChecksRead(w);
    } else {
      forall acts | Allowed(w, acts) && ChecksRead(w, acts)
        ensures CancelSettled(Exec(w, acts))
      {
        SettledExec(w, acts);
      }
      assert CanceledWhileChecksRead(w);
    }
  }

  // With checks that fail, every future in which the run is not delivered again ends canceled if
  // and only if no attempt can still finish the run otherwise, counting failed checks, and the
  // enqueueing handler is done.
  lemma CancelWinsBlindExactly(w: World)
    requires WorldInv(w) && Open(w.cell)
    ensures CanceledUnlessRedelivered(w) <==> !SomeCanFinish(w)
  {
    hide WorldInv, CanFinish, Allowed, Exec, ChecksRead, HasRequest;
    if w.submitting {
      var acts := SubmitterCanWin(w);
      assert !CanceledUnlessRedelivered(w);
    } else if SomeCanFinish(w) {
      var a :| a in w.attempts && CanFinish(w.cell, w.attempts[a]);
      var acts := CanFinishOtherwise(w, a);
      assert !CanceledUnlessRedelivered(w);
    } else {
      forall acts | Allowed(w, acts) && NoDelivery(acts)
        ensures CanceledIfAtAll(Exec(w, acts))
      {
        DoomedExec(w, acts);
      }
    }
  }

  lemma SubmitterCanWin(w: World) returns (acts: seq<Action>)
    requires Open(w.cell) && w.submitting
    ensures Allowed(w, acts) && NoDelivery(acts) && !CanceledIfAtAll(Exec(w, acts))
  {
    hide HasRequest;
    acts := [EnqueueFailed("", Committed)];
    OneStep(w, EnqueueFailed("", Committed));
  }

  lemma {:induction false} Bound(s: set<nat>) returns (n: nat)
    ensures forall k | k in s :: k < n
    decreases |s|
  {
    if s == {} {
      n := 0;
    } else {
      var k :| k in s;
      var rest := Bound(s - {k});
      n := if k < rest then rest else k + 1;
      assert forall j | j in s :: j == k || j in s - {k};
    }
  }

  // And no cancel is certain while the run is open: a run that is delivered once more can miss
  // the request and finish the run otherwise.
  lemma NoCancelIsCertain(w: World)
    requires WorldInv(w) && Open(w.cell)
    ensures !AlwaysCanceled(w)
  {
    hide Allowed, Exec, Next, HasRequest, Inv, FinisherOk, AttemptOk;
    var a := Bound(w.attempts.Keys);
    var act := Deliver(a);
    NextInv(w, act);
    Delivered(w, a);
    var rest := CanFinishOtherwise(Next(w, act), a);
    OneStep(w, act);
    Prepended(w, act, rest);
    assert Allowed(w, [act] + rest);
  }

  lemma Delivered(w: World, a: nat)
    requires a !in w.attempts
    ensures var w' := Next(w, Deliver(a));
            Enabled(w, Deliver(a)) && w'.cell == w.cell && a in w'.attempts && w'.attempts[a].pc == Entered
  {
    hide HasRequest;
  }

  lemma Prepended(w: World, act: Action, rest: seq<Action>)
    requires Enabled(w, act) && Allowed(Next(w, act), rest)
    ensures Allowed(w, [act] + rest) && Exec(w, [act] + rest) == Exec(Next(w, act), rest)
  {
    hide Next, Enabled;
    assert ([act] + rest)[1..] == rest;
  }

  // With one live executor, a request logged before its check on an open run: when that executor
  // returns the run is canceled, or still open with the request on its log because a write was
  // rolled back or the run could not be read, or some check failed. While no check fails it is
  // canceled exactly when some finishing write took effect.
  lemma SoleExecutorHonoursRequest(w: World, a: nat, acts: seq<Action>)
    requires WorldInv(w) && Open(w.cell) && HasRequest(w.cell.events) && !w.submitting
    requires a in w.attempts && !PastCheck(w.attempts[a])
    requires forall b | b in w.attempts && b != a :: !Live(w.attempts[b])
    requires Allowed(w, acts) && a in Exec(w, acts).attempts && Exec(w, acts).attempts[a].pc == Returned
    ensures ChecksRead(w, acts) ==>
              && (StatusOf(Exec(w, acts)) == Canceled <==> !NoneWritten(w, acts))
              && (StatusOf(Exec(w, acts)) != Canceled ==>
                    var v := Exec(w, acts);
                    Open(v.cell) && HasRequest(v.cell.events) && (v.attempts[a].lost || v.attempts[a].blind))
  {
    assert !RivalAtLarge(w);
    hide Allowed, Exec, Inv, FinisherOk, NoneWritten, ChecksRead;
    if ChecksRead(w, acts) {
      SettledExec(w, acts);
      ExecInv(w, acts);
      TerminalIffWritten(w, acts);
      assert AttemptOk(Exec(w, acts).cell, Exec(w, acts).attempts[a]);
    }
  }
}
