// What the answers of the cancel handlers say about a run that workers execute.
module WorkerAnswers {
  import opened Prelude
  import opened RunEvents
  import opened Reports
  import opened RunLifecycle
  import opened CancelHandler
  import opened WorkerProtocol

  // Each handler is where its steps have brought it, and has brought about what they bring about.
  ghost predicate HandlersExplained(w: World) {
    forall h | h in w.handlers :: h in w.sights && Explained(w.handlers[h], w.sights[h]) && Achieved(w.cell, w.sights[h])
  }

  lemma ExplainedStep(w: World, act: Action)
    requires WorldInv(w) && HandlersExplained(w) && Enabled(w, act)
    ensures HandlersExplained(Next(w, act))
  {
    hide Inv, HasRequest, FinisherOk, AttemptOk, Apply, Explained, Achieved, AttemptsAfter, UploadOf, OpOf, Saw, HandlerNext, Evolves;
    HonestOp(w, act);
    CellStep(w.cell, OpOf(w, act));
    var w' := Next(w, act);
    forall h | h in w'.handlers
      ensures h in w'.sights && Explained(w'.handlers[h], w'.sights[h]) && Achieved(w'.cell, w'.sights[h])
    {
      if act.Ask? && act.h == h {
        NothingMet(w'.cell);
      } else if act.Serve? && act.h == h {
        ServedOp(w, h, act.outcome);
        HandlerStep(w.cell, act.outcome, false, w.handlers[h], w.sights[h]);
      } else {
        AchievedStays(w.cell, w'.cell, w.sights[h]);
      }
    }
  }

  lemma ServedOp(w: World, h: nat, outcome: Outcome)
    requires h in w.handlers
    ensures OpOf(w, Serve(h, outcome)) == Effect(HandlerOp(w.handlers[h]), outcome)
  {
  }

  lemma NothingMet(c: Cell)
    ensures Explained(Looking, []) && Achieved(c, [])
  {
  }

  lemma {:induction false} ExplainedExec(w: World, acts: seq<Action>)
    requires WorldInv(w) && HandlersExplained(w) && Allowed(w, acts)
    ensures HandlersExplained(Exec(w, acts))
    decreases |acts|
  {
    hide WorldInv, HandlersExplained, Next, Enabled;
    if |acts| > 0 {
      NextInv(w, acts[0]);
      ExplainedStep(w, acts[0]);
      ExplainedExec(Next(w, acts[0]), acts[1..]);
    }
  }

  // In every interleaving, exactly what leads a handler to each of its answers: 404 when the run
  // could not be read, 409 when it was finished or the request was not acknowledged, and 202
  // otherwise, after canceling the run itself if it was queued when it was looked up.
  lemma AnswersExactly(versionID: string, versionNumber: nat, acts: seq<Action>, h: nat)
    requires Allowed(Init(versionID, versionNumber), acts)
    requires h in Exec(Init(versionID, versionNumber), acts).handlers
    ensures var w := Exec(Init(versionID, versionNumber), acts);
            h in w.sights &&
            var pc, s := w.handlers[h], w.sights[h];
            && (pc == Answered(NotFound) <==> NotFoundBy(s))
            && (pc == Answered(Conflict) <==> RefusedBy(s))
            && (pc == Answered(Accepted) <==> AcceptedBy(s))
            && (RequestedBy(s) ==> HasRequest(w.cell.events))
  {
    InitInv(versionID, versionNumber);
    ExplainedExec(Init(versionID, versionNumber), acts);
    hide Allowed, Exec, HasRequest;
  }

  // A handler that found the run queued and answered 202 has canceled it, with the report of the
  // override, unless that write was rolled back or somebody else had finished the run by then.
  lemma QueuedRunIsCanceled(versionID: string, versionNumber: nat, acts: seq<Action>, h: nat)
    requires Allowed(Init(versionID, versionNumber), acts)
    requires var w := Exec(Init(versionID, versionNumber), acts);
             h in w.handlers && w.handlers[h] == Answered(Accepted) && h in w.sights && |w.sights[h]| > 0 && w.sights[h][0].status == Queued
    ensures var w := Exec(Init(versionID, versionNumber), acts);
            var s := w.sights[h];
            && |s| == 4
            && (s[3].outcome != RolledBack ==> IsTerminal(StatusOf(w)))
            && (s[3].outcome != RolledBack && !IsTerminal(s[3].status) ==> Overridden(w.cell))
  {
    InitInv(versionID, versionNumber);
    ExplainedExec(Init(versionID, versionNumber), acts);
    NeverRegistered(versionID, versionNumber, acts);
    ExecInv(Init(versionID, versionNumber), acts);
    hide Allowed, Exec, HasRequest, Inv, AttemptOk, FinisherOk;
  }

  // The only step by which a handler finishes an open run.
  lemma HandlerStepFinishesIff(w: World, h: nat, outcome: Outcome)
    requires WorldInv(w) && HandlersExplained(w) && Enabled(w, Serve(h, outcome)) && Open(w.cell)
    ensures !Open(Next(w, Serve(h, outcome)).cell) <==> |w.sights[h]| == 3 && MustOverride(w.sights[h]) && outcome != RolledBack
  {
    hide WorldInv, Explained, Achieved, MustOverride, Apply, HasRequest, SightsAfter, HandlersAfter, Effect;
    ServedOp(w, h, outcome);
    HandlerFinishesIff(w.cell, outcome, w.handlers[h], w.sights[h]);
  }

  ghost predicate NoneRegistered(w: World) {
    forall h, i | h in w.sights && 0 <= i < |w.sights[h]| :: !w.sights[h][i].registered
  }

  lemma NeverRegistered(versionID: string, versionNumber: nat, acts: seq<Action>)
    requires Allowed(Init(versionID, versionNumber), acts)
    ensures NoneRegistered(Exec(Init(versionID, versionNumber), acts))
  {
    UnregisteredExec(Init(versionID, versionNumber), acts);
  }

  lemma {:induction false} UnregisteredExec(w: World, acts: seq<Action>)
    requires NoneRegistered(w) && Allowed(w, acts)
    ensures NoneRegistered(Exec(w, acts))
    decreases |acts|
  {
    if |acts| > 0 {
      UnregisteredStep(w, acts[0]);
      hide Next, Enabled, NoneRegistered;
      UnregisteredExec(Next(w, acts[0]), acts[1..]);
    }
  }

  lemma UnregisteredStep(w: World, act: Action)
    requires NoneRegistered(w) && Enabled(w, act)
    ensures NoneRegistered(Next(w, act))
  {
    hide After, OpOf, UploadOf, AttemptsAfter, HandlersAfter, Enabled;
  }
}
