// When executeRun sends the requests of a run.
module ServerRuns {
  import opened Prelude
  import opened RunEvents
  import opened Reports
  import opened RunLifecycle
  import opened CancelHandler
  import opened ServerProtocol

  predicate BeforeRunner(pc: Pc) {
    pc.Registering? || pc.Starting? || pc.Confirming?
  }

  // Finished, not in the runner and not to come back from it.
  predicate Outside(x: Exec) {
    IsTerminal(StatusIn(x.cell)) && (BeforeRunner(x.pc) || x.pc.Abandoning? || x.pc.Returned?)
  }

  ghost predicate StaysOut(w: World, id: string) {
    WorldInv(w) && id in w.execs && Outside(w.execs[id])
  }

  lemma OutStep(x: Exec, requested: bool)
    requires x.cell.run.Some? && Inv(x.cell) && IsTerminal(StatusIn(x.cell)) && (BeforeRunner(x.pc) || x.pc.Abandoning?)
    ensures StatusIn(After(x.cell, ExecOp(x.pc))) == StatusIn(x.cell)
    ensures var pc := ExecNext(x.pc, StatusIn(x.cell), requested); BeforeRunner(pc) || pc.Abandoning? || pc.Returned?
  {
    OpEffect(x.cell, ExecOp(x.pc));
    hide Inv, After;
  }

  lemma OutServe(c: Cell, pc: HandlerPc)
    requires c.run.Some? && Inv(c) && IsTerminal(StatusIn(c))
    ensures StatusIn(After(c, HandlerOp(pc))) == StatusIn(c)
  {
    OpEffect(c, HandlerOp(pc));
    hide Inv, After;
  }

  lemma StaysOutStep(w: World, act: Action, id: string)
    requires StaysOut(w, id) && Enabled(w, act)
    ensures StaysOut(Next(w, act), id)
  {
    NextInv(w, act);
    CellInv(w, id);
    hide WorldInv;
    OutsideNext(w, act, id);
    hide Next, Enabled;
  }

  lemma OutsideNext(w: World, act: Action, id: string)
    requires Enabled(w, act) && id in w.execs && Outside(w.execs[id])
    requires w.execs[id].cell.run.Some? && Inv(w.execs[id].cell)
    ensures id in Next(w, act).execs && Outside(Next(w, act).execs[id])
  {
    hide After, ExecOp, ExecNext, RegistryNext, HandlerOp, HandlerNext, Inv, Saw, MarkRequested;
    var x := w.execs[id];
    if act.Step? && act.id == id {
      OutStep(x, id in w.registry.cancelRequests);
    } else if act.Serve? {
      OutServe(x.cell, w.handlers[act.h].pc);
      ServeEffect(w, act.h, id);
      hide Next, Enabled;
    }
  }

  lemma {:induction false} StaysOutPlay(w: World, acts: seq<Action>, id: string)
    requires StaysOut(w, id) && Allowed(w, acts)
    ensures StaysOut(Play(w, acts), id)
    decreases |acts|
  {
    if |acts| > 0 {
      StaysOutStep(w, acts[0], id);
      hide StaysOut, Next, Enabled;
      StaysOutPlay(Next(w, acts[0]), acts[1..], id);
    }
  }

  // A run that is canceled before executeRun has sent it to the runner is never executed.
  lemma CanceledRunIsNotExecuted(w: World, acts: seq<Action>, id: string)
    requires WorldInv(w) && id in w.execs && BeforeRunner(w.execs[id].pc) && IsTerminal(StatusIn(w.execs[id].cell)) && Allowed(w, acts)
    ensures id in Play(w, acts).execs
    ensures var x := Play(w, acts).execs[id]; BeforeRunner(x.pc) || x.pc.Abandoning? || x.pc.Returned?
  {
    hide WorldInv;
    StaysOutPlay(w, acts, id);
  }

  // One that is still open when executeRun confirms its start is sent to the runner.
  lemma OpenRunIsExecuted(w: World, id: string)
    requires WorldInv(w) && id in w.execs && w.execs[id].pc.Confirming? && Open(w.execs[id].cell)
    ensures Enabled(w, Step(id)) && id in Next(w, Step(id)).execs && Next(w, Step(id)).execs[id].pc == InRunner
  {
    InvOf(w, id);
    hide Inv, After, RegistryNext;
  }

  ghost predicate Over(w: World, id: string, c: Cell) {
    WorldInv(w) && id in w.execs && w.execs[id].pc.Returned? && w.execs[id].cell == c
  }

  lemma ServeLeaves(c: Cell, pc: HandlerPc)
    requires c.run.Some? && IsTerminal(StatusIn(c))
    ensures After(c, HandlerOp(pc)) == c
  {
    hide HasRequest;
  }

  lemma OverStep(w: World, act: Action, id: string, c: Cell)
    requires Over(w, id, c) && Enabled(w, act)
    ensures Over(Next(w, act), id, c)
  {
    NextInv(w, act);
    InvOf(w, id);
    hide WorldInv;
    OverNext(w, act, id);
    hide Next, Enabled;
  }

  lemma OverNext(w: World, act: Action, id: string)
    requires Enabled(w, act) && id in w.execs && w.execs[id].pc.Returned?
    requires w.execs[id].cell.run.Some? && IsTerminal(StatusIn(w.execs[id].cell))
    ensures id in Next(w, act).execs && Next(w, act).execs[id] == w.execs[id]
  {
    hide After, ExecOp, ExecNext, RegistryNext, HandlerOp, HandlerNext, Saw, MarkRequested;
    if act.Serve? {
      ServeLeaves(w.execs[id].cell, w.handlers[act.h].pc);
      ServeEffect(w, act.h, id);
      hide Next, Enabled;
    }
  }

  // Once executeRun has returned nothing is written to the run or its log any more, whatever cancel
  // handlers do: the log that a server keeps of its own runs ends.
  lemma {:induction false} ReturnedRunIsFinal(w: World, acts: seq<Action>, id: string)
    requires WorldInv(w) && id in w.execs && w.execs[id].pc.Returned? && Allowed(w, acts)
    ensures var w' := Play(w, acts); id in w'.execs && w'.execs[id].cell == w.execs[id].cell && IsTerminal(StatusIn(w'.execs[id].cell))
    decreases |acts|
  {
    InvOf(w, id);
    if |acts| > 0 {
      OverStep(w, acts[0], id, w.execs[id].cell);
      hide WorldInv, Next, Enabled, ExecOk;
      ReturnedRunIsFinal(Next(w, acts[0]), acts[1..], id);
    }
  }
}
