// In-process mode: the API server executes runs itself over the memory store, whose writes
// always commit, and keeps two maps, one from run to cancel function and one of runs asked to
// cancel, under their own lock.
module ServerProtocol {
  import opened Prelude
  import opened RunEvents
  import opened Reports
  import opened RunLifecycle
  import opened CancelHandler

  // ----- the cancel maps -----------------------------------------------------

  // The keys of runCancels and of cancelRequests.
  datatype Registry = Registry(runCancels: set<string>, cancelRequests: set<string>)

  function Register(r: Registry, id: string): Registry {
    r.(runCancels := r.runCancels + {id})
  }

  function MarkRequested(r: Registry, id: string): Registry {
    if id in r.runCancels then r.(cancelRequests := r.cancelRequests + {id}) else r
  }

  function FinishCancel(r: Registry, id: string): Registry {
    Registry(r.runCancels - {id}, r.cancelRequests - {id})
  }

  // The server's maps; each method body is one critical section.
  class CancelMaps {
    var runCancels: map<string, int>   // run to the handle of its cancel function
    var cancelRequests: set<string>

    ghost function Abs(): Registry
      reads this
    {
      Registry(runCancels.Keys, cancelRequests)
    }

    constructor ()
      ensures Abs() == Registry({}, {})
    {
      runCancels, cancelRequests := map[], {};
    }

    method RegisterRunCancel(id: string, cancel: int)
      modifies this
      ensures Abs() == Register(old(Abs()), id) && runCancels == old(runCancels)[id := cancel]
    {
      runCancels := runCancels[id := cancel];
    }

    // Returns the cancel function to call once the lock is released.
    method RequestRunCancel(id: string) returns (ok: bool, cancel: int)
      modifies this
      ensures ok <==> id in old(runCancels)
      ensures ok ==> cancel == old(runCancels)[id]
      ensures Abs() == MarkRequested(old(Abs()), id) && runCancels == old(runCancels)
    {
      ok, cancel := id in runCancels, 0;
      if ok {
        cancel := runCancels[id];
        cancelRequests := cancelRequests + {id};
      }
    }

    method FinishRunCancel(id: string) returns (canceled: bool)
      modifies this
      ensures canceled <==> id in old(cancelRequests)
      ensures Abs() == FinishCancel(old(Abs()), id) && runCancels == old(runCancels) - {id}
    {
      canceled := id in cancelRequests;
      cancelRequests := cancelRequests - {id};
      runCancels := runCancels - {id};
    }
  }

  // ----- actors --------------------------------------------------------------

  // Where executeRun stands; the line numbers are those of server.go.
  datatype Pc =
    | Registering                   // 489
    | Starting                      // 492
    | Confirming                    // 493
    | Abandoning                    // 495
    | InRunner                      // 498
    | Finishing(result: RunResult)  // 504
    | Canceling(rep: Report)        // 509
    | Failing(message: string)      // 513
    | Completing(rep: Report)       // 516
    | Returned

  datatype Handler = Handler(id: string, pc: HandlerPc)

  datatype Exec = Exec(cell: Cell, pc: Pc)

  // hits and sights are history: the runs that some requestRunCancel found registered, and what each
  // handler met.
  datatype World = World(execs: map<string, Exec>, registry: Registry, handlers: map<nat, Handler>, hits: set<string>,
                         sights: map<nat, seq<Sight>>)

  const INIT := World(map[], Registry({}, {}), map[], {}, map[])

  datatype Action =
    | Create(id: string, versionID: string, versionNumber: nat)
    | Step(id: string)
    | Emit(id: string, body: Body)
    | Finish(id: string, result: RunResult)
    | Ask(h: nat, id: string)
    | Serve(h: nat)

  function CancelReport(result: RunResult): Report {
    var rep := match result case Produced(rep) => rep case Broke(message) => CanceledReport(message);
    rep.(failures := rep.failures + [Note("run canceled by user")])
  }

  // The report of a canceled run keeps what the runner produced, or its error, and ends with
  // the note of the cancellation.
  lemma CancelReportKeeps(result: RunResult)
    ensures var rep := CancelReport(result);
            && |rep.failures| > 0 && rep.failures[|rep.failures| - 1] == Note("run canceled by user")
            && (result.Produced? ==> result.rep.failures <= rep.failures && rep.summary == result.rep.summary)
            && (result.Broke? ==> rep.status == ReportCanceled && rep.failures[0] == Note(result.message))
  {
  }

  // ----- steps ---------------------------------------------------------------

  function ExecOp(pc: Pc): Option<Op> {
    match pc
    case Starting => Some(MarkStarted)
    case Canceling(rep) => Some(Cancel(rep))
    case Failing(message) => Some(Fail(message))
    case Completing(rep) => Some(Complete(rep))
    case _ => None
  }

  function ExecNext(pc: Pc, status: Status, requested: bool): Pc {
    match pc
    case Registering => Starting
    case Starting => Confirming
    case Confirming => if status != Running then Abandoning else InRunner
    case InRunner => InRunner
    case Finishing(Produced(rep)) => if requested then Canceling(CancelReport(pc.result)) else Completing(rep)
    case Finishing(Broke(message)) => if requested then Canceling(CancelReport(pc.result)) else Failing(message)
    case _ => Returned
  }

  function RegistryNext(r: Registry, id: string, pc: Pc): Registry {
    match pc
    case Registering => Register(r, id)
    case Abandoning => FinishCancel(r, id)
    case Finishing(_) => FinishCancel(r, id)
    case _ => r
  }

  predicate Enabled(w: World, act: Action) {
    match act
    case Create(id, _, _) => id !in w.execs
    case Step(id) => id in w.execs && w.execs[id].pc != InRunner && w.execs[id].pc != Returned
    case Emit(id, body) => id in w.execs && w.execs[id].pc == InRunner && !IsStoreKind(body.kind)
    case Finish(id, result) => id in w.execs && w.execs[id].pc == InRunner
    case Ask(h, id) => h !in w.handlers && id in w.execs
    case Serve(h) => h in w.handlers && w.handlers[h].id in w.execs
  }

  ghost function Next(w: World, act: Action): World
    requires Enabled(w, act)
  {
    match act
    case Create(id, v, n) => w.(execs := w.execs[id := Exec(Created("", "", v, n), Registering)])
    case Step(id) =>
      var x := w.execs[id];
      w.(execs := w.execs[id := Exec(After(x.cell, ExecOp(x.pc)), ExecNext(x.pc, StatusIn(x.cell), id in w.registry.cancelRequests))],
         registry := RegistryNext(w.registry, id, x.pc))
    case Emit(id, body) =>
      w.(execs := w.execs[id := w.execs[id].(cell := AppendRunEvent(w.execs[id].cell, body))])
    case Finish(id, result) => w.(execs := w.execs[id := w.execs[id].(pc := Finishing(result))])
    case Ask(h, id) => w.(handlers := w.handlers[h := Handler(id, Looking)], sights := w.sights[h := []])
    case Serve(h) =>
      var Handler(id, pc) := w.handlers[h];
      var x, found := w.execs[id], id in w.registry.runCancels;
      World(
        w.execs[id := x.(cell := After(x.cell, HandlerOp(pc)))],
        if pc.Consulting? then MarkRequested(w.registry, id) else w.registry,
        w.handlers[h := Handler(id, HandlerNext(x.cell, Committed, found, pc))],
        if pc.Consulting? && found then w.hits + {id} else w.hits,
        if h in w.sights then w.sights[h := Saw(x.cell, Committed, found, pc, w.sights[h])] else w.sights)
  }

  ghost predicate Allowed(w: World, acts: seq<Action>)
    decreases |acts|
  {
    |acts| == 0 || (Enabled(w, acts[0]) && Allowed(Next(w, acts[0]), acts[1..]))
  }

  ghost function Play(w: World, acts: seq<Action>): World
    requires Allowed(w, acts)
    decreases |acts|
  {
    if |acts| == 0 then w else Play(Next(w, acts[0]), acts[1..])
  }

  // ----- the invariant -------------------------------------------------------

  predicate Holding(pc: Pc) {
    pc.Starting? || pc.Confirming? || pc.Abandoning? || pc.InRunner? || pc.Finishing?
  }

  // What the place of executeRun says about the status of the run and about the maps.
  predicate PcOk(pc: Pc, status: Status, registered: bool, requested: bool, hit: bool) {
    && (registered <==> Holding(pc))
    && (requested ==> registered && hit)
    && (pc.Confirming? || pc.InRunner? || pc.Finishing? || pc.Failing? || pc.Completing? ==> status != Queued)
    && (pc.Abandoning? || pc.Returned? ==> IsTerminal(status))
    && (IsTerminal(status) && !pc.Returned? ==> status == Canceled)
    && (hit ==> requested || pc.Canceling? || ((pc.Abandoning? || pc.Returned?) && status == Canceled))
  }

  ghost predicate ExecOk(x: Exec, registered: bool, requested: bool, hit: bool) {
    && x.cell.run.Some? && Inv(x.cell)
    && PcOk(x.pc, StatusIn(x.cell), registered, requested, hit)
  }

  ghost predicate WorldInv(w: World) {
    && w.registry.cancelRequests <= w.registry.runCancels <= w.execs.Keys
    && w.hits <= w.execs.Keys
    && forall id | id in w.execs ::
         ExecOk(w.execs[id], id in w.registry.runCancels, id in w.registry.cancelRequests, id in w.hits)
  }

  function StatusAfter(status: Status, op: Option<Op>): Status {
    if op.None? || IsTerminal(status) then status
    else match op.value
      case MarkStarted => Running
      case Complete(rep) => if rep.status == ReportFailed then Failed else Passed
      case Cancel(_) => Canceled
      case Fail(_) => Errored
      case _ => status
  }

  lemma OpEffect(c: Cell, op: Option<Op>)
    requires c.run.Some? && Inv(c) && (op.Some? ==> Honest(op.value))
    ensures After(c, op).run.Some? && Inv(After(c, op))
    ensures StatusIn(After(c, op)) == StatusAfter(StatusIn(c), op)
  {
    hide Inv, HasRequest;
    if op.Some? {
      ApplyInv(c, op.value);
    }
  }

  lemma PcStepOk(pc: Pc, status: Status, registry: Registry, id: string, hit: bool)
    requires PcOk(pc, status, id in registry.runCancels, id in registry.cancelRequests, hit)
    requires !pc.InRunner? && !pc.Returned?
    ensures var r := RegistryNext(registry, id, pc);
            PcOk(ExecNext(pc, status, id in registry.cancelRequests), StatusAfter(status, ExecOp(pc)),
                 id in r.runCancels, id in r.cancelRequests, hit)
  {
    hide CancelReport;
  }

  lemma StepOk(x: Exec, registry: Registry, id: string, hit: bool)
    requires ExecOk(x, id in registry.runCancels, id in registry.cancelRequests, hit)
    requires !x.pc.InRunner? && !x.pc.Returned?
    ensures var r := RegistryNext(registry, id, x.pc);
            ExecOk(Exec(After(x.cell, ExecOp(x.pc)), ExecNext(x.pc, StatusIn(x.cell), id in registry.cancelRequests)),
                   id in r.runCancels, id in r.cancelRequests, hit)
  {
    OpEffect(x.cell, ExecOp(x.pc));
    hide Inv, After, PcOk, StatusAfter, ExecNext;
    PcStepOk(x.pc, StatusIn(x.cell), registry, id, hit);
  }

  lemma ServeOk(x: Exec, registry: Registry, id: string, hit: bool, pc: HandlerPc)
    requires ExecOk(x, id in registry.runCancels, id in registry.cancelRequests, hit)
    ensures var r := if pc.Consulting? then MarkRequested(registry, id) else registry;
            ExecOk(x.(cell := After(x.cell, HandlerOp(pc))), id in r.runCancels, id in r.cancelRequests,
                   hit || (pc.Consulting? && id in registry.runCancels))
  {
    OpEffect(x.cell, HandlerOp(pc));
    hide Inv, After;
  }

  // Registry changes for one run leave the others alone.
  lemma RegistryFrame(registry: Registry, id: string, pc: Pc, other: string)
    requires other != id
    ensures other in RegistryNext(registry, id, pc).runCancels <==> other in registry.runCancels
    ensures other in RegistryNext(registry, id, pc).cancelRequests <==> other in registry.cancelRequests
  {
  }

  lemma StepInv(w: World, id: string)
    requires WorldInv(w) && Enabled(w, Step(id))
    ensures WorldInv(Next(w, Step(id)))
  {
    hide ExecOk, After, ExecOp, ExecNext, RegistryNext;
    var x := w.execs[id];
    StepOk(x, w.registry, id, id in w.hits);
    var w' := Next(w, Step(id));
    forall other | other in w'.execs
      ensures ExecOk(w'.execs[other], other in w'.registry.runCancels, other in w'.registry.cancelRequests, other in w'.hits)
    {
      if other != id {
        RegistryFrame(w.registry, id, x.pc, other);
      }
    }
    RegistryNested(w.registry, id, x.pc);
  }

  lemma RegistryNested(r: Registry, id: string, pc: Pc)
    requires r.cancelRequests <= r.runCancels
    ensures var r' := RegistryNext(r, id, pc); r'.cancelRequests <= r'.runCancels <= r.runCancels + {id}
  {
  }

  lemma ServeInv(w: World, h: nat)
    requires WorldInv(w) && Enabled(w, Serve(h))
    ensures WorldInv(Next(w, Serve(h)))
  {
    hide ExecOk, After, HandlerOp, HandlerNext;
    var Handler(id, pc) := w.handlers[h];
    ServeOk(w.execs[id], w.registry, id, id in w.hits, pc);
  }

  lemma CreateInv(w: World, id: string, v: string, n: nat)
    requires WorldInv(w) && Enabled(w, Create(id, v, n))
    ensures WorldInv(Next(w, Create(id, v, n)))
  {
    hide Inv, Created;
    CreatedInv("", "", v, n);
    CreatedStatus(v, n);
  }

  lemma CreatedStatus(v: string, n: nat)
    ensures Created("", "", v, n).run.Some? && StatusIn(Created("", "", v, n)) == Queued
  {
  }

  lemma EmitInv(w: World, id: string, body: Body)
    requires WorldInv(w) && Enabled(w, Emit(id, body))
    ensures WorldInv(Next(w, Emit(id, body)))
  {
    hide Inv, After, AppendRunEvent, PcOk;
    var x := w.execs[id];
    AppendAfter(x.cell, body);
    OpEffect(x.cell, Some(Append(body)));
    assert StatusIn(AppendRunEvent(x.cell, body)) == StatusIn(x.cell);
  }

  lemma FinishInv(w: World, id: string, result: RunResult)
    requires WorldInv(w) && Enabled(w, Finish(id, result))
    ensures WorldInv(Next(w, Finish(id, result)))
  {
    hide Inv;
  }

  lemma AskInv(w: World, h: nat, id: string)
    requires WorldInv(w) && Enabled(w, Ask(h, id))
    ensures WorldInv(Next(w, Ask(h, id)))
  {
    hide ExecOk;
  }

  lemma NextInv(w: World, act: Action)
    requires WorldInv(w) && Enabled(w, act)
    ensures WorldInv(Next(w, act))
  {
    hide WorldInv, Next, Enabled;
    match act
    case Create(id, v, n) => CreateInv(w, id, v, n);
    case Step(id) => StepInv(w, id);
    case Emit(id, body) => EmitInv(w, id, body);
    case Finish(id, result) => FinishInv(w, id, result);
    case Ask(h, id) => AskInv(w, h, id);
    case Serve(h) => ServeInv(w, h);
  }

  lemma AppendAfter(c: Cell, body: Body)
    ensures After(c, Some(Append(body))) == AppendRunEvent(c, body)
  {
  }

  lemma {:induction false} PlayInv(w: World, acts: seq<Action>)
    requires WorldInv(w) && Allowed(w, acts)
    ensures WorldInv(Play(w, acts))
    decreases |acts|
  {
    if |acts| > 0 {
      NextInv(w, acts[0]);
      hide WorldInv, Next, Enabled;
      PlayInv(Next(w, acts[0]), acts[1..]);
    }
  }

  // ----- what holds over every interleaving ----------------------------------

  // Whenever requestRunCancel finds the run registered, the run ends canceled, wherever the
  // call falls between register, start, finish and complete.
  lemma HitMeansCanceled(acts: seq<Action>, id: string)
    requires Allowed(INIT, acts) && id in Play(INIT, acts).hits
    ensures var w := Play(INIT, acts);
            && id in w.execs
            && (IsTerminal(StatusIn(w.execs[id].cell)) ==> StatusIn(w.execs[id].cell) == Canceled)
            && (w.execs[id].pc == Returned ==> StatusIn(w.execs[id].cell) == Canceled)
  {
    PlayInv(INIT, acts);
    hide Inv;
    var w := Play(INIT, acts);
    assert ExecOk(w.execs[id], id in w.registry.runCancels, id in w.registry.cancelRequests, id in w.hits);
  }

  // A cancel request is only ever kept for a registered run, and once executeRun has returned
  // neither map mentions the run and the run is terminal.
  lemma MapsDrained(acts: seq<Action>)
    requires Allowed(INIT, acts)
    ensures var w := Play(INIT, acts);
            && w.registry.cancelRequests <= w.registry.runCancels
            && forall id | id in w.execs && w.execs[id].pc == Returned ::
                 && id !in w.registry.runCancels && id !in w.registry.cancelRequests
                 && IsTerminal(StatusIn(w.execs[id].cell))
  {
    PlayInv(INIT, acts);
    hide Inv;
    var w := Play(INIT, acts);
    forall id | id in w.execs && w.execs[id].pc == Returned
      ensures id !in w.registry.runCancels && id !in w.registry.cancelRequests
      ensures IsTerminal(StatusIn(w.execs[id].cell))
    {
      assert ExecOk(w.execs[id], id in w.registry.runCancels, id in w.registry.cancelRequests, id in w.hits);
    }
  }

  ghost predicate AlwaysCanceled(w: World, id: string) {
    forall acts | Allowed(w, acts) ::
      id in Play(w, acts).execs ==>
        var status := StatusIn(Play(w, acts).execs[id].cell);
        IsTerminal(status) ==> status == Canceled
  }

  // The registry or executeRun itself already holds the cancellation.
  predicate CancelHeld(w: World, id: string)
    requires id in w.execs
  {
    id in w.registry.cancelRequests || w.execs[id].pc.Canceling?
  }

  // The run is canceled, or its cancellation is held.
  ghost predicate Settled(w: World, id: string) {
    WorldInv(w) && BoundIn(w, id)
  }

  predicate BoundIn(w: World, id: string) {
    id in w.execs && Bound(w.execs[id], id in w.registry.cancelRequests)
  }

  predicate Bound(x: Exec, requested: bool) {
    requested || x.pc.Canceling? || StatusIn(x.cell) == Canceled
  }

  lemma BoundStep(x: Exec, registry: Registry, id: string, hit: bool)
    requires ExecOk(x, id in registry.runCancels, id in registry.cancelRequests, hit)
    requires !x.pc.InRunner? && !x.pc.Returned? && Bound(x, id in registry.cancelRequests)
    ensures Bound(Exec(After(x.cell, ExecOp(x.pc)), ExecNext(x.pc, StatusIn(x.cell), id in registry.cancelRequests)),
                  id in RegistryNext(registry, id, x.pc).cancelRequests)
  {
    OpEffect(x.cell, ExecOp(x.pc));
    hide Inv, After, CancelReport;
  }

  lemma BoundServe(x: Exec, pc: HandlerPc, requested: bool)
    requires x.cell.run.Some? && Inv(x.cell) && Bound(x, requested)
    ensures Bound(x.(cell := After(x.cell, HandlerOp(pc))), requested)
  {
    OpEffect(x.cell, HandlerOp(pc));
    hide Inv, After;
  }

  lemma InvOf(w: World, id: string)
    requires WorldInv(w) && id in w.execs
    ensures ExecOk(w.execs[id], id in w.registry.runCancels, id in w.registry.cancelRequests, id in w.hits)
  {
  }

  lemma BoundByStep(w: World, mover: string, id: string)
    requires WorldInv(w) && BoundIn(w, id) && Enabled(w, Step(mover))
    ensures BoundIn(Next(w, Step(mover)), id)
  {
    InvOf(w, id);
    hide WorldInv, Bound, After, ExecOp, ExecNext, RegistryNext, ExecOk;
    if mover == id {
      BoundStep(w.execs[id], w.registry, id, id in w.hits);
    } else {
      RegistryFrame(w.registry, mover, w.execs[mover].pc, id);
    }
  }

  // What a handler's step does to its own run, and that it leaves the others alone.
  lemma ServeEffect(w: World, h: nat, id: string)
    requires Enabled(w, Serve(h)) && id in w.execs
    ensures h in w.handlers
    ensures var w', pc := Next(w, Serve(h)), w.handlers[h].pc;
            && id in w'.execs
            && w'.execs[id] == (if w.handlers[h].id == id then w.execs[id].(cell := After(w.execs[id].cell, HandlerOp(pc)))
                                else w.execs[id])
            && (id in w.registry.cancelRequests ==> id in w'.registry.cancelRequests)
  {
    hide After, HandlerOp, HandlerNext;
  }

  lemma CellInv(w: World, id: string)
    requires WorldInv(w) && id in w.execs
    ensures w.execs[id].cell.run.Some? && Inv(w.execs[id].cell)
  {
    hide Inv;
  }

  lemma BoundByServe(w: World, h: nat, id: string)
    requires WorldInv(w) && BoundIn(w, id) && Enabled(w, Serve(h))
    ensures BoundIn(Next(w, Serve(h)), id)
  {
    hide WorldInv, ExecOk, After, HandlerNext, HandlerOp, PcOk, Inv, Bound, Next, Enabled;
    CellInv(w, id);
    ServeEffect(w, h, id);
    var w', before := Next(w, Serve(h)), id in w.registry.cancelRequests;
    if w.handlers[h].id == id {
      BoundServe(w.execs[id], w.handlers[h].pc, before);
    }
    MoreBound(w'.execs[id], before, id in w'.registry.cancelRequests);
  }

  lemma MoreBound(x: Exec, requested: bool, later: bool)
    requires Bound(x, requested) && (requested ==> later)
    ensures Bound(x, later)
  {
  }

  lemma BoundByOther(w: World, act: Action, id: string)
    requires BoundIn(w, id) && Enabled(w, act) && !act.Step? && !act.Serve?
    ensures BoundIn(Next(w, act), id)
  {
    hide Created, Appended, After;
  }

  lemma SettledStep(w: World, act: Action, id: string)
    requires Settled(w, id) && Enabled(w, act)
    ensures Settled(Next(w, act), id)
  {
    hide WorldInv, BoundIn, Next, Enabled;
    NextInv(w, act);
    match act
    case Step(mover) => BoundByStep(w, mover, id);
    case Serve(h) => BoundByServe(w, h, id);
    case _ => BoundByOther(w, act, id);
  }

  lemma {:induction false} SettledPlay(w: World, acts: seq<Action>, id: string)
    requires Settled(w, id) && Allowed(w, acts)
    ensures Settled(Play(w, acts), id)
    decreases |acts|
  {
    if |acts| > 0 {
      SettledStep(w, acts[0], id);
      hide Settled, Next, Enabled;
      SettledPlay(Next(w, acts[0]), acts[1..], id);
    }
  }

  // How many steps executeRun has left.
  function StepsLeft(pc: Pc): nat {
    match pc
    case Registering => 6
    case Starting => 5
    case Confirming => 4
    case InRunner => 3
    case Finishing(_) => 2
    case Returned => 0
    case _ => 1
  }

  // The action that moves executeRun along when the runner succeeds.
  function OwnAction(id: string, pc: Pc): Action {
    if pc.InRunner? then Finish(id, Produced(CanceledReport("").(status := ReportPassed))) else Step(id)
  }

  // One own step: closer to the end, and still without a cancellation unless it ends the run.
  lemma OwnStep(w: World, id: string)
    requires WorldInv(w) && id in w.execs && Open(w.execs[id].cell) && !CancelHeld(w, id)
    ensures var act := OwnAction(id, w.execs[id].pc);
            && Enabled(w, act) && id in Next(w, act).execs && WorldInv(Next(w, act))
            && var x, x' := w.execs[id], Next(w, act).execs[id];
            && x'.cell.run.Some?
            && (if x.pc.Failing? || x.pc.Completing? then IsTerminal(StatusIn(x'.cell)) && StatusIn(x'.cell) != Canceled
                else Open(x'.cell) && !CancelHeld(Next(w, act), id) && StepsLeft(x'.pc) < StepsLeft(x.pc))
  {
    hide Inv, After, CancelReport;
    var x := w.execs[id];
    var act := OwnAction(id, x.pc);
    InvOf(w, id);
    NextInv(w, act);
    hide WorldInv;
    OpEffect(x.cell, ExecOp(x.pc));
  }

  // With no cancellation held, executeRun left to itself finishes the run otherwise.
  lemma {:induction false} RunsToItsOwnEnd(w: World, id: string) returns (acts: seq<Action>)
    requires WorldInv(w) && id in w.execs && Open(w.execs[id].cell) && !CancelHeld(w, id)
    ensures Allowed(w, acts) && id in Play(w, acts).execs
    ensures var status := StatusIn(Play(w, acts).execs[id].cell); IsTerminal(status) && status != Canceled
    decreases StepsLeft(w.execs[id].pc)
  {
    OwnStep(w, id);
    hide WorldInv, Next, Enabled, OwnAction, CancelHeld, StepsLeft;
    var act := OwnAction(id, w.execs[id].pc);
    var w' := Next(w, act);
    if w.execs[id].pc.Failing? || w.execs[id].pc.Completing? {
      acts := [act];
      assert acts[1..] == [];
      assert Allowed(w', []);
    } else {
      var rest := RunsToItsOwnEnd(w', id);
      acts := [act] + rest;
      assert acts[1..] == rest;
    }
  }

  // Exactly when an open run is bound to end canceled: the request is in cancelRequests, or
  // executeRun has already taken it from there.
  lemma CancelWinsExactly(w: World, id: string)
    requires WorldInv(w) && id in w.execs && Open(w.execs[id].cell)
    ensures AlwaysCanceled(w, id) <==> CancelHeld(w, id)
  {
    hide Inv;
    if CancelHeld(w, id) {
      forall acts | Allowed(w, acts)
        ensures id in Play(w, acts).execs ==>
                  var status := StatusIn(Play(w, acts).execs[id].cell); IsTerminal(status) ==> status == Canceled
      {
        SettledPlay(w, acts, id);
        InvOf(Play(w, acts), id);
      }
    } else {
      var acts := RunsToItsOwnEnd(w, id);
      assert !AlwaysCanceled(w, id);
    }
  }

  lemma OneStep(w: World, act: Action)
    requires Enabled(w, act)
    ensures Allowed(w, [act]) && Play(w, [act]) == Next(w, act)
  {
    hide Next, Enabled;
    assert [act][1..] == [];
    assert Allowed(Next(w, act), []);
  }

  lemma {:induction false} PlayConcat(w: World, acts: seq<Action>, more: seq<Action>)
    requires Allowed(w, acts) && Allowed(Play(w, acts), more)
    ensures Allowed(w, acts + more) && Play(w, acts + more) == Play(Play(w, acts), more)
    decreases |acts|
  {
    hide Next, Enabled;
    if |acts| == 0 {
      assert acts + more == more;
    } else {
      assert (acts + more)[1..] == acts[1..] + more;
      PlayConcat(Next(w, acts[0]), acts[1..], more);
    }
  }

  // A cancel that arrives after finishRunCancel is accepted, and the run still completes.
  lemma LateCancelLoses(w: World, id: string, h: nat) returns (acts: seq<Action>)
    requires WorldInv(w) && id in w.execs && w.execs[id].pc.Completing? && Open(w.execs[id].cell) && h !in w.handlers
    ensures Allowed(w, acts)
    ensures var v := Play(w, acts);
            && h in v.handlers && v.handlers[h] == Handler(id, Answered(Accepted))
            && id in v.execs && IsTerminal(StatusIn(v.execs[id].cell)) && StatusIn(v.execs[id].cell) != Canceled
  {
    hide Inv, HasRequest;
    var x := w.execs[id];
    assert ExecOk(x, id in w.registry.runCancels, id in w.registry.cancelRequests, id in w.hits);
    acts := [];
    assert Allowed(w, []);
    var v := w;
    for k := 0 to 4
      invariant Allowed(w, acts) && Play(w, acts) == v
      invariant id in v.execs && v.execs[id].pc == x.pc && Open(v.execs[id].cell) && StatusIn(v.execs[id].cell) == Running
      invariant id !in v.registry.runCancels
      invariant k == 0 ==> h !in v.handlers
      invariant k > 0 ==> h in v.handlers
      invariant k == 1 ==> v.handlers[h] == Handler(id, Looking)
      invariant k == 2 ==> v.handlers[h] == Handler(id, Requesting(Running))
      invariant k == 3 ==> v.handlers[h] == Handler(id, Consulting(Running))
      invariant k == 4 ==> v.handlers[h] == Handler(id, Answered(Accepted))
    {
      var act := if k == 0 then Ask(h, id) else Serve(h);
      OneStep(v, act);
      PlayConcat(w, acts, [act]);
      acts := acts + [act];
      v := Next(v, act);
    }
    OneStep(v, Step(id));
    PlayConcat(w, acts, [Step(id)]);
    acts := acts + [Step(id)];
  }

  lemma Extend(acts: seq<Action>, act: Action)
    requires Allowed(INIT, acts) && Enabled(Play(INIT, acts), act)
    ensures Allowed(INIT, acts + [act]) && Play(INIT, acts + [act]) == Next(Play(INIT, acts), act)
  {
    hide Next, Enabled;
    OneStep(Play(INIT, acts), act);
    PlayConcat(INIT, acts, [act]);
  }

  // A run whose context is quiet comes to its completion.
  lemma ReachCompleting(id: string, rep: Report) returns (acts: seq<Action>)
    requires rep.status == ReportPassed
    ensures Allowed(INIT, acts)
    ensures var w := Play(INIT, acts);
            && id in w.execs && w.execs[id].pc == Completing(rep) && Open(w.execs[id].cell) && w.handlers == map[]
  {
    hide Inv, HasRequest, Allowed, Play;
    acts := [];
    assert Allowed(INIT, acts) && Play(INIT, acts) == INIT by { Nothing(); }
    var steps := [Create(id, "", 0), Step(id), Step(id), Step(id), Finish(id, Produced(rep)), Step(id)];
    for k := 0 to 6
      invariant Allowed(INIT, acts)
      invariant var w := Play(INIT, acts);
                && w.handlers == map[] && w.registry.cancelRequests == {}
                && (k == 0 ==> w == INIT)
                && (k > 0 ==> id in w.execs && Open(w.execs[id].cell) && (k >= 3 ==> StatusIn(w.execs[id].cell) == Running))
                && (k > 0 ==> w.execs[id].pc == [Registering, Starting, Confirming, InRunner, Finishing(Produced(rep)), Completing(rep)][k - 1])
    {
      Extend(acts, steps[k]);
      acts := acts + [steps[k]];
    }
  }

  lemma Nothing()
    ensures Allowed(INIT, []) && Play(INIT, []) == INIT
  {
  }

  // An answer of 202 is no promise: a schedule from the empty server after which the cancel has
  // been accepted and the run has completed.
  lemma AcceptedCancelCanLose(id: string, rep: Report) returns (acts: seq<Action>)
    requires rep.status == ReportPassed
    ensures Allowed(INIT, acts)
    ensures var v := Play(INIT, acts);
            && 0 in v.handlers && v.handlers[0] == Handler(id, Answered(Accepted))
            && id in v.execs && IsTerminal(StatusIn(v.execs[id].cell)) && StatusIn(v.execs[id].cell) != Canceled
  {
    hide WorldInv, Allowed, Play;
    acts := ReachCompleting(id, rep);
    InitInv();
    PlayInv(INIT, acts);
    var more := LateCancelLoses(Play(INIT, acts), id, 0);
    PlayConcat(INIT, acts, more);
    acts := acts + more;
  }

  lemma InitInv()
    ensures WorldInv(INIT)
  {
  }
}
