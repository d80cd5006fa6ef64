// What the answers of the cancel handlers say about the runs that the server executes itself.
module ServerAnswers {
  import opened Prelude
  import opened RunEvents
  import opened Reports
  import opened RunLifecycle
  import opened CancelHandler
  import opened ServerProtocol

  ghost predicate HandlerExplained(w: World, h: nat)
    requires h in w.handlers
  {
    var id := w.handlers[h].id;
    h in w.sights && id in w.execs && Told(w.execs[id].cell, w.handlers[h].pc, w.sights[h], id in w.hits)
  }

  ghost predicate Told(c: Cell, pc: HandlerPc, s: seq<Sight>, hit: bool) {
    && Explained(pc, s) && Achieved(c, s)
    && (forall i | 0 <= i < |s| :: s[i].outcome == Committed)
    && (|s| >= 3 && s[2].registered ==> hit)
  }

  // Each handler is where its steps have brought it, and has brought about what they bring about.
  ghost predicate HandlersExplained(w: World) {
    forall h | h in w.handlers :: HandlerExplained(w, h)
  }

  // How a step changes the cell of a run.
  lemma CellChanges(w: World, act: Action, id: string)
    requires WorldInv(w) && Enabled(w, act) && id in w.execs
    ensures id in Next(w, act).execs
    ensures var c, d := w.execs[id].cell, Next(w, act).execs[id].cell;
            c.run.Some? && Evolves(c, d) && (HasRequest(c.events) ==> HasRequest(d.events))
    ensures w.hits <= Next(w, act).hits
  {
    hide HasRequest, Apply, Evolves, CancelReport, OVERRIDE, RegistryNext, ExecNext, HandlerNext, Saw, PcOk, Inv;
    InvOf(w, id);
    var c := w.execs[id].cell;
    NothingChanges(c);
    match act
    case Step(mover) => if mover == id { OpChanges(c, ExecOp(w.execs[id].pc)); }
    case Serve(h) => if w.handlers[h].id == id { OpChanges(c, HandlerOp(w.handlers[h].pc)); }
    case Emit(mover, body) =>
      if mover == id {
        AppendAfter(c, body);
        OpChanges(c, Some(Append(body)));
      }
    case _ =>
  }

  lemma NothingChanges(c: Cell)
    ensures Evolves(c, c)
  {
  }

  lemma OpChanges(c: Cell, op: Option<Op>)
    requires op.Some? ==> Honest(op.value)
    ensures Evolves(c, After(c, op)) && (HasRequest(c.events) ==> HasRequest(After(c, op).events))
  {
    hide HasRequest, Apply, Evolves;
    NothingChanges(c);
    if op.Some? {
      ApplyEvolves(c, op.value);
      ApplyRequest(c, op.value);
    }
  }

  lemma ServeExplained(w: World, h: nat)
    requires WorldInv(w) && HandlersExplained(w) && Enabled(w, Serve(h))
    ensures HandlerExplained(Next(w, Serve(h)), h)
  {
    assert HandlerExplained(w, h);
    var Handler(id, pc) := w.handlers[h];
    CellInv(w, id);
    hide WorldInv, HandlersExplained, Told;
    ToldStep(w.execs[id].cell, id in w.registry.runCancels, pc, w.sights[h], id in w.hits);
    hide Next, Enabled;
    Served(w, h);
  }

  lemma Served(w: World, h: nat)
    requires Enabled(w, Serve(h)) && h in w.sights
    ensures var w', id, pc := Next(w, Serve(h)), w.handlers[h].id, w.handlers[h].pc;
            var c, found := w.execs[id].cell, id in w.registry.runCancels;
            && h in w'.handlers && w'.handlers[h] == Handler(id, HandlerNext(c, Committed, found, pc))
            && h in w'.sights && w'.sights[h] == Saw(c, Committed, found, pc, w.sights[h])
            && id in w'.execs && w'.execs[id].cell == After(c, HandlerOp(pc))
            && (id in w'.hits <==> id in w.hits || (pc.Consulting? && found))
  {
    hide After, HandlerNext, HandlerOp, Saw, MarkRequested;
  }

  lemma ToldStep(c: Cell, found: bool, pc: HandlerPc, s: seq<Sight>, hit: bool)
    requires c.run.Some? && Told(c, pc, s, hit)
    ensures Told(After(c, HandlerOp(pc)), HandlerNext(c, Committed, found, pc), Saw(c, Committed, found, pc, s),
                 hit || (pc.Consulting? && found))
  {
    ThirdSight(pc, s);
    HandlerStep(c, Committed, found, pc, s);
    hide After, HandlerNext, Explained, Achieved, HandlerOp;
  }

  lemma ThirdSight(pc: HandlerPc, s: seq<Sight>)
    requires Explained(pc, s)
    ensures |s| == 2 ==> pc.Consulting? || pc.Answered?
  {
  }

  lemma ExplainedStep(w: World, act: Action)
    requires WorldInv(w) && HandlersExplained(w) && Enabled(w, act)
    ensures HandlersExplained(Next(w, act))
  {
    var w' := Next(w, act);
    forall h | h in w'.handlers
      ensures HandlerExplained(w', h)
    {
      if act.Serve? && act.h == h {
        ServeExplained(w, h);
      } else if act.Ask? && act.h == h {
        AskExplained(w, h, act.id);
      } else {
        hide WorldInv, Explained, Achieved, HasRequest, Evolves;
        OthersStay(w, act, h);
        var id := w.handlers[h].id;
        CellChanges(w, act, id);
        AchievedStays(w.execs[id].cell, w'.execs[id].cell, w.sights[h]);
      }
    }
  }

  lemma AskExplained(w: World, h: nat, id: string)
    requires Enabled(w, Ask(h, id))
    ensures HandlerExplained(Next(w, Ask(h, id)), h)
  {
  }

  // A step leaves the handlers alone that it does not serve.
  lemma OthersStay(w: World, act: Action, h: nat)
    requires HandlersExplained(w) && Enabled(w, act) && h in Next(w, act).handlers
    requires !(act.Serve? && act.h == h) && !(act.Ask? && act.h == h)
    ensures h in w.handlers && Next(w, act).handlers[h] == w.handlers[h] && HandlerExplained(w, h)
    ensures h in Next(w, act).sights && Next(w, act).sights[h] == w.sights[h]
  {
    hide After, HandlerNext, ExecNext, RegistryNext, Explained, Achieved;
    assert h in w.handlers ==> HandlerExplained(w, h);
  }

  lemma {:induction false} ExplainedPlay(w: World, acts: seq<Action>)
    requires WorldInv(w) && HandlersExplained(w) && Allowed(w, acts)
    ensures HandlersExplained(Play(w, acts))
    decreases |acts|
  {
    hide WorldInv, HandlersExplained, Next, Enabled;
    if |acts| > 0 {
      NextInv(w, acts[0]);
      ExplainedStep(w, acts[0]);
      ExplainedPlay(Next(w, acts[0]), acts[1..]);
    }
  }

  // In every interleaving, exactly what leads a handler to each of its answers; a run is always
  // found, and a handler that finds it registered leaves it to executeRun to cancel it.
  lemma AnswersExactly(acts: seq<Action>, h: nat)
    requires Allowed(INIT, acts) && h in Play(INIT, acts).handlers
    ensures var w := Play(INIT, acts);
            h in w.sights && w.handlers[h].id in w.execs &&
            var x, s := w.handlers[h], w.sights[h];
            && x.pc != Answered(NotFound)
            && (x.pc == Answered(Conflict) <==> RefusedBy(s))
            && (x.pc == Answered(Accepted) <==> AcceptedBy(s))
            && (RequestedBy(s) ==> HasRequest(w.execs[x.id].cell.events))
            && (|s| >= 3 && s[2].registered ==> x.id in w.hits)
  {
    InitInv();
    ExplainedPlay(INIT, acts);
    hide Allowed, Play, HasRequest;
    assert HandlerExplained(Play(INIT, acts), h);
  }

  // A handler that found the run queued and, later, nothing registered for it has by its answer of
  // 202 canceled the run with the report of the override, unless the run was finished by then.
  lemma QueuedRunIsCanceled(acts: seq<Action>, h: nat)
    requires Allowed(INIT, acts)
    requires var w := Play(INIT, acts);
             h in w.handlers && w.handlers[h].pc == Answered(Accepted) && h in w.sights &&
             |w.sights[h]| >= 3 && w.sights[h][0].status == Queued && !w.sights[h][2].registered
    ensures var w := Play(INIT, acts);
            var s := w.sights[h];
            && |s| == 4 && w.handlers[h].id in w.execs
            && var c := w.execs[w.handlers[h].id].cell;
               IsTerminal(StatusIn(c)) && (!IsTerminal(s[3].status) ==> Overridden(c))
  {
    InitInv();
    ExplainedPlay(INIT, acts);
    PlayInv(INIT, acts);
    hide Allowed, Play, WorldInv, Told, Overridden;
    var w := Play(INIT, acts);
    assert HandlerExplained(w, h);
    var id := w.handlers[h].id;
    CellInv(w, id);
    OverrideSeen(w.execs[id].cell, w.sights[h], id in w.hits);
  }

  // The only step by which a handler finishes an open run.
  lemma HandlerStepFinishesIff(w: World, h: nat)
    requires WorldInv(w) && HandlersExplained(w) && Enabled(w, Serve(h)) && Open(w.execs[w.handlers[h].id].cell)
    ensures h in w.sights && w.handlers[h].id in Next(w, Serve(h)).execs
    ensures !Open(Next(w, Serve(h)).execs[w.handlers[h].id].cell) <==> |w.sights[h]| == 3 && MustOverride(w.sights[h])
  {
    assert HandlerExplained(w, h);
    hide WorldInv, HandlersExplained, Explained, Achieved, MustOverride;
    Served(w, h);
    hide Next, Enabled;
    HandlerFinishesIff(w.execs[w.handlers[h].id].cell, Committed, w.handlers[h].pc, w.sights[h]);
  }

  lemma OverrideSeen(c: Cell, s: seq<Sight>, hit: bool)
    requires c.run.Some? && Told(c, Answered(Accepted), s, hit)
    requires |s| >= 3 && s[0].status == Queued && !s[2].registered
    ensures |s| == 4 && IsTerminal(StatusIn(c)) && (!IsTerminal(s[3].status) ==> Overridden(c))
  {
  }
}
