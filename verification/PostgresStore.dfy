// The Postgres store: the status change and the event that reports it are two transactions,
// either may fail, and a commit may go through without the client learning of it. One run is
// followed; any number of clients interleave their transactions.
module PostgresStore {
  import opened Prelude
  import opened RunEvents
  import opened Reports
  import opened RunLifecycle

  // ----- one transaction on one run ------------------------------------------

  function MaxSequence(rows: seq<Event>): nat {
    if |rows| == 0 then 0
    else
      var rest := MaxSequence(rows[..|rows| - 1]);
      if rows[|rows| - 1].sequence > rest then rows[|rows| - 1].sequence else rest
  }

  // COALESCE(MAX(sequence), 0) + 1
  function Inserted(rows: seq<Event>, body: Body): (r: seq<Event>)
    ensures rows <= r
  {
    rows + [Event(MaxSequence(rows) + 1, body)]
  }

  // The reports table has no column for the responses, and its status is the run's.
  function ReportStatusOf(status: Status): ReportStatus {
    match status
    case Passed => ReportPassed
    case Failed => ReportFailed
    case _ => ReportCanceled
  }

  function StoredReport(rep: Report, run: Run, status: Status): Report {
    rep.(status := ReportStatusOf(status), versionID := run.versionID, versionNumber := run.versionNumber, responses := [])
  }

  function Finished(run: Run, status: Status, rep: Report, error: string): Run {
    run.(status := status, error := error, report := Some(StoredReport(rep, run, status)))
  }

  // What the first transaction of an operation does when it commits. A cancel request is a
  // single transaction that also inserts the event.
  ghost function Transacted(c: Cell, op: Op): Cell {
    if c.run.None? then c
    else match op
      case Append(body) => c.(events := Inserted(c.events, body))
      case RequestCancel =>
        if !Open(c) || HasRequest(c.events) then c
        else c.(events := Inserted(c.events, Body(Warn, CancelRequested, "run cancellation requested")))
      case _ =>
        if !Open(c) then c
        else
          var run := c.run.value;
          match op
          case MarkStarted => c.(run := Some(run.(status := Running)))
          case Complete(rep) => c.(run := Some(Finished(run, if rep.status == ReportFailed then Failed else Passed, rep, "")))
          case Cancel(rep) => c.(run := Some(Finished(run, Canceled, rep, "run canceled")))
          case Fail(message) => c.(run := Some(run.(status := Errored, error := message)))
  }

  predicate IsLifecycleOp(op: Op) {
    op.MarkStarted? || Finishes(op)
  }

  // ----- interleaved clients -------------------------------------------------

  datatype Step = Transact(op: Op, outcome: Outcome) | Settle(body: Body, committed: bool)

  // owed holds the events whose status change was acknowledged and whose own transaction is
  // still to come; lost is history, the events whose transaction failed or was never tried.
  datatype World = World(db: Cell, owed: multiset<Body>, lost: multiset<Body>)

  ghost function Announced(c: Cell, op: Op): multiset<Body> {
    if IsLifecycleOp(op) && Logged(c, op).Some? then multiset{Logged(c, op).value} else multiset{}
  }

  predicate Enabled(w: World, step: Step) {
    match step
    case Transact(op, _) => Honest(op)
    case Settle(body, _) => body in w.owed
  }

  ghost function Next(w: World, step: Step): World {
    match step
    case Transact(op, outcome) =>
      if outcome == RolledBack then w
      else
        var news := Announced(w.db, op);
        World(Transacted(w.db, op),
              if outcome == Committed then w.owed + news else w.owed,
              if outcome == Committed then w.lost else w.lost + news)
    case Settle(body, committed) =>
      World(if committed then w.db.(events := Inserted(w.db.events, body)) else w.db,
            w.owed - multiset{body},
            if committed then w.lost else w.lost + multiset{body})
  }

  ghost predicate Allowed(w: World, steps: seq<Step>)
    decreases |steps|
  {
    |steps| == 0 ||
    (Allowed(w, steps[..|steps| - 1]) && Enabled(Reached(w, steps[..|steps| - 1]), steps[|steps| - 1]))
  }

  ghost function Reached(w: World, steps: seq<Step>): World
    decreases |steps|
  {
    if |steps| == 0 then w else Next(Reached(w, steps[..|steps| - 1]), steps[|steps| - 1])
  }

  const QUEUED_BODY := Body(Info, RunQueued, "run queued")

  // The INSERT of CreateRun; its event is still to come.
  function Inserting(targetID: string, scenarioID: string, versionID: string, versionNumber: nat): World {
    World(Cell(Some(Run(targetID, scenarioID, versionID, versionNumber, Queued, None, "")), []), multiset{QUEUED_BODY}, multiset{})
  }

  // ----- what the memory store would have done -------------------------------

  // The memory operation a step stands for; a second transaction stands for none.
  function MemoryOp(step: Step): Option<Op> {
    if step.Transact? && step.outcome != RolledBack then Some(step.op) else None
  }

  function MemoryOps(steps: seq<Step>): seq<Op> {
    if |steps| == 0 then []
    else
      var op := MemoryOp(steps[|steps| - 1]);
      MemoryOps(steps[..|steps| - 1]) + if op.Some? then [op.value] else []
  }

  // The part of a run that Postgres keeps.
  function Durable(run: Run): Run {
    if run.report.None? then run
    else run.(report := Some(run.report.value.(responses := [], status := ReportStatusOf(run.status))))
  }

  // The column that Postgres keeps instead of the report's own status says the same, except of a run
  // that passed with a report that says canceled.
  lemma StatusColumnAgreesIff(c: Cell)
    requires Inv(c) && c.run.Some? && c.run.value.report.Some?
    ensures var run := c.run.value;
            Durable(run).report.value.status == run.report.value.status <==>
            !(run.status == Passed && run.report.value.status == ReportCanceled)
  {
  }

  function BodyOf(e: Event): Body {
    e.body
  }

  predicate IsLifecycleKind(k: Kind) {
    k == RunQueued || k == RunStarted || IsTerminalKind(k)
  }

  predicate IsLifecycle(b: Body) {
    IsLifecycleKind(b.kind)
  }

  predicate IsDirect(b: Body) {
    !IsLifecycleKind(b.kind)
  }

  function Bodies(log: seq<Event>): seq<Body> {
    Map(log, BodyOf)
  }

  function Direct(log: seq<Event>): seq<Body> {
    Filter(Bodies(log), IsDirect)
  }

  function Lifecycle(log: seq<Event>): seq<Body> {
    Filter(Bodies(log), IsLifecycle)
  }

  // Postgres against memory: the same durable record, ...
  predicate RecordsMatch(stored: Option<Run>, run: Option<Run>) {
    && stored.Some? && run.Some? && stored.value == Durable(run.value)
    && (!IsTerminal(run.value.status) ==> run.value.error == "")
  }

  // ... the same requests and runner events in the same order, and every lifecycle event of
  // memory exactly once: as a row, or among the missing ones.
  ghost predicate LogsMatch(rows: seq<Event>, missing: multiset<Body>, log: seq<Event>) {
    && Direct(rows) == Direct(log)
    && multiset(Lifecycle(rows)) + missing == multiset(Lifecycle(log))
    && Numbered(rows)
  }

  ghost predicate Simulates(w: World, c: Cell) {
    RecordsMatch(w.db.run, c.run) && LogsMatch(w.db.events, w.owed + w.lost, c.events)
  }

  lemma {:induction false} MaxOfNumbered(rows: seq<Event>)
    requires Numbered(rows)
    ensures MaxSequence(rows) == |rows|
  {
    if |rows| > 0 {
      MaxOfNumbered(rows[..|rows| - 1]);
    }
  }

  lemma BodiesGrow(log: seq<Event>, e: Event)
    ensures Direct(log + [e]) == Direct(log) + if IsDirect(e.body) then [e.body] else []
    ensures Lifecycle(log + [e]) == Lifecycle(log) + if IsLifecycle(e.body) then [e.body] else []
  {
    MapPush(log, e, BodyOf);
    FilterPush(Bodies(log), e.body, IsDirect);
    FilterPush(Bodies(log), e.body, IsLifecycle);
  }

  lemma InsertedNumbered(rows: seq<Event>, body: Body)
    requires Numbered(rows)
    ensures Numbered(Inserted(rows, body))
  {
    MaxOfNumbered(rows);
  }

  // Requests are direct events, so the two logs agree on them.
  lemma RequestIffDirect(log: seq<Event>)
    ensures HasRequest(log) <==> exists b :: b in Direct(log) && b.kind == CancelRequested
  {
    FilterMembers(Bodies(log), IsDirect);
    if HasRequest(log) {
      var i :| 0 <= i < |log| && IsCancelRequest(log[i]);
      assert Bodies(log)[i] in Bodies(log);
      assert Bodies(log)[i] in Direct(log);
    }
    if b :| b in Direct(log) && b.kind == CancelRequested {
      var i :| 0 <= i < |log| && Bodies(log)[i] == b;
      assert IsCancelRequest(log[i]);
    }
  }

  lemma SameRequests(w: World, c: Cell)
    requires Simulates(w, c)
    ensures HasRequest(w.db.events) <==> HasRequest(c.events)
    ensures Open(w.db) <==> Open(c)
    ensures StatusIn(w.db) == StatusIn(c)
  {
    hide HasRequest, Direct, Lifecycle;
    RequestIffDirect(w.db.events);
    RequestIffDirect(c.events);
  }

  // ----- the simulation ------------------------------------------------------

  lemma DirectLogged(rows: seq<Event>, missing: multiset<Body>, log: seq<Event>, body: Body)
    requires LogsMatch(rows, missing, log) && IsDirect(body)
    ensures LogsMatch(Inserted(rows, body), missing, Appended(log, body))
  {
    hide Direct, Lifecycle, Numbered, MaxSequence;
    InsertedNumbered(rows, body);
    BodiesGrow(rows, Event(MaxSequence(rows) + 1, body));
    BodiesGrow(log, Event(|log| + 1, body));
    assert Lifecycle(Inserted(rows, body)) == Lifecycle(rows);
    assert Lifecycle(Appended(log, body)) == Lifecycle(log);
  }

  lemma LifecycleAnnounced(rows: seq<Event>, missing: multiset<Body>, log: seq<Event>, body: Body)
    requires LogsMatch(rows, missing, log) && IsLifecycle(body)
    ensures LogsMatch(rows, missing + multiset{body}, Appended(log, body))
  {
    hide Direct, Lifecycle, Numbered, MaxSequence;
    BodiesGrow(log, Event(|log| + 1, body));
    assert Direct(Appended(log, body)) == Direct(log);
    assert multiset(Lifecycle(log) + [body]) == multiset(Lifecycle(log)) + multiset{body};
  }

  lemma MissingArrives(rows: seq<Event>, missing: multiset<Body>, log: seq<Event>, body: Body)
    requires LogsMatch(rows, missing, log) && body in missing && IsLifecycle(body)
    ensures LogsMatch(Inserted(rows, body), missing - multiset{body}, log)
  {
    hide Direct, Lifecycle, Numbered, MaxSequence;
    InsertedNumbered(rows, body);
    BodiesGrow(rows, Event(MaxSequence(rows) + 1, body));
    assert Direct(Inserted(rows, body)) == Direct(rows);
    assert multiset(Lifecycle(rows) + [body]) == multiset(Lifecycle(rows)) + multiset{body};
  }

  lemma MissingIsLifecycle(rows: seq<Event>, missing: multiset<Body>, log: seq<Event>, body: Body)
    requires LogsMatch(rows, missing, log) && body in missing
    ensures IsLifecycle(body)
  {
    FilterMembers(Bodies(log), IsLifecycle);
    assert body in multiset(Lifecycle(log));
    assert body in Lifecycle(log);
  }

  // A committed status change leaves the durable part of what memory would hold.
  lemma RecordChanges(db: Cell, c: Cell, op: Op)
    requires RecordsMatch(db.run, c.run) && IsLifecycleOp(op)
    ensures RecordsMatch(Transacted(db, op).run, Apply(c, op).run)
    ensures Transacted(db, op).events == db.events
    ensures Logged(db, op) == Logged(c, op) && (Logged(c, op).Some? <==> Open(c))
    ensures Open(c) ==> IsLifecycle(Logged(c, op).value)
  {
  }

  lemma StatusChangeSimulated(w: World, c: Cell, op: Op, outcome: Outcome)
    requires Simulates(w, c) && IsLifecycleOp(op) && outcome != RolledBack
    ensures Simulates(Next(w, Transact(op, outcome)), Apply(c, op))
  {
    hide LogsMatch, RecordsMatch, Transacted, Logged, Apply, Appended, Inserted;
    ApplyLogs(c, op);
    RecordChanges(w.db, c, op);
    var w', logged := Next(w, Transact(op, outcome)), Logged(c, op);
    assert w'.owed + w'.lost == w.owed + w.lost + Announced(w.db, op);
    if logged.Some? {
      LifecycleAnnounced(w.db.events, w.owed + w.lost, c.events, logged.value);
    } else {
      assert w.owed + w.lost + multiset{} == w.owed + w.lost;
    }
  }

  lemma SettleSimulated(w: World, c: Cell, body: Body, committed: bool)
    requires Simulates(w, c) && body in w.owed
    ensures Simulates(Next(w, Settle(body, committed)), c)
  {
    hide LogsMatch, RecordsMatch, Inserted;
    var w' := Next(w, Settle(body, committed));
    MissingIsLifecycle(w.db.events, w.owed + w.lost, c.events, body);
    if committed {
      MissingArrives(w.db.events, w.owed + w.lost, c.events, body);
      assert w'.owed + w'.lost == w.owed + w.lost - multiset{body};
    } else {
      assert w'.owed + w'.lost == w.owed + w.lost;
    }
  }

  // Requests and runner events take one transaction, as in memory.
  lemma DirectSimulated(w: World, c: Cell, op: Op)
    requires Simulates(w, c) && Honest(op) && !IsLifecycleOp(op)
    ensures Simulates(w.(db := Transacted(w.db, op)), Apply(c, op))
  {
    SameRequests(w, c);
    hide LogsMatch, HasRequest, Appended, Inserted;
    if op.Append? {
      DirectLogged(w.db.events, w.owed + w.lost, c.events, op.body);
    } else if Open(c) && !HasRequest(c.events) {
      DirectLogged(w.db.events, w.owed + w.lost, c.events, Body(Warn, CancelRequested, "run cancellation requested"));
    }
  }

  lemma StepSimulated(w: World, c: Cell, step: Step)
    requires Simulates(w, c) && Enabled(w, step)
    ensures Simulates(Next(w, step), After(c, MemoryOp(step)))
  {
    hide Simulates, Transacted, Apply, Inserted;
    match step
    case Settle(body, committed) =>
      SettleSimulated(w, c, body, committed);
    case Transact(op, outcome) =>
      if outcome != RolledBack {
        if IsLifecycleOp(op) {
          StatusChangeSimulated(w, c, op, outcome);
        } else {
          DirectSimulated(w, c, op);
          assert w.owed + multiset{} == w.owed && w.lost + multiset{} == w.lost;
        }
      }
  }

  // Whatever fails and however clients interleave, the store is one that the memory store
  // could have reached, less the lifecycle events still owed or lost.
  lemma {:induction false} PostgresSimulatesMemory(w: World, c: Cell, steps: seq<Step>)
    requires Simulates(w, c) && Allowed(w, steps)
    ensures Simulates(Reached(w, steps), Replay(c, MemoryOps(steps)))
    ensures AllHonest(MemoryOps(steps))
  {
    hide Simulates, Next, Apply;
    if |steps| > 0 {
      var front, last := steps[..|steps| - 1], steps[|steps| - 1];
      PostgresSimulatesMemory(w, c, front);
      StepSimulated(Reached(w, front), Replay(c, MemoryOps(front)), last);
      var op := MemoryOp(last);
      if op.None? {
        assert MemoryOps(steps) == MemoryOps(front);
      } else {
        assert (MemoryOps(front) + [op.value])[..|MemoryOps(front)|] == MemoryOps(front);
      }
    }
  }

  lemma CreationSimulated(targetID: string, scenarioID: string, versionID: string, versionNumber: nat)
    ensures Simulates(Inserting(targetID, scenarioID, versionID, versionNumber),
                      Created(targetID, scenarioID, versionID, versionNumber))
  {
    BodiesGrow([], Event(1, QUEUED_BODY));
  }

  // ----- what this means for the rows ----------------------------------------

  predicate IsCancelBody(b: Body) {
    b.kind == CancelRequested
  }

  predicate IsTerminalBody(b: Body) {
    IsTerminalKind(b.kind)
  }

  lemma CountsPush(log: seq<Event>, e: Event)
    ensures |Filter(log + [e], IsCancelRequest)| == |Filter(log, IsCancelRequest)| + if IsCancelBody(e.body) then 1 else 0
    ensures |Filter(log + [e], IsTerminalEvent)| == |Filter(log, IsTerminalEvent)| + if IsTerminalBody(e.body) then 1 else 0
    ensures |Filter(Direct(log + [e]), IsCancelBody)| == |Filter(Direct(log), IsCancelBody)| + if IsCancelBody(e.body) then 1 else 0
    ensures |Filter(Lifecycle(log + [e]), IsTerminalBody)| ==
            |Filter(Lifecycle(log), IsTerminalBody)| + if IsTerminalBody(e.body) then 1 else 0
  {
    hide Filter, Map;
    FilterPush(log, e, IsCancelRequest);
    FilterPush(log, e, IsTerminalEvent);
    BodiesGrow(log, e);
    FilterPush(Direct(log), e.body, IsCancelBody);
    FilterPush(Lifecycle(log), e.body, IsTerminalBody);
    assert Direct(log) + [] == Direct(log) && Lifecycle(log) + [] == Lifecycle(log);
  }

  lemma {:induction false} CountsByBody(log: seq<Event>)
    ensures |Filter(log, IsCancelRequest)| == |Filter(Direct(log), IsCancelBody)|
    ensures |Filter(log, IsTerminalEvent)| == |Filter(Lifecycle(log), IsTerminalBody)|
  {
    if |log| > 0 {
      hide Filter, Map, Direct, Lifecycle;
      var front, e := log[..|log| - 1], log[|log| - 1];
      assert log == front + [e];
      CountsByBody(front);
      CountsPush(front, e);
    }
  }

  lemma FilterOfSumCounts(a: seq<Body>, more: multiset<Body>, b: seq<Body>, keep: Body -> bool, x: Body)
    requires multiset(a) + more == multiset(b)
    ensures multiset(Filter(b, keep))[x] == multiset(Filter(a, keep))[x] + if keep(x) then more[x] else 0
  {
    FilterCounts(a, keep, x);
    FilterCounts(b, keep, x);
    assert multiset(b)[x] == multiset(a)[x] + more[x];
  }

  // What is kept of a sum is the sum of what is kept.
  lemma FilterOfSum(a: seq<Body>, more: multiset<Body>, b: seq<Body>, keep: Body -> bool)
    requires multiset(a) + more == multiset(b)
    ensures |Filter(a, keep)| <= |Filter(b, keep)|
    ensures (forall x | x in more :: !keep(x)) <==> |Filter(a, keep)| == |Filter(b, keep)|
  {
    hide Filter;
    var fa, fb := multiset(Filter(a, keep)), multiset(Filter(b, keep));
    forall x: Body
      ensures fb[x] == fa[x] + if keep(x) then more[x] else 0
    {
      FilterOfSumCounts(a, more, b, keep, x);
    }
    var rest := fb - fa;
    assert fb == fa + rest;
    assert |fb| == |fa| + |rest|;
    assert forall x | x in more :: keep(x) <==> x in rest;
    assert |rest| == 0 <==> rest == multiset{};
    assert forall x | x in rest :: x in more;
  }

  // Rows are exactly 1..n, at most one is a cancel request, at most one is a terminal event,
  // none on an open run and only of the kind that matches the status. A terminal run has its
  // terminal event exactly when that event is neither owed nor lost.
  ghost predicate RowsSafe(w: World) {
    && w.db.run.Some? && Numbered(w.db.events)
    && |Filter(w.db.events, IsCancelRequest)| <= 1
    && |Filter(w.db.events, IsTerminalEvent)| <= (if IsTerminal(StatusIn(w.db)) then 1 else 0)
    && (IsTerminal(StatusIn(w.db)) ==>
          (|Filter(w.db.events, IsTerminalEvent)| == 1 <==> forall b | b in w.owed + w.lost :: !IsTerminalBody(b)))
    && (forall e | e in w.db.events && IsTerminalEvent(e) :: [e.body.kind] == ExpectedTerminal(StatusIn(w.db)))
  }

  // Over every interleaving and every failure.
  lemma RowsAreSafe(targetID: string, scenarioID: string, versionID: string, versionNumber: nat, steps: seq<Step>)
    requires Allowed(Inserting(targetID, scenarioID, versionID, versionNumber), steps)
    ensures RowsSafe(Reached(Inserting(targetID, scenarioID, versionID, versionNumber), steps))
  {
    hide RowsSafe, Simulates, Inv, Allowed, Reached, Inserting, Created, Replay;
    var start := Inserting(targetID, scenarioID, versionID, versionNumber);
    var memory := Created(targetID, scenarioID, versionID, versionNumber);
    CreationSimulated(targetID, scenarioID, versionID, versionNumber);
    PostgresSimulatesMemory(start, memory, steps);
    CreatedInv(targetID, scenarioID, versionID, versionNumber);
    ReplayInv(memory, MemoryOps(steps));
    RowsFollowMemory(Reached(start, steps), Replay(memory, MemoryOps(steps)));
  }

  lemma RowsFollowMemory(w: World, c: Cell)
    requires Simulates(w, c) && Inv(c)
    ensures RowsSafe(w)
  {
    hide Filter, HasRequest, Numbered;
    CountsByBody(w.db.events);
    CountsByBody(c.events);
    FilterOfSum(Lifecycle(w.db.events), w.owed + w.lost, Lifecycle(c.events), IsTerminalBody);
    assert |Filter(c.events, IsTerminalEvent)| == |TerminalKinds(c.events)|;
    forall e | e in w.db.events && IsTerminalEvent(e)
      ensures [e.body.kind] == ExpectedTerminal(StatusIn(w.db))
    {
      RowHasTwin(w, c, e);
      TerminalEventIffTerminal(c);
    }
  }

  lemma RowHasTwin(w: World, c: Cell, e: Event)
    requires Simulates(w, c) && e in w.db.events && IsLifecycle(e.body)
    ensures exists twin :: twin in c.events && twin.body == e.body
  {
    var i :| 0 <= i < |w.db.events| && w.db.events[i] == e;
    assert Bodies(w.db.events)[i] == e.body;
    FilterMembers(Bodies(w.db.events), IsLifecycle);
    FilterMembers(Bodies(c.events), IsLifecycle);
    assert e.body in multiset(Lifecycle(w.db.events));
    assert e.body in multiset(Lifecycle(c.events));
    assert e.body in Bodies(c.events);
    var j :| 0 <= j < |c.events| && Bodies(c.events)[j] == e.body;
    assert c.events[j].body == e.body;
  }

  // A store that some memory store stands behind; every reachable one is.
  ghost predicate Sound(w: World) {
    exists c: Cell :: Simulates(w, c) && Inv(c)
  }

  lemma SoundKept(w: World, step: Step)
    requires Sound(w) && Enabled(w, step)
    ensures Sound(Next(w, step))
    ensures RowsSafe(w)
  {
    hide Simulates, Inv, Next, RowsSafe;
    var c: Cell :| Simulates(w, c) && Inv(c);
    StepSimulated(w, c, step);
    RowsFollowMemory(w, c);
    if MemoryOp(step).Some? {
      ApplyInv(c, MemoryOp(step).value);
    }
    assert Inv(After(c, MemoryOp(step)));
  }

  lemma SoundSafe(w: World)
    requires Sound(w)
    ensures RowsSafe(w)
  {
    hide Simulates, Inv, RowsSafe;
    var c: Cell :| Simulates(w, c) && Inv(c);
    RowsFollowMemory(w, c);
  }

  // The terminal event of a finished run became a row: its transaction is neither still to
  // come nor failed.
  predicate TerminalRowCommitted(w: World) {
    IsTerminal(StatusIn(w.db)) && forall b | b in w.owed + w.lost :: !IsTerminalBody(b)
  }

  lemma SoundTerminal(w: World)
    requires Sound(w)
    ensures |Filter(w.db.events, IsTerminalEvent)| <= 1
    ensures |Filter(w.db.events, IsTerminalEvent)| == 1 <==> TerminalRowCommitted(w)
  {
    SoundSafe(w);
    hide Sound, Filter, Numbered, IsTerminal, IsTerminalBody;
  }

  lemma InsertingSound(targetID: string, scenarioID: string, versionID: string, versionNumber: nat)
    ensures Sound(Inserting(targetID, scenarioID, versionID, versionNumber))
  {
    hide Simulates, Inv, Inserting, Created;
    CreationSimulated(targetID, scenarioID, versionID, versionNumber);
    CreatedInv(targetID, scenarioID, versionID, versionNumber);
  }

  lemma RowsGrow(w: World, step: Step)
    ensures w.db.events <= Next(w, step).db.events
    ensures |Next(w, step).db.events| <= |w.db.events| + 1
  {
    hide HasRequest, MaxSequence;
  }

  // ----- the terminal row, told from the steps -------------------------------

  predicate SettlesTerminal(step: Step) {
    step.Settle? && step.committed && IsTerminalBody(step.body)
  }

  // The step finishes an open run, its client learns of it, and body is the event it then owes.
  ghost predicate FinishesWith(w: World, step: Step, body: Body) {
    && step.Transact? && step.outcome == Committed && Finishes(step.op)
    && Logged(w.db, step.op) == Some(body)
  }

  // A first transaction inserts no terminal event.
  lemma TransactedRows(c: Cell, op: Op)
    requires Honest(op)
    ensures var rows, next := c.events, Transacted(c, op).events;
            next == rows || exists e :: next == rows + [e] && !IsTerminalEvent(e)
  {
    hide HasRequest, MaxSequence;
  }

  lemma TerminalRowsPush(w: World, step: Step)
    requires Enabled(w, step)
    ensures |Filter(Next(w, step).db.events, IsTerminalEvent)| ==
            |Filter(w.db.events, IsTerminalEvent)| + if SettlesTerminal(step) then 1 else 0
  {
    hide HasRequest, Filter, MaxSequence, Transacted;
    var rows, next := w.db.events, Next(w, step).db.events;
    match step
    case Transact(op, outcome) =>
      TransactedRows(w.db, op);
      if next != rows {
        var e :| next == rows + [e] && !IsTerminalEvent(e);
        FilterPush(rows, e, IsTerminalEvent);
      }
    case Settle(body, committed) =>
      if committed {
        FilterPush(rows, Event(MaxSequence(rows) + 1, body), IsTerminalEvent);
      }
  }

  lemma NothingReached(w: World)
    ensures Reached(w, []) == w && Filter<Step>([], SettlesTerminal) == []
  {
  }

  lemma LastStep(w: World, steps: seq<Step>)
    requires |steps| > 0 && Allowed(w, steps)
    ensures var front, last := steps[..|steps| - 1], steps[|steps| - 1];
            && Allowed(w, front) && Enabled(Reached(w, front), last)
            && Reached(w, steps) == Next(Reached(w, front), last)
  {
    hide Next, Enabled;
  }

  // Terminal rows are exactly the terminal events that were settled.
  lemma {:induction false} TerminalRowsAre(w: World, steps: seq<Step>)
    requires Allowed(w, steps)
    ensures |Filter(Reached(w, steps).db.events, IsTerminalEvent)| ==
            |Filter(w.db.events, IsTerminalEvent)| + |Filter(steps, SettlesTerminal)|
    decreases |steps|
  {
    hide Filter, Next, Enabled, SettlesTerminal, Allowed, Reached;
    if |steps| == 0 {
      NothingReached(w);
      assert steps == [];
    } else {
      var front, last := steps[..|steps| - 1], steps[|steps| - 1];
      LastStep(w, steps);
      TerminalRowsAre(w, front);
      TerminalRowsPush(Reached(w, front), last);
      FilterPush(front, last, SettlesTerminal);
      assert steps == front + [last];
    }
  }

  lemma OwedBy(w: World, step: Step, body: Body)
    requires Enabled(w, step) && body in Next(w, step).owed && IsTerminalBody(body)
    ensures body in w.owed || FinishesWith(w, step, body)
  {
    hide HasRequest, Transacted, Inserted;
  }

  // A terminal event is owed only since the step that finished the run with it was acknowledged.
  lemma {:induction false} OwedMeansFinished(w: World, steps: seq<Step>, body: Body)
    requires Allowed(w, steps) && body in Reached(w, steps).owed && IsTerminalBody(body)
    requires forall b | b in w.owed :: !IsTerminalBody(b)
    ensures exists i :: 0 <= i < |steps| && FinishesWith(Reached(w, steps[..i]), steps[i], body)
    decreases |steps|
  {
    hide IsTerminalBody, FinishesWith, Next, Enabled;
    if |steps| > 0 {
      var front, last := steps[..|steps| - 1], steps[|steps| - 1];
      OwedBy(Reached(w, front), last, body);
      if body in Reached(w, front).owed {
        OwedMeansFinished(w, front, body);
        var i :| 0 <= i < |front| && FinishesWith(Reached(w, front[..i]), front[i], body);
        assert front[..i] == steps[..i];
        assert FinishesWith(Reached(w, steps[..i]), steps[i], body);
      } else {
        assert FinishesWith(Reached(w, steps[..|front|]), steps[|front|], body);
      }
    }
  }

  lemma {:induction false} PrefixAllowed(w: World, steps: seq<Step>, k: nat)
    requires Allowed(w, steps) && k < |steps|
    ensures Allowed(w, steps[..k]) && Enabled(Reached(w, steps[..k]), steps[k])
    decreases |steps|
  {
    hide Next, Enabled;
    var front := steps[..|steps| - 1];
    if k < |front| {
      PrefixAllowed(w, front, k);
      assert front[..k] == steps[..k];
    }
  }

  lemma SettlesAfterFinish(w: World, steps: seq<Step>, j: nat) returns (i: nat)
    requires Allowed(w, steps) && j < |steps| && SettlesTerminal(steps[j])
    requires forall b | b in w.owed :: !IsTerminalBody(b)
    ensures i < j && FinishesWith(Reached(w, steps[..i]), steps[i], steps[j].body)
  {
    hide Allowed, Reached, Enabled, FinishesWith;
    PrefixAllowed(w, steps, j);
    SettleNeedsOwed(Reached(w, steps[..j]), steps[j]);
    OwedMeansFinished(w, steps[..j], steps[j].body);
    i :| 0 <= i < j && FinishesWith(Reached(w, steps[..j][..i]), steps[..j][i], steps[j].body);
    assert steps[..j][..i] == steps[..i];
  }

  // A run has its terminal event as a row exactly when the step that finished it was acknowledged
  // and a later step committed the event of that finish.
  lemma TerminalRowIff(targetID: string, scenarioID: string, versionID: string, versionNumber: nat, steps: seq<Step>)
    requires Allowed(Inserting(targetID, scenarioID, versionID, versionNumber), steps)
    ensures var w := Inserting(targetID, scenarioID, versionID, versionNumber);
            (exists e :: e in Reached(w, steps).db.events && IsTerminalEvent(e)) <==>
            (exists i, j :: 0 <= i < j < |steps| && steps[j].Settle? && steps[j].committed &&
                            FinishesWith(Reached(w, steps[..i]), steps[i], steps[j].body))
  {
    var w := Inserting(targetID, scenarioID, versionID, versionNumber);
    hide Allowed, Reached, Enabled, FinishesWith;
    var rows := Reached(w, steps).db.events;
    TerminalRowsAre(w, steps);
    FilterMembers(rows, IsTerminalEvent);
    FilterMembers(steps, SettlesTerminal);
    if |Filter(rows, IsTerminalEvent)| > 0 {
      assert Filter(rows, IsTerminalEvent)[0] in Filter(rows, IsTerminalEvent);
      var settle := Filter(steps, SettlesTerminal)[0];
      assert settle in Filter(steps, SettlesTerminal);
      var j :| 0 <= j < |steps| && steps[j] == settle;
      var i := SettlesAfterFinish(w, steps, j);
    }
    if i, j :| 0 <= i < j < |steps| && steps[j].Settle? && steps[j].committed &&
               FinishesWith(Reached(w, steps[..i]), steps[i], steps[j].body)
    {
      FinishIsTerminal(Reached(w, steps[..i]), steps[i], steps[j].body);
      assert steps[j] in steps;
      assert Filter(rows, IsTerminalEvent)[0] in Filter(rows, IsTerminalEvent);
    }
  }

  lemma FinishIsTerminal(w: World, step: Step, body: Body)
    requires FinishesWith(w, step, body)
    ensures IsTerminalBody(body)
  {
  }

  lemma SettleNeedsOwed(w: World, step: Step)
    requires Enabled(w, step) && step.Settle?
    ensures step.body in w.owed
  {
  }

  // A finished run can be left without any event at all, not even the one that it was queued.
  lemma EventsCanBeLost(rep: Report) returns (steps: seq<Step>)
    ensures var start := Inserting("", "", "", 0);
            && Allowed(start, steps)
            && IsTerminal(StatusIn(Reached(start, steps).db)) && Reached(start, steps).db.events == []
  {
    var start := Inserting("", "", "", 0);
    var first, second := Settle(QUEUED_BODY, false), Transact(Complete(rep), Unacknowledged);
    steps := [first, second];
    assert [first][..0] == [] && steps[..1] == [first];
    assert Allowed(start, [first]) && Reached(start, [first]) == Next(start, first);
  }

  // ----- the tables ----------------------------------------------------------

  datatype RunRow = RunRow(targetID: string, scenarioID: string, versionID: string, versionNumber: nat, status: Status, error: string)

  datatype ReportRow = ReportRow(
    status: ReportStatus, summary: Summary, thresholds: seq<CheckResult>, invariants: seq<CheckResult>, failures: seq<Failure>)

  datatype EventRow = EventRow(runID: string, event: Event)

  function OfRun(id: string): EventRow -> bool {
    (row: EventRow) => row.runID == id
  }

  function EventOf(row: EventRow): Event {
    row.event
  }

  // SELECT ... WHERE run_id = id
  function Rows(table: seq<EventRow>, id: string): seq<Event> {
    Map(Filter(table, OfRun(id)), EventOf)
  }

  lemma RowsPush(table: seq<EventRow>, row: EventRow, id: string)
    ensures Rows(table + [row], id) == Rows(table, id) + if row.runID == id then [row.event] else []
  {
    FilterPush(table, row, OfRun(id));
    if row.runID == id {
      MapPush(Filter(table, OfRun(id)), row, EventOf);
    }
  }

  // runs LEFT JOIN reports: the stamp comes from the run.
  function Joined(runs: map<string, RunRow>, reports: map<string, ReportRow>, id: string): Option<Run> {
    if id !in runs then None
    else
      var r := runs[id];
      var rep := if id !in reports then None
                 else
                   var t := reports[id];
                   Some(Report(t.status, r.versionID, r.versionNumber, t.summary, t.thresholds, t.invariants, t.failures, []));
      Some(Run(r.targetID, r.scenarioID, r.versionID, r.versionNumber, r.status, rep, r.error))
  }

  // GetRun reads the report by itself; the query for its stamp names a column of runs that does
  // not exist, and fails, so the stamp is left empty.
  function Fetched(runs: map<string, RunRow>, reports: map<string, ReportRow>, id: string): Option<Run> {
    var listed := Joined(runs, reports, id);
    if listed.None? || listed.value.report.None? then listed
    else Some(listed.value.(report := Some(listed.value.report.value.(versionID := "", versionNumber := 0))))
  }

  // A report read with its run has no stamp; the list of runs and GetRun agree exactly on runs
  // that have no report or no stamp.
  lemma FetchedAgreesIff(runs: map<string, RunRow>, reports: map<string, ReportRow>, id: string)
    ensures Fetched(runs, reports, id) == Joined(runs, reports, id) <==>
            id !in runs || id !in reports || (runs[id].versionID == "" && runs[id].versionNumber == 0)
    ensures id in runs && id in reports ==>
              var run := Fetched(runs, reports, id).value;
              run.report.Some? && run.report.value.versionID == "" && run.report.value.versionNumber == 0
  {
  }

  // Each method is one transaction that commits.
  class Tables {
    var runs: map<string, RunRow>
    var reports: map<string, ReportRow>
    var events: seq<EventRow>

    ghost function View(id: string): Cell
      reads this
    {
      Cell(Joined(runs, reports, id), Rows(events, id))
    }

    constructor ()
      ensures forall id :: View(id) == Cell(None, [])
    {
      runs, reports, events := map[], map[], [];
    }

    // The foreign key refuses an event of a run that does not exist.
    method InsertEvent(id: string, body: Body) returns (inserted: bool)
      modifies this`events
      ensures inserted <==> id in runs
      ensures !inserted ==> events == old(events)
      ensures View(id) == Transacted(old(View(id)), Append(body))
      ensures forall other | other != id :: View(other) == old(View(other))
    {
      hide Map, Filter, MaxSequence;
      inserted := id in runs;
      if inserted {
        var row := EventRow(id, Event(MaxSequence(Rows(events, id)) + 1, body));
        forall other {
          RowsPush(events, row, other);
        }
        events := events + [row];
      }
    }

    // UPDATE ... WHERE status IN ('queued', 'running'); the answer is whether a row matched.
    method MarkRunStarted(id: string) returns (updated: bool)
      modifies this`runs
      ensures updated <==> Open(old(View(id)))
      ensures View(id) == Transacted(old(View(id)), MarkStarted)
      ensures forall other | other != id :: View(other) == old(View(other))
    {
      updated := id in runs && IsCancelable(runs[id].status);
      if updated {
        runs := runs[id := runs[id].(status := Running)];
      }
    }

    method ErrorRun(id: string, message: string) returns (updated: bool)
      modifies this`runs
      ensures updated <==> Open(old(View(id)))
      ensures View(id) == Transacted(old(View(id)), Fail(message))
      ensures forall other | other != id :: View(other) == old(View(other))
    {
      updated := id in runs && IsCancelable(runs[id].status);
      if updated {
        runs := runs[id := runs[id].(status := Errored, error := message)];
      }
    }

    method FinishRunWithReport(id: string, status: Status, rep: Report, error: string) returns (finished: bool)
      requires status == Passed || status == Failed || status == Canceled
      modifies this`runs, this`reports
      ensures finished <==> Open(old(View(id)))
      ensures View(id) == if finished then old(View(id)).(run := Some(Finished(old(View(id)).run.value, status, rep, error)))
                          else old(View(id))
      ensures forall other | other != id :: View(other) == old(View(other))
    {
      finished := id in runs && IsCancelable(runs[id].status);
      if finished {
        runs := runs[id := runs[id].(status := status, error := error)];
        reports := reports[id := ReportRow(ReportStatusOf(status), rep.summary, rep.thresholds, rep.invariants, rep.failures)];
      }
    }

    method CompleteRun(id: string, rep: Report) returns (finished: bool)
      modifies this`runs, this`reports
      ensures finished <==> Open(old(View(id)))
      ensures View(id) == Transacted(old(View(id)), Complete(rep))
      ensures forall other | other != id :: View(other) == old(View(other))
    {
      finished := FinishRunWithReport(id, if rep.status == ReportFailed then Failed else Passed, rep, "");
    }

    method CancelRun(id: string, rep: Report) returns (finished: bool)
      modifies this`runs, this`reports
      ensures finished <==> Open(old(View(id)))
      ensures View(id) == Transacted(old(View(id)), Cancel(rep))
      ensures forall other | other != id :: View(other) == old(View(other))
    {
      finished := FinishRunWithReport(id, Canceled, rep.(status := ReportCanceled), "run canceled");
    }

    // SELECT EXISTS (... type = 'cancel_requested')
    method IsRunCancelRequested(id: string) returns (requested: bool)
      ensures requested <==> HasRequest(View(id).events)
    {
      var rows := Rows(events, id);
      if i :| 0 <= i < |rows| && rows[i].body.kind == CancelRequested {
        assert IsCancelRequest(rows[i]);
        return true;
      }
      return false;
    }

    method RequestRunCancel(id: string) returns (accepted: bool)
      modifies this`events
      ensures accepted <==> Open(old(View(id)))
      ensures View(id) == Transacted(old(View(id)), RequestCancel)
      ensures forall other | other != id :: View(other) == old(View(other))
    {
      hide Map, Filter, MaxSequence, HasRequest;
      accepted := id in runs && IsCancelable(runs[id].status);
      if accepted {
        var already := IsRunCancelRequested(id);
        if !already {
          var _ := InsertEvent(id, Body(Warn, CancelRequested, "run cancellation requested"));
        }
      }
    }
  }
}
