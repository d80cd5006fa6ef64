// What each store operation does to one run: its record and its event log.
// Every store method holds the store's lock throughout, so each is one atomic step.
module RunLifecycle {
  import opened Prelude
  import opened RunEvents
  import opened Reports

  datatype Status = Queued | Running | Passed | Failed | Errored | Canceled

  datatype Run = Run(
    targetID: string, scenarioID: string, versionID: string, versionNumber: nat,
    status: Status, report: Option<Report>, error: string)

  // A log can exist without a record: appending never checks that the run exists.
  datatype Cell = Cell(run: Option<Run>, events: seq<Event>)

  const ABSENT := Cell(None, [])

  predicate IsTerminal(s: Status) {
    s == Passed || s == Failed || s == Errored || s == Canceled
  }

  predicate IsCancelable(s: Status) {
    s == Queued || s == Running
  }

  function Rank(s: Status): nat {
    match s
    case Queued => 0
    case Running => 1
    case _ => 2
  }

  // ----- the operations ------------------------------------------------------

  function Created(targetID: string, scenarioID: string, versionID: string, versionNumber: nat): Cell {
    Cell(Some(Run(targetID, scenarioID, versionID, versionNumber, Queued, None, "")),
         Appended([], Body(Info, RunQueued, "run queued")))
  }

  predicate Open(c: Cell) {
    c.run.Some? && !IsTerminal(c.run.value.status)
  }

  function MarkRunStarted(c: Cell): Cell {
    if !Open(c) then c
    else Cell(Some(c.run.value.(status := Running)),
              Appended(c.events, Body(Info, RunStarted, "run started")))
  }

  function CompleteRun(c: Cell, rep: Report): Cell {
    if !Open(c) then c
    else
      var run := c.run.value;
      var status := if rep.status == ReportFailed then Failed else Passed;
      var stamped := rep.(versionID := run.versionID, versionNumber := run.versionNumber);
      var body := if status == Failed
                  then Body(Error, RunFailed, "run failed")
                  else Body(Info, RunCompleted, "run completed");
      Cell(Some(run.(status := status, report := Some(stamped))), Appended(c.events, body))
  }

  function CancelRun(c: Cell, rep: Report): Cell {
    if !Open(c) then c
    else
      var run := c.run.value;
      var stamped := rep.(status := ReportCanceled, versionID := run.versionID, versionNumber := run.versionNumber);
      Cell(Some(run.(status := Canceled, report := Some(stamped), error := "run canceled")),
           Appended(c.events, Body(Warn, RunCanceled, "run canceled")))
  }

  function ErrorRun(c: Cell, message: string): Cell {
    if !Open(c) then c
    else Cell(Some(c.run.value.(status := Errored, error := message)),
              Appended(c.events, Body(Error, RunFailed, message)))
  }

  ghost function RequestRunCancel(c: Cell): Cell {
    if !Open(c) || HasRequest(c.events) then c
    else Cell(c.run, Appended(c.events, Body(Warn, CancelRequested, "run cancellation requested")))
  }

  function AppendRunEvent(c: Cell, body: Body): Cell {
    Cell(c.run, Appended(c.events, body))
  }

  datatype Op =
    | MarkStarted
    | Complete(rep: Report)
    | Cancel(rep: Report)
    | Fail(message: string)
    | RequestCancel
    | Append(body: Body)

  ghost function Apply(c: Cell, op: Op): Cell {
    match op
    case MarkStarted => MarkRunStarted(c)
    case Complete(rep) => CompleteRun(c, rep)
    case Cancel(rep) => CancelRun(c, rep)
    case Fail(message) => ErrorRun(c, message)
    case RequestCancel => RequestRunCancel(c)
    case Append(body) => AppendRunEvent(c, body)
  }

  ghost function After(c: Cell, op: Option<Op>): Cell {
    if op.Some? then Apply(c, op.value) else c
  }

  // How an access to the store ends. Unacknowledged: the store committed a write and the caller was
  // told that it failed. The memory store only ever commits; a database can do all three. A read
  // succeeds or fails.
  datatype Outcome = Committed | Unacknowledged | RolledBack

  predicate ReadFails(outcome: Outcome) {
    outcome != Committed
  }

  // The operation that takes effect, if any does.
  function Effect(op: Option<Op>, outcome: Outcome): Option<Op> {
    if outcome == RolledBack then None else op
  }

  function StatusIn(c: Cell): Status {
    if c.run.Some? then c.run.value.status else Queued
  }

  // What a scenario runner hands back: a report, or an error and no report.
  datatype RunResult = Produced(rep: Report) | Broke(message: string)

  ghost function Replay(c: Cell, ops: seq<Op>): Cell {
    if |ops| == 0 then c else Apply(Replay(c, ops[..|ops| - 1]), ops[|ops| - 1])
  }

  // The only discipline the callers keep: the runner and the worker never forge a store event.
  predicate Honest(op: Op) {
    op.Append? ==> !IsStoreKind(op.body.kind)
  }

  predicate AllHonest(ops: seq<Op>) {
    forall op | op in ops :: Honest(op)
  }

  // ----- what every reachable cell satisfies ---------------------------------

  // The terminal events a run of this status must have logged.
  function ExpectedTerminal(s: Status): seq<Kind> {
    match s
    case Queued => []
    case Running => []
    case Passed => [RunCompleted]
    case Failed => [RunFailed]
    case Errored => [RunFailed]
    case Canceled => [RunCanceled]
  }

  predicate ReportMatches(run: Run) {
    && (run.report.Some? <==> run.status in {Passed, Failed, Canceled})
    && (run.report.Some? ==>
          && run.report.value.versionID == run.versionID
          && run.report.value.versionNumber == run.versionNumber
          && (run.status == Failed ==> run.report.value.status == ReportFailed)
          && (run.status == Passed ==> run.report.value.status != ReportFailed)
          && (run.status == Canceled ==> run.report.value.status == ReportCanceled))
  }

  ghost predicate LogOk(log: seq<Event>, terminal: seq<Kind>) {
    && Numbered(log)
    && |Filter(log, IsCancelRequest)| <= 1
    && (HasRequest(log) <==> |Filter(log, IsCancelRequest)| == 1)
    && TerminalKinds(log) == terminal
  }

  function TerminalOf(run: Option<Run>): seq<Kind> {
    if run.Some? then ExpectedTerminal(run.value.status) else []
  }

  ghost predicate Inv(c: Cell) {
    && LogOk(c.events, TerminalOf(c.run))
    && (c.run.Some? ==>
          && ReportMatches(c.run.value)
          && |c.events| > 0 && c.events[0].body.kind == RunQueued)
  }

  // How a cell may change: ranks rise, a terminal record is frozen, the log only grows,
  // and the stamp and the identity of the run stay.
  predicate Evolves(c: Cell, d: Cell) {
    && c.events <= d.events
    && (c.run.Some? <==> d.run.Some?)
    && (c.run.Some? ==>
          var r, s := c.run.value, d.run.value;
          && Rank(r.status) <= Rank(s.status)
          && (IsTerminal(r.status) ==> s == r)
          && s.targetID == r.targetID && s.scenarioID == r.scenarioID
          && s.versionID == r.versionID && s.versionNumber == r.versionNumber)
  }

  lemma CreatedInv(targetID: string, scenarioID: string, versionID: string, versionNumber: nat)
    ensures Inv(Created(targetID, scenarioID, versionID, versionNumber))
  {
    AppendedEffect([], Body(Info, RunQueued, "run queued"));
  }

  // The event an operation logs, if it has any effect.
  ghost function Logged(c: Cell, op: Op): Option<Body> {
    match op
    case Append(body) => Some(body)
    case RequestCancel =>
      if Open(c) && !HasRequest(c.events)
      then Some(Body(Warn, CancelRequested, "run cancellation requested")) else None
    case _ =>
      if !Open(c) then None
      else match op
        case MarkStarted => Some(Body(Info, RunStarted, "run started"))
        case Complete(rep) =>
          Some(if rep.status == ReportFailed then Body(Error, RunFailed, "run failed") else Body(Info, RunCompleted, "run completed"))
        case Cancel(rep) => Some(Body(Warn, RunCanceled, "run canceled"))
        case Fail(message) => Some(Body(Error, RunFailed, message))
  }

  lemma ApplyLogs(c: Cell, op: Op)
    ensures Logged(c, op) == None ==> Apply(c, op) == c
    ensures Logged(c, op).Some? ==> Apply(c, op).events == Appended(c.events, Logged(c, op).value)
  {
    hide HasRequest, Appended;
  }

  lemma LogOkAppended(log: seq<Event>, terminal: seq<Kind>, body: Body)
    requires LogOk(log, terminal)
    requires body.kind == CancelRequested ==> !HasRequest(log)
    ensures LogOk(Appended(log, body), terminal + if IsTerminalKind(body.kind) then [body.kind] else [])
  {
    AppendedEffect(log, body);
    hide TerminalKinds, Numbered, HasRequest, Filter, Appended;
  }

  lemma ApplyInv(c: Cell, op: Op)
    requires Inv(c) && Honest(op)
    ensures Inv(Apply(c, op))
  {
    hide LogOk, HasRequest;
    ApplyLogs(c, op);
    var logged := Logged(c, op);
    if logged.Some? {
      LogOkAppended(c.events, TerminalOf(c.run), logged.value);
      var kind := logged.value.kind;
      assert TerminalOf(Apply(c, op).run) == TerminalOf(c.run) + if IsTerminalKind(kind) then [kind] else [];
    }
  }

  lemma ApplyEvolves(c: Cell, op: Op)
    ensures Evolves(c, Apply(c, op))
  {
  }

  lemma {:induction false} ReplayInv(c: Cell, ops: seq<Op>)
    requires Inv(c) && AllHonest(ops)
    ensures Inv(Replay(c, ops))
  {
    if |ops| > 0 {
      ReplayInv(c, ops[..|ops| - 1]);
      assert ops[|ops| - 1] in ops;
      ApplyInv(Replay(c, ops[..|ops| - 1]), ops[|ops| - 1]);
    }
  }

  // Between any two moments of any run the cell has only evolved.
  lemma {:induction false} ReplayEvolves(c: Cell, ops: seq<Op>, k: nat)
    requires k <= |ops|
    ensures Evolves(Replay(c, ops[..k]), Replay(c, ops))
  {
    if k < |ops| {
      var front := ops[..|ops| - 1];
      ReplayEvolves(c, front, k);
      assert front[..k] == ops[..k];
      ApplyEvolves(Replay(c, front), ops[|ops| - 1]);
    } else {
      assert ops[..k] == ops;
    }
  }

  // ----- the first finishing operation decides the run -----------------------

  predicate Finishes(op: Op) {
    op.Complete? || op.Cancel? || op.Fail?
  }

  // The record a finishing operation leaves, read off the operation alone.
  function FinishedRecord(run: Run, op: Op): Run
    requires Finishes(op)
  {
    match op
    case Complete(rep) =>
      run.(status := if rep.status == ReportFailed then Failed else Passed,
           report := Some(rep.(versionID := run.versionID, versionNumber := run.versionNumber)))
    case Cancel(rep) =>
      run.(status := Canceled, error := "run canceled",
           report := Some(rep.(status := ReportCanceled, versionID := run.versionID, versionNumber := run.versionNumber)))
    case Fail(message) => run.(status := Errored, error := message)
  }

  lemma {:induction false} NoFinisherStaysOpen(c: Cell, ops: seq<Op>)
    requires Open(c)
    requires forall op | op in ops :: !Finishes(op)
    ensures Open(Replay(c, ops))
    ensures Replay(c, ops).run.value ==
            c.run.value.(status := if MarkStarted in ops then Running else c.run.value.status)
  {
    if |ops| > 0 {
      var front, last := ops[..|ops| - 1], ops[|ops| - 1];
      assert ops == front + [last];
      assert last in ops;
      NoFinisherStaysOpen(c, front);
    }
  }

  // Whatever the interleaving, the record of a run is decided by the first Complete, Cancel
  // or Fail applied to it; everything after that is ignored.
  lemma {:induction false} FirstFinisherDecides(c: Cell, ops: seq<Op>, k: nat)
    requires Open(c)
    requires k < |ops| && Finishes(ops[k])
    requires forall i | 0 <= i < k :: !Finishes(ops[i])
    ensures Replay(c, ops).run == Some(
              FinishedRecord(c.run.value.(status := if MarkStarted in ops[..k] then Running else c.run.value.status), ops[k]))
  {
    NoFinisherStaysOpen(c, ops[..k]);
    var decided := ops[..k + 1];
    assert decided[..k] == ops[..k];
    assert Replay(c, decided) == Apply(Replay(c, ops[..k]), ops[k]);
    ReplayEvolves(c, ops, k + 1);
  }

  lemma ApplyRequest(c: Cell, op: Op)
    requires Honest(op)
    ensures HasRequest(Apply(c, op).events) <==> HasRequest(c.events) || (op == RequestCancel && Open(c))
    ensures Open(Apply(c, op)) <==> Open(c) && !Finishes(op)
  {
    ApplyLogs(c, op);
    if Logged(c, op).Some? {
      AppendedEffect(c.events, Logged(c, op).value);
    }
    hide HasRequest;
  }

  // A cancel request is on record exactly when one arrived while the run was still open.
  lemma {:induction false} RequestRecorded(c: Cell, ops: seq<Op>)
    requires Open(c) && AllHonest(ops)
    ensures HasRequest(Replay(c, ops).events) <==>
            HasRequest(c.events) ||
            exists i :: 0 <= i < |ops| && ops[i] == RequestCancel && forall j | 0 <= j < i :: !Finishes(ops[j])
    ensures Open(Replay(c, ops)) <==> forall j | 0 <= j < |ops| :: !Finishes(ops[j])
  {
    hide HasRequest, Finishes, Apply, Open;
    if |ops| > 0 {
      var front, last := ops[..|ops| - 1], ops[|ops| - 1];
      assert last in ops;
      assert forall op | op in front :: op in ops;
      RequestRecorded(c, front);
      ApplyRequest(Replay(c, front), last);
      assert forall j | 0 <= j < |front| :: front[j] == ops[j];
    }
  }

  // A terminal event is on the log exactly when the run is terminal, exactly once, and of
  // the kind that matches the status.
  lemma TerminalEventIffTerminal(c: Cell)
    requires Inv(c) && c.run.Some?
    ensures (exists e :: e in c.events && IsTerminalEvent(e)) <==> IsTerminal(c.run.value.status)
    ensures |Filter(c.events, IsTerminalEvent)| <= 1
    ensures forall e | e in c.events && IsTerminalEvent(e) :: [e.body.kind] == ExpectedTerminal(c.run.value.status)
  {
    hide Filter, Numbered, HasRequest;
    FilterMembers(c.events, IsTerminalEvent);
    var terminal := Filter(c.events, IsTerminalEvent);
    assert |TerminalKinds(c.events)| == |terminal|;
    if |terminal| > 0 {
      assert terminal[0] in terminal;
    }
    forall e | e in c.events && IsTerminalEvent(e)
      ensures [e.body.kind] == ExpectedTerminal(c.run.value.status)
    {
      assert e in terminal;
      var i :| 0 <= i < |terminal| && terminal[i] == e;
      assert TerminalKinds(c.events)[i] == e.body.kind;
    }
  }

  // ----- run_started and the end of the log ----------------------------------

  predicate IsStartEvent(e: Event) {
    e.body.kind == RunStarted
  }

  predicate IsMark(op: Op) {
    op == MarkStarted
  }

  // The operations before the first one that finishes the run.
  function BeforeFinish(ops: seq<Op>): (r: seq<Op>)
    ensures r <= ops && (forall op | op in r :: !Finishes(op))
    ensures |r| < |ops| ==> Finishes(ops[|r|])
  {
    if |ops| == 0 then []
    else
      var front := BeforeFinish(ops[..|ops| - 1]);
      if |front| < |ops| - 1 || Finishes(ops[|ops| - 1]) then front else ops
  }

  lemma StartsPush(c: Cell, op: Op)
    requires Honest(op)
    ensures |Filter(Apply(c, op).events, IsStartEvent)| ==
            |Filter(c.events, IsStartEvent)| + if op == MarkStarted && Open(c) then 1 else 0
  {
    hide HasRequest, Filter;
    ApplyLogs(c, op);
    if Logged(c, op).Some? {
      FilterPush(c.events, Event(|c.events| + 1, Logged(c, op).value), IsStartEvent);
    }
  }

  // run_started repeats: it is logged once for every time the run was marked started before
  // it was first finished, and never after.
  lemma {:induction false} StartedEventsAre(c: Cell, ops: seq<Op>)
    requires Open(c) && AllHonest(ops)
    ensures |Filter(Replay(c, ops).events, IsStartEvent)| ==
            |Filter(c.events, IsStartEvent)| + |Filter(BeforeFinish(ops), IsMark)|
    ensures Open(Replay(c, ops)) <==> BeforeFinish(ops) == ops
  {
    if |ops| == 0 {
      assert Filter(BeforeFinish(ops), IsMark) == [];
    } else {
      hide Finishes, Apply, Filter, Open;
      var front, last := ops[..|ops| - 1], ops[|ops| - 1];
      assert ops == front + [last] && last in ops;
      assert forall op | op in front :: op in ops;
      StartedEventsAre(c, front);
      StartsPush(Replay(c, front), last);
      ApplyRequest(Replay(c, front), last);
      FilterPush(front, last, IsMark);
      assert last == MarkStarted ==> !Finishes(last) by { MarkDoesNotFinish(); }
    }
  }

  lemma MarkDoesNotFinish()
    ensures !Finishes(MarkStarted)
  {
  }

  predicate IsAppend(op: Op) {
    op.Append?
  }

  // After a run is finished only plain appends still reach its log.
  lemma {:induction false} FinishedLogGrowsByAppends(c: Cell, ops: seq<Op>)
    requires c.run.Some? && !Open(c)
    ensures Replay(c, ops).run == c.run
    ensures |Replay(c, ops).events| == |c.events| + |Filter(ops, IsAppend)|
    ensures |Filter(ops, IsAppend)| > 0 && AllHonest(ops) ==>
              !IsTerminalEvent(Replay(c, ops).events[|Replay(c, ops).events| - 1])
    ensures Filter(ops, IsAppend) == [] ==> Replay(c, ops) == c
  {
    hide HasRequest;
    if |ops| > 0 {
      var front, last := ops[..|ops| - 1], ops[|ops| - 1];
      assert ops == front + [last] && last in ops;
      FinishedLogGrowsByAppends(c, front);
      FilterPush(front, last, IsAppend);
    }
  }

  lemma {:induction false} ReplayConcat(c: Cell, ops: seq<Op>, more: seq<Op>)
    ensures Replay(c, ops + more) == Replay(Replay(c, ops), more)
  {
    if |more| == 0 {
      assert ops + more == ops;
    } else {
      assert (ops + more)[..|ops + more| - 1] == ops + more[..|more| - 1];
      ReplayConcat(c, ops, more[..|more| - 1]);
    }
  }

  lemma FinishingLogsLast(c: Cell, op: Op)
    requires Open(c) && Finishes(op)
    ensures var d := Apply(c, op); d.run.Some? && !Open(d) && |d.events| > 0 && IsTerminalEvent(d.events[|d.events| - 1])
  {
  }

  lemma NoAppends(ops: seq<Op>)
    ensures |Filter(ops, IsAppend)| == 0 <==> forall i | 0 <= i < |ops| :: !ops[i].Append?
  {
    FilterMembers(ops, IsAppend);
    var kept := Filter(ops, IsAppend);
    if |kept| > 0 {
      assert kept[0] in kept;
    }
    assert forall i | 0 <= i < |ops| :: ops[i] in ops;
  }

  lemma ReplayPush(c: Cell, ops: seq<Op>, op: Op)
    ensures Replay(c, ops + [op]) == Apply(Replay(c, ops), op)
  {
    assert (ops + [op])[..|ops|] == ops;
  }

  // The terminal event is the last of the log exactly when nothing was appended after the
  // operation that finished the run.
  lemma TerminalEventIsLastIff(c: Cell, ops: seq<Op>, k: nat)
    requires Open(c) && AllHonest(ops)
    requires k < |ops| && Finishes(ops[k]) && forall i | 0 <= i < k :: !Finishes(ops[i])
    ensures var d := Replay(c, ops);
            |d.events| > 0 && (IsTerminalEvent(d.events[|d.events| - 1]) <==> forall i | k < i < |ops| :: !ops[i].Append?)
  {
    hide Finishes, Apply, Open, Filter, Replay;
    var before, rest := ops[..k], ops[k + 1..];
    assert forall op | op in before :: !Finishes(op);
    NoFinisherStaysOpen(c, before);
    FinishingLogsLast(Replay(c, before), ops[k]);
    ReplayPush(c, before, ops[k]);
    assert ops == before + [ops[k]] + rest;
    ReplayConcat(c, before + [ops[k]], rest);
    assert forall op | op in rest :: op in ops;
    FinishedLogGrowsByAppends(Replay(c, before + [ops[k]]), rest);
    NoAppends(rest);
    assert (forall i | k < i < |ops| :: !ops[i].Append?) <==> (forall j | 0 <= j < |rest| :: !rest[j].Append?) by {
      assert forall i | k < i < |ops| :: ops[i] == rest[i - k - 1];
      assert forall j | 0 <= j < |rest| :: rest[j] == ops[j + k + 1];
    }
  }
}
