// The API handler of POST /v1/runs/{id}/cancel, as a sequence of atomic steps.
module CancelHandler {
  import opened Prelude
  import opened RunEvents
  import opened Reports
  import opened RunLifecycle

  datatype Answer = Accepted | Conflict | NotFound

  // Where a handler stands; the line numbers are those of server.go.
  datatype HandlerPc =
    | Looking                   // 411: GetRun
    | Requesting(seen: Status)  // 420: RequestRunCancel
    | Consulting(seen: Status)  // 424: requestRunCancel
    | Overriding                // 425: CancelRun
    | Answered(answer: Answer)

  function CanceledReport(message: string): Report {
    Report(ReportCanceled, "", 0, EMPTY_SUMMARY, [], [], [Note(message)], [])
  }

  const OVERRIDE := CanceledReport("run canceled before worker execution")

  // The store operation of a step.
  function HandlerOp(pc: HandlerPc): Option<Op> {
    match pc
    case Requesting(_) => Some(RequestCancel)
    case Overriding => Some(Cancel(OVERRIDE))
    case _ => None
  }

  // Where the handler goes, given the cell it finds, how its read or write ended and whether the
  // server has a cancel function registered for the run; a server that queues its runs never has
  // one. A run that cannot be read is not found, and a request that the store does not acknowledge
  // is refused.
  function HandlerNext(c: Cell, outcome: Outcome, registered: bool, pc: HandlerPc): HandlerPc {
    match pc
    case Looking =>
      if ReadFails(outcome) then Answered(NotFound)
      else if IsCancelable(StatusIn(c)) then Requesting(StatusIn(c)) else Answered(Conflict)
    case Requesting(seen) => if Open(c) && outcome == Committed then Consulting(seen) else Answered(Conflict)
    case Consulting(seen) => if !registered && seen == Queued then Overriding else Answered(Accepted)
    case Overriding => Answered(Accepted)
    case Answered(_) => pc
  }

  // ----- what a handler went through -----------------------------------------

  // What one step of a handler met: the status of the run just before it, how its access to the
  // store ended, and whether the server had a cancel function for the run.
  datatype Sight = Sight(status: Status, outcome: Outcome, registered: bool)

  function Saw(c: Cell, outcome: Outcome, registered: bool, pc: HandlerPc, sights: seq<Sight>): seq<Sight> {
    if pc.Answered? then sights else sights + [Sight(StatusIn(c), outcome, registered)]
  }

  // It could not read the run.
  predicate NotFoundBy(s: seq<Sight>) {
    |s| == 1 && s[0].outcome != Committed
  }

  // It read a run that was queued or running.
  predicate FoundOpen(s: seq<Sight>) {
    |s| >= 1 && s[0].outcome == Committed && (s[0].status == Queued || s[0].status == Running)
  }

  // The run was still open when it asked for the request, and the store acknowledged it.
  predicate RequestedBy(s: seq<Sight>) {
    FoundOpen(s) && |s| >= 2 && s[1].outcome == Committed && (s[1].status == Queued || s[1].status == Running)
  }

  // It read a finished run, or its request was not made or not acknowledged.
  predicate RefusedBy(s: seq<Sight>) {
    || (|s| == 1 && s[0].outcome == Committed && !FoundOpen(s))
    || (|s| == 2 && FoundOpen(s) && !RequestedBy(s))
  }

  // It has to cancel the run itself: it found it queued and nobody registered for it.
  predicate MustOverride(s: seq<Sight>) {
    RequestedBy(s) && |s| >= 3 && s[0].status == Queued && !s[2].registered
  }

  predicate AcceptedBy(s: seq<Sight>) {
    RequestedBy(s) && |s| >= 3 && |s| == if MustOverride(s) then 4 else 3
  }

  predicate Explained(pc: HandlerPc, s: seq<Sight>) {
    match pc
    case Looking => s == []
    case Requesting(seen) => |s| == 1 && FoundOpen(s) && seen == s[0].status
    case Consulting(seen) => |s| == 2 && RequestedBy(s) && seen == s[0].status
    case Overriding => |s| == 3 && MustOverride(s)
    case Answered(NotFound) => NotFoundBy(s)
    case Answered(Conflict) => RefusedBy(s)
    case Answered(Accepted) => AcceptedBy(s)
  }

  // The run is canceled, with the report of the override.
  predicate Overridden(c: Cell) {
    && c.run.Some? && c.run.value.status == Canceled && c.run.value.report.Some?
    && var rep := c.run.value.report.value;
       && rep.status == ReportCanceled && rep.failures == [Note("run canceled before worker execution")]
       && rep.summary == EMPTY_SUMMARY && rep.responses == [] && rep.thresholds == [] && rep.invariants == []
  }

  // What a handler has brought about: its request is on the log, and if it canceled the run itself
  // and that was not rolled back, the run is finished, by that unless it was finished before.
  ghost predicate Achieved(c: Cell, s: seq<Sight>) {
    && (RequestedBy(s) ==> HasRequest(c.events))
    && (|s| >= 4 && s[3].outcome != RolledBack ==> !Open(c) && (s[3].status == Queued || s[3].status == Running ==> Overridden(c)))
  }

  lemma HandlerStep(c: Cell, outcome: Outcome, registered: bool, pc: HandlerPc, s: seq<Sight>)
    requires c.run.Some? && Explained(pc, s) && Achieved(c, s)
    ensures var s' := Saw(c, outcome, registered, pc, s);
            Explained(HandlerNext(c, outcome, registered, pc), s') && Achieved(After(c, Effect(HandlerOp(pc), outcome)), s')
  {
    hide HasRequest;
    if HandlerOp(pc).Some? {
      ApplyRequest(c, HandlerOp(pc).value);
    }
  }

  // A step of a handler finishes an open run exactly when it is the override of a run that it found
  // queued and not registered, and that is not rolled back.
  lemma HandlerFinishesIff(c: Cell, outcome: Outcome, pc: HandlerPc, s: seq<Sight>)
    requires Open(c) && Explained(pc, s)
    ensures !Open(After(c, Effect(HandlerOp(pc), outcome))) <==> |s| == 3 && MustOverride(s) && outcome != RolledBack
  {
    hide HasRequest, Apply;
    if HandlerOp(pc).Some? {
      ApplyRequest(c, HandlerOp(pc).value);
    }
  }

  // What it has brought about stays.
  lemma AchievedStays(c: Cell, d: Cell, s: seq<Sight>)
    requires c.run.Some? && Evolves(c, d) && (HasRequest(c.events) ==> HasRequest(d.events)) && Achieved(c, s)
    ensures Achieved(d, s)
  {
    hide HasRequest;
  }
}
