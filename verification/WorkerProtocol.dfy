// Worker mode: one run, any number of Execute attempts (retried, duplicated, crashed),
// their cancellation monitors, any number of API cancel handlers and the API handler that
// enqueues the run. API and workers are separate processes that share a database, so every
// write of a status or a request commits, commits without the writer learning of it, or is
// rolled back, and every read succeeds or fails: a run that cannot be read counts as absent, a
// request that cannot be looked for as not made. Every action is one atomic step; a world is any
// interleaving of them.
module WorkerProtocol {
  import opened Prelude
  import opened RunEvents
  import opened Reports
  import opened RunLifecycle
  import opened CancelHandler

  // ----- actors --------------------------------------------------------------

  // Where an Execute attempt stands; the line numbers are those of executor.go.
  datatype Pc =
    | Entered                          // 25: GetRun
    | Checking(seen: Status)           // 44: first cancel check
    | Starting                         // 52: MarkRunStarted
    | Confirming                       // 54: GetRun again
    | InRunner                         // 64: the runner is at work
    | LoadingFlag(result: RunResult)   // 70: left operand, the monitor's flag
    | Rechecking(result: RunResult)    // 70: right operand, the log
    | UploadingCanceled(branch: CancelBranch)  // 46 and 75: blob upload before CancelRun
    | Canceling(rep: Report)           // 47 and 76: CancelRun
    | Failing(message: string)         // 80: ErrorRun
    | Uploading(rep: Report)           // 83: blob upload before CompleteRun
    | Completing(rep: Report)          // 84: CompleteRun
    | Returned
    | Crashed

  // How an attempt came to cancel the run: a request was there before the run was started, or
  // after the runner had ended.
  datatype CancelBranch = BeforeStart | AfterRunner(result: RunResult)

  datatype Monitor = NotStarted | Watching | SawRequest | Stopped

  // The rest is history: the length of the log at the attempt's last look for a request that
  // succeeded, whether its last look failed, whether its last write was rolled back, and whether it
  // returned because it could not read the run.
  datatype Attempt = Attempt(pc: Pc, monitor: Monitor, flag: bool, checkedAt: nat, missed: bool, lost: bool, blind: bool)

  const NEW_ATTEMPT := Attempt(Entered, NotStarted, false, 0, false, false, false)

  datatype Actor = ByAttempt(a: nat) | ByHandler(h: nat) | BySubmitter

  // Who uploaded a report, and on which branch: before canceling or before completing the run.
  datatype UploadBranch = ToCancel(branch: CancelBranch) | ToComplete(rep: Report)

  datatype Upload = Upload(uploader: nat, branch: UploadBranch)

  // finisher, closing, upload and sights are history: who moved the run to its terminal status and
  // with which operation, where the uploaded report comes from, and what each handler met.
  datatype World = World(
    cell: Cell, blob: Option<Report>, attempts: map<nat, Attempt>, handlers: map<nat, HandlerPc>,
    submitting: bool, finisher: Option<Actor>, closing: Option<Op>, upload: Option<Upload>,
    sights: map<nat, seq<Sight>>)

  datatype Action =
    | Deliver(a: nat)
    | Step(a: nat, outcome: Outcome)
    | Emit(a: nat, body: Body)
    | Finish(a: nat, result: RunResult)
    | Put(a: nat, ok: bool)
    | Watch(a: nat, outcome: Outcome)
    | StopMonitor(a: nat)
    | Crash(a: nat)
    | WorkerNote(body: Body)
    | Ask(h: nat)
    | Serve(h: nat, outcome: Outcome)
    | Enqueued
    | EnqueueFailed(message: string, outcome: Outcome)

  // ----- steps ---------------------------------------------------------------

  // The executor leaves an empty message out of the report.
  function BrokenReport(message: string): Report {
    CanceledReport("").(failures := if message == "" then [] else [Note(message)])
  }

  function AppendIfMissing(values: seq<Failure>, value: Failure): seq<Failure> {
    if value in values then values else values + [value]
  }

  method AppendIfMissingLoop(values: seq<Failure>, value: Failure) returns (r: seq<Failure>)
    ensures r == AppendIfMissing(values, value)
    ensures values <= r && value in r && (r == values <==> value in values) && |r| <= |values| + 1
  {
    for i := 0 to |values|
      invariant value !in values[..i]
    {
      if values[i] == value {
        return values;
      }
    }
    assert values[..|values|] == values;
    return values + [value];
  }

  // Lines 71 to 74: the report handed to CancelRun once a request was seen.
  function LateCancelReport(result: RunResult): Report {
    var rep := match result
               case Produced(rep) => rep
               case Broke(message) => BrokenReport(message);
    rep.(failures := AppendIfMissing(rep.failures, Note("run canceled by user")))
  }

  // The report that a canceling attempt uploads and hands to CancelRun.
  function CancelReport(branch: CancelBranch): Report {
    match branch
    case BeforeStart => OVERRIDE
    case AfterRunner(result) => LateCancelReport(result)
  }

  predicate Live(x: Attempt) {
    x.pc != Returned && x.pc != Crashed
  }

  // A live attempt that has looked for a request for the last time and has not found one.
  predicate PastCheck(x: Attempt) {
    x.pc.Failing? || x.pc.Uploading? || x.pc.Completing?
  }

  function StatusOf(w: World): Status {
    StatusIn(w.cell)
  }

  // The store operation an attempt performs at a program point.
  function AttemptOp(pc: Pc): Option<Op> {
    match pc
    case Starting => Some(MarkStarted)
    case Canceling(rep) => Some(Cancel(rep))
    case Failing(message) => Some(Fail(message))
    case Completing(rep) => Some(Complete(rep))
    case _ => None
  }

  // Where it goes from there, given the cell it finds and how its read or write ends. It never
  // learns how a write ended.
  ghost function AttemptStep(c: Cell, x: Attempt, outcome: Outcome): Attempt {
    match x.pc
    case Entered =>
      if ReadFails(outcome) then x.(pc := Returned, blind := true)
      else x.(pc := if IsTerminal(StatusIn(c)) then Returned else Checking(StatusIn(c)))
    case Checking(seen) =>
      Looked(c, x, outcome).(
        pc := if SeesRequest(c, outcome) then UploadingCanceled(BeforeStart)
              else if seen == Queued then Starting else Confirming)
    case Starting => x.(pc := Confirming, lost := outcome == RolledBack)
    case Confirming =>
      if ReadFails(outcome) then x.(pc := Returned, blind := true)
      else if StatusIn(c) != Running then x.(pc := Returned)
      else x.(pc := InRunner, monitor := Watching)
    case LoadingFlag(result) =>
      x.(pc := if x.flag then UploadingCanceled(AfterRunner(result)) else Rechecking(result))
    case Rechecking(result) =>
      Looked(c, x, outcome).(
        pc := if SeesRequest(c, outcome) then UploadingCanceled(AfterRunner(result))
              else match result
                case Produced(rep) => Uploading(rep)
                case Broke(message) => Failing(message))
    case Canceling(rep) => x.(pc := Returned, lost := outcome == RolledBack)
    case Failing(message) => x.(pc := Returned, lost := outcome == RolledBack)
    case Completing(rep) => x.(pc := Returned, lost := outcome == RolledBack)
    case _ => x
  }

  // IsRunCancelRequested: a request that cannot be looked for is not there.
  ghost predicate SeesRequest(c: Cell, outcome: Outcome) {
    !ReadFails(outcome) && HasRequest(c.events)
  }

  function Looked(c: Cell, x: Attempt, outcome: Outcome): Attempt {
    if ReadFails(outcome) then x.(missed := true) else x.(missed := false, checkedAt := |c.events|)
  }

  predicate Steps(pc: Pc) {
    !pc.Returned? && !pc.Crashed? && !pc.InRunner? && !pc.Uploading? && !pc.UploadingCanceled?
  }

  predicate AttemptEnabled(x: Attempt, act: Action) {
    match act
    case Step(_, _) => Steps(x.pc)
    case Emit(_, body) => x.pc.InRunner? && !IsStoreKind(body.kind)
    case Finish(_, result) => x.pc.InRunner? && (result.Produced? ==> result.rep.status != ReportCanceled)
    case Put(_, ok) => x.pc.Uploading? || x.pc.UploadingCanceled?
    case Watch(_, _) => x.monitor == Watching || x.monitor == SawRequest
    case StopMonitor(_) => x.monitor == Watching
    case Crash(_) => Live(x)
    case _ => false
  }

  ghost function AttemptAfter(c: Cell, x: Attempt, act: Action): Attempt {
    match act
    case Step(_, outcome) => AttemptStep(c, x, outcome)
    case Finish(_, result) => x.(pc := LoadingFlag(result))
    case Put(_, ok) =>
      if x.pc.Uploading? then x.(pc := Completing(x.pc.rep))
      else if x.pc.UploadingCanceled? then x.(pc := Canceling(CancelReport(x.pc.branch)))
      else x
    case Watch(_, outcome) =>
      if x.monitor == SawRequest then x.(flag := true, monitor := Stopped)
      else if SeesRequest(c, outcome) then x.(monitor := SawRequest)
      else x
    case StopMonitor(_) => x.(monitor := Stopped)
    case Crash(_) => x.(pc := Crashed, monitor := Stopped)
    case _ => x
  }

  // The attempt an action belongs to.
  function Owner(act: Action): Option<nat> {
    match act
    case Step(a, _) => Some(a)
    case Emit(a, _) => Some(a)
    case Finish(a, _) => Some(a)
    case Put(a, _) => Some(a)
    case Watch(a, _) => Some(a)
    case StopMonitor(a) => Some(a)
    case Crash(a) => Some(a)
    case _ => None
  }

  predicate Enabled(w: World, act: Action) {
    if Owner(act).Some? then Owner(act).value in w.attempts && AttemptEnabled(w.attempts[Owner(act).value], act)
    else match act
      case Deliver(a) => a !in w.attempts
      case WorkerNote(body) => !IsStoreKind(body.kind)
      case Ask(h) => h !in w.handlers
      case Serve(h, _) => h in w.handlers
      case _ => w.submitting
  }

  // The write an action attempts, and how that ends.
  function WriteOf(w: World, act: Action): Option<Op> {
    match act
    case Step(a, _) => if a in w.attempts then AttemptOp(w.attempts[a].pc) else None
    case Emit(a, body) => Some(Append(body))
    case WorkerNote(body) => Some(Append(body))
    case Serve(h, _) => if h in w.handlers then HandlerOp(w.handlers[h]) else None
    case EnqueueFailed(message, _) => Some(Fail(message))
    case _ => None
  }

  // An append that fails is no action at all.
  function OutcomeOf(act: Action): Outcome {
    match act
    case Step(_, outcome) => outcome
    case Serve(_, outcome) => outcome
    case EnqueueFailed(_, outcome) => outcome
    case _ => Committed
  }

  // The operation that takes effect.
  function OpOf(w: World, act: Action): Option<Op> {
    Effect(WriteOf(w, act), OutcomeOf(act))
  }

  function Who(act: Action): Actor {
    match act
    case Step(a, _) => ByAttempt(a)
    case Serve(h, _) => ByHandler(h)
    case _ => BySubmitter
  }

  ghost function AttemptsAfter(w: World, act: Action): map<nat, Attempt> {
    match act
    case Deliver(a) => w.attempts[a := NEW_ATTEMPT]
    case _ =>
      var a := Owner(act);
      if a.Some? && a.value in w.attempts
      then w.attempts[a.value := AttemptAfter(w.cell, w.attempts[a.value], act)] else w.attempts
  }

  function HandlersAfter(w: World, act: Action): map<nat, HandlerPc> {
    match act
    case Ask(h) => w.handlers[h := Looking]
    case Serve(h, outcome) =>
      if h in w.handlers then w.handlers[h := HandlerNext(w.cell, outcome, false, w.handlers[h])] else w.handlers
    case _ => w.handlers
  }

  function SightsAfter(w: World, act: Action): map<nat, seq<Sight>> {
    match act
    case Ask(h) => w.sights[h := []]
    case Serve(h, outcome) =>
      if h in w.handlers && h in w.sights
      then w.sights[h := Saw(w.cell, outcome, false, w.handlers[h], w.sights[h])] else w.sights
    case _ => w.sights
  }

  // The report of a successful upload, and where it comes from.
  function UploadOf(w: World, act: Action): Option<(Report, Upload)> {
    match act
    case Put(a, true) =>
      if a !in w.attempts then None
      else (match w.attempts[a].pc
            case Uploading(rep) => Some((rep, Upload(a, ToComplete(rep))))
            case UploadingCanceled(branch) => Some((CancelReport(branch), Upload(a, ToCancel(branch))))
            case _ => None)
    case _ => None
  }

  // One atomic step: its store operation, if any, and where its actor goes next.
  ghost function Next(w: World, act: Action): World {
    var cell, put, closes := After(w.cell, OpOf(w, act)), UploadOf(w, act), Open(w.cell) && !Open(After(w.cell, OpOf(w, act)));
    World(cell,
          if put.Some? then Some(put.value.0) else w.blob,
          AttemptsAfter(w, act), HandlersAfter(w, act),
          w.submitting && !act.Enqueued? && !act.EnqueueFailed?,
          if closes then Some(Who(act)) else w.finisher,
          if closes then OpOf(w, act) else w.closing,
          if put.Some? then Some(put.value.1) else w.upload,
          SightsAfter(w, act))
  }

  // A run has just been created and its task is about to be queued.
  function Init(versionID: string, versionNumber: nat): World {
    World(Created("", "", versionID, versionNumber), None, map[], map[], true, None, None, None, map[])
  }

  ghost predicate Allowed(w: World, acts: seq<Action>)
    decreases |acts|
  {
    |acts| == 0 || (Enabled(w, acts[0]) && Allowed(Next(w, acts[0]), acts[1..]))
  }

  ghost function Exec(w: World, acts: seq<Action>): World
    decreases |acts|
  {
    if |acts| == 0 then w else Exec(Next(w, acts[0]), acts[1..])
  }

  // ----- the invariant -------------------------------------------------------

  predicate BeforeRunner(pc: Pc) {
    pc.Entered? || pc.Checking? || pc.Starting? || pc.Confirming?
  }

  ghost predicate AttemptOk(c: Cell, x: Attempt) {
    && x.checkedAt <= |c.events|
    && (Live(x) ==> !x.blind)
    && (BeforeRunner(x.pc) ==> x.monitor == NotStarted && !x.flag)
    && (Live(x) && !x.pc.UploadingCanceled? && !x.pc.Canceling? ==> !HasRequest(c.events[..x.checkedAt]))
    && (x.flag || x.monitor == SawRequest ==> HasRequest(c.events))
    && match x.pc
       case Checking(seen) => !IsTerminal(seen) && Rank(seen) <= Rank(StatusIn(c))
       case Confirming => StatusIn(c) == Queued ==> x.lost
       case LoadingFlag(result) => result.Produced? ==> result.rep.status != ReportCanceled
       case Rechecking(result) => result.Produced? ==> result.rep.status != ReportCanceled
       case UploadingCanceled(branch) =>
         HasRequest(c.events) &&
         (branch.AfterRunner? && branch.result.Produced? ==> branch.result.rep.status != ReportCanceled)
       case Canceling(rep) => HasRequest(c.events)
       case Uploading(rep) => rep.status != ReportCanceled
       case Completing(rep) => rep.status != ReportCanceled
       case Returned => IsTerminal(StatusIn(c)) || x.lost || x.blind
       case _ => true
  }

  predicate BelievesRequested(x: HandlerPc) {
    x.Consulting? || x.Overriding? || x == Answered(Accepted)
  }

  ghost predicate FinisherOk(c: Cell, attempts: map<nat, Attempt>, finisher: Option<Actor>) {
    && (finisher == None <==> Open(c))
    && match finisher
       case None => true
       case Some(ByAttempt(a)) =>
         && a in attempts && !Live(attempts[a]) && !attempts[a].lost && !attempts[a].blind && attempts[a].checkedAt <= |c.events|
         && (if StatusIn(c) == Canceled then HasRequest(c.events)
             else !HasRequest(c.events[..attempts[a].checkedAt]))
       case Some(ByHandler(h)) => StatusIn(c) == Canceled && HasRequest(c.events)
       case Some(BySubmitter) => StatusIn(c) == Errored
  }

  ghost predicate WorldInv(w: World) {
    && w.cell.run.Some? && Inv(w.cell)
    && (forall a | a in w.attempts :: AttemptOk(w.cell, w.attempts[a]))
    && (forall h | h in w.handlers :: BelievesRequested(w.handlers[h]) ==> HasRequest(w.cell.events))
    && FinisherOk(w.cell, w.attempts, w.finisher)
  }

  lemma HonestOp(w: World, act: Action)
    requires Enabled(w, act)
    ensures OpOf(w, act).Some? ==> Honest(OpOf(w, act).value)
  {
  }

  lemma CellStep(c: Cell, op: Option<Op>)
    requires op.Some? ==> Honest(op.value)
    ensures Evolves(c, After(c, op))
    ensures Inv(c) ==> Inv(After(c, op))
    ensures HasRequest(c.events) ==> HasRequest(After(c, op).events)
    ensures Open(c) && !Open(After(c, op)) ==> op.Some? && Finishes(op.value)
  {
    if op.Some? {
      hide Apply, HasRequest, Inv;
      ApplyEvolves(c, op.value);
      if Inv(c) {
        ApplyInv(c, op.value);
      }
      ApplyRequest(c, op.value);
    }
  }

  // What an attempt knows about the cell stays true while the cell evolves.
  lemma AttemptOkStable(c: Cell, d: Cell, x: Attempt)
    requires c.run.Some? && Evolves(c, d) && AttemptOk(c, x)
    requires HasRequest(c.events) ==> HasRequest(d.events)
    ensures AttemptOk(d, x)
  {
    hide HasRequest;
    assert d.events[..x.checkedAt] == c.events[..x.checkedAt];
  }

  // What the store operations leave of the status of an existing run.
  lemma OperationStatus(c: Cell, op: Op)
    requires c.run.Some? && (op == MarkStarted || Finishes(op))
    ensures Apply(c, op).run.Some? && StatusIn(Apply(c, op)) != Queued
    ensures Finishes(op) ==> IsTerminal(StatusIn(Apply(c, op)))
  {
  }

  // After its own step an attempt knows what its new program point claims.
  lemma AttemptStepOk(c: Cell, x: Attempt, outcome: Outcome)
    requires c.run.Some? && AttemptOk(c, x) && Steps(x.pc)
    ensures AttemptOk(After(c, Effect(AttemptOp(x.pc), outcome)), AttemptStep(c, x, outcome))
  {
    hide HasRequest, Inv, Apply, LateCancelReport, Evolves;
    var op := Effect(AttemptOp(x.pc), outcome);
    CellStep(c, op);
    AttemptOkStable(c, After(c, op), x);
    if op.Some? {
      OperationStatus(c, op.value);
    }
    assert c.events[..|c.events|] == c.events;
  }

  // The report of a late cancel keeps the verdict of the runner and all it reported, or the error it
  // ended with, and names the cancellation, once more only if it was not named.
  lemma LateCancelReportStatus(result: RunResult)
    ensures var rep, note := LateCancelReport(result), Note("run canceled by user");
            && rep.status == (if result.Produced? then result.rep.status else ReportCanceled)
            && note in rep.failures
            && (result.Produced? ==>
                  && rep == result.rep.(failures := rep.failures)
                  && (rep.failures == result.rep.failures || (note !in result.rep.failures && rep.failures == result.rep.failures + [note])))
            && (result.Broke? && result.message != "" ==> rep.failures[0] == Note(result.message))
            && (result.Broke? ==> |rep.failures| == if result.message == "" || Note(result.message) == note then 1 else 2)
  {
  }

  lemma AttemptAfterOk(c: Cell, x: Attempt, act: Action)
    requires c.run.Some? && AttemptOk(c, x) && AttemptEnabled(x, act)
    ensures var op := if act.Step? then Effect(AttemptOp(x.pc), act.outcome) else if act.Emit? then Some(Append(act.body)) else None;
            AttemptOk(After(c, op), AttemptAfter(c, x, act))
  {
    if act.Step? {
      AttemptStepOk(c, x, act.outcome);
    } else {
      if act.Emit? {
        CellStep(c, Some(Append(act.body)));
        AttemptOkStable(c, After(c, Some(Append(act.body))), x);
      }
      hide HasRequest, AttemptStep;
    }
  }

  lemma NothingSeenYet(log: seq<Event>)
    ensures !HasRequest(log[..0])
  {
  }

  lemma AttemptsOk(w: World, act: Action)
    requires WorldInv(w) && Enabled(w, act)
    ensures var w' := Next(w, act); forall a | a in w'.attempts :: AttemptOk(w'.cell, w'.attempts[a])
  {
    hide Inv, FinisherOk, HasRequest, Apply, After, AttemptAfter, AttemptEnabled, UploadOf, HandlersAfter;
    HonestOp(w, act);
    var op := OpOf(w, act);
    CellStep(w.cell, op);
    var w' := Next(w, act);
    NothingSeenYet(w'.cell.events);
    forall a | a in w'.attempts
      ensures AttemptOk(w'.cell, w'.attempts[a])
    {
      if Owner(act) == Some(a) {
        AttemptAfterOk(w.cell, w.attempts[a], act);
      } else if a in w.attempts {
        AttemptOkStable(w.cell, w'.cell, w.attempts[a]);
      }
    }
  }

  lemma HandlersOk(w: World, act: Action)
    requires WorldInv(w) && Enabled(w, act)
    ensures var w' := Next(w, act);
            forall h | h in w'.handlers :: BelievesRequested(w'.handlers[h]) ==> HasRequest(w'.cell.events)
  {
    hide Inv, FinisherOk, HasRequest, Apply, AttemptOk, AttemptEnabled, AttemptsAfter, UploadOf, Evolves;
    HonestOp(w, act);
    var op := OpOf(w, act);
    CellStep(w.cell, op);
    if op.Some? {
      ApplyRequest(w.cell, op.value);
    }
  }

  // A returned or crashed attempt no longer changes, except for its monitor.
  lemma DeadStays(w: World, act: Action, a: nat)
    requires Enabled(w, act) && a in w.attempts && !Live(w.attempts[a])
    ensures var attempts := Next(w, act).attempts;
            && a in attempts && !Live(attempts[a])
            && attempts[a] == w.attempts[a].(monitor := attempts[a].monitor, flag := attempts[a].flag)
  {
    hide HasRequest, AttemptStep;
  }

  lemma FinisherKept(w: World, act: Action)
    requires WorldInv(w) && Enabled(w, act) && (Open(w.cell) <==> Open(Next(w, act).cell))
    ensures var w' := Next(w, act); FinisherOk(w'.cell, w'.attempts, w'.finisher)
  {
    hide Inv, HasRequest, AttemptOk, After, AttemptsAfter, Enabled, OpOf, UploadOf, HandlersAfter;
    HonestOp(w, act);
    CellStep(w.cell, OpOf(w, act));
    if w.finisher.Some? && w.finisher.value.ByAttempt? {
      DeadStays(w, act, w.finisher.value.a);
    }
    var w' := Next(w, act);
    if w.finisher.Some? && w.finisher.value.ByAttempt? {
      var k := w.attempts[w.finisher.value.a].checkedAt;
      assert w'.cell.events[..k] == w.cell.events[..k];
    }
  }

  lemma FinishingStatus(c: Cell, op: Op)
    requires Open(c) && Finishes(op)
    ensures StatusIn(Apply(c, op)) == Canceled <==> op.Cancel?
    ensures op.Fail? ==> StatusIn(Apply(c, op)) == Errored
  {
  }

  // What a finishing attempt last saw.
  lemma FinishingAttempt(c: Cell, x: Attempt, outcome: Outcome)
    requires AttemptOk(c, x) && Steps(x.pc)
    requires AttemptOp(x.pc).Some? && Finishes(AttemptOp(x.pc).value)
    ensures AttemptStep(c, x, outcome) == x.(pc := Returned, lost := outcome == RolledBack)
    ensures x.checkedAt <= |c.events| && !x.blind
    ensures if AttemptOp(x.pc).value.Cancel? then HasRequest(c.events) else !HasRequest(c.events[..x.checkedAt])
  {
  }

  // An open run is closed only by an operation that names its finisher.
  lemma FinisherNamed(w: World, act: Action)
    requires WorldInv(w) && Enabled(w, act) && Open(w.cell) && !Open(Next(w, act).cell)
    ensures var w' := Next(w, act); FinisherOk(w'.cell, w'.attempts, w'.finisher)
  {
    hide Inv, HasRequest, Apply, AttemptStep, UploadOf, HandlersAfter, HandlerNext;
    HonestOp(w, act);
    var op := OpOf(w, act);
    CellStep(w.cell, op);
    FinishingStatus(w.cell, op.value);
    if act.Step? {
      hide FinisherOk;
      FinisherNamedByStep(w, act.a, act.outcome);
    } else {
      hide AttemptOk;
    }
  }

  lemma FinisherNamedByStep(w: World, a: nat, outcome: Outcome)
    requires WorldInv(w) && Enabled(w, Step(a, outcome)) && Open(w.cell) && !Open(Next(w, Step(a, outcome)).cell)
    ensures var w' := Next(w, Step(a, outcome)); FinisherOk(w'.cell, w'.attempts, w'.finisher)
  {
    hide Inv, HasRequest, Apply, AttemptStep, AttemptOk, UploadOf, HandlersAfter;
    var x := w.attempts[a];
    var op := Effect(AttemptOp(x.pc), outcome);
    CellStep(w.cell, op);
    FinishingStatus(w.cell, op.value);
    FinishingAttempt(w.cell, x, outcome);
    var w' := Next(w, Step(a, outcome));
    assert w'.attempts[a] == x.(pc := Returned, lost := false);
    assert w'.cell.events[..x.checkedAt] == w.cell.events[..x.checkedAt];
  }

  lemma NextInv(w: World, act: Action)
    requires WorldInv(w) && Enabled(w, act)
    ensures WorldInv(Next(w, act))
  {
    hide HasRequest, Inv, FinisherOk, AttemptOk, Enabled, Apply, AttemptsAfter, HandlersAfter, UploadOf, OpOf;
    HonestOp(w, act);
    CellStep(w.cell, OpOf(w, act));
    AttemptsOk(w, act);
    HandlersOk(w, act);
    if Open(w.cell) && !Open(Next(w, act).cell) {
      FinisherNamed(w, act);
    } else {
      FinisherKept(w, act);
    }
  }

  lemma InitInv(versionID: string, versionNumber: nat)
    ensures WorldInv(Init(versionID, versionNumber))
  {
    CreatedInv("", "", versionID, versionNumber);
  }

  lemma {:induction false} ExecInv(w: World, acts: seq<Action>)
    requires WorldInv(w) && Allowed(w, acts)
    ensures WorldInv(Exec(w, acts))
    decreases |acts|
  {
    hide WorldInv, Next, Enabled;
    if |acts| > 0 {
      NextInv(w, acts[0]);
      ExecInv(Next(w, acts[0]), acts[1..]);
    }
  }

  // ----- what holds over every interleaving ----------------------------------

  // An Execute that finishes a run as passed, failed or errored found no cancel request in
  // the log at the last look that succeeded; one that cancels it did find one.
  lemma FinisherSawNoRequest(versionID: string, versionNumber: nat, acts: seq<Action>, a: nat)
    requires Allowed(Init(versionID, versionNumber), acts)
    requires Exec(Init(versionID, versionNumber), acts).finisher == Some(ByAttempt(a))
    ensures var w := Exec(Init(versionID, versionNumber), acts);
            && a in w.attempts && w.attempts[a].checkedAt <= |w.cell.events|
            && IsTerminal(StatusOf(w))
            && (StatusOf(w) == Canceled ==> HasRequest(w.cell.events))
            && (StatusOf(w) != Canceled ==> !HasRequest(w.cell.events[..w.attempts[a].checkedAt]))
  {
    InitInv(versionID, versionNumber);
    ExecInv(Init(versionID, versionNumber), acts);
  }

  // ----- what becomes of a run whose reads and writes can fail ---------------

  // An Execute that returns has left the run terminal exactly when its last write, the start
  // or the finish of the run, was not rolled back and it did not return for want of a read,
  // unless somebody else finished the run.
  lemma ReturnedMeansTerminalIff(versionID: string, versionNumber: nat, acts: seq<Action>, a: nat)
    requires Allowed(Init(versionID, versionNumber), acts)
    requires var w := Exec(Init(versionID, versionNumber), acts); a in w.attempts && w.attempts[a].pc == Returned
    ensures var w := Exec(Init(versionID, versionNumber), acts);
            var x := w.attempts[a];
            && (!x.lost && !x.blind ==> IsTerminal(StatusOf(w)))
            && (w.finisher.None? || w.finisher == Some(ByAttempt(a)) ==> (IsTerminal(StatusOf(w)) <==> !x.lost && !x.blind))
  {
    hide Allowed, Exec, Inv, HasRequest;
    InitInv(versionID, versionNumber);
    ExecInv(Init(versionID, versionNumber), acts);
    var w := Exec(Init(versionID, versionNumber), acts);
    assert AttemptOk(w.cell, w.attempts[a]);
  }

  predicate ReadsRun(pc: Pc) {
    pc.Entered? || pc.Confirming?
  }

  // Exactly when the step by which an Execute returns leaves the run open: the run was open, and
  // this read of the run fails or finds the run still queued, or this write is rolled back.
  lemma ReturnLeavesOpenIff(w: World, a: nat, outcome: Outcome)
    requires WorldInv(w) && Enabled(w, Step(a, outcome)) && Next(w, Step(a, outcome)).attempts[a].pc == Returned
    ensures Open(Next(w, Step(a, outcome)).cell) <==>
            Open(w.cell) &&
            (if ReadsRun(w.attempts[a].pc)
             then ReadFails(outcome) || (w.attempts[a].pc.Confirming? && StatusOf(w) == Queued)
             else outcome == RolledBack)
  {
    hide HasRequest, Inv, FinisherOk;
    assert AttemptOk(w.cell, w.attempts[a]);
    if Open(w.cell) && w.attempts[a].pc == Confirming && outcome == Committed {
      assert StatusOf(w) != Running;
    }
  }

  // No finishing write of the schedule takes effect.
  ghost predicate NoneWritten(w: World, acts: seq<Action>)
    decreases |acts|
  {
    |acts| == 0 ||
    ((OpOf(w, acts[0]).Some? ==> !Finishes(OpOf(w, acts[0]).value)) && NoneWritten(Next(w, acts[0]), acts[1..]))
  }

  // An open run becomes terminal exactly when some finishing write is not rolled back.
  lemma {:induction false} TerminalIffWritten(w: World, acts: seq<Action>)
    requires WorldInv(w) && Allowed(w, acts) && Open(w.cell)
    ensures IsTerminal(StatusOf(Exec(w, acts))) <==> !NoneWritten(w, acts)
    decreases |acts|
  {
    hide WorldInv, Enabled, OpOf, Finishes;
    if |acts| > 0 {
      StepOpens(w, acts[0]);
      NextInv(w, acts[0]);
      var w' := Next(w, acts[0]);
      if Open(w'.cell) {
        hide Next;
        TerminalIffWritten(w', acts[1..]);
      } else {
        StaysClosed(w', acts[1..]);
      }
    }
  }

  lemma StepOpens(w: World, act: Action)
    requires WorldInv(w) && Enabled(w, act) && Open(w.cell)
    ensures Open(Next(w, act).cell) <==> (OpOf(w, act).Some? ==> !Finishes(OpOf(w, act).value))
    ensures Next(w, act).cell.run.Some?
  {
    hide Inv, HasRequest, AttemptOk, FinisherOk, Apply, Enabled, AttemptsAfter, HandlersAfter, OpOf, Finishes;
    HonestOp(w, act);
    CellStep(w.cell, OpOf(w, act));
    if OpOf(w, act).Some? {
      ApplyRequest(w.cell, OpOf(w, act).value);
    }
  }

  lemma {:induction false} StaysClosed(w: World, acts: seq<Action>)
    requires w.cell.run.Some? && !Open(w.cell) && Allowed(w, acts)
    ensures Exec(w, acts).cell.run == w.cell.run
    decreases |acts|
  {
    if |acts| > 0 {
      HonestOp(w, acts[0]);
      CellStep(w.cell, OpOf(w, acts[0]));
      hide Enabled, OpOf, Apply, AttemptsAfter, HandlersAfter, Inv, HasRequest;
      StaysClosed(Next(w, acts[0]), acts[1..]);
    }
  }

  lemma TwoSteps(w: World, first: Action, second: Action)
    requires Enabled(w, first) && Enabled(Next(w, first), second)
    ensures Allowed(w, [first, second]) && Exec(w, [first, second]) == Next(Next(w, first), second)
  {
    hide Next, Enabled;
    var acts := [first, second];
    assert acts[1..] == [second];
    OneStep(Next(w, first), second);
  }

  lemma OneStep(w: World, act: Action)
    requires Enabled(w, act)
    ensures Allowed(w, [act]) && Exec(w, [act]) == Next(w, act)
  {
    hide Next, Enabled;
    assert [act][1..] == [];
    assert Allowed(Next(w, act), []);
  }
}
