// The report an attempt uploads against the one the store keeps: the upload comes before the
// store's transition, and only the store's copy is changed by it.
module WorkerReports {
  import opened Prelude
  import opened RunEvents
  import opened Reports
  import opened RunLifecycle
  import opened WorkerProtocol

  // What the operation that closed a run left as its report.
  predicate ClosingOk(c: Cell, closing: Option<Op>) {
    && c.run.Some?
    && (closing.None? <==> Open(c))
    && match closing
       case Some(Complete(rep)) =>
         StatusIn(c) != Canceled && rep.status != ReportCanceled &&
         c.run.value.report.Some? && c.run.value.report.value.status == rep.status
       case Some(Cancel(_)) =>
         StatusIn(c) == Canceled && c.run.value.report.Some? && c.run.value.report.value.status == ReportCanceled
       case Some(op) => op.Fail? && c.run.value.report.None?
       case None => true
  }

  function BranchReport(branch: UploadBranch): Report {
    match branch
    case ToCancel(how) => CancelReport(how)
    case ToComplete(rep) => rep
  }

  // The report of the uploader's runner, if the runner had produced one.
  function RunnerReport(branch: UploadBranch): Option<Report> {
    match branch
    case ToCancel(AfterRunner(Produced(rep))) => Some(rep)
    case ToComplete(rep) => Some(rep)
    case _ => None
  }

  // The last uploader is past its upload, and a run that it completed has the uploaded report.
  predicate UploadOk(w: World) {
    && (w.blob.Some? <==> w.upload.Some?)
    && (w.upload.Some? ==>
          var Upload(uploader, branch), blob := w.upload.value, w.blob.value;
          && uploader in w.attempts
          && blob == BranchReport(branch)
          && (RunnerReport(branch).Some? ==> RunnerReport(branch).value.status != ReportCanceled)
          && (match w.attempts[uploader].pc
              case Completing(rep) => branch == ToComplete(rep)
              case Canceling(_) => true
              case Returned => true
              case Crashed => true
              case _ => false)
          && (w.finisher == Some(ByAttempt(uploader)) && w.closing.Some? && w.closing.value.Complete? ==>
                branch == ToComplete(w.closing.value.rep)))
  }

  ghost predicate HistoryInv(w: World) {
    ClosingOk(w.cell, w.closing) && UploadOk(w)
  }

  lemma ClosingByOp(c: Cell, closing: Option<Op>, op: Option<Op>)
    requires Inv(c) && ClosingOk(c, closing) && (op.Some? ==> Honest(op.value))
    requires op.Some? && op.value.Complete? ==> op.value.rep.status != ReportCanceled
    ensures var d := After(c, op); ClosingOk(d, if Open(c) && !Open(d) then op else closing)
  {
    hide HasRequest, LogOk;
  }

  // Only reports of a runner are completed with.
  lemma CompletesCleanly(w: World, act: Action)
    requires WorldInv(w) && Enabled(w, act) && OpOf(w, act).Some? && OpOf(w, act).value.Complete?
    ensures OpOf(w, act).value.rep.status != ReportCanceled
  {
    hide Inv, HasRequest, FinisherOk;
    assert act.Step? && AttemptOk(w.cell, w.attempts[act.a]);
  }

  lemma ClosingKept(w: World, act: Action)
    requires WorldInv(w) && Enabled(w, act) && ClosingOk(w.cell, w.closing)
    ensures ClosingOk(Next(w, act).cell, Next(w, act).closing)
  {
    HonestOp(w, act);
    if OpOf(w, act).Some? && OpOf(w, act).value.Complete? {
      CompletesCleanly(w, act);
    }
    hide ClosingOk, Inv, HasRequest, After, AttemptOk, FinisherOk, Enabled, OpOf, AttemptsAfter, HandlersAfter, UploadOf;
    ClosingByOp(w.cell, w.closing, OpOf(w, act));
  }

  // An upload that succeeds is the last one from then on.
  lemma PutKept(w: World, a: nat, ok: bool)
    requires WorldInv(w) && UploadOk(w) && Enabled(w, Put(a, ok))
    ensures UploadOk(Next(w, Put(a, ok)))
  {
    hide Inv, HasRequest, HandlersAfter;
    assert AttemptOk(w.cell, w.attempts[a]);
  }

  lemma StepKept(w: World, a: nat, outcome: Outcome)
    requires WorldInv(w) && UploadOk(w) && Enabled(w, Step(a, outcome))
    ensures UploadOk(Next(w, Step(a, outcome)))
  {
    hide Inv, HasRequest, HandlersAfter, Apply, LateCancelReport, FinisherOk, AttemptOk;
  }

  lemma OtherKept(w: World, act: Action)
    requires WorldInv(w) && UploadOk(w) && Enabled(w, act) && !act.Put? && !act.Step?
    ensures UploadOk(Next(w, act))
  {
    hide Inv, HasRequest, HandlersAfter, Apply, AttemptStep, FinisherOk, AttemptOk;
  }

  lemma HistoryKept(w: World, act: Action)
    requires WorldInv(w) && HistoryInv(w) && Enabled(w, act)
    ensures HistoryInv(Next(w, act))
  {
    ClosingKept(w, act);
    hide WorldInv, UploadOk, ClosingOk, Next, Enabled;
    match act
    case Put(a, ok) => PutKept(w, a, ok);
    case Step(a, outcome) => StepKept(w, a, outcome);
    case _ => OtherKept(w, act);
  }

  lemma {:induction false} ExecHistory(w: World, acts: seq<Action>)
    requires WorldInv(w) && HistoryInv(w) && Allowed(w, acts)
    ensures HistoryInv(Exec(w, acts))
    decreases |acts|
  {
    hide WorldInv, HistoryInv, Next, Enabled;
    if |acts| > 0 {
      NextInv(w, acts[0]);
      HistoryKept(w, acts[0]);
      ExecHistory(Next(w, acts[0]), acts[1..]);
    }
  }

  // Where the last upload and the finish of the run come from. Canceled: the uploader's runner had
  // produced no report, since the run was not started or the runner ended with an error.
  // Completed: the uploader's runner came to the verdict that the finisher's runner came to.
  predicate SameSource(w: World)
    requires w.upload.Some? && w.closing.Some?
  {
    var produced := RunnerReport(w.upload.value.branch);
    match w.closing.value
    case Cancel(_) => produced.None?
    case Complete(rep) => produced.Some? && produced.value.status == rep.status
    case _ => false
  }

  // In every interleaving: the uploaded report and the stored one have the same status exactly
  // when they have the same source in that sense.
  lemma UploadedAgreesIff(versionID: string, versionNumber: nat, acts: seq<Action>)
    requires Allowed(Init(versionID, versionNumber), acts)
    ensures var w := Exec(Init(versionID, versionNumber), acts);
            w.blob.Some? && w.cell.run.Some? && w.cell.run.value.report.Some? ==>
              && w.upload.Some? && w.closing.Some?
              && (w.blob.value.status == w.cell.run.value.report.value.status <==> SameSource(w))
  {
    hide Allowed, Exec, WorldInv, HistoryInv, Init, SameSource;
    var init := Init(versionID, versionNumber);
    InitInv(versionID, versionNumber);
    InitHistory(versionID, versionNumber);
    ExecInv(init, acts);
    ExecHistory(init, acts);
    AgreesIff(Exec(init, acts));
  }

  lemma InitHistory(versionID: string, versionNumber: nat)
    ensures HistoryInv(Init(versionID, versionNumber))
  {
  }

  lemma AgreesIff(w: World)
    requires WorldInv(w) && HistoryInv(w)
    ensures w.blob.Some? && w.cell.run.Some? && w.cell.run.value.report.Some? ==>
              && w.upload.Some? && w.closing.Some?
              && (w.blob.value.status == w.cell.run.value.report.value.status <==> SameSource(w))
  {
    if w.cell.run.Some? && w.cell.run.value.report.Some? {
      OpenHasNoReport(w);
    }
    if w.upload.Some? {
      BranchStatus(w.upload.value.branch);
    }
    hide WorldInv, BranchReport;
  }

  // The uploaded report has the runner's verdict, or says canceled where there is none.
  lemma BranchStatus(branch: UploadBranch)
    ensures BranchReport(branch).status ==
            if RunnerReport(branch).Some? then RunnerReport(branch).value.status else ReportCanceled
  {
    if branch.ToCancel? && branch.branch.AfterRunner? {
      LateCancelReportStatus(branch.branch.result);
    }
  }

  lemma OpenHasNoReport(w: World)
    requires WorldInv(w) && w.cell.run.Some? && w.cell.run.value.report.Some?
    ensures !Open(w.cell)
  {
  }
}
