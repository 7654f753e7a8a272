/**
 In every run of a session, what is recorded about a role comes from that role: its report, its READY
 and its transport were named in a message for this session, read by the goroutine that serves the role.
 */
module SessionCauses {
  import opened Wrappers
  import opened SessionState
  import opened SessionProtocol

  function ReportOf(s: Session, role: Role): Option<Report> {
    if role == Visitor then s.visitorReport else s.providerReport
  }

  function ReadyOf(s: Session, role: Role): bool {
    if role == Visitor then s.visitorReady else s.providerReady
  }

  /** What is recorded about the roles, and what messages are checked against. */
  predicate SameRecords(s: Session, s': Session) {
    && s'.visitorReport == s.visitorReport && s'.providerReport == s.providerReport
    && s'.visitorReady == s.visitorReady && s'.providerReady == s.providerReady
    && s'.telemetry.visitorUp == s.telemetry.visitorUp && s'.telemetry.providerUp == s.telemetry.providerUp
  }

  // ---------------------------------------------------------------- sections that record nothing

  lemma SectionsKeepRecords(s: Session)
    ensures SameRecords(s, PrepareSummary(s).0) && SameRecords(s, PrepareGo(s).0)
            && SameRecords(s, ArmPostSummaryTimer(s).0)
  {
  }

  lemma EndingKeepsRecords(s: Session, reason: Reason)
    ensures SameRecords(s, FinalizeTransport(s).0) && SameRecords(s, PrepareAbort(s, reason).0)
  {
  }

  lemma RunSummaryKeepsRecords(w: World, i: nat, ok: bool)
    requires i < |w.threads| && InSummary(w.threads[i].pc)
    ensures SameRecords(w.s, Run(w, i, ok).s)
  {
    SectionsKeepRecords(w.s);
  }

  lemma RunGoKeepsRecords(w: World, i: nat, ok: bool)
    requires i < |w.threads| && InGo(w.threads[i].pc) && !w.threads[i].pc.GoFinalize?
    ensures SameRecords(w.s, Run(w, i, ok).s)
  {
    SectionsKeepRecords(w.s);
  }

  lemma RunEndKeepsRecords(w: World, i: nat, ok: bool)
    requires i < |w.threads| && (w.threads[i].pc.GoFinalize? || w.threads[i].pc.AbortNow?)
    ensures SameRecords(w.s, Run(w, i, ok).s)
  {
    EndingKeepsRecords(w.s, if w.threads[i].pc.AbortNow? then w.threads[i].pc.reason else SessionTimeout);
  }

  lemma RunKeepsRecords(w: World, i: nat, ok: bool)
    requires i < |w.threads|
    ensures SameRecords(w.s, Run(w, i, ok).s)
  {
    var pc := w.threads[i].pc;
    if InSummary(pc) {
      RunSummaryKeepsRecords(w, i, ok);
    } else if pc.GoFinalize? || pc.AbortNow? {
      RunEndKeepsRecords(w, i, ok);
    } else if InGo(pc) {
      RunGoKeepsRecords(w, i, ok);
    }
  }

  // ---------------------------------------------------------------- messages

  /** Goroutine `i` serves that role of an open session. */
  predicate From(w: World, i: nat, role: Role) {
    i < |w.threads| && w.threads[i].role == Some(role) && !w.s.closed
  }

  /** A valid report of `role` is read. */
  predicate Reports(w: World, step: Step, role: Role) {
    && step.GetReport? && From(w, step.i, role)
    && step.report.sessionID == w.s.id && step.report.token == w.s.token && step.report.role == Some(role)
  }

  /** A valid READY of `role` is read, and a summary was prepared. */
  predicate GetsReady(w: World, step: Step, role: Role) {
    step.GetReady? && From(w, step.i, role) && step.ready.sessionID == w.s.id && step.ready.role == Some(role)
      && w.s.summarySent
  }

  /** A valid progress message of `role` is read: its transport is established. */
  predicate ComesUp(w: World, step: Step, role: Role) {
    && step.GetProgress? && From(w, step.i, role)
    && step.progress.sessionID == w.s.id && step.progress.role == Some(role)
    && step.progress.stage == TransportEstablished && step.progress.status != Fail
  }

  /** The records about `role` change exactly as the step says. */
  predicate RecordsIff(w: World, s': Session, step: Step, role: Role) {
    && ReportOf(s', role) == (if Reports(w, step, role) then Some(step.report) else ReportOf(w.s, role))
    && ReadyOf(s', role) == (ReadyOf(w.s, role) || GetsReady(w, step, role))
    && RoleUp(s'.telemetry, role) == (RoleUp(w.s.telemetry, role) || ComesUp(w, step, role))
  }

  lemma ReportRecords(w: World, i: nat, report: Report, role: Role)
    requires Serves(w, i)
    ensures RecordsIff(w, RecordReport(w.s, w.threads[i].role.value, report).0, GetReport(i, report), role)
  {
  }

  lemma ReadyRecords(w: World, i: nat, ready: Ready, role: Role)
    requires Serves(w, i)
    ensures RecordsIff(w, RecordReady(w.s, w.threads[i].role.value, ready).0, GetReady(i, ready), role)
  {
  }

  lemma ProgressRecords(w: World, i: nat, progress: Progress, role: Role)
    requires Serves(w, i)
    ensures RecordsIff(w, RecordProgress(w.s, w.threads[i].role.value, progress).0, GetProgress(i, progress), role)
  {
  }

  /**
   A role's report, READY and transport change exactly by a message of that role, read by the goroutine
   that serves it, for this session, while the session is open.
   */
  lemma StepRecordsIff(w: World, w': World, step: Step, role: Role)
    requires NextBy(w, w', step)
    ensures RecordsIff(w, w'.s, step, role)
  {
    match step
    case GetReport(i, report) => ReportRecords(w, i, report, role);
    case GetReady(i, ready) => ReadyRecords(w, i, ready, role);
    case GetProgress(i, progress) => ProgressRecords(w, i, progress, role);
    case Advance(i, ok) => RunKeepsRecords(w, i, ok);
    case _ => OtherStepsRecordNothing(w, w', step);
  }

  lemma OtherStepsRecordNothing(w: World, w': World, step: Step)
    requires NextBy(w, w', step) && !step.GetReport? && !step.GetReady? && !step.GetProgress? && !step.Advance?
    ensures SameRecords(w.s, w'.s)
  {
  }

  // ---------------------------------------------------------------- every run

  /** From one world to the next, `role` came up, got ready, or reported. */
  ghost predicate UpStep(w: World, w': World, role: Role) {
    exists step :: NextBy(w, w', step) && ComesUp(w, step, role)
  }

  ghost predicate ReadyStep(w: World, w': World, role: Role) {
    exists step :: NextBy(w, w', step) && GetsReady(w, step, role)
  }

  ghost predicate ReportStep(w: World, w': World, role: Role, report: Report) {
    exists step :: NextBy(w, w', step) && Reports(w, step, role) && step.report == report
  }

  lemma NextComesUp(w: World, w': World, role: Role)
    requires Next(w, w') && RoleUp(w'.s.telemetry, role)
    ensures RoleUp(w.s.telemetry, role) || UpStep(w, w', role)
  {
    var step :| NextBy(w, w', step);
    StepRecordsIff(w, w', step, role);
  }

  lemma NextGetsReady(w: World, w': World, role: Role)
    requires Next(w, w') && ReadyOf(w'.s, role)
    ensures ReadyOf(w.s, role) || ReadyStep(w, w', role)
  {
    var step :| NextBy(w, w', step);
    StepRecordsIff(w, w', step, role);
  }

  lemma NextReports(w: World, w': World, role: Role, report: Report)
    requires Next(w, w') && ReportOf(w'.s, role) == Some(report)
    ensures ReportOf(w.s, role) == Some(report) || ReportStep(w, w', role, report)
  {
    var step :| NextBy(w, w', step);
    StepRecordsIff(w, w', step, role);
  }

  /** A role whose transport is up said so itself, earlier in the run. */
  lemma {:induction false} UpHasCause(run: seq<World>, k: nat, role: Role) returns (j: nat)
    requires IsRun(run) && k < |run| && RoleUp(run[k].s.telemetry, role)
    ensures j < k && UpStep(run[j], run[j + 1], role)
  {
    assert k > 0 && StepAt(run, k - 1);
    NextComesUp(run[k - 1], run[k], role);
    j := k - 1;
    if RoleUp(run[k - 1].s.telemetry, role) { j := UpHasCause(run, k - 1, role); }
  }

  /** A role that is ready said so itself, earlier in the run and after a summary was prepared. */
  lemma {:induction false} ReadyHasCause(run: seq<World>, k: nat, role: Role) returns (j: nat)
    requires IsRun(run) && k < |run| && ReadyOf(run[k].s, role)
    ensures j < k && ReadyStep(run[j], run[j + 1], role)
  {
    assert k > 0 && StepAt(run, k - 1);
    NextGetsReady(run[k - 1], run[k], role);
    j := k - 1;
    if ReadyOf(run[k - 1].s, role) { j := ReadyHasCause(run, k - 1, role); }
  }

  /** A report that is stored was sent by its own role for this session, earlier in the run. */
  lemma {:induction false} ReportHasCause(run: seq<World>, k: nat, role: Role, report: Report) returns (j: nat)
    requires IsRun(run) && k < |run| && ReportOf(run[k].s, role) == Some(report)
    ensures j < k && ReportStep(run[j], run[j + 1], role, report)
  {
    assert k > 0 && StepAt(run, k - 1);
    NextReports(run[k - 1], run[k], role, report);
    j := k - 1;
    if ReportOf(run[k - 1].s, role) == Some(report) { j := ReportHasCause(run, k - 1, role, report); }
  }

  lemma EstablishedIsUp(run: seq<World>, k: nat, role: Role)
    requires IsRun(run) && k < |run| && run[k].s.telemetry.outcome == Established
    ensures RoleUp(run[k].s.telemetry, role) && ReadyOf(run[k].s, role) && ReportOf(run[k].s, role).Some?
  {
    RunsKeepInv(run, k);
  }

  /** In an established session each role reported, got ready after the summary, and came up, by its own messages. */
  lemma EstablishedHasCauses(run: seq<World>, k: nat, role: Role) returns (up: nat, ready: nat, report: nat)
    requires IsRun(run) && k < |run| && run[k].s.telemetry.outcome == Established
    ensures up < k && UpStep(run[up], run[up + 1], role)
    ensures ready < k && ReadyStep(run[ready], run[ready + 1], role)
    ensures report < k && ReportOf(run[k].s, role).Some?
            && ReportStep(run[report], run[report + 1], role, ReportOf(run[k].s, role).value)
  {
    EstablishedIsUp(run, k, role);
    up := UpHasCause(run, k, role);
    ready := ReadyHasCause(run, k, role);
    report := ReportHasCause(run, k, role, ReportOf(run[k].s, role).value);
  }
}
