/**
 The lock-protected state of one P2P rendezvous session (bridge/p2p_session.go) and, for every
 critical section of the session's mutex, the function that section computes.
 */
module SessionState {
  import opened Wrappers

  datatype Role = Visitor | Provider

  /** The identity of a control connection. */
  type Control = nat

  // Messages read from a control connection. `role` is absent when the text names neither role.
  datatype Report = Report(sessionID: string, token: string, role: Option<Role>, self: string)
  datatype Ready = Ready(sessionID: string, role: Option<Role>)
  datatype Progress = Progress(sessionID: string, role: Option<Role>, stage: Stage, status: Status)
  datatype Abort = Abort(sessionID: string, role: Option<Role>, reason: string)

  datatype Stage = TransportEstablished | OtherStage(name: string)
  datatype Status = Fail | OtherStatus(name: string)

  /** Why a session was aborted; only the text given by a peer can be empty. */
  datatype Reason =
    | SendStartFailed(to: Role)
    | SendSummaryFailed(to: Role)
    | SendGoFailed(to: Role)
    | ReadFailed(from: Role, flag: string)
    | SessionTimeout
    | GivenByPeer(text: string)
  {
    predicate Blank() {
      GivenByPeer? && text == []
    }
  }

  datatype Outcome = Pending | Established | Aborted(reason: Reason)

  datatype Telemetry = Telemetry(visitorUp: bool, providerUp: bool, outcome: Outcome, finalLogged: bool)

  /** `timer` is the session's timer pointer; its value tells whether that timer is armed. */
  datatype Session = Session(
    id: string,
    token: string,
    visitorControl: Option<Control>,
    providerControl: Option<Control>,
    visitorReport: Option<Report>,
    providerReport: Option<Report>,
    visitorReady: bool,
    providerReady: bool,
    summarySent: bool,
    goSent: bool,
    closed: bool,
    timer: Option<bool>,
    telemetry: Telemetry)

  /** What the section that closed the session hands to the code that runs outside the lock. */
  datatype Completion = Completion(
    visitorControl: Option<Control>,
    providerControl: Option<Control>,
    markEstablished: bool,
    markFailed: bool,
    abortReason: Option<Reason>,
    outcome: Outcome,
    emitTelemetry: bool,
    unregister: bool)

  datatype SummaryDispatch = SummaryDispatch(
    visitorControl: Option<Control>,
    providerControl: Option<Control>,
    visitorSelf: string,
    providerSelf: string)

  datatype GoDispatch = GoDispatch(visitorControl: Option<Control>, providerControl: Option<Control>)

  function NewSession(id: string, token: string, visitor: Control): Session {
    Session(id, token, Some(visitor), None, None, None, false, false, false, false, false, Some(true),
            Telemetry(false, false, Pending, false))
  }

  function AttachProvider(s: Session, control: Control): (Session, bool) {
    if s.closed then (s, false)
    else if s.providerControl.Some? && s.providerControl.value != control then (s, false)
    else (s.(providerControl := Some(control)), true)
  }

  function RecordReport(s: Session, role: Role, report: Report): (Session, bool) {
    if s.closed || report.sessionID != s.id || report.token != s.token || report.role != Some(role) then (s, false)
    else
      var s' := match role
        case Visitor => s.(visitorReport := Some(report))
        case Provider => s.(providerReport := Some(report));
      (s', s'.visitorReport.Some? && s'.providerReport.Some?)
  }

  function RecordReady(s: Session, role: Role, ready: Ready): (Session, bool) {
    if s.closed || ready.sessionID != s.id || ready.role != Some(role) || !s.summarySent then (s, false)
    else
      var s' := match role
        case Visitor => s.(visitorReady := true)
        case Provider => s.(providerReady := true);
      (s', s'.visitorReady && s'.providerReady && !s'.goSent)
  }

  function PrepareSummary(s: Session): (Session, Option<SummaryDispatch>) {
    if s.closed || s.summarySent || s.visitorReport.None? || s.providerReport.None? then (s, None)
    else (s.(summarySent := true),
          Some(SummaryDispatch(s.visitorControl, s.providerControl,
                               s.visitorReport.value.self, s.providerReport.value.self)))
  }

  function ArmPostSummaryTimer(s: Session): (Session, bool) {
    if s.closed then (s, false) else (s.(timer := Some(true)), true)
  }

  function PrepareGo(s: Session): (Session, Option<GoDispatch>) {
    if s.closed || !s.summarySent || s.goSent || s.visitorControl.None? || s.providerControl.None? then (s, None)
    else (s.(goSent := true), Some(GoDispatch(s.visitorControl, s.providerControl)))
  }

  /** The telemetry after a progress message of `role`. */
  function NoteProgress(t: Telemetry, role: Role, progress: Progress): Telemetry {
    if progress.stage != TransportEstablished || progress.status == Fail then t
    else match role
      case Visitor => t.(visitorUp := true)
      case Provider => t.(providerUp := true)
  }

  function RoleUp(t: Telemetry, role: Role): bool {
    match role
    case Visitor => t.visitorUp
    case Provider => t.providerUp
  }

  /** Closes the session as established when its telemetry allows that (maybeFinalizeSuccess). */
  function TryEstablish(s: Session): (Session, Option<Completion>) {
    if s.telemetry.finalLogged || !s.telemetry.visitorUp || !s.telemetry.providerUp then (s, None)
    else
      (s.(closed := true, timer := None, visitorControl := None, providerControl := None,
          telemetry := s.telemetry.(outcome := Established, finalLogged := true)),
       Some(Completion(s.visitorControl, s.providerControl, true, false, None, Established, true, false)))
  }

  function RecordProgress(s: Session, role: Role, progress: Progress): (Session, Option<Completion>) {
    if s.closed || progress.sessionID != s.id || progress.role != Some(role) then (s, None)
    else
      var s' := s.(telemetry := NoteProgress(s.telemetry, role, progress));
      if s'.summarySent && s'.goSent then TryEstablish(s') else (s', None)
  }

  function FinalizeTransport(s: Session): (Session, Option<Completion>) {
    if s.closed || !s.summarySent || !s.goSent then (s, None) else TryEstablish(s)
  }

  function PrepareAbort(s: Session, reason: Reason): (Session, Option<Completion>) {
    if s.closed then (s, None)
    else
      var t := if s.telemetry.finalLogged then s.telemetry
               else s.telemetry.(outcome := Aborted(reason), finalLogged := true);
      (s.(closed := true, timer := None, visitorControl := None, providerControl := None, telemetry := t),
       Some(Completion(s.visitorControl, s.providerControl, false, true, Some(reason), Aborted(reason),
                       !s.telemetry.finalLogged, true)))
  }

  predicate ShouldAbortPending(s: Session, role: Role) {
    !s.closed && !RoleUp(s.telemetry, role)
  }

  predicate AcceptsAbort(s: Session, role: Role, msg: Abort) {
    !s.closed && msg.sessionID == s.id && msg.role == Some(role)
  }
}
