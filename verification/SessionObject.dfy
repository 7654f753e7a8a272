/**
 The session object of bridge/p2p_session.go: one method per critical section of its mutex. Each keeps the
 session's invariant, hands a flag or a completion to exactly the caller that made it, and does what the
 function of SessionState says that the interleavings are built from.
 */
module SessionObject {
  import opened Wrappers
  import opened SessionState

  class BridgeSession {
    const id: string
    const token: string
    var visitorControl: Option<Control>
    var providerControl: Option<Control>
    var visitorReport: Option<Report>
    var providerReport: Option<Report>
    var visitorReady: bool
    var providerReady: bool
    var summarySent: bool
    var goSent: bool
    var closed: bool
    var timer: Option<bool>
    var telemetry: Telemetry

    function View(): Session
      reads this
    {
      Session(id, token, visitorControl, providerControl, visitorReport, providerReport, visitorReady,
              providerReady, summarySent, goSent, closed, timer, telemetry)
    }

    /** A stored report is of its own role and for this session. */
    ghost predicate Mine(report: Option<Report>, role: Role)
      reads this
    {
      report.Some? ==> report.value.role == Some(role) && report.value.sessionID == id && report.value.token == token
    }

    /** The phases in order, and a session that is either open, with its timer, or closed, with nothing left to it. */
    ghost predicate Valid()
      reads this
    {
      && (goSent ==> visitorReady && providerReady)
      && (visitorReady || providerReady ==> summarySent)
      && (summarySent ==> visitorReport.Some? && providerReport.Some?)
      && Mine(visitorReport, Visitor) && Mine(providerReport, Provider)
      && closed == telemetry.finalLogged == (telemetry.outcome != Pending)
      && (if closed then timer == None && visitorControl == None && providerControl == None
          else timer.Some? && visitorControl.Some?)
      && (telemetry.outcome == Established ==> goSent && telemetry.visitorUp && telemetry.providerUp)
    }

    /** The one completion of the session was made by this call: it holds all that the session gave up. */
    twostate predicate Completes(completion: Option<Completion>)
      reads this
    {
      && (completion.Some? <==> closed && !old(closed))
      && (completion.Some? ==>
            && completion.value.visitorControl == old(visitorControl)
            && completion.value.providerControl == old(providerControl)
            && completion.value.outcome == telemetry.outcome && completion.value.emitTelemetry
            && (completion.value.markEstablished <==> telemetry.outcome == Established)
            && (completion.value.markFailed <==> telemetry.outcome != Established))
    }

    constructor (id: string, token: string, visitor: Control)
      ensures Valid() && View() == NewSession(id, token, visitor)
      ensures !closed && !summarySent && visitorControl == Some(visitor) && providerControl == None
              && timer == Some(true)
    {
      this.id, this.token := id, token;
      visitorControl, providerControl := Some(visitor), None;
      visitorReport, providerReport := None, None;
      visitorReady, providerReady := false, false;
      summarySent, goSent, closed := false, false, false;
      timer := Some(true);
      telemetry := Telemetry(false, false, Pending, false);
    }

    method Attach(control: Control) returns (ok: bool)
      requires Valid()
      modifies this
      ensures Valid() && (View(), ok) == AttachProvider(old(View()), control)
      ensures ok <==> providerControl == Some(control)
      ensures old(providerControl).Some? ==> providerControl == old(providerControl)
    {
      if closed {
        return false;
      }
      if providerControl.Some? && providerControl.value != control {
        return false;
      }
      providerControl := Some(control);
      return true;
    }

    method StoreReport(role: Role, report: Report) returns (both: bool)
      requires Valid()
      modifies this`visitorReport, this`providerReport
      ensures Valid() && (View(), both) == RecordReport(old(View()), role, report)
      ensures both ==> visitorReport.Some? && providerReport.Some? && !closed
      ensures if role == Visitor then providerReport == old(providerReport) else visitorReport == old(visitorReport)
    {
      if closed || report.sessionID != id || report.token != token || report.role != Some(role) {
        return false;
      }
      match role {
        case Visitor => visitorReport := Some(report);
        case Provider => providerReport := Some(report);
      }
      both := visitorReport.Some? && providerReport.Some?;
    }

    method StoreReady(role: Role, ready: Ready) returns (go: bool)
      requires Valid()
      modifies this`visitorReady, this`providerReady
      ensures Valid() && (View(), go) == RecordReady(old(View()), role, ready)
      ensures go ==> visitorReady && providerReady && !goSent && !closed
      ensures old(visitorReady) ==> visitorReady
      ensures old(providerReady) ==> providerReady
    {
      if closed || ready.sessionID != id || ready.role != Some(role) || !summarySent {
        return false;
      }
      match role {
        case Visitor => visitorReady := true;
        case Provider => providerReady := true;
      }
      go := visitorReady && providerReady && !goSent;
    }

    method StoreProgress(role: Role, progress: Progress) returns (completion: Option<Completion>)
      requires Valid()
      modifies this
      ensures Valid() && (View(), completion) == RecordProgress(old(View()), role, progress)
      ensures Completes(completion) && (completion.Some? ==> telemetry.outcome == Established)
    {
      if closed || progress.sessionID != id || progress.role != Some(role) {
        return None;
      }
      if progress.stage == TransportEstablished && progress.status != Fail {
        match role {
          case Visitor => telemetry := telemetry.(visitorUp := true);
          case Provider => telemetry := telemetry.(providerUp := true);
        }
      }
      completion := None;
      if summarySent && goSent {
        completion := EstablishLocked();
      }
    }

    /** maybeFinalizeSuccess followed by prepareLockedTransportEstablishedCompletion. */
    method EstablishLocked() returns (completion: Option<Completion>)
      requires Valid() && goSent
      modifies this
      ensures Valid() && (View(), completion) == TryEstablish(old(View()))
      ensures Completes(completion) && (completion.Some? ==> telemetry.outcome == Established)
      ensures !closed ==> !telemetry.visitorUp || !telemetry.providerUp
    {
      if telemetry.finalLogged || !telemetry.visitorUp || !telemetry.providerUp {
        return None;
      }
      telemetry := telemetry.(outcome := Established, finalLogged := true);
      closed := true;
      if timer.Some? {
        timer := None;
      }
      completion := Some(Completion(visitorControl, providerControl, true, false, None, Established, true, false));
      visitorControl := None;
      providerControl := None;
    }

    method PrepareSummaryDispatch() returns (dispatch: Option<SummaryDispatch>)
      requires Valid()
      modifies this`summarySent
      ensures Valid() && (View(), dispatch) == PrepareSummary(old(View()))
      ensures dispatch.Some? <==> summarySent && !old(summarySent)
      ensures !closed && visitorReport.Some? && providerReport.Some? ==> summarySent
    {
      if closed || summarySent || visitorReport.None? || providerReport.None? {
        return None;
      }
      summarySent := true;
      dispatch := Some(SummaryDispatch(visitorControl, providerControl,
                                       visitorReport.value.self, providerReport.value.self));
    }

    method SchedulePostSummaryTimeout() returns (ok: bool)
      requires Valid()
      modifies this`timer
      ensures Valid() && (View(), ok) == ArmPostSummaryTimer(old(View()))
      ensures timer == if closed then None else Some(true)
    {
      if closed {
        return false;
      }
      timer := Some(true);
      return true;
    }

    /** Called by a goroutine whose READY made both roles ready, which stays so. */
    method PrepareGoDispatch() returns (dispatch: Option<GoDispatch>)
      requires Valid()
      modifies this`goSent
      ensures (View(), dispatch) == PrepareGo(old(View()))
      ensures visitorReady && providerReady ==> Valid()
      ensures dispatch.Some? <==> goSent && !old(goSent)
      ensures dispatch.Some? ==> dispatch.value.visitorControl.Some? && dispatch.value.providerControl.Some?
    {
      if closed || !summarySent || goSent || visitorControl.None? || providerControl.None? {
        return None;
      }
      dispatch := Some(GoDispatch(visitorControl, providerControl));
      goSent := true;
    }

    method TryFinalizeTransportEstablished() returns (completion: Option<Completion>)
      requires Valid()
      modifies this
      ensures Valid() && (View(), completion) == FinalizeTransport(old(View()))
      ensures Completes(completion) && (completion.Some? ==> telemetry.outcome == Established)
      ensures !closed && goSent ==> !telemetry.visitorUp || !telemetry.providerUp
    {
      if closed || !summarySent || !goSent {
        return None;
      }
      completion := EstablishLocked();
    }

    method PrepareAbortCompletion(reason: Reason) returns (completion: Option<Completion>)
      requires Valid()
      modifies this
      ensures Valid() && (View(), completion) == PrepareAbort(old(View()), reason)
      ensures closed && Completes(completion)
      ensures telemetry.outcome == if old(closed) then old(telemetry.outcome) else Aborted(reason)
    {
      if closed {
        return None;
      }
      closed := true;
      if timer.Some? {
        timer := None;
      }
      var emit := !telemetry.finalLogged;
      if emit {
        telemetry := telemetry.(outcome := Aborted(reason), finalLogged := true);
      }
      completion :=
        Some(Completion(visitorControl, providerControl, false, true, Some(reason), Aborted(reason), emit, true));
      visitorControl := None;
      providerControl := None;
    }
  }

  // ---------------------------------------------------------------- any sequence of sections

  /** A call of one of the sections; Ready leads to the GO section when it says so, as its caller does. */
  datatype Section =
    | Joins(control: Control)
    | Reports(role: Role, report: Report)
    | Summarizes
    | Arms
    | GetsReady(role: Role, ready: Ready)
    | Progresses(role: Role, progress: Progress)
    | Finalizes
    | Aborts(reason: Reason)

  /** What a sequence of sections handed out. */
  datatype Handed = Handed(summaries: nat, gos: nat, completions: seq<Completion>)

  /** All that was handed out so far matches the flags of the session. */
  ghost predicate Accounts(s: BridgeSession, h: Handed)
    reads s
  {
    && h.summaries == (if s.summarySent then 1 else 0) && h.gos == (if s.goSent then 1 else 0)
    && |h.completions| == (if s.closed then 1 else 0)
    && (s.closed ==> h.completions[0].outcome == s.telemetry.outcome && h.completions[0].emitTelemetry)
  }

  function With(h: Handed, completion: Option<Completion>): Handed {
    if completion.None? then h else h.(completions := h.completions + [completion.value])
  }

  method Ends(s: BridgeSession, section: Section, h: Handed) returns (r: Handed)
    requires s.Valid() && Accounts(s, h) && (section.Progresses? || section.Finalizes? || section.Aborts?)
    modifies s
    ensures s.Valid() && Accounts(s, r)
    ensures old(s.closed) ==> s.View() == old(s.View()) && r == h
  {
    var completion;
    match section {
      case Progresses(role, progress) => completion := s.StoreProgress(role, progress);
      case Finalizes => completion := s.TryFinalizeTransportEstablished();
      case Aborts(reason) => completion := s.PrepareAbortCompletion(reason);
    }
    r := With(h, completion);
  }

  method Readies(s: BridgeSession, role: Role, ready: Ready, h: Handed) returns (r: Handed)
    requires s.Valid() && Accounts(s, h)
    modifies s
    ensures s.Valid() && Accounts(s, r)
    ensures old(s.closed) ==> s.View() == old(s.View()) && r == h
  {
    var go := s.StoreReady(role, ready);
    r := h;
    if go {
      var dispatch := s.PrepareGoDispatch();
      if dispatch.Some? {
        r := r.(gos := r.gos + 1);
      }
    }
  }

  /** One section; a closed session never changes again. */
  method Performs(s: BridgeSession, section: Section, h: Handed) returns (r: Handed)
    requires s.Valid() && Accounts(s, h)
    modifies s
    ensures s.Valid() && Accounts(s, r)
    ensures old(s.closed) ==> s.View() == old(s.View()) && r == h
  {
    r := h;
    match section {
      case Joins(control) =>
        var _ := s.Attach(control);
      case Reports(role, report) =>
        var _ := s.StoreReport(role, report);
      case Summarizes =>
        var dispatch := s.PrepareSummaryDispatch();
        if dispatch.Some? {
          r := r.(summaries := r.summaries + 1);
        }
      case Arms =>
        var _ := s.SchedulePostSummaryTimeout();
      case GetsReady(role, ready) =>
        r := Readies(s, role, ready, h);
      case _ =>
        r := Ends(s, section, h);
    }
  }

  /**
   However its sections are called, a session hands out at most one summary dispatch, at most one GO dispatch
   and at most one completion, the last exactly when it is closed.
   */
  method Drive(id: string, token: string, visitor: Control, sections: seq<Section>)
    returns (s: BridgeSession, h: Handed)
    ensures fresh(s) && s.Valid() && Accounts(s, h)
    ensures h.summaries <= 1 && h.gos <= h.summaries && |h.completions| <= 1
    ensures |h.completions| == 1 <==> s.closed
  {
    s := new BridgeSession(id, token, visitor);
    h := Handed(0, 0, []);
    for i := 0 to |sections|
      invariant s.Valid() && Accounts(s, h)
    {
      h := Performs(s, sections[i], h);
    }
  }
}
