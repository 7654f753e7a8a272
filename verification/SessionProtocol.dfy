/**
 Every interleaving of the goroutines that drive one rendezvous session: any number of serve loops
 and timer callbacks, each taking one critical section or one network write at a time.
 */
module SessionProtocol {
  import opened Wrappers
  import opened SessionState

  // ---------------------------------------------------------------- the transition system

  /** What the outside world can observe. A failed write may still have reached the peer. */
  datatype Event =
    | SummaryTo(role: Role, control: Control, self: string, peer: string)
    | GoTo(role: Role, control: Control)
    | UnregisterAfterSummary
    | AbortTo(role: Role, control: Control, reason: Reason)
    | CloseControl(control: Control)
    | UnregisterOnAbort
    | ForgetSession
    | MarkEstablished
    | MarkFailed
    | EmitTelemetry(outcome: Outcome)

  /** Where a goroutine stands; `Apply` lists the effects of a completion it still has to carry out. */
  datatype Pc =
    | Start
    | Idle
    | SumPrep
    | SumWriteVisitor(summary: SummaryDispatch)
    | SumWriteProvider(summary: SummaryDispatch)
    | SumArm
    | SumUnregister
    | GoPrep
    | GoWriteVisitor(go: GoDispatch)
    | GoWriteProvider(go: GoDispatch)
    | GoFinalize
    | AbortNow(reason: Reason)
    | Apply(todo: seq<Event>)
    | Done

  /** A serve loop has a role; a timer callback and the goroutine that sends the start messages have none. */
  datatype Thread = Thread(role: Option<Role>, control: Control, pc: Pc, exits: bool)

  /**
   `visitor` is the visitor's control and `polite` says that clients send READY only after a SUMMARY
   was written to them. `attached`, `summary` and `final` remember what was attached, dispatched and completed.
   */
  datatype World = World(
    s: Session,
    threads: seq<Thread>,
    log: seq<Event>,
    visitor: Control,
    polite: bool,
    attached: Option<Control>,
    summary: Option<SummaryDispatch>,
    final: Option<Completion>)

  datatype Step =
    | StartServe(i: nat)
    | StartFails(i: nat, to: Role)
    | Join(control: Control)
    | TimerFires
    | GetReport(i: nat, report: Report)
    | GetReady(i: nat, ready: Ready)
    | GetProgress(i: nat, progress: Progress)
    | GetAbort(i: nat, msg: Abort)
    | GetOther(i: nat)
    | ReadFails(i: nat, flag: string)
    | Advance(i: nat, ok: bool)

  predicate Init(w: World) {
    && w.s == NewSession(w.s.id, w.s.token, w.visitor)
    && w.threads == [Thread(None, w.visitor, Start, false)]
    && w.log == []
    && w.attached == None && w.summary == None && w.final == None
  }

  function AbortWrites(c: Completion): seq<Event> {
    if c.abortReason.None? || c.abortReason.value.Blank() then []
    else (if c.visitorControl.Some? then [AbortTo(Visitor, c.visitorControl.value, c.abortReason.value)] else [])
         + (if c.providerControl.Some? then [AbortTo(Provider, c.providerControl.value, c.abortReason.value)] else [])
  }

  function Closes(c: Completion): seq<Event> {
    (if c.visitorControl.Some? then [CloseControl(c.visitorControl.value)] else [])
    + (if c.providerControl.Some? then [CloseControl(c.providerControl.value)] else [])
  }

  function Records(c: Completion): seq<Event> {
    (if c.unregister then [UnregisterOnAbort] else [])
    + [ForgetSession]
    + (if c.markEstablished then [MarkEstablished] else [])
    + (if c.markFailed then [MarkFailed] else [])
    + (if c.emitTelemetry then [EmitTelemetry(c.outcome)] else [])
  }

  /** The effects of applySessionCompletion, in order. */
  function Effects(c: Completion): seq<Event> {
    AbortWrites(c) + Closes(c) + Records(c)
  }

  predicate Serves(w: World, i: nat) {
    i < |w.threads| && w.threads[i].pc == Idle && w.threads[i].role.Some?
  }

  /** Where a goroutine goes once it has handled its message. */
  function Resume(t: Thread): Thread {
    t.(pc := if t.exits || t.role.None? then Done else Idle)
  }

  function Goto(w: World, i: nat, pc: Pc): World
    requires i < |w.threads|
  {
    w.(threads := w.threads[i := w.threads[i].(pc := pc)])
  }

  function Return(w: World, i: nat): World
    requires i < |w.threads|
  {
    w.(threads := w.threads[i := Resume(w.threads[i])])
  }

  function Log(w: World, e: Event): World {
    w.(log := w.log + [e])
  }

  /** A critical section gave state `s` and perhaps a completion, which the same goroutine then applies. */
  function Complete(w: World, i: nat, s: Session, c: Option<Completion>): World
    requires i < |w.threads|
  {
    if c.None? then Return(w.(s := s), i)
    else Goto(w.(s := s, final := c), i, Apply(Effects(c.value)))
  }

  function SummaryEvent(d: SummaryDispatch, role: Role, control: Control): Event {
    match role
    case Visitor => SummaryTo(Visitor, control, d.visitorSelf, d.providerSelf)
    case Provider => SummaryTo(Provider, control, d.providerSelf, d.visitorSelf)
  }

  // A write to a nil control pointer does nothing and reports no error.
  function WriteSummary(w: World, d: SummaryDispatch, role: Role, control: Option<Control>): World {
    if control.None? then w else Log(w, SummaryEvent(d, role, control.value))
  }

  function WriteGo(w: World, role: Role, control: Option<Control>): World {
    if control.None? then w else Log(w, GoTo(role, control.value))
  }

  // The next critical section or write of goroutine `i`, one function per program point. `ok` is the
  // outcome of a write to a non-nil control.

  function RunSumPrep(w: World, i: nat): World
    requires i < |w.threads|
  {
    var (s, d) := PrepareSummary(w.s);
    if d.None? then Return(w.(s := s), i)
    else Goto(w.(s := s, summary := d), i, SumWriteVisitor(d.value))
  }

  function RunSumWriteVisitor(w: World, i: nat, d: SummaryDispatch, ok: bool): World
    requires i < |w.threads|
  {
    Goto(WriteSummary(w, d, Visitor, d.visitorControl), i,
         if ok || d.visitorControl.None? then SumWriteProvider(d) else AbortNow(SendSummaryFailed(Visitor)))
  }

  function RunSumWriteProvider(w: World, i: nat, d: SummaryDispatch, ok: bool): World
    requires i < |w.threads|
  {
    Goto(WriteSummary(w, d, Provider, d.providerControl), i,
         if ok || d.providerControl.None? then SumArm else AbortNow(SendSummaryFailed(Provider)))
  }

  function RunSumArm(w: World, i: nat): World
    requires i < |w.threads|
  {
    var (s, armed) := ArmPostSummaryTimer(w.s);
    if armed then Goto(w.(s := s), i, SumUnregister) else Return(w.(s := s), i)
  }

  function RunSumUnregister(w: World, i: nat): World
    requires i < |w.threads|
  {
    Return(Log(w, UnregisterAfterSummary), i)
  }

  function RunGoPrep(w: World, i: nat): World
    requires i < |w.threads|
  {
    var (s, d) := PrepareGo(w.s);
    if d.None? then Return(w.(s := s), i) else Goto(w.(s := s), i, GoWriteVisitor(d.value))
  }

  function RunGoWriteVisitor(w: World, i: nat, d: GoDispatch, ok: bool): World
    requires i < |w.threads|
  {
    Goto(WriteGo(w, Visitor, d.visitorControl), i,
         if ok || d.visitorControl.None? then GoWriteProvider(d) else AbortNow(SendGoFailed(Visitor)))
  }

  function RunGoWriteProvider(w: World, i: nat, d: GoDispatch, ok: bool): World
    requires i < |w.threads|
  {
    Goto(WriteGo(w, Provider, d.providerControl), i,
         if ok || d.providerControl.None? then GoFinalize else AbortNow(SendGoFailed(Provider)))
  }

  function RunGoFinalize(w: World, i: nat): World
    requires i < |w.threads|
  {
    var (s, c) := FinalizeTransport(w.s);
    Complete(w, i, s, c)
  }

  function RunAbort(w: World, i: nat, reason: Reason): World
    requires i < |w.threads|
  {
    var (s, c) := PrepareAbort(w.s, reason);
    Complete(w, i, s, c)
  }

  function RunApply(w: World, i: nat, todo: seq<Event>): World
    requires i < |w.threads|
  {
    if todo == [] then Return(w, i) else Goto(Log(w, todo[0]), i, Apply(todo[1..]))
  }

  function Run(w: World, i: nat, ok: bool): World
    requires i < |w.threads|
  {
    match w.threads[i].pc
    case Start => w
    case Idle => w
    case SumPrep => RunSumPrep(w, i)
    case SumWriteVisitor(d) => RunSumWriteVisitor(w, i, d, ok)
    case SumWriteProvider(d) => RunSumWriteProvider(w, i, d, ok)
    case SumArm => RunSumArm(w, i)
    case SumUnregister => RunSumUnregister(w, i)
    case GoPrep => RunGoPrep(w, i)
    case GoWriteVisitor(d) => RunGoWriteVisitor(w, i, d, ok)
    case GoWriteProvider(d) => RunGoWriteProvider(w, i, d, ok)
    case GoFinalize => RunGoFinalize(w, i)
    case AbortNow(reason) => RunAbort(w, i, reason)
    case Apply(todo) => RunApply(w, i, todo)
    case Done => w
  }

  // What a message does to the world, one function per message.

  function OnJoin(w: World, control: Control): World {
    var (s, ok) := AttachProvider(w.s, control);
    if ok then w.(s := s, attached := Some(control),
                  threads := w.threads + [Thread(Some(Provider), control, Idle, false)])
    else w.(s := s)
  }

  function OnTimer(w: World): World {
    w.(s := w.s.(timer := Some(false)),
       threads := w.threads + [Thread(None, w.visitor, AbortNow(SessionTimeout), false)])
  }

  function OnReport(w: World, i: nat, report: Report): World
    requires Serves(w, i)
  {
    var (s, both) := RecordReport(w.s, w.threads[i].role.value, report);
    if both then Goto(w.(s := s), i, SumPrep) else Goto(w.(s := s), i, Idle)
  }

  function OnReady(w: World, i: nat, ready: Ready): World
    requires Serves(w, i)
  {
    var (s, go) := RecordReady(w.s, w.threads[i].role.value, ready);
    if go then Goto(w.(s := s), i, GoPrep) else Goto(w.(s := s), i, Idle)
  }

  function OnProgress(w: World, i: nat, progress: Progress): World
    requires Serves(w, i)
  {
    var (s, c) := RecordProgress(w.s, w.threads[i].role.value, progress);
    Complete(w, i, s, c)
  }

  function OnAbort(w: World, i: nat, msg: Abort): World
    requires Serves(w, i)
  {
    Goto(w, i, if AcceptsAbort(w.s, w.threads[i].role.value, msg) then AbortNow(GivenByPeer(msg.reason)) else Idle)
  }

  function OnReadFailure(w: World, i: nat, flag: string): World
    requires Serves(w, i)
  {
    var role := w.threads[i].role.value;
    var pc := if ShouldAbortPending(w.s, role) then AbortNow(ReadFailed(role, flag)) else Done;
    w.(threads := w.threads[i := w.threads[i].(pc := pc, exits := true)])
  }

  ghost predicate NextBy(w: World, w': World, step: Step) {
    match step
    case StartServe(i) =>
      i < |w.threads| && w.threads[i].pc == Start
      && w' == w.(threads := w.threads[i := w.threads[i].(role := Some(Visitor), pc := Idle)])
    case StartFails(i, to) =>
      i < |w.threads| && w.threads[i].pc == Start && w' == Goto(w, i, AbortNow(SendStartFailed(to)))
    case Join(control) => control != w.visitor && w' == OnJoin(w, control)
    case TimerFires => w.s.timer == Some(true) && w' == OnTimer(w)
    case GetReport(i, report) => Serves(w, i) && w' == OnReport(w, i, report)
    case GetReady(i, ready) =>
      Serves(w, i) && w' == OnReady(w, i, ready)
      && (w.polite ==> SummaryWritten(w.log, w.threads[i].role.value, w.threads[i].control))
    case GetProgress(i, progress) => Serves(w, i) && w' == OnProgress(w, i, progress)
    case GetAbort(i, msg) => Serves(w, i) && w' == OnAbort(w, i, msg)
    case GetOther(i) => Serves(w, i) && w' == w
    case ReadFails(i, flag) => Serves(w, i) && w' == OnReadFailure(w, i, flag)
    case Advance(i, ok) => i < |w.threads| && w' == Run(w, i, ok)
  }

  ghost predicate Next(w: World, w': World) {
    exists step :: NextBy(w, w', step)
  }

  ghost predicate IsRun(run: seq<World>) {
    && run != [] && Init(run[0])
    && forall k :: 0 <= k < |run| - 1 ==> StepAt(run, k)
  }

  ghost predicate StepAt(run: seq<World>, k: nat)
    requires k < |run| - 1
  {
    Next(run[k], run[k + 1])
  }

  // ---------------------------------------------------------------- what is observed

  predicate IsSummary(e: Event, role: Role) {
    e.SummaryTo? && e.role == role
  }

  predicate IsGo(e: Event, role: Role) {
    e.GoTo? && e.role == role
  }

  /** A SUMMARY for `role` was written to `control`. */
  ghost predicate SummaryWritten(log: seq<Event>, role: Role, control: Control) {
    exists j :: 0 <= j < |log| && IsSummary(log[j], role) && log[j].control == control
  }

  predicate OfCompletion(e: Event) {
    !e.SummaryTo? && !e.GoTo? && !e.UnregisterAfterSummary?
  }

  predicate AllOfCompletion(events: seq<Event>) {
    forall k :: 0 <= k < |events| ==> OfCompletion(events[k])
  }

  /** The part of the log that completions wrote. */
  function Completed(log: seq<Event>): seq<Event> {
    if log == [] then []
    else
      var e := log[|log| - 1];
      Completed(log[..|log| - 1]) + if OfCompletion(e) then [e] else []
  }

  // ---------------------------------------------------------------- the invariant

  predicate SessionOk(w: World) {
    var s := w.s;
    && (s.summarySent ==> s.visitorReport.Some? && s.providerReport.Some?)
    && (s.visitorReady || s.providerReady ==> s.summarySent)
    && (s.goSent ==> s.visitorReady && s.providerReady)
    && (s.providerReport.Some? ==> w.attached.Some?)
    && (w.attached.Some? ==> w.attached.value != w.visitor)
    && s.closed == s.telemetry.finalLogged == w.final.Some?
    && (if s.closed then s.timer == None && s.visitorControl == None && s.providerControl == None
        else s.timer.Some? && s.visitorControl == Some(w.visitor) && s.providerControl == w.attached
             && s.telemetry.outcome == Pending)
  }

  predicate FinalOk(w: World) {
    w.final.Some? ==>
      var c := w.final.value;
      && c.visitorControl == Some(w.visitor) && c.providerControl == w.attached
      && c.emitTelemetry && c.outcome == w.s.telemetry.outcome
      && c.markFailed == c.unregister == !c.markEstablished
      && (if c.markEstablished
          then c.abortReason == None && c.outcome == Established && w.s.summarySent && w.s.goSent
               && w.s.telemetry.visitorUp && w.s.telemetry.providerUp
          else c.abortReason.Some? && c.outcome == Aborted(c.abortReason.value))
  }

  predicate SummaryOk(w: World) {
    && w.summary.Some? == w.s.summarySent
    && (w.summary.Some? ==> w.attached.Some? && w.summary.value.visitorControl == Some(w.visitor)
                            && w.summary.value.providerControl == w.attached)
  }

  predicate NoSummary(log: seq<Event>, role: Role) {
    forall k :: 0 <= k < |log| ==> !IsSummary(log[k], role)
  }

  predicate NoGo(log: seq<Event>, role: Role) {
    forall k :: 0 <= k < |log| ==> !IsGo(log[k], role)
  }

  predicate GoControlsOk(w: World, d: GoDispatch) {
    w.s.goSent && w.attached.Some? && d.visitorControl == Some(w.visitor) && d.providerControl == w.attached
  }

  ghost predicate ThreadOk(w: World, t: Thread) {
    && (t.role == Some(Visitor) ==> t.control == w.visitor)
    && (t.role == Some(Provider) ==> w.attached == Some(t.control))
    && match t.pc
       case Start => t.role.None? && t.control == w.visitor
       case SumPrep => w.s.visitorReport.Some? && w.s.providerReport.Some?
       case SumWriteVisitor(d) => w.summary == Some(d) && NoSummary(w.log, Visitor) && NoSummary(w.log, Provider)
       case SumWriteProvider(d) => w.summary == Some(d) && NoSummary(w.log, Provider)
       case GoPrep => w.s.visitorReady && w.s.providerReady
       case GoWriteVisitor(d) => GoControlsOk(w, d) && NoGo(w.log, Visitor) && NoGo(w.log, Provider)
       case GoWriteProvider(d) => GoControlsOk(w, d) && NoGo(w.log, Provider)
       case Apply(todo) => w.final.Some? && Completed(w.log) + todo == Effects(w.final.value)
                           && AllOfCompletion(todo)
       case _ => true
  }

  ghost predicate ThreadsOk(w: World) {
    forall i :: 0 <= i < |w.threads| ==> ThreadOk(w, w.threads[i])
  }

  /** The three jobs that at most one goroutine at a time may have. */
  datatype Job = WritingSummaries | WritingGo | Applying

  predicate Has(t: Thread, job: Job) {
    match job
    case WritingSummaries => t.pc.SumWriteVisitor? || t.pc.SumWriteProvider?
    case WritingGo => t.pc.GoWriteVisitor? || t.pc.GoWriteProvider?
    case Applying => t.pc.Apply?
  }

  predicate Free(t: Thread) {
    !Has(t, WritingSummaries) && !Has(t, WritingGo) && !Has(t, Applying)
  }

  predicate NoneIn(threads: seq<Thread>, job: Job) {
    forall i :: 0 <= i < |threads| ==> !Has(threads[i], job)
  }

  predicate AtMostOneIn(threads: seq<Thread>, job: Job) {
    forall i, j :: 0 <= i < j < |threads| ==> !(Has(threads[i], job) && Has(threads[j], job))
  }

  predicate Exclusive(threads: seq<Thread>) {
    AtMostOneIn(threads, WritingSummaries) && AtMostOneIn(threads, WritingGo) && AtMostOneIn(threads, Applying)
  }

  predicate AtMostOneSummary(log: seq<Event>, role: Role) {
    forall i, j :: 0 <= i < j < |log| ==> !(IsSummary(log[i], role) && IsSummary(log[j], role))
  }

  predicate AtMostOneGo(log: seq<Event>, role: Role) {
    forall i, j :: 0 <= i < j < |log| ==> !(IsGo(log[i], role) && IsGo(log[j], role))
  }

  /** Each summary written is the one that was dispatched for its role, on that role's control. */
  predicate SummariesAsDispatched(w: World) {
    forall k :: 0 <= k < |w.log| && w.log[k].SummaryTo? ==>
      && w.summary.Some? && w.attached.Some?
      && w.log[k] == SummaryEvent(w.summary.value, w.log[k].role,
                                    if w.log[k].role == Visitor then w.visitor else w.attached.value)
  }

  /** Each GO written went to the control of its role. */
  predicate GoesAsAddressed(w: World) {
    forall k :: 0 <= k < |w.log| && w.log[k].GoTo? ==>
      if w.log[k].role == Visitor then w.log[k].control == w.visitor else w.attached == Some(w.log[k].control)
  }

  /** A GO reaches a control only after the SUMMARY of that control. */
  ghost predicate GoAfterSummary(log: seq<Event>) {
    forall k :: 0 <= k < |log| && log[k].GoTo? ==> SummaryWritten(log[..k], log[k].role, log[k].control)
  }

  ghost predicate LogOk(w: World) {
    && AtMostOneSummary(w.log, Visitor) && AtMostOneSummary(w.log, Provider)
    && AtMostOneGo(w.log, Visitor) && AtMostOneGo(w.log, Provider)
    && SummariesAsDispatched(w) && GoesAsAddressed(w)
    && (!w.s.goSent ==> NoGo(w.log, Visitor) && NoGo(w.log, Provider))
  }

  ghost predicate ReadyOk(w: World) {
    && (w.s.visitorReady ==> SummaryWritten(w.log, Visitor, w.visitor))
    && (w.s.providerReady ==> w.attached.Some? && SummaryWritten(w.log, Provider, w.attached.value))
  }

  ghost predicate PoliteOk(w: World) {
    w.polite ==> ReadyOk(w) && GoAfterSummary(w.log)
  }

  /** Completion effects appear only for a closed session, and all of them once nobody applies them any more. */
  ghost predicate CompletionOk(w: World) {
    && (!w.s.closed ==> Completed(w.log) == [])
    && (w.s.closed && NoneIn(w.threads, Applying) && w.final.Some? ==> Completed(w.log) == Effects(w.final.value))
  }

  ghost predicate Inv(w: World) {
    && SessionOk(w) && FinalOk(w) && SummaryOk(w)
    && ThreadsOk(w) && Exclusive(w.threads)
    && LogOk(w) && PoliteOk(w) && CompletionOk(w)
  }

  // ---------------------------------------------------------------- one step keeps the invariant

  lemma LogGrows(log: seq<Event>, e: Event)
    ensures Completed(log + [e]) == Completed(log) + if OfCompletion(e) then [e] else []
    ensures forall role, c :: SummaryWritten(log, role, c) ==> SummaryWritten(log + [e], role, c)
  {
    assert (log + [e])[..|log|] == log;
    forall role, c | SummaryWritten(log, role, c)
      ensures SummaryWritten(log + [e], role, c)
    {
      var j :| 0 <= j < |log| && IsSummary(log[j], role) && log[j].control == c;
      assert (log + [e])[j] == log[j];
    }
  }

  /** What no step ever takes back. */
  predicate Grows(w: World, w': World) {
    && w'.visitor == w.visitor && w'.polite == w.polite
    && (w.attached.Some? ==> w'.attached == w.attached)
    && (w.summary.Some? ==> w'.summary == w.summary)
    && (w.final.Some? ==> w'.final == w.final)
    && (w.s.visitorReport.Some? ==> w'.s.visitorReport.Some?)
    && (w.s.providerReport.Some? ==> w'.s.providerReport.Some?)
    && (w.s.visitorReady ==> w'.s.visitorReady)
    && (w.s.providerReady ==> w'.s.providerReady)
    && (w.s.goSent ==> w'.s.goSent)
  }

  lemma KeepThreads(w: World, w': World, i: nat, t: Thread)
    requires ThreadsOk(w) && Grows(w, w') && w'.log == w.log
    requires i < |w.threads| && w'.threads == w.threads[i := t] && ThreadOk(w', t)
    ensures ThreadsOk(w')
  {
    forall j | 0 <= j < |w'.threads|
      ensures ThreadOk(w', w'.threads[j])
    {
      if j != i {
        assert ThreadOk(w, w.threads[j]);
      }
    }
  }

  lemma SpawnThread(w: World, w': World, t: Thread)
    requires ThreadsOk(w) && Grows(w, w') && w'.log == w.log && Exclusive(w.threads)
    requires w'.threads == w.threads + [t] && ThreadOk(w', t)
    requires Free(t)
    ensures ThreadsOk(w') && Exclusive(w'.threads)
    ensures NoneIn(w'.threads, Applying) ==> NoneIn(w.threads, Applying)
  {
    forall j | 0 <= j < |w'.threads|
      ensures ThreadOk(w', w'.threads[j])
    {
      if j < |w.threads| {
        assert ThreadOk(w, w.threads[j]);
      }
    }
    forall j | 0 <= j < |w.threads|
      ensures w'.threads[j] == w.threads[j]
    {
    }
  }

  /** Whether goroutine `t` tolerates another goroutine writing event `e`. */
  predicate Tolerates(t: Thread, e: Event) {
    && (e.SummaryTo? ==> !Has(t, WritingSummaries))
    && (e.GoTo? ==> !Has(t, WritingGo))
    && (OfCompletion(e) ==> !Has(t, Applying))
  }

  lemma ThreadStaysOk(w: World, w': World, t: Thread, e: Event)
    requires ThreadOk(w, t) && Tolerates(t, e) && w' == w.(threads := w'.threads, log := w.log + [e])
    ensures ThreadOk(w', t)
  {
    if t.pc.Apply? { CompletedSame(w.log, e); }
  }

  lemma CompletedSame(log: seq<Event>, e: Event)
    requires !OfCompletion(e)
    ensures Completed(log + [e]) == Completed(log)
  {
    assert (log + [e])[..|log|] == log;
  }

  lemma KeepThreadsLogged(w: World, w': World, i: nat, t: Thread, e: Event)
    requires ThreadsOk(w) && i < |w.threads|
    requires w' == w.(threads := w.threads[i := t], log := w.log + [e]) && ThreadOk(w', t)
    requires forall j :: 0 <= j < |w.threads| && j != i ==> Tolerates(w.threads[j], e)
    ensures ThreadsOk(w')
  {
    forall j | 0 <= j < |w'.threads|
      ensures ThreadOk(w', w'.threads[j])
    {
      if j != i {
        assert ThreadOk(w, w.threads[j]) && Tolerates(w.threads[j], e);
        ThreadStaysOk(w, w', w.threads[j], e);
      }
    }
  }

  /** Exclusion survives when a goroutine enters a job only while nobody has it. */
  lemma KeepJob(ts: seq<Thread>, i: nat, t: Thread, job: Job)
    requires i < |ts| && AtMostOneIn(ts, job)
    requires Has(t, job) ==> Has(ts[i], job) || NoneIn(ts, job)
    ensures AtMostOneIn(ts[i := t], job)
  {
  }

  predicate MayTake(ts: seq<Thread>, i: nat, t: Thread, job: Job)
    requires i < |ts|
  {
    Has(t, job) ==> Has(ts[i], job) || NoneIn(ts, job)
  }

  lemma KeepExclusive(ts: seq<Thread>, i: nat, t: Thread)
    requires i < |ts| && Exclusive(ts)
    requires MayTake(ts, i, t, WritingSummaries) && MayTake(ts, i, t, WritingGo) && MayTake(ts, i, t, Applying)
    ensures Exclusive(ts[i := t])
  {
    KeepJob(ts, i, t, WritingSummaries);
    KeepJob(ts, i, t, WritingGo);
    KeepJob(ts, i, t, Applying);
  }

  /** A step that moves goroutine `i` out of every job, writes nothing and completes nothing. */
  lemma QuietStep(w: World, w': World, i: nat, t: Thread)
    requires Inv(w) && Grows(w, w') && w'.log == w.log
    requires i < |w.threads| && w'.threads == w.threads[i := t] && ThreadOk(w', t)
    requires Free(t)
    requires Has(w.threads[i], Applying) ==> w.threads[i].pc.todo == []
    requires SessionOk(w') && FinalOk(w') && SummaryOk(w') && (w.polite ==> ReadyOk(w'))
    requires w'.s.closed == w.s.closed && w'.s.goSent == w.s.goSent
    requires w'.summary == w.summary && w'.attached == w.attached
    ensures Inv(w')
  {
    KeepThreads(w, w', i, t);
    KeepExclusive(w.threads, i, t);
    if w'.s.closed && NoneIn(w'.threads, Applying) {
      if Has(w.threads[i], Applying) {
        assert ThreadOk(w, w.threads[i]);
      } else {
        forall j | 0 <= j < |w.threads|
          ensures !Has(w.threads[j], Applying)
        {
          assert j != i ==> w'.threads[j] == w.threads[j];
        }
      }
    }
  }

  lemma StartKeepsInv(w: World, i: nat, role: Option<Role>, pc: Pc)
    requires Inv(w) && i < |w.threads| && w.threads[i].pc == Start
    requires (role == Some(Visitor) && pc == Idle) || (role == None && pc.AbortNow?)
    ensures Inv(w.(threads := w.threads[i := w.threads[i].(role := role, pc := pc)]))
  {
    assert ThreadOk(w, w.threads[i]);
    var t := w.threads[i].(role := role, pc := pc);
    QuietStep(w, w.(threads := w.threads[i := t]), i, t);
  }

  lemma JoinKeepsInv(w: World, control: Control)
    requires Inv(w) && control != w.visitor
    ensures Inv(OnJoin(w, control))
  {
    var w' := OnJoin(w, control);
    if |w'.threads| > |w.threads| {
      SpawnThread(w, w', w'.threads[|w.threads|]);
    }
  }

  lemma TimerKeepsInv(w: World)
    requires Inv(w) && w.s.timer == Some(true)
    ensures Inv(OnTimer(w))
  {
    SpawnThread(w, OnTimer(w), OnTimer(w).threads[|w.threads|]);
  }

  lemma ReportGrows(w: World, role: Role, report: Report)
    requires SessionOk(w) && FinalOk(w) && SummaryOk(w) && (role == Provider ==> w.attached.Some?)
    ensures var w' := w.(s := RecordReport(w.s, role, report).0);
            && SessionOk(w') && FinalOk(w') && SummaryOk(w') && Grows(w, w')
            && w'.s.closed == w.s.closed && w'.s.goSent == w.s.goSent
            && w'.s.visitorReady == w.s.visitorReady && w'.s.providerReady == w.s.providerReady
    ensures RecordReport(w.s, role, report).1 ==>
              var s' := RecordReport(w.s, role, report).0; s'.visitorReport.Some? && s'.providerReport.Some?
  {
  }

  lemma ReportKeepsInv(w: World, i: nat, report: Report)
    requires Inv(w) && Serves(w, i)
    ensures Inv(OnReport(w, i, report))
  {
    assert ThreadOk(w, w.threads[i]);
    var (s, both) := RecordReport(w.s, w.threads[i].role.value, report);
    ReportGrows(w, w.threads[i].role.value, report);
    QuietStep(w, OnReport(w, i, report), i, w.threads[i].(pc := if both then SumPrep else Idle));
  }

  lemma ReadyGrows(w: World, t: Thread, ready: Ready)
    requires SessionOk(w) && FinalOk(w) && SummaryOk(w) && PoliteOk(w) && ThreadOk(w, t) && t.role.Some?
    requires w.polite ==> SummaryWritten(w.log, t.role.value, t.control)
    ensures var w' := w.(s := RecordReady(w.s, t.role.value, ready).0);
            && SessionOk(w') && FinalOk(w') && SummaryOk(w') && (w.polite ==> ReadyOk(w')) && Grows(w, w')
            && w'.s.closed == w.s.closed && w'.s.goSent == w.s.goSent
    ensures RecordReady(w.s, t.role.value, ready).1 ==>
              var s' := RecordReady(w.s, t.role.value, ready).0; s'.visitorReady && s'.providerReady
  {
  }

  lemma ReadyKeepsInv(w: World, i: nat, ready: Ready)
    requires Inv(w) && Serves(w, i)
    requires w.polite ==> SummaryWritten(w.log, w.threads[i].role.value, w.threads[i].control)
    ensures Inv(OnReady(w, i, ready))
  {
    assert ThreadOk(w, w.threads[i]);
    var (s, go) := RecordReady(w.s, w.threads[i].role.value, ready);
    ReadyGrows(w, w.threads[i], ready);
    QuietStep(w, OnReady(w, i, ready), i, w.threads[i].(pc := if go then GoPrep else Idle));
  }

  lemma AbortMessageKeepsInv(w: World, i: nat, msg: Abort)
    requires Inv(w) && Serves(w, i)
    ensures Inv(OnAbort(w, i, msg))
  {
    assert ThreadOk(w, w.threads[i]);
    QuietStep(w, OnAbort(w, i, msg), i, OnAbort(w, i, msg).threads[i]);
  }

  lemma ReadFailureKeepsInv(w: World, i: nat, flag: string)
    requires Inv(w) && Serves(w, i)
    ensures Inv(OnReadFailure(w, i, flag))
  {
    assert ThreadOk(w, w.threads[i]);
    QuietStep(w, OnReadFailure(w, i, flag), i, OnReadFailure(w, i, flag).threads[i]);
  }

  lemma EffectsAreOfCompletion(c: Completion)
    ensures AllOfCompletion(Effects(c))
  {
    assert AllOfCompletion(AbortWrites(c));
    assert AllOfCompletion(Closes(c));
    RecordsAreOfCompletion(c);
  }

  lemma RecordsAreOfCompletion(c: Completion)
    ensures AllOfCompletion(Records(c))
  {
    assert forall e :: e in Records(c) ==> OfCompletion(e);
  }

  lemma NobodyApplies(w: World)
    requires ThreadsOk(w) && w.final.None?
    ensures NoneIn(w.threads, Applying)
  {
    forall j | 0 <= j < |w.threads|
      ensures !Has(w.threads[j], Applying)
    {
      assert ThreadOk(w, w.threads[j]);
    }
  }

  lemma NewApplierOk(w: World, w': World, i: nat, c: Completion)
    requires i < |w.threads| && ThreadOk(w, w.threads[i]) && Completed(w.log) == []
    requires w'.log == w.log && w'.final == Some(c) && w'.visitor == w.visitor && w'.attached == w.attached
    ensures ThreadOk(w', w.threads[i].(pc := Apply(Effects(c))))
  {
    EffectsAreOfCompletion(c);
    assert [] + Effects(c) == Effects(c);
  }

  /** The section that closes the session makes its goroutine the only one to apply the completion. */
  lemma CompleteKeepsInv(w: World, w': World, i: nat, s: Session, c: Option<Completion>)
    requires Inv(w) && i < |w.threads| && w' == Complete(w, i, s, c)
    requires Free(w.threads[i])
    requires Concludes(w, w', s, c)
    ensures Inv(w')
  {
    var t := w'.threads[i];
    if c.None? {
      assert ThreadOk(w, w.threads[i]);
      QuietStep(w, w', i, t);
    } else {
      NobodyApplies(w);
      NewApplierOk(w, w', i, c.value);
      KeepThreads(w, w', i, t);
      KeepExclusive(w.threads, i, t);
      assert Has(w'.threads[i], Applying);
    }
  }

  /** What a section that may close the session keeps, whoever runs it. */
  predicate Concludes(w: World, w': World, s: Session, c: Option<Completion>) {
    && Grows(w, w') && SessionOk(w') && FinalOk(w') && SummaryOk(w')
    && s.visitorReady == w.s.visitorReady && s.providerReady == w.s.providerReady && s.goSent == w.s.goSent
    && (if c.Some? then !w.s.closed && s.closed else s.closed == w.s.closed)
  }

  /** The state and the completion of such a section. */
  function Concluded(w: World, s: Session, c: Option<Completion>): World {
    w.(s := s, final := if c.Some? then c else w.final)
  }

  lemma ProgressConcludes(w: World, role: Role, progress: Progress)
    requires SessionOk(w) && FinalOk(w) && SummaryOk(w)
    ensures var (s, c) := RecordProgress(w.s, role, progress); Concludes(w, Concluded(w, s, c), s, c)
  {
  }

  lemma ConcludesAnyhow(w: World, i: nat, s: Session, c: Option<Completion>)
    requires i < |w.threads| && Concludes(w, Concluded(w, s, c), s, c)
    ensures Concludes(w, Complete(w, i, s, c), s, c)
  {
  }

  lemma ProgressKeepsInv(w: World, i: nat, progress: Progress)
    requires Inv(w) && Serves(w, i)
    ensures Inv(OnProgress(w, i, progress))
  {
    var (s, c) := RecordProgress(w.s, w.threads[i].role.value, progress);
    ProgressConcludes(w, w.threads[i].role.value, progress);
    ConcludesAnyhow(w, i, s, c);
    CompleteKeepsInv(w, OnProgress(w, i, progress), i, s, c);
  }

  lemma FinalizeKeepsInv(w: World, i: nat)
    requires Inv(w) && i < |w.threads| && Free(w.threads[i])
    ensures Inv(RunGoFinalize(w, i))
  {
    var (s, c) := FinalizeTransport(w.s);
    CompleteKeepsInv(w, RunGoFinalize(w, i), i, s, c);
  }

  lemma AbortKeepsInv(w: World, i: nat, reason: Reason)
    requires Inv(w) && i < |w.threads| && Free(w.threads[i])
    ensures Inv(RunAbort(w, i, reason))
  {
    var (s, c) := PrepareAbort(w.s, reason);
    CompleteKeepsInv(w, RunAbort(w, i, reason), i, s, c);
  }

  /** Goroutine `i` takes up one of the two writing jobs that nobody has had before. */
  lemma DispatchKeepsInv(w: World, w': World, i: nat, t: Thread, job: Job)
    requires Inv(w) && i < |w.threads| && Free(w.threads[i]) && Grows(w, w')
    requires w'.threads == w.threads[i := t] && w'.log == w.log && ThreadOk(w', t)
    requires NoneIn(w.threads, job) && !Has(t, Applying)
    requires Has(t, WritingSummaries) ==> job == WritingSummaries
    requires Has(t, WritingGo) ==> job == WritingGo
    requires SessionOk(w') && FinalOk(w') && SummaryOk(w') && LogOk(w') && w'.s.closed == w.s.closed
    requires w'.s.visitorReady == w.s.visitorReady && w'.s.providerReady == w.s.providerReady
    ensures Inv(w')
  {
    KeepThreads(w, w', i, t);
    KeepExclusive(w.threads, i, t);
    if NoneIn(w'.threads, Applying) {
      forall j | 0 <= j < |w.threads|
        ensures !Has(w.threads[j], Applying)
      {
        assert !Has(w'.threads[j], Applying);
      }
    }
  }

  lemma NobodyWritesSummaries(w: World)
    requires ThreadsOk(w) && w.summary.None?
    ensures NoneIn(w.threads, WritingSummaries)
    ensures SummariesAsDispatched(w) ==> NoSummary(w.log, Visitor) && NoSummary(w.log, Provider)
  {
    forall j | 0 <= j < |w.threads|
      ensures !Has(w.threads[j], WritingSummaries)
    {
      assert ThreadOk(w, w.threads[j]);
    }
  }

  lemma NobodyWritesGo(w: World)
    requires ThreadsOk(w) && !w.s.goSent
    ensures NoneIn(w.threads, WritingGo)
  {
    forall j | 0 <= j < |w.threads|
      ensures !Has(w.threads[j], WritingGo)
    {
      assert ThreadOk(w, w.threads[j]);
    }
  }

  lemma SummaryDispatchKeepsInv(w: World, i: nat)
    requires Inv(w) && i < |w.threads| && w.threads[i].pc.SumPrep? && PrepareSummary(w.s).1.Some?
    ensures Inv(RunSumPrep(w, i))
  {
    var w' := RunSumPrep(w, i);
    assert ThreadOk(w, w.threads[i]);
    NobodyWritesSummaries(w);
    DispatchKeepsInv(w, w', i, w'.threads[i], WritingSummaries);
  }

  lemma SummaryPrepKeepsInv(w: World, i: nat)
    requires Inv(w) && i < |w.threads| && w.threads[i].pc.SumPrep?
    ensures Inv(RunSumPrep(w, i))
  {
    if PrepareSummary(w.s).1.Some? { SummaryDispatchKeepsInv(w, i); } else { ReturnKeepsInv(w, i); }
  }

  /** A goroutine that has nothing more to do with its message. */
  lemma ReturnKeepsInv(w: World, i: nat)
    requires Inv(w) && i < |w.threads| && !Has(w.threads[i], Applying) && !w.threads[i].pc.Start?
    ensures Inv(Return(w, i)) && w.(s := w.s) == w
  {
    assert ThreadOk(w, w.threads[i]);
    QuietStep(w, Return(w, i), i, Resume(w.threads[i]));
  }

  lemma GoDispatchKeepsInv(w: World, i: nat)
    requires Inv(w) && i < |w.threads| && w.threads[i].pc.GoPrep? && PrepareGo(w.s).1.Some?
    ensures Inv(RunGoPrep(w, i))
  {
    var w' := RunGoPrep(w, i);
    assert ThreadOk(w, w.threads[i]);
    NobodyWritesGo(w);
    DispatchKeepsInv(w, w', i, w'.threads[i], WritingGo);
  }

  lemma GoPrepKeepsInv(w: World, i: nat)
    requires Inv(w) && i < |w.threads| && w.threads[i].pc.GoPrep?
    ensures Inv(RunGoPrep(w, i))
  {
    if PrepareGo(w.s).1.Some? { GoDispatchKeepsInv(w, i); } else { ReturnKeepsInv(w, i); }
  }

  lemma ArmKeepsInv(w: World, i: nat)
    requires Inv(w) && i < |w.threads| && w.threads[i].pc.SumArm?
    ensures Inv(RunSumArm(w, i))
  {
    if w.s.closed {
      ReturnKeepsInv(w, i);
    } else {
      assert ThreadOk(w, w.threads[i]);
      QuietStep(w, RunSumArm(w, i), i, RunSumArm(w, i).threads[i]);
    }
  }

  /** The order of GO and SUMMARY survives any event that is not a GO without its SUMMARY. */
  lemma GoOrderGrows(log: seq<Event>, e: Event)
    requires GoAfterSummary(log)
    requires e.GoTo? ==> SummaryWritten(log, e.role, e.control)
    ensures GoAfterSummary(log + [e])
  {
    forall k | 0 <= k < |log + [e]| && (log + [e])[k].GoTo?
      ensures SummaryWritten((log + [e])[..k], (log + [e])[k].role, (log + [e])[k].control)
    {
      assert (log + [e])[..k] == log[..k];
      assert log[..|log|] == log;
    }
  }

  /** If `e` is a SUMMARY, it is the first for its role and the one that was dispatched. */
  predicate FreshSummary(w: World, e: Event) {
    e.SummaryTo? ==>
      && NoSummary(w.log, e.role) && w.summary.Some? && w.attached.Some?
      && e == SummaryEvent(w.summary.value, e.role, if e.role == Visitor then w.visitor else w.attached.value)
  }

  /** If `e` is a GO, it is the first for its role and goes to that role's control. */
  predicate FreshGo(w: World, e: Event) {
    e.GoTo? ==>
      && w.s.goSent && NoGo(w.log, e.role)
      && (if e.role == Visitor then e.control == w.visitor else w.attached == Some(e.control))
  }

  lemma PoliteGrows(w: World, w': World, e: Event)
    requires SessionOk(w) && PoliteOk(w)
    requires w'.s == w.s && w'.log == w.log + [e] && w'.visitor == w.visitor && w'.polite == w.polite
             && w'.attached == w.attached
    requires FreshGo(w, e)
    ensures PoliteOk(w')
  {
    if w.polite {
      LogGrows(w.log, e);
      GoOrderGrows(w.log, e);
    }
  }

  /** Writing `e` keeps the log's own invariant, given that `e` is new and as dispatched. */
  lemma LogOkGrows(w: World, w': World, e: Event)
    requires LogOk(w)
    requires w'.s == w.s && w'.log == w.log + [e] && w'.visitor == w.visitor && w'.attached == w.attached
             && w'.summary == w.summary
    requires FreshSummary(w, e) && FreshGo(w, e)
    ensures LogOk(w')
  {
    SummaryOnce(w.log, e, Visitor);
    SummaryOnce(w.log, e, Provider);
    GoOnce(w.log, e, Visitor);
    GoOnce(w.log, e, Provider);
  }

  lemma SummaryOnce(log: seq<Event>, e: Event, role: Role)
    requires AtMostOneSummary(log, role) && (IsSummary(e, role) ==> NoSummary(log, role))
    ensures AtMostOneSummary(log + [e], role)
  {
  }

  lemma GoOnce(log: seq<Event>, e: Event, role: Role)
    requires AtMostOneGo(log, role) && (IsGo(e, role) ==> NoGo(log, role))
    ensures AtMostOneGo(log + [e], role)
  {
  }

  /** Goroutine `i` writes `e` and moves on to `t`. */
  lemma WriteKeepsInv(w: World, w': World, i: nat, t: Thread, e: Event)
    requires Inv(w) && i < |w.threads|
    requires w' == w.(threads := w.threads[i := t], log := w.log + [e])
    requires ThreadOk(w', t)
    requires Has(t, WritingSummaries) ==> Has(w.threads[i], WritingSummaries)
    requires Has(t, WritingGo) ==> Has(w.threads[i], WritingGo)
    requires Has(t, Applying) ==> Has(w.threads[i], Applying)
    requires Has(w.threads[i], Applying) ==> Has(t, Applying)
    requires !Tolerates(w.threads[i], e) || e.UnregisterAfterSummary?
    requires OfCompletion(e) ==> w.s.closed
    requires FreshSummary(w, e) && FreshGo(w, e)
    ensures Inv(w')
  {
    forall j | 0 <= j < |w.threads| && j != i
      ensures Tolerates(w.threads[j], e)
    {
    }
    KeepThreadsLogged(w, w', i, t, e);
    KeepExclusive(w.threads, i, t);
    LogOkGrows(w, w', e);
    PoliteGrows(w, w', e);
    LogGrows(w.log, e);
    CompletionGrows(w, w', i, t, e);
  }

  lemma CompletionGrows(w: World, w': World, i: nat, t: Thread, e: Event)
    requires CompletionOk(w) && ThreadsOk(w) && i < |w.threads|
    requires w' == w.(threads := w.threads[i := t], log := w.log + [e])
    requires Has(w.threads[i], Applying) ==> Has(t, Applying)
    requires OfCompletion(e) ==> w.s.closed && Has(w.threads[i], Applying)
    ensures CompletionOk(w')
  {
    LogGrows(w.log, e);
    if NoneIn(w'.threads, Applying) {
      forall j | 0 <= j < |w.threads|
        ensures !Has(w.threads[j], Applying)
      {
        assert !Has(w'.threads[j], Applying);
      }
      assert w'.threads[i] == t;
    }
  }

  lemma VisitorSummaryKeepsInv(w: World, i: nat, d: SummaryDispatch, ok: bool)
    requires Inv(w) && i < |w.threads| && w.threads[i].pc == SumWriteVisitor(d)
    ensures Inv(RunSumWriteVisitor(w, i, d, ok))
  {
    assert ThreadOk(w, w.threads[i]);
    var w' := RunSumWriteVisitor(w, i, d, ok);
    WriteKeepsInv(w, w', i, w'.threads[i], SummaryEvent(d, Visitor, w.visitor));
  }

  lemma ProviderSummaryKeepsInv(w: World, i: nat, d: SummaryDispatch, ok: bool)
    requires Inv(w) && i < |w.threads| && w.threads[i].pc == SumWriteProvider(d)
    ensures Inv(RunSumWriteProvider(w, i, d, ok))
  {
    assert ThreadOk(w, w.threads[i]);
    var w' := RunSumWriteProvider(w, i, d, ok);
    WriteKeepsInv(w, w', i, w'.threads[i], SummaryEvent(d, Provider, w.attached.value));
  }

  lemma VisitorGoKeepsInv(w: World, i: nat, d: GoDispatch, ok: bool)
    requires Inv(w) && i < |w.threads| && w.threads[i].pc == GoWriteVisitor(d)
    ensures Inv(RunGoWriteVisitor(w, i, d, ok))
  {
    assert ThreadOk(w, w.threads[i]);
    var w' := RunGoWriteVisitor(w, i, d, ok);
    WriteKeepsInv(w, w', i, w'.threads[i], GoTo(Visitor, w.visitor));
  }

  lemma ProviderGoKeepsInv(w: World, i: nat, d: GoDispatch, ok: bool)
    requires Inv(w) && i < |w.threads| && w.threads[i].pc == GoWriteProvider(d)
    ensures Inv(RunGoWriteProvider(w, i, d, ok))
  {
    assert ThreadOk(w, w.threads[i]);
    var w' := RunGoWriteProvider(w, i, d, ok);
    WriteKeepsInv(w, w', i, w'.threads[i], GoTo(Provider, w.attached.value));
  }

  lemma UnregisterKeepsInv(w: World, i: nat)
    requires Inv(w) && i < |w.threads| && w.threads[i].pc.SumUnregister?
    ensures Inv(RunSumUnregister(w, i))
  {
    assert ThreadOk(w, w.threads[i]);
    WriteKeepsInv(w, RunSumUnregister(w, i), i, RunSumUnregister(w, i).threads[i], UnregisterAfterSummary);
  }

  lemma ApplierStillOk(w: World, w': World, t: Thread)
    requires ThreadOk(w, t) && t.pc.Apply? && t.pc.todo != []
    requires w'.log == w.log + [t.pc.todo[0]] && w'.final == w.final && w'.visitor == w.visitor
             && w'.attached == w.attached
    ensures ThreadOk(w', t.(pc := Apply(t.pc.todo[1..]))) && OfCompletion(t.pc.todo[0])
  {
    var todo := t.pc.todo;
    CompletedGrows(w.log, todo[0]);
    HeadMoves(Completed(w.log), todo);
  }

  lemma CompletedGrows(log: seq<Event>, e: Event)
    ensures Completed(log + [e]) == Completed(log) + if OfCompletion(e) then [e] else []
  {
    assert (log + [e])[..|log|] == log;
  }

  lemma HeadMoves(done: seq<Event>, todo: seq<Event>)
    requires todo != []
    ensures done + [todo[0]] + todo[1..] == done + todo
  {
  }

  lemma ApplyKeepsInv(w: World, i: nat, todo: seq<Event>)
    requires Inv(w) && i < |w.threads| && w.threads[i].pc == Apply(todo)
    ensures Inv(RunApply(w, i, todo))
  {
    assert ThreadOk(w, w.threads[i]);
    if todo == [] {
      QuietStep(w, RunApply(w, i, todo), i, RunApply(w, i, todo).threads[i]);
    } else {
      ApplyOneKeepsInv(w, i, todo);
    }
  }

  lemma ApplyOneKeepsInv(w: World, i: nat, todo: seq<Event>)
    requires Inv(w) && i < |w.threads| && w.threads[i].pc == Apply(todo) && todo != []
    ensures Inv(RunApply(w, i, todo))
  {
    assert ThreadOk(w, w.threads[i]);
    var w' := RunApply(w, i, todo);
    ApplierStillOk(w, w', w.threads[i]);
    WriteKeepsInv(w, w', i, w'.threads[i], todo[0]);
  }

  /** The program points of sendSummary, and those of sendGo. */
  predicate InSummary(pc: Pc) {
    pc.SumPrep? || pc.SumWriteVisitor? || pc.SumWriteProvider? || pc.SumArm? || pc.SumUnregister?
  }

  predicate InGo(pc: Pc) {
    pc.GoPrep? || pc.GoWriteVisitor? || pc.GoWriteProvider? || pc.GoFinalize?
  }

  lemma RunSummaryKeepsInv(w: World, i: nat, ok: bool)
    requires Inv(w) && i < |w.threads| && InSummary(w.threads[i].pc)
    ensures Inv(Run(w, i, ok))
  {
    match w.threads[i].pc
    case SumPrep => SummaryPrepKeepsInv(w, i);
    case SumWriteVisitor(d) => VisitorSummaryKeepsInv(w, i, d, ok);
    case SumWriteProvider(d) => ProviderSummaryKeepsInv(w, i, d, ok);
    case SumArm => ArmKeepsInv(w, i);
    case SumUnregister => UnregisterKeepsInv(w, i);
  }

  lemma RunGoKeepsInv(w: World, i: nat, ok: bool)
    requires Inv(w) && i < |w.threads| && InGo(w.threads[i].pc) && !w.threads[i].pc.GoFinalize?
    ensures Inv(Run(w, i, ok))
  {
    match w.threads[i].pc
    case GoPrep => GoPrepKeepsInv(w, i);
    case GoWriteVisitor(d) => VisitorGoKeepsInv(w, i, d, ok);
    case GoWriteProvider(d) => ProviderGoKeepsInv(w, i, d, ok);
  }

  lemma RunKeepsInv(w: World, i: nat, ok: bool)
    requires Inv(w) && i < |w.threads|
    ensures Inv(Run(w, i, ok))
  {
    var pc := w.threads[i].pc;
    if InSummary(pc) {
      RunSummaryKeepsInv(w, i, ok);
    } else if pc.GoFinalize? {
      FinalizeKeepsInv(w, i);
    } else if InGo(pc) {
      RunGoKeepsInv(w, i, ok);
    } else if pc.AbortNow? {
      AbortKeepsInv(w, i, pc.reason);
    } else if pc.Apply? {
      ApplyKeepsInv(w, i, pc.todo);
    }
  }

  lemma MessageKeepsInv(w: World, w': World, step: Step)
    requires Inv(w) && NextBy(w, w', step) && !step.Advance? && !step.StartServe? && !step.StartFails?
    ensures Inv(w')
  {
    match step
    case Join(control) => JoinKeepsInv(w, control);
    case TimerFires => TimerKeepsInv(w);
    case GetReport(i, report) => ReportKeepsInv(w, i, report);
    case GetReady(i, ready) => ReadyKeepsInv(w, i, ready);
    case GetProgress(i, progress) => ProgressKeepsInv(w, i, progress);
    case GetAbort(i, msg) => AbortMessageKeepsInv(w, i, msg);
    case GetOther(_) =>
    case ReadFails(i, flag) => ReadFailureKeepsInv(w, i, flag);
  }

  lemma StartStepKeepsInv(w: World, w': World, step: Step)
    requires Inv(w) && NextBy(w, w', step) && (step.StartServe? || step.StartFails?)
    ensures Inv(w')
  {
    assert ThreadOk(w, w.threads[step.i]);
    if step.StartServe? {
      StartKeepsInv(w, step.i, Some(Visitor), Idle);
    } else {
      StartKeepsInv(w, step.i, None, AbortNow(SendStartFailed(step.to)));
    }
  }

  lemma NextKeepsInv(w: World, w': World)
    requires Inv(w) && Next(w, w')
    ensures Inv(w')
  {
    var step :| NextBy(w, w', step);
    if step.Advance? {
      RunKeepsInv(w, step.i, step.ok);
    } else if step.StartServe? || step.StartFails? {
      StartStepKeepsInv(w, w', step);
    } else {
      MessageKeepsInv(w, w', step);
    }
  }

  // ---------------------------------------------------------------- every run

  lemma {:induction false} RunsKeepInv(run: seq<World>, k: nat)
    requires IsRun(run) && k < |run|
    ensures Inv(run[k])
  {
    if k > 0 {
      RunsKeepInv(run, k - 1);
      assert StepAt(run, k - 1);
      NextKeepsInv(run[k - 1], run[k]);
    }
  }

  /**
   In every interleaving: the phases are reached in order, each role gets at most one SUMMARY and at
   most one GO, and the two summaries are mirror images of one pair of stored reports.
   */
  lemma PhasesInOrder(run: seq<World>, k: nat)
    requires IsRun(run) && k < |run|
    ensures run[k].s.goSent ==> run[k].s.visitorReady && run[k].s.providerReady
    ensures run[k].s.visitorReady || run[k].s.providerReady ==> run[k].s.summarySent
    ensures run[k].s.summarySent ==> run[k].s.visitorReport.Some? && run[k].s.providerReport.Some?
    ensures forall role :: AtMostOneSummary(run[k].log, role) && AtMostOneGo(run[k].log, role)
    ensures forall i, j :: 0 <= i < |run[k].log| && 0 <= j < |run[k].log| ==>
              IsSummary(run[k].log[i], Visitor) && IsSummary(run[k].log[j], Provider) ==>
                run[k].log[i].self == run[k].log[j].peer && run[k].log[i].peer == run[k].log[j].self
  {
    RunsKeepInv(run, k);
  }

  /** The dispatch stays, or is made now of the two reports stored at that moment. */
  predicate KeepsSummary(w: World, w': World) {
    w'.summary == w.summary ||
    (w.summary.None? && w.s.visitorReport.Some? && w.s.providerReport.Some? && w'.summary.Some?
     && OfReports(w'.summary.value, w.s.visitorReport.value, w.s.providerReport.value))
  }

  lemma RunSummaryKeepsSummary(w: World, i: nat, ok: bool)
    requires i < |w.threads| && SummaryOk(w) && InSummary(w.threads[i].pc)
    ensures KeepsSummary(w, Run(w, i, ok))
  {
  }

  lemma RunKeepsSummary(w: World, i: nat, ok: bool)
    requires i < |w.threads| && SummaryOk(w)
    ensures KeepsSummary(w, Run(w, i, ok))
  {
    if InSummary(w.threads[i].pc) { RunSummaryKeepsSummary(w, i, ok); }
  }

  lemma MessageKeepsSummary(w: World, w': World, step: Step)
    requires NextBy(w, w', step) && !step.Advance?
    ensures w'.summary == w.summary
  {
  }

  /** A dispatch tells each role its own and the other's address, as the two reports name them. */
  predicate OfReports(d: SummaryDispatch, visitor: Report, provider: Report) {
    d.visitorSelf == visitor.self && d.providerSelf == provider.self
  }

  lemma NextKeepsSummary(w: World, w': World)
    requires Next(w, w') && SummaryOk(w)
    ensures KeepsSummary(w, w')
  {
    var step :| NextBy(w, w', step);
    if step.Advance? {
      RunKeepsSummary(w, step.i, step.ok);
    } else {
      MessageKeepsSummary(w, w', step);
    }
  }

  lemma SummaryOkInRuns(run: seq<World>, k: nat)
    requires IsRun(run) && k < |run|
    ensures SummaryOk(run[k])
  {
    RunsKeepInv(run, k);
  }

  /**
   The dispatch of a run was made of the two reports stored at one moment, the first at which a summary was
   prepared.
   */
  lemma {:induction false} DispatchIsOfReports(run: seq<World>, k: nat) returns (j: nat)
    requires IsRun(run) && k < |run| && run[k].summary.Some?
    ensures j < k && run[j].summary.None? && run[j].s.visitorReport.Some? && run[j].s.providerReport.Some?
    ensures OfReports(run[k].summary.value, run[j].s.visitorReport.value, run[j].s.providerReport.value)
  {
    assert k > 0 && StepAt(run, k - 1);
    SummaryOkInRuns(run, k - 1);
    NextKeepsSummary(run[k - 1], run[k]);
    if run[k].summary == run[k - 1].summary {
      j := DispatchIsOfReports(run, k - 1);
    } else {
      j := k - 1;
    }
  }

  /**
   Every SUMMARY goes to the control of its role and carries that role's address first and the other
   role's second, as reported by one moment of the run; every GO goes to the control of its role.
   */
  lemma MessagesAsAddressed(run: seq<World>, k: nat, i: nat) returns (j: nat)
    requires IsRun(run) && k < |run| && i < |run[k].log| && run[k].log[i].SummaryTo?
    ensures j < k && run[j].s.visitorReport.Some? && run[j].s.providerReport.Some?
    ensures var e := run[k].log[i]; var v := run[j].s.visitorReport.value.self;
            var p := run[j].s.providerReport.value.self;
            if e.role == Visitor then e == SummaryTo(Visitor, run[k].visitor, v, p)
            else run[k].attached == Some(e.control) && e == SummaryTo(Provider, e.control, p, v)
    ensures GoesAsAddressed(run[k])
  {
    RunsKeepInv(run, k);
    j := DispatchIsOfReports(run, k);
  }

  /** If clients send READY only after a SUMMARY, no control is sent GO before its own SUMMARY. */
  lemma NoGoBeforeSummary(run: seq<World>, k: nat)
    requires IsRun(run) && k < |run| && run[0].polite
    ensures GoAfterSummary(run[k].log)
  {
    RunsKeepInv(run, k);
    SameConstants(run, k);
  }

  lemma {:induction false} SameConstants(run: seq<World>, k: nat)
    requires IsRun(run) && k < |run|
    ensures run[k].polite == run[0].polite && run[k].visitor == run[0].visitor
  {
    if k > 0 {
      SameConstants(run, k - 1);
      assert StepAt(run, k - 1);
      NextKeepsConstants(run[k - 1], run[k]);
    }
  }

  lemma NextKeepsConstants(w: World, w': World)
    requires Next(w, w')
    ensures w'.polite == w.polite && w'.visitor == w.visitor
  {
    var step :| NextBy(w, w', step);
    if step.Advance? {
      RunKeepsConstants(w, step.i, step.ok);
    } else {
      MessageKeepsConstants(w, w', step);
    }
  }

  /** The constants stay, and so do the outcome and the controls of a closed session. */
  predicate KeepsConstants(w: World, w': World) {
    && w'.polite == w.polite && w'.visitor == w.visitor
    && (w.s.closed ==>
          w'.s.closed && w'.s.telemetry.outcome == w.s.telemetry.outcome && w'.attached == w.attached)
  }

  lemma RunSummaryKeepsConstants(w: World, i: nat, ok: bool)
    requires i < |w.threads| && InSummary(w.threads[i].pc)
    ensures KeepsConstants(w, Run(w, i, ok))
  {
  }

  lemma RunGoKeepsConstants(w: World, i: nat, ok: bool)
    requires i < |w.threads| && InGo(w.threads[i].pc)
    ensures KeepsConstants(w, Run(w, i, ok))
  {
  }

  lemma RunKeepsConstants(w: World, i: nat, ok: bool)
    requires i < |w.threads|
    ensures KeepsConstants(w, Run(w, i, ok))
  {
    if InSummary(w.threads[i].pc) {
      RunSummaryKeepsConstants(w, i, ok);
    } else if InGo(w.threads[i].pc) {
      RunGoKeepsConstants(w, i, ok);
    }
  }

  lemma MessageKeepsConstants(w: World, w': World, step: Step)
    requires NextBy(w, w', step) && !step.Advance?
    ensures w'.polite == w.polite && w'.visitor == w.visitor
    ensures w.s.closed ==>
              w'.s.closed && w'.s.telemetry.outcome == w.s.telemetry.outcome && w'.attached == w.attached
  {
  }

  /**
   Everything the end of a session may do, in order, told by its outcome and its controls alone. An
   abort with a blank reason sends no ABORT message.
   */
  function Ending(outcome: Outcome, visitor: Control, provider: Option<Control>): seq<Event> {
    var closes := [CloseControl(visitor)] + if provider.Some? then [CloseControl(provider.value)] else [];
    match outcome
    case Pending => []
    case Established => closes + [ForgetSession, MarkEstablished, EmitTelemetry(Established)]
    case Aborted(reason) =>
      var tail := closes + [UnregisterOnAbort, ForgetSession, MarkFailed, EmitTelemetry(Aborted(reason))];
      if reason.Blank() then tail
      else [AbortTo(Visitor, visitor, reason)]
           + (if provider.Some? then [AbortTo(Provider, provider.value, reason)] else [])
           + tail
  }

  lemma EffectsAreEnding(w: World)
    requires FinalOk(w) && w.final.Some?
    ensures Effects(w.final.value) == Ending(w.s.telemetry.outcome, w.visitor, w.attached)
  {
    var c := w.final.value;
    assert Closes(c) == [CloseControl(w.visitor)] + if w.attached.Some? then [CloseControl(w.attached.value)] else [];
    if c.markEstablished {
      assert Records(c) == [ForgetSession, MarkEstablished, EmitTelemetry(Established)];
    } else {
      assert Records(c) == [UnregisterOnAbort, ForgetSession, MarkFailed, EmitTelemetry(c.outcome)];
    }
  }

  /** No effect of an ending occurs twice; in particular each control is closed once. */
  lemma EndingNeverRepeats(outcome: Outcome, visitor: Control, provider: Option<Control>)
    requires provider != Some(visitor)
    ensures var e := Ending(outcome, visitor, provider); forall i, j :: 0 <= i < j < |e| ==> e[i] != e[j]
  {
  }

  /**
   While the session is open no completion has acted. Once it is closed the ending of its outcome is
   carried out in order, each effect once, and never the ending of another outcome.
   */
  lemma CompletesAtMostOnce(run: seq<World>, k: nat)
    requires IsRun(run) && k < |run|
    ensures run[k].s.closed == run[k].s.telemetry.finalLogged == (run[k].s.telemetry.outcome != Pending)
    ensures Completed(run[k].log) <= Ending(run[k].s.telemetry.outcome, run[k].visitor, run[k].attached)
    ensures run[k].attached != Some(run[k].visitor)
    ensures run[k].s.closed ==> run[k].s.timer == None
  {
    RunsKeepInv(run, k);
    if run[k].s.closed {
      AppliedPrefix(run[k]);
      EffectsAreEnding(run[k]);
    }
  }

  lemma AppliedPrefix(w: World)
    requires Inv(w) && w.s.closed
    ensures Completed(w.log) <= Effects(w.final.value)
  {
    if !NoneIn(w.threads, Applying) {
      var i :| 0 <= i < |w.threads| && Has(w.threads[i], Applying);
      assert ThreadOk(w, w.threads[i]);
    }
  }

  /**
   A closed session whose completion nobody is still applying has completed exactly once, with the
   whole ending of its outcome; established needed summary, GO, both transports and both controls.
   */
  lemma CompletesExactlyOnce(run: seq<World>, k: nat)
    requires IsRun(run) && k < |run| && run[k].s.closed && NoneIn(run[k].threads, Applying)
    ensures Completed(run[k].log) == Ending(run[k].s.telemetry.outcome, run[k].visitor, run[k].attached)
    ensures run[k].s.telemetry.outcome == Established ==>
              && run[k].s.summarySent && run[k].s.goSent && run[k].attached.Some?
              && run[k].s.telemetry.visitorUp && run[k].s.telemetry.providerUp
  {
    RunsKeepInv(run, k);
    EffectsAreEnding(run[k]);
  }

  lemma ClosedStays(w: World, w': World)
    requires Next(w, w') && w.s.closed
    ensures w'.s.closed && w'.s.telemetry.outcome == w.s.telemetry.outcome && w'.attached == w.attached
  {
    var step :| NextBy(w, w', step);
    if step.Advance? {
      RunKeepsConstants(w, step.i, step.ok);
    } else {
      MessageKeepsConstants(w, w', step);
    }
  }

  lemma ClosedHoldsNothing(run: seq<World>, k: nat)
    requires IsRun(run) && k < |run| && run[k].s.closed
    ensures run[k].s.timer == None && run[k].s.visitorControl == None && run[k].s.providerControl == None
  {
    RunsKeepInv(run, k);
  }

  /** Once closed, a session stays closed with the same outcome, and never again holds a control or a timer. */
  lemma {:induction false} ClosingIsFinal(run: seq<World>, j: nat, k: nat)
    requires IsRun(run) && j <= k < |run| && run[j].s.closed
    ensures run[k].s.closed && run[k].s.telemetry.outcome == run[j].s.telemetry.outcome
    ensures run[k].s.timer == None && run[k].s.visitorControl == None && run[k].s.providerControl == None
    ensures run[k].attached == run[j].attached
  {
    if j < k {
      ClosingIsFinal(run, j, k - 1);
      assert StepAt(run, k - 1);
      ClosedStays(run[k - 1], run[k]);
    }
    ClosedHoldsNothing(run, k);
  }
}
