/**
 The idle timer of a tunnel (bridge/runtime_tunnel_server.go): it calls closeFn once the tunnel has had
 no active stream for a while. Inc, Dec and the timer's callback hold a mutex for part of their work;
 Stop does not, and the closed flag is read and set outside the mutex too. Any number of calls and
 callbacks run at once, one step of one of them at a time.
 */
module IdleTimers {
  import opened Wrappers

  /** The next step of a call: what stands behind the dash is done in that step. */
  datatype Pc =
    | IncEnter                 // read the closed flag
    | IncLock
    | IncAdd                   // count the stream
    | IncDisarm                // it is the first: stop the timer
    | IncUnlock
    | DecEnter                 // read the closed flag
    | DecLock
    | DecSub                   // uncount the stream; if it was the last, read the closed flag
    | DecArm                   // reset the timer
    | DecUnlock
    | StopEnter                // compare-and-swap the closed flag
    | StopDisarm               // stop the timer
    | FireLock
    | FireDecide               // no active stream: compare-and-swap the closed flag
    | FireUnlock(close: bool)
    | FireClose                // call closeFn
    | Returned

  datatype Closer = Nobody | Stopped | Fired(i: nat)

  /** `closer` says who set the closed flag, and `closings` counts the calls of closeFn. */
  datatype Timer = Timer(
    active: nat,
    closed: bool,
    armed: bool,
    mutex: Option<nat>,
    calls: seq<Pc>,
    closer: Closer,
    closings: nat)

  const INIT := Timer(0, false, true, None, [], Nobody, 0)

  datatype Step = Call(pc: Pc) | Expire | Advance(i: nat)

  function Goto(t: Timer, i: nat, pc: Pc): Timer
    requires i < |t.calls|
  {
    t.(calls := t.calls[i := pc])
  }

  function Lock(t: Timer, i: nat, pc: Pc): Option<Timer>
    requires i < |t.calls|
  {
    if t.mutex.None? then Some(Goto(t, i, pc).(mutex := Some(i))) else None
  }

  function IncStep(t: Timer, i: nat): Option<Timer>
    requires i < |t.calls|
  {
    match t.calls[i]
    case IncEnter => Some(Goto(t, i, if t.closed then Returned else IncLock))
    case IncLock => Lock(t, i, IncAdd)
    case IncAdd => Some(Goto(t, i, if t.active == 0 then IncDisarm else IncUnlock).(active := t.active + 1))
    case IncDisarm => Some(Goto(t, i, IncUnlock).(armed := false))
    case IncUnlock => Some(Goto(t, i, Returned).(mutex := None))
    case _ => None
  }

  function DecStep(t: Timer, i: nat): Option<Timer>
    requires i < |t.calls|
  {
    match t.calls[i]
    case DecEnter => Some(Goto(t, i, if t.closed then Returned else DecLock))
    case DecLock => Lock(t, i, DecSub)
    case DecSub =>
      if t.active == 0 then Some(Goto(t, i, DecUnlock))
      else Some(Goto(t, i, if t.active == 1 && !t.closed then DecArm else DecUnlock).(active := t.active - 1))
    case DecArm => Some(Goto(t, i, DecUnlock).(armed := true))
    case DecUnlock => Some(Goto(t, i, Returned).(mutex := None))
    case _ => None
  }

  function StopStep(t: Timer, i: nat): Option<Timer>
    requires i < |t.calls|
  {
    match t.calls[i]
    case StopEnter =>
      if t.closed then Some(Goto(t, i, Returned)) else Some(Goto(t, i, StopDisarm).(closed := true, closer := Stopped))
    case StopDisarm => Some(Goto(t, i, Returned).(armed := false))
    case _ => None
  }

  function FireStep(t: Timer, i: nat): Option<Timer>
    requires i < |t.calls|
  {
    match t.calls[i]
    case FireLock => Lock(t, i, FireDecide)
    case FireDecide =>
      if t.active != 0 || t.closed then Some(Goto(t, i, FireUnlock(false)))
      else Some(Goto(t, i, FireUnlock(true)).(closed := true, closer := Fired(i)))
    case FireUnlock(close) => Some(Goto(t, i, if close then FireClose else Returned).(mutex := None))
    case FireClose => Some(Goto(t, i, Returned).(closings := t.closings + 1))
    case _ => None
  }

  predicate InInc(pc: Pc) {
    pc.IncEnter? || pc.IncLock? || pc.IncAdd? || pc.IncDisarm? || pc.IncUnlock?
  }

  predicate InDec(pc: Pc) {
    pc.DecEnter? || pc.DecLock? || pc.DecSub? || pc.DecArm? || pc.DecUnlock?
  }

  predicate InStop(pc: Pc) {
    pc.StopEnter? || pc.StopDisarm?
  }

  /** One step of call `i`; None while it has to wait, or has returned. */
  function StepOf(t: Timer, i: nat): Option<Timer>
    requires i < |t.calls|
  {
    if InInc(t.calls[i]) then IncStep(t, i)
    else if InDec(t.calls[i]) then DecStep(t, i)
    else if InStop(t.calls[i]) then StopStep(t, i)
    else FireStep(t, i)
  }

  function Next(t: Timer, s: Step): Option<Timer> {
    match s
    case Call(pc) => if pc == IncEnter || pc == DecEnter || pc == StopEnter then Some(t.(calls := t.calls + [pc]))
      else None
    case Expire => if t.armed then Some(t.(armed := false, calls := t.calls + [FireLock])) else None
    case Advance(i) => if i < |t.calls| then StepOf(t, i) else None
  }

  function Run(steps: seq<Step>): Option<Timer> {
    if steps == [] then Some(INIT)
    else
      var t := Run(steps[..|steps| - 1]);
      if t.None? then None else Next(t.value, steps[|steps| - 1])
  }

  // ---------------------------------------------------------------- the invariant

  predicate HoldsMutex(pc: Pc) {
    pc.IncAdd? || pc.IncDisarm? || pc.IncUnlock? || pc.DecSub? || pc.DecArm? || pc.DecUnlock? || pc.FireDecide?
      || pc.FireUnlock?
  }

  predicate WillClose(pc: Pc) {
    pc == FireUnlock(true) || pc == FireClose
  }

  /** The mutex has the holder it names; only the first stream disarms; only who set the flag closes, and only once. */
  predicate CallOk(t: Timer, i: nat, pc: Pc) {
    && (HoldsMutex(pc) <==> t.mutex == Some(i))
    && (pc.IncDisarm? ==> t.active > 0) && (pc.DecArm? ==> t.active == 0)
    && (pc.StopDisarm? ==> t.closed)
    && (WillClose(pc) <==> t.closer == Fired(i) && t.closings == 0)
  }

  predicate CallsOk(t: Timer) {
    forall i {:trigger t.calls[i]} :: 0 <= i < |t.calls| ==> CallOk(t, i, t.calls[i])
  }

  /** A callback that has yet to decide, or a Dec about to reset the timer. */
  predicate WillLook(pc: Pc) {
    pc.FireLock? || pc.FireDecide? || pc.DecArm?
  }

  predicate Watched(t: Timer) {
    t.armed || exists i :: 0 <= i < |t.calls| && WillLook(t.calls[i])
  }

  predicate FlagOk(t: Timer) {
    && (t.mutex.Some? ==> t.mutex.value < |t.calls|)
    && (t.closed <==> t.closer != Nobody)
    && (t.closer.Fired? ==> t.closer.i < |t.calls|)
    && t.closings <= (if t.closer.Fired? then 1 else 0)
  }

  /** The timer is armed with a stream active only while the first Inc is about to disarm it. */
  predicate ArmOk(t: Timer) {
    t.armed && t.active > 0 ==> t.mutex.Some? && t.mutex.value < |t.calls| && t.calls[t.mutex.value].IncDisarm?
  }

  predicate Inv(t: Timer) {
    && CallsOk(t) && FlagOk(t) && ArmOk(t)
    && (t.active == 0 && !t.closed ==> Watched(t))
  }

  /** All that a step of call `i` may change of what other calls rely on. */
  predicate Local(t: Timer, t1: Timer, i: nat) {
    && i < |t.calls| == |t1.calls| && t1.calls == t.calls[i := t1.calls[i]]
    && (t1.mutex == t.mutex || (t.mutex == Some(i) && t1.mutex.None?) || (t.mutex.None? && t1.mutex == Some(i)))
    && (t1.active == t.active || t.mutex == Some(i))
    && (t.closed ==> t1.closed && t1.closer == t.closer)
    && (t1.closer == t.closer || (t.closer == Nobody && (t1.closer == Stopped || t1.closer == Fired(i))))
    && (t1.closings == t.closings || t.closer == Fired(i))
  }

  /** The watch over an idle timer is not lost by a step of call `i`. */
  predicate WatchKept(t: Timer, t1: Timer, i: nat)
    requires i < |t.calls| == |t1.calls|
  {
    t1.active == 0 && !t1.closed && !t1.armed && !WillLook(t1.calls[i]) ==>
      t.active == 0 && !t.armed && !WillLook(t.calls[i])
  }

  predicate GoodStep(t: Timer, t1: Timer, i: nat) {
    i < |t.calls| == |t1.calls| && FlagOk(t1) && ArmOk(t1) && WatchKept(t, t1, i)
  }

  lemma LocalKeepsCall(t: Timer, t1: Timer, i: nat, j: nat)
    requires Local(t, t1, i) && j < |t.calls| && j != i && CallOk(t, j, t.calls[j]) && FlagOk(t)
    ensures CallOk(t1, j, t1.calls[j])
  {
  }

  lemma IncIsLocal(t: Timer, i: nat)
    requires i < |t.calls| && CallOk(t, i, t.calls[i]) && FlagOk(t) && IncStep(t, i).Some?
    ensures Local(t, IncStep(t, i).value, i)
  {
  }

  lemma IncKeepsOwnCall(t: Timer, i: nat)
    requires i < |t.calls| && CallOk(t, i, t.calls[i]) && FlagOk(t) && IncStep(t, i).Some?
    ensures |IncStep(t, i).value.calls| == |t.calls| && CallOk(IncStep(t, i).value, i, IncStep(t, i).value.calls[i])
  {
  }

  lemma IncIsGood(t: Timer, i: nat)
    requires i < |t.calls| && CallOk(t, i, t.calls[i]) && FlagOk(t) && ArmOk(t) && IncStep(t, i).Some?
    ensures GoodStep(t, IncStep(t, i).value, i)
  {
  }

  lemma DecIsLocal(t: Timer, i: nat)
    requires i < |t.calls| && CallOk(t, i, t.calls[i]) && FlagOk(t) && DecStep(t, i).Some?
    ensures Local(t, DecStep(t, i).value, i)
  {
  }

  lemma DecKeepsOwnCall(t: Timer, i: nat)
    requires i < |t.calls| && CallOk(t, i, t.calls[i]) && FlagOk(t) && DecStep(t, i).Some?
    ensures |DecStep(t, i).value.calls| == |t.calls| && CallOk(DecStep(t, i).value, i, DecStep(t, i).value.calls[i])
  {
  }

  lemma DecIsGood(t: Timer, i: nat)
    requires i < |t.calls| && CallOk(t, i, t.calls[i]) && FlagOk(t) && ArmOk(t) && DecStep(t, i).Some?
    ensures GoodStep(t, DecStep(t, i).value, i)
  {
  }

  lemma StopIsLocal(t: Timer, i: nat)
    requires i < |t.calls| && CallOk(t, i, t.calls[i]) && FlagOk(t) && StopStep(t, i).Some?
    ensures Local(t, StopStep(t, i).value, i)
  {
  }

  lemma StopKeepsOwnCall(t: Timer, i: nat)
    requires i < |t.calls| && CallOk(t, i, t.calls[i]) && FlagOk(t) && StopStep(t, i).Some?
    ensures |StopStep(t, i).value.calls| == |t.calls| && CallOk(StopStep(t, i).value, i, StopStep(t, i).value.calls[i])
  {
  }

  lemma StopIsGood(t: Timer, i: nat)
    requires i < |t.calls| && CallOk(t, i, t.calls[i]) && FlagOk(t) && ArmOk(t) && StopStep(t, i).Some?
    ensures GoodStep(t, StopStep(t, i).value, i)
  {
  }

  lemma FireIsLocal(t: Timer, i: nat)
    requires i < |t.calls| && CallOk(t, i, t.calls[i]) && FlagOk(t) && FireStep(t, i).Some?
    ensures Local(t, FireStep(t, i).value, i)
  {
  }

  lemma FireKeepsOwnCall(t: Timer, i: nat)
    requires i < |t.calls| && CallOk(t, i, t.calls[i]) && FlagOk(t) && FireStep(t, i).Some?
    ensures |FireStep(t, i).value.calls| == |t.calls| && CallOk(FireStep(t, i).value, i, FireStep(t, i).value.calls[i])
  {
  }

  lemma FireIsGood(t: Timer, i: nat)
    requires i < |t.calls| && CallOk(t, i, t.calls[i]) && FlagOk(t) && ArmOk(t) && FireStep(t, i).Some?
    ensures GoodStep(t, FireStep(t, i).value, i)
  {
  }

  lemma StepIsGood(t: Timer, i: nat)
    requires i < |t.calls| && CallOk(t, i, t.calls[i]) && FlagOk(t) && ArmOk(t) && StepOf(t, i).Some?
    ensures var t1 := StepOf(t, i).value; Local(t, t1, i) && CallOk(t1, i, t1.calls[i]) && GoodStep(t, t1, i)
  {
    if InInc(t.calls[i]) { IncIsLocal(t, i); IncKeepsOwnCall(t, i); IncIsGood(t, i); }
    else if InDec(t.calls[i]) { DecIsLocal(t, i); DecKeepsOwnCall(t, i); DecIsGood(t, i); }
    else if InStop(t.calls[i]) { StopIsLocal(t, i); StopKeepsOwnCall(t, i); StopIsGood(t, i); }
    else { FireIsLocal(t, i); FireKeepsOwnCall(t, i); FireIsGood(t, i); }
  }

  lemma GoodStepKeepsInv(t: Timer, t1: Timer, i: nat)
    requires Inv(t) && Local(t, t1, i) && CallOk(t1, i, t1.calls[i]) && GoodStep(t, t1, i)
    ensures Inv(t1)
  {
    forall j | 0 <= j < |t1.calls| ensures CallOk(t1, j, t1.calls[j]) {
      if j != i { LocalKeepsCall(t, t1, i, j); }
    }
    if t1.active == 0 && !t1.closed && !t1.armed && !WillLook(t1.calls[i]) {
      var k :| 0 <= k < |t.calls| && WillLook(t.calls[k]);
      assert k != i && WillLook(t1.calls[k]);
    }
  }

  lemma NextKeepsInv(t: Timer, s: Step)
    requires Inv(t) && Next(t, s).Some?
    ensures Inv(Next(t, s).value) && (t.closed ==> Next(t, s).value.closer == t.closer)
  {
    var t1 := Next(t, s).value;
    match s
    case Call(pc) =>
      if t.active == 0 && !t.closed && !t.armed {
        var k :| 0 <= k < |t.calls| && WillLook(t.calls[k]);
        assert WillLook(t1.calls[k]);
      }
    case Expire => assert WillLook(t1.calls[|t.calls|]);
    case Advance(i) =>
      assert CallOk(t, i, t.calls[i]);
      StepIsGood(t, i);
      GoodStepKeepsInv(t, t1, i);
  }

  lemma {:induction false} RunsKeepInv(steps: seq<Step>)
    requires Run(steps).Some?
    ensures Inv(Run(steps).value)
  {
    if steps != [] {
      RunsKeepInv(steps[..|steps| - 1]);
      NextKeepsInv(Run(steps[..|steps| - 1]).value, steps[|steps| - 1]);
    }
  }

  // ---------------------------------------------------------------- main results

  /** closeFn runs at most once, and only after a callback set the flag. */
  lemma ClosesAtMostOnce(steps: seq<Step>)
    requires Run(steps).Some?
    ensures var t := Run(steps).value; t.closings <= 1 && (t.closings == 1 ==> t.closer.Fired?)
  {
    RunsKeepInv(steps);
  }

  lemma {:induction false} RunSnoc(steps: seq<Step>, s: Step)
    requires Run(steps).Some?
    ensures Run(steps + [s]) == Next(Run(steps).value, s)
  {
    assert (steps + [s])[..|steps|] == steps;
  }

  lemma {:induction false} CloserStays(steps: seq<Step>, more: seq<Step>)
    requires Run(steps).Some? && Run(steps + more).Some? && Run(steps).value.closed
    ensures Run(steps + more).value.closed && Run(steps + more).value.closer == Run(steps).value.closer
  {
    if more == [] {
      assert steps + more == steps;
    } else {
      var less := more[..|more| - 1];
      assert (steps + more)[..|steps + more| - 1] == steps + less;
      CloserStays(steps, less);
      RunsKeepInv(steps + less);
      RunsKeepInv(steps + more);
      NextKeepsInv(Run(steps + less).value, (steps + more)[|steps + more| - 1]);
    }
  }

  /** Who set the flag stays: if Stop was first, closeFn never runs, whatever follows. */
  lemma StopIsFinal(steps: seq<Step>, more: seq<Step>)
    requires Run(steps).Some? && Run(steps + more).Some? && Run(steps).value.closer == Stopped
    ensures Run(steps + more).value.closer == Stopped && Run(steps + more).value.closings == 0
  {
    RunsKeepInv(steps);
    CloserStays(steps, more);
    RunsKeepInv(steps + more);
  }

  /** With the mutex free, an open timer without active streams is armed or has a callback on its way. */
  lemma IdleIsWatched(steps: seq<Step>)
    requires Run(steps).Some?
    requires var t := Run(steps).value; t.active == 0 && !t.closed && t.mutex.None?
    ensures var t := Run(steps).value; t.armed || exists i :: 0 <= i < |t.calls| && t.calls[i].FireLock?
  {
    RunsKeepInv(steps);
    var t := Run(steps).value;
    if !t.armed {
      var k :| 0 <= k < |t.calls| && WillLook(t.calls[k]);
      assert CallOk(t, k, t.calls[k]);
    }
  }

  /** With the mutex free, an armed timer has no active stream: the first Inc has stopped it. */
  lemma ArmedIsIdle(steps: seq<Step>)
    requires Run(steps).Some? && Run(steps).value.mutex.None? && Run(steps).value.armed
    ensures Run(steps).value.active == 0
  {
    RunsKeepInv(steps);
  }

  /** A callback that decides with no active stream and an open timer closes it: nobody else can come in between. */
  lemma CallbackCloses(steps: seq<Step>, i: nat)
    requires Run(steps).Some? && i < |Run(steps).value.calls| && Run(steps).value.calls[i].FireDecide?
    requires Run(steps).value.active == 0 && !Run(steps).value.closed
    ensures Run(steps + [Advance(i)] + [Advance(i)] + [Advance(i)]).Some?
    ensures Run(steps + [Advance(i)] + [Advance(i)] + [Advance(i)]).value.closings == 1
  {
    RunsKeepInv(steps);
    assert CallOk(Run(steps).value, i, FireDecide);
    RunAdvance(steps, i);
    RunAdvance(steps + [Advance(i)], i);
    RunAdvance(steps + [Advance(i)] + [Advance(i)], i);
  }

  lemma RunAdvance(steps: seq<Step>, i: nat)
    requires Run(steps).Some? && i < |Run(steps).value.calls|
    requires var pc := Run(steps).value.calls[i]; !InInc(pc) && !InDec(pc) && !InStop(pc)
    ensures Run(steps + [Advance(i)]) == FireStep(Run(steps).value, i)
  {
    RunSnoc(steps, Advance(i));
  }

  // ---------------------------------------------------------------- streams and the decision to close

  lemma IncKeepsCloser(t: Timer, i: nat)
    requires i < |t.calls| && IncStep(t, i).Some?
    ensures IncStep(t, i).value.closer == t.closer
  {
  }

  lemma DecKeepsCloser(t: Timer, i: nat)
    requires i < |t.calls| && DecStep(t, i).Some?
    ensures DecStep(t, i).value.closer == t.closer
  {
  }

  lemma OnlyDecidingFires(t: Timer, k: nat, i: nat)
    requires k < |t.calls| && FireStep(t, k).Some? && t.closer != Fired(i) && FireStep(t, k).value.closer == Fired(i)
    ensures k == i && t.calls[i].FireDecide? && t.active == 0 && !t.closed
  {
  }

  lemma OnlyTheCallbackFires(t: Timer, s: Step, i: nat)
    requires Next(t, s).Some? && t.closer != Fired(i) && Next(t, s).value.closer == Fired(i)
    ensures s == Advance(i) && i < |t.calls| && t.calls[i].FireDecide? && t.active == 0 && !t.closed
  {
    if s.Advance? {
      var pc := t.calls[s.i];
      if InInc(pc) {
        IncKeepsCloser(t, s.i);
      } else if InDec(pc) {
        DecKeepsCloser(t, s.i);
      } else if !InStop(pc) {
        OnlyDecidingFires(t, s.i, i);
      }
    }
  }

  /** In every run, the callback that set the flag did so by its own step, from a state without active streams. */
  lemma {:induction false} DecidedIdle(steps: seq<Step>, i: nat) returns (k: nat)
    requires Run(steps).Some? && Run(steps).value.closer == Fired(i)
    ensures k < |steps| && steps[k] == Advance(i) && Run(steps[..k]).Some?
    ensures var t := Run(steps[..k]).value; t.active == 0 && !t.closed && i < |t.calls| && t.calls[i].FireDecide?
  {
    assert steps != [];
    var before := steps[..|steps| - 1];
    RunsKeepInv(before);
    if Run(before).value.closer == Fired(i) {
      k := DecidedIdle(before, i);
      assert before[..k] == steps[..k];
    } else {
      k := |steps| - 1;
      OnlyTheCallbackFires(Run(before).value, steps[k], i);
    }
  }

  /** A call of Inc that has read the flag but not counted its stream. */
  predicate BeforeCount(pc: Pc) {
    pc.IncLock? || pc.IncAdd?
  }

  /** Closed, without streams, and no Inc about to count one. */
  predicate Quiet(t: Timer) {
    t.closed && t.active == 0 && forall j :: 0 <= j < |t.calls| ==> !BeforeCount(t.calls[j])
  }

  lemma QuietStays(t: Timer, s: Step)
    requires Quiet(t) && Next(t, s).Some?
    ensures Quiet(Next(t, s).value)
  {
  }

  /** A quiet timer stays without streams for ever: calls of Inc that come later read the flag and return. */
  lemma {:induction false} QuietForEver(steps: seq<Step>, more: seq<Step>)
    requires Run(steps).Some? && Quiet(Run(steps).value) && Run(steps + more).Some?
    ensures Quiet(Run(steps + more).value)
  {
    if more == [] {
      assert steps + more == steps;
    } else {
      var less := more[..|more| - 1];
      assert (steps + more)[..|steps + more| - 1] == steps + less;
      QuietForEver(steps, less);
      QuietStays(Run(steps + less).value, (steps + more)[|steps + more| - 1]);
    }
  }

  /** The run ends with callback `i` having just decided to close. */
  predicate JustDecided(steps: seq<Step>, i: nat) {
    && Run(steps).Some? && Run(steps).value.closer == Fired(i)
    && i < |Run(steps).value.calls| && Run(steps).value.calls[i] == FireUnlock(true) && Run(steps).value.active == 0
  }

  /** After `more` steps the callback is about to call closeFn, with a stream active. */
  predicate ClosesActive(steps: seq<Step>, more: seq<Step>, i: nat) {
    && Run(steps + more).Some? && i < |Run(steps + more).value.calls|
    && Run(steps + more).value.calls[i] == FireClose && Run(steps + more).value.active > 0
  }

  /**
   From the decision: the callback lets go of the mutex, and the Inc that was in flight takes it and counts its
   stream.
   */
  lemma InFlightIncCounts(steps: seq<Step>, i: nat, j: nat)
    requires JustDecided(steps, i) && j < |Run(steps).value.calls| && Run(steps).value.calls[j].IncLock?
    ensures ClosesActive(steps, [Advance(i)] + [Advance(j)] + [Advance(j)], i)
  {
    RunsKeepInv(steps);
    assert i != j;
    RunSnoc(steps, Advance(i));
    RunSnoc(steps + [Advance(i)], Advance(j));
    RunSnoc(steps + [Advance(i)] + [Advance(j)], Advance(j));
    assert steps + ([Advance(i)] + [Advance(j)] + [Advance(j)]) == steps + [Advance(i)] + [Advance(j)] + [Advance(j)];
  }

  /**
   closeFn can come to run with a stream active if and only if, when the callback decided, some call of Inc stood
   between its reading of the flag and its taking of the mutex.
   */
  lemma ClosesActiveIff(steps: seq<Step>, i: nat)
    requires JustDecided(steps, i)
    ensures (exists more :: ClosesActive(steps, more, i)) <==>
              exists j :: 0 <= j < |Run(steps).value.calls| && Run(steps).value.calls[j].IncLock?
  {
    RunsKeepInv(steps);
    var t := Run(steps).value;
    if j :| 0 <= j < |t.calls| && t.calls[j].IncLock? {
      InFlightIncCounts(steps, i, j);
    } else {
      forall j | 0 <= j < |t.calls| ensures !BeforeCount(t.calls[j]) {
        assert CallOk(t, i, t.calls[i]) && CallOk(t, j, t.calls[j]);
      }
      forall more | Run(steps + more).Some? ensures !ClosesActive(steps, more, i) {
        QuietForEver(steps, more);
      }
    }
  }

  /** Every run in which a callback took the flag went through such a decision, right after its step. */
  lemma DecisionOf(steps: seq<Step>, i: nat) returns (k: nat)
    requires Run(steps).Some? && Run(steps).value.closer == Fired(i)
    ensures k <= |steps| && JustDecided(steps[..k], i)
  {
    k := DecidedIdle(steps, i);
    assert steps[..k + 1] == steps[..k] + [Advance(i)];
    RunsKeepInv(steps[..k]);
    RunSnoc(steps[..k], Advance(i));
    k := k + 1;
  }

  predicate WaitsForCallback(t: Timer) {
    |t.calls| == 2 && t.calls[0].IncLock? && t.calls[1].FireLock? && t.mutex.None? && t.active == 0 && !t.closed
  }

  lemma IncThenExpiry()
    ensures var first := [] + [Call(IncEnter)] + [Advance(0)] + [Expire];
            Run(first).Some? && WaitsForCallback(Run(first).value)
  {
    RunSnoc([], Call(IncEnter));
    RunSnoc([] + [Call(IncEnter)], Advance(0));
    RunSnoc([] + [Call(IncEnter)] + [Advance(0)], Expire);
  }

  lemma CallbackDecides(first: seq<Step>) returns (steps: seq<Step>)
    requires Run(first).Some? && WaitsForCallback(Run(first).value)
    ensures JustDecided(steps, 1) && |Run(steps).value.calls| == 2 && Run(steps).value.calls[0].IncLock?
  {
    RunSnoc(first, Advance(1));
    RunSnoc(first + [Advance(1)], Advance(1));
    steps := first + [Advance(1)] + [Advance(1)];
  }

  /** The condition can arise: an Inc has read the flag when a callback decides. */
  lemma InFlightIsReachable() returns (steps: seq<Step>)
    ensures JustDecided(steps, 1) && |Run(steps).value.calls| == 2 && Run(steps).value.calls[0].IncLock?
  {
    IncThenExpiry();
    steps := CallbackDecides([] + [Call(IncEnter)] + [Advance(0)] + [Expire]);
  }
}
