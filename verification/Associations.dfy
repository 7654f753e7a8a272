/**
 The bridge's association manager (bridge/p2p_runtime.go): which visitor/provider pairs are being
 punched, forgotten after 30 seconds without an update by a sweep that runs now and then.
 */
module Associations {
  import opened Wrappers

  type ID = nat
  /** A point in time in nanoseconds; ZERO is the zero value of a time, which no clock shows. */
  type Time = nat

  const BLANK: ID := 0
  const ZERO: Time := 0
  const SECOND: Time := 1_000_000_000
  const TTL: Time := 30 * SECOND
  const SWEEP_INTERVAL: Time := TTL

  /** Unknown stands for any other string. */
  datatype Phase = Binding | Punching | Established | Stale | Failed | Unknown

  datatype Entry = Entry(phase: Phase, updatedAt: Time)

  datatype Manager = Manager(byID: map<ID, Entry>, lastSweep: Time)

  const EMPTY := Manager(map[], ZERO)

  datatype Answer = Answer(phase: Phase, needPunch: bool)

  function Normalize(phase: Phase): Phase {
    if phase == Unknown then Binding else phase
  }

  predicate Pending(phase: Phase) {
    phase == Binding || phase == Punching
  }

  function NormalizePending(phase: Phase, updatedAt: Time, now: Time): Phase {
    var p := Normalize(phase);
    if updatedAt != ZERO && Pending(p) && now - updatedAt > TTL then Stale else p
  }

  predicate ShouldPrune(e: Entry, now: Time) {
    var p := Normalize(e.phase);
    if Pending(p) then e.updatedAt != ZERO && now - e.updatedAt > TTL else true
  }

  function Pruned(byID: map<ID, Entry>, now: Time): map<ID, Entry> {
    map id | id in byID && !ShouldPrune(byID[id], now) :: byID[id]
  }

  /** sweepExpiredLocked. */
  function Sweep(m: Manager, now: Time): Manager {
    if m.byID == map[] || (m.lastSweep != ZERO && now - m.lastSweep < SWEEP_INTERVAL) then m
    else Manager(Pruned(m.byID, now), now)
  }

  /** attachAt after its sweep. */
  function AttachSwept(m: Manager, id: ID, now: Time): (Manager, Answer) {
    if id !in m.byID then (m.(byID := m.byID[id := Entry(Binding, now)]), Answer(Binding, true))
    else
      var p := NormalizePending(m.byID[id].phase, m.byID[id].updatedAt, now);
      var again := p == Failed || p == Stale;
      var phase := if again then Binding else p;
      (m.(byID := m.byID[id := Entry(phase, now)]), Answer(phase, again || (!Pending(p) && p != Established)))
  }

  function AttachAt(m: Manager, id: ID, now: Time): (Manager, Answer) {
    AttachSwept(Sweep(m, now), id, now)
  }

  function MarkPunching(m: Manager, id: ID, now: Time): Manager {
    if id == BLANK || id !in m.byID then m else m.(byID := m.byID[id := Entry(Punching, now)])
  }

  /** markEstablished and markFailed both forget the association. */
  function Finish(m: Manager, id: ID): Manager {
    if id == BLANK then m else m.(byID := m.byID - {id})
  }

  /** Within 30 seconds of `now`, an attach of the pair answers that it is being punched. */
  ghost predicate AnswersPunching(m: Manager, id: ID, now: Time) {
    forall later :: now <= later <= now + TTL ==> AttachAt(m, id, later).1 == Answer(Punching, false)
  }

  class AssociationManager {
    var byID: map<ID, Entry>
    var lastSweep: Time

    ghost function View(): Manager
      reads this
    {
      Manager(byID, lastSweep)
    }

    constructor ()
      ensures View() == EMPTY
    {
      byID, lastSweep := map[], ZERO;
    }

    method SweepExpired(now: Time)
      modifies this
      ensures View() == Sweep(old(View()), now)
    {
      if byID == map[] || (lastSweep != ZERO && now - lastSweep < SWEEP_INTERVAL) {
        return;
      }
      var rest := byID.Keys;
      while rest != {}
        invariant rest <= old(byID.Keys)
        invariant byID == map id | id in old(byID) && (id in rest || !ShouldPrune(old(byID)[id], now)) :: old(byID)[id]
        decreases |rest|
      {
        var id :| id in rest;
        rest := rest - {id};
        if ShouldPrune(byID[id], now) {
          byID := byID - {id};
        }
      }
      lastSweep := now;
    }

    method Attach(id: ID, now: Time) returns (phase: Phase, needPunch: bool)
      modifies this
      ensures (View(), Answer(phase, needPunch)) == AttachAt(old(View()), id, now)
    {
      SweepExpired(now);
      if id !in byID {
        byID := byID[id := Entry(Binding, now)];
        return Binding, true;
      }
      phase := NormalizePending(byID[id].phase, byID[id].updatedAt, now);
      needPunch := phase != Binding && phase != Punching && phase != Established;
      if phase == Failed || phase == Stale {
        phase, needPunch := Binding, true;
      }
      byID := byID[id := Entry(phase, now)];
    }

    /** For 30 seconds after the mark, the next attach of the pair is told that it is being punched already. */
    method SetPunching(id: ID, now: Time)
      modifies this
      ensures View() == MarkPunching(old(View()), id, now) && byID.Keys == old(byID.Keys)
      ensures id != BLANK && id in byID ==> AnswersPunching(View(), id, now)
    {
      if id == BLANK || id !in byID {
        return;
      }
      byID := byID[id := Entry(Normalize(Punching), now)];
    }

    /** After that, whenever the pair is attached again, it is asked to punch. */
    method Forget(id: ID)
      modifies this
      ensures View() == Finish(old(View()), id)
      ensures id != BLANK ==> forall later :: AttachAt(View(), id, later).1 == Answer(Binding, true)
    {
      if id != BLANK {
        byID := byID - {id};
      }
    }
  }

  // ---------------------------------------------------------------- runs

  datatype Op = Attaching(id: ID, now: Time) | Marking(id: ID, now: Time) | Finishing(id: ID)

  function Apply(m: Manager, op: Op): Manager {
    match op
    case Attaching(id, now) => AttachAt(m, id, now).0
    case Marking(id, now) => MarkPunching(m, id, now)
    case Finishing(id) => Finish(m, id)
  }

  /** The manager after a history of calls. */
  function After(ops: seq<Op>): Manager {
    if ops == [] then EMPTY else Apply(After(ops[..|ops| - 1]), ops[|ops| - 1])
  }

  /** The latest time in a history. */
  function Latest(ops: seq<Op>): Time {
    if ops == [] then ZERO
    else if ops[|ops| - 1].Finishing? then Latest(ops[..|ops| - 1])
    else ops[|ops| - 1].now
  }

  /** The clock of a history never shows zero and never goes back. */
  predicate Ordered(ops: seq<Op>) {
    ops == [] ||
    (Ordered(ops[..|ops| - 1]) && (ops[|ops| - 1].Finishing?
      || (ops[|ops| - 1].now > ZERO && Latest(ops[..|ops| - 1]) <= ops[|ops| - 1].now)))
  }

  /** When the pair was last updated, if it was not finished since: an attach, or a punching mark that found it. */
  function Updated(ops: seq<Op>, id: ID): Option<Time> {
    if ops == [] then None
    else
      var before := ops[..|ops| - 1];
      var op := ops[|ops| - 1];
      if op.id != id then Updated(before, id)
      else match op
        case Attaching(_, now) => Some(now)
        case Marking(_, now) => if id != BLANK && id in After(before).byID then Some(now) else Updated(before, id)
        case Finishing(_) => if id != BLANK then None else Updated(before, id)
  }

  predicate AllPending(m: Manager) {
    forall id :: id in m.byID ==> Pending(m.byID[id].phase)
  }

  /** Only the phases binding and punching are ever stored, whatever the clocks show. */
  lemma {:induction false} OnlyPendingStored(ops: seq<Op>)
    ensures AllPending(After(ops))
  {
    if ops != [] { OnlyPendingStored(ops[..|ops| - 1]); }
  }

  /** An update is in the past, and a stored pair shows the time of its last update; one that was swept has expired. */
  predicate Tracks(e: Option<Entry>, last: Option<Time>, latest: Time) {
    && (last.Some? ==> ZERO < last.value <= latest)
    && (e.Some? ==> last == Some(e.value.updatedAt))
    && (e.None? && last.Some? ==> latest - last.value > TTL)
  }

  function Lookup(m: Manager, id: ID): Option<Entry> {
    if id in m.byID then Some(m.byID[id]) else None
  }

  lemma {:induction false} EntriesTrackUpdates(ops: seq<Op>, id: ID)
    requires Ordered(ops)
    ensures Tracks(Lookup(After(ops), id), Updated(ops, id), Latest(ops))
  {
    if ops != [] {
      var before := ops[..|ops| - 1];
      EntriesTrackUpdates(before, id);
      OnlyPendingStored(before);
      var op := ops[|ops| - 1];
      if op.Attaching? && op.id != id { SweepDrops(After(before), id, op.now); }
    }
  }

  /** A sweep drops a stored pair only once it has expired. */
  lemma SweepDrops(m: Manager, id: ID, now: Time)
    requires AllPending(m)
    ensures Lookup(Sweep(m, now), id) == Lookup(m, id) ||
            (id in m.byID && m.byID[id].updatedAt != ZERO && now - m.byID[id].updatedAt > TTL
              && id !in Sweep(m, now).byID)
  {
  }

  // ---------------------------------------------------------------- main results

  /** A caller is told to punch exactly when the pair has no update, or none within the last 30 seconds. */
  lemma NeedPunchIff(ops: seq<Op>, id: ID, now: Time)
    requires Ordered(ops) && Latest(ops) <= now && now > ZERO
    ensures var a := AttachAt(After(ops), id, now).1;
            && (a.needPunch <==> Updated(ops, id).None? || now - Updated(ops, id).value > TTL)
            && (a.needPunch ==> a.phase == Binding)
            && (!a.needPunch ==> id in After(ops).byID && a.phase == After(ops).byID[id].phase)
  {
    EntriesTrackUpdates(ops, id);
    OnlyPendingStored(ops);
    SweepDrops(After(ops), id, now);
  }

  predicate Finished(ops: seq<Op>, id: ID) {
    exists j :: 0 <= j < |ops| && ops[j] == Finishing(id)
  }

  /** After an attach and with no finish since, there is an update at least as recent. */
  lemma {:induction false} UpdatedSince(before: seq<Op>, id: ID, t: Time, after: seq<Op>)
    requires Ordered(before + [Attaching(id, t)] + after) && !Finished(after, id)
    ensures var u := Updated(before + [Attaching(id, t)] + after, id); u.Some? && u.value >= t
  {
    var ops := before + [Attaching(id, t)] + after;
    if after == [] {
      assert ops[|ops| - 1] == Attaching(id, t);
    } else {
      var shorter := after[..|after| - 1];
      assert ops[..|ops| - 1] == before + [Attaching(id, t)] + shorter;
      assert ops[|ops| - 1] == after[|after| - 1];
      assert forall j :: 0 <= j < |shorter| ==> shorter[j] == after[j];
      assert !Finished(shorter, id);
      UpdatedSince(before, id, t, shorter);
      LatestFrom(before, id, t, shorter);
    }
  }

  lemma {:induction false} LatestFrom(before: seq<Op>, id: ID, t: Time, after: seq<Op>)
    requires Ordered(before + [Attaching(id, t)] + after)
    ensures Latest(before + [Attaching(id, t)] + after) >= t
  {
    var ops := before + [Attaching(id, t)] + after;
    if after == [] {
      assert ops[|ops| - 1] == Attaching(id, t);
    } else {
      assert ops[..|ops| - 1] == before + [Attaching(id, t)] + after[..|after| - 1];
      assert ops[|ops| - 1] == after[|after| - 1];
      LatestFrom(before, id, t, after[..|after| - 1]);
    }
  }

  /** Two answers that ask to punch for one pair have a finish between them, or 30 seconds without an update. */
  lemma PunchesAreApart(before: seq<Op>, id: ID, t: Time, after: seq<Op>, now: Time)
    requires Ordered(before + [Attaching(id, t)] + after) && Latest(before + [Attaching(id, t)] + after) <= now
             && now > ZERO
    requires AttachAt(After(before + [Attaching(id, t)] + after), id, now).1.needPunch
    ensures Finished(after, id) ||
            (var u := Updated(before + [Attaching(id, t)] + after, id); u.Some? && t <= u.value && now - u.value > TTL)
  {
    NeedPunchIff(before + [Attaching(id, t)] + after, id, now);
    if !Finished(after, id) { UpdatedSince(before, id, t, after); }
  }

  // ---------------------------------------------------------------- the sweep does not show

  /** A manager that never sweeps. */
  function LazyApply(m: Manager, op: Op): Manager {
    match op
    case Attaching(id, now) => AttachSwept(m, id, now).0
    case Marking(id, now) => MarkPunching(m, id, now)
    case Finishing(id) => Finish(m, id)
  }

  function LazyAfter(ops: seq<Op>): Manager {
    if ops == [] then EMPTY else LazyApply(LazyAfter(ops[..|ops| - 1]), ops[|ops| - 1])
  }

  /** The lazy manager stores the same, and besides only what has expired by `now`. */
  predicate Hides(e: Option<Entry>, lazy: Option<Entry>, now: Time) {
    e == lazy || (e.None? && lazy.Some? && Pending(lazy.value.phase) && lazy.value.updatedAt != ZERO
      && now - lazy.value.updatedAt > TTL)
  }

  /** The pair was attached and has not been finished since. */
  predicate Attached(ops: seq<Op>, id: ID) {
    ops != [] &&
    var op := ops[|ops| - 1];
    if op.Attaching? && op.id == id then true
    else if op.Finishing? && op.id == id && id != BLANK then false
    else Attached(ops[..|ops| - 1], id)
  }

  /** No punching mark comes for a pair that is attached but was already swept. */
  predicate MarksFind(ops: seq<Op>) {
    ops == [] ||
    var before := ops[..|ops| - 1];
    var op := ops[|ops| - 1];
    MarksFind(before) && (op.Marking? && op.id != BLANK && Attached(before, op.id) ==> op.id in After(before).byID)
  }

  /** The lazy manager stores exactly the attached pairs. */
  lemma {:induction false} LazyStoresAttached(ops: seq<Op>, id: ID)
    ensures id in LazyAfter(ops).byID <==> Attached(ops, id)
  {
    if ops != [] { LazyStoresAttached(ops[..|ops| - 1], id); }
  }

  lemma {:induction false} LazyOnlyPending(ops: seq<Op>)
    ensures AllPending(LazyAfter(ops))
  {
    if ops != [] { LazyOnlyPending(ops[..|ops| - 1]); }
  }

  lemma {:induction false} LazyHides(ops: seq<Op>, id: ID)
    requires Ordered(ops) && MarksFind(ops)
    ensures Hides(Lookup(After(ops), id), Lookup(LazyAfter(ops), id), Latest(ops))
  {
    if ops != [] {
      var before := ops[..|ops| - 1];
      LazyHides(before, id);
      OnlyPendingStored(before);
      LazyOnlyPending(before);
      EntriesTrackUpdates(before, id);
      LazyStoresAttached(before, id);
      var op := ops[|ops| - 1];
      if op.Attaching? { AttachHides(After(before), LazyAfter(before), op.id, op.now, id, Latest(before)); }
    }
  }

  /** An attach of any pair `a` leaves what is stored for `id` alike, up to what has expired. */
  lemma AttachHides(m: Manager, lazy: Manager, a: ID, now: Time, id: ID, latest: Time)
    requires AllPending(m) && AllPending(lazy) && latest <= now && now > ZERO
    requires id in m.byID ==> m.byID[id].updatedAt != ZERO
    requires Hides(Lookup(m, id), Lookup(lazy, id), latest)
    ensures Hides(Lookup(AttachAt(m, a, now).0, id), Lookup(AttachSwept(lazy, a, now).0, id), now)
  {
    SweepDrops(m, id, now);
  }

  /** After the history, every attach answers as if there had been no sweep. */
  ghost predicate AnswersAgree(ops: seq<Op>) {
    forall id, now :: Latest(ops) <= now && now > ZERO ==>
      AttachAt(After(ops), id, now).1 == AttachSwept(LazyAfter(ops), id, now).1
  }

  /** With marks that find their pairs, every attach answers as if there were no sweep. */
  lemma SweepDoesNotShow(ops: seq<Op>)
    requires Ordered(ops) && MarksFind(ops)
    ensures AnswersAgree(ops)
  {
    forall id, now | Latest(ops) <= now && now > ZERO
      ensures AttachAt(After(ops), id, now).1 == AttachSwept(LazyAfter(ops), id, now).1
    {
      LazyHides(ops, id);
      OnlyPendingStored(ops);
      EntriesTrackUpdates(ops, id);
      SweepDrops(After(ops), id, now);
    }
  }

  /** Right after a mark that does not find its pair, an attach of the pair tells the two managers apart. */
  lemma MissedMarkShows(ops: seq<Op>)
    requires ops != [] && Ordered(ops) && MarksFind(ops[..|ops| - 1]) && !MarksFind(ops)
    ensures !AnswersAgree(ops)
  {
    var before := ops[..|ops| - 1];
    var op := ops[|ops| - 1];
    LazyStoresAttached(before, op.id);
    assert LazyAfter(ops).byID[op.id] == Entry(Punching, op.now);
    assert op.id !in After(ops).byID;
    assert AttachAt(After(ops), op.id, op.now).1 == Answer(Binding, true);
    assert AttachSwept(LazyAfter(ops), op.id, op.now).1 == Answer(Punching, false);
  }

  /**
   All along a history, every attach answers as if there were no sweep, if and only if no punching mark comes
   for a pair that is attached but was already swept.
   */
  lemma {:induction false} SweepDoesNotShowIff(ops: seq<Op>)
    requires Ordered(ops)
    ensures (forall k :: 0 <= k <= |ops| ==> AnswersAgree(ops[..k])) <==> MarksFind(ops)
  {
    assert ops[..|ops|] == ops;
    if MarksFind(ops) {
      SweepDoesNotShow(ops);
    }
    if ops != [] {
      var before := ops[..|ops| - 1];
      SweepDoesNotShowIff(before);
      assert forall k :: 0 <= k <= |before| ==> before[..k] == ops[..k];
      if MarksFind(before) && !MarksFind(ops) { MissedMarkShows(ops); }
    }
  }

  /** In one state, whether the sweep runs first makes no difference to the answer nor to the pair's entry. */
  lemma SweepDoesNotShowAtOnce(ops: seq<Op>, id: ID, now: Time)
    requires now > ZERO
    ensures AttachAt(After(ops), id, now).1 == AttachSwept(After(ops), id, now).1
    ensures Lookup(AttachAt(After(ops), id, now).0, id) == Lookup(AttachSwept(After(ops), id, now).0, id)
  {
    OnlyPendingStored(ops);
    SweepDrops(After(ops), id, now);
  }

  /**
   A mark for a pair that was swept: the next attach asks to punch; without the sweep the mark would have revived
   it.
   */
  lemma LateMarkShows()
    ensures var ops := [Attaching(1, SECOND), Attaching(2, 40 * SECOND), Marking(1, 41 * SECOND)];
            && Ordered(ops) && !MarksFind(ops)
            && AttachAt(After(ops), 1, 42 * SECOND).1 == Answer(Binding, true)
            && AttachSwept(LazyAfter(ops), 1, 42 * SECOND).1 == Answer(Punching, false)
  {
    var one := [Attaching(1, SECOND)];
    var two := [Attaching(1, SECOND), Attaching(2, 40 * SECOND)];
    var three := [Attaching(1, SECOND), Attaching(2, 40 * SECOND), Marking(1, 41 * SECOND)];
    assert one[..0] == [] && two[..1] == one && three[..2] == two;
    assert After(one) == Manager(map[1 := Entry(Binding, SECOND)], ZERO) && LazyAfter(one) == After(one);
    assert Pruned(After(one).byID, 40 * SECOND) == map[];
    assert After(two) == Manager(map[2 := Entry(Binding, 40 * SECOND)], 40 * SECOND);
    assert LazyAfter(two) == Manager(map[1 := Entry(Binding, SECOND), 2 := Entry(Binding, 40 * SECOND)], ZERO);
    assert After(three) == After(two);
    assert Attached(one, 1) && Attached(two, 1);
    assert LazyAfter(three).byID[1] == Entry(Punching, 41 * SECOND);
    assert Ordered(one[..0]) && Latest(one[..0]) == ZERO;
    assert one[0].now == SECOND > ZERO;
    assert Ordered(one) && Latest(one) == SECOND;
    assert two[1].now == 40 * SECOND > ZERO;
    assert Ordered(two) && Latest(two) == 40 * SECOND;
  }
}
