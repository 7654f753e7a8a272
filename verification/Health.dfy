/**
 The health checker (client/health.go): a schedule of checks ordered by time, rounds that take out what
 is due and put it back at its next time, and the failure counts behind the reported statuses.
 */
module Health {
  import opened Wrappers

  type Time = int
  type Target = nat

  const SECOND := 1_000_000_000

  /** A check with its interval in seconds, its failure limit and its timeout. */
  datatype Check = Check(id: nat, interval: int, maxFail: int, timeout: int)

  datatype Schedule = Schedule(check: Check, next: Time)

  predicate ValidCheck(c: Check) {
    c.maxFail > 0 && c.interval > 0 && c.timeout > 0
  }

  // ---------------------------------------------------------------- the next time of a check

  /** The time `k` intervals after `previous`. */
  function After(c: Check, previous: Time, k: int): Time {
    previous + k * (c.interval * SECOND)
  }

  /** nextHealthCheckTime; the division of durations truncates toward zero. */
  function NextTime(c: Check, previous: Time, now: Time): Time {
    var interval := c.interval * SECOND;
    if interval <= 0 then now
    else if previous + interval > now then previous + interval
    else After(c, previous, (now - previous) / interval + 1)
  }

  /**
   The next time is the first whole number of intervals, at least one, after the previous time that is later than
   now.
   */
  lemma NextTimeIsLeast(c: Check, previous: Time, now: Time) returns (k: int)
    requires c.interval > 0
    ensures k >= 1 && NextTime(c, previous, now) == After(c, previous, k) > now
    ensures forall j :: 1 <= j < k ==> After(c, previous, j) <= now
  {
    var interval := c.interval * SECOND;
    if previous + interval > now {
      k := 1;
      assert After(c, previous, 1) == previous + interval;
    } else {
      var d := now - previous;
      k := d / interval + 1;
      assert d == interval * (d / interval) + d % interval;
      Distributes(interval, d / interval);
      forall j | 1 <= j < k ensures After(c, previous, j) <= now {
        Monotone(interval, j, d / interval);
      }
    }
  }

  lemma Distributes(a: int, b: int)
    ensures (b + 1) * a == a * b + a
  {
  }

  lemma Monotone(a: int, j: int, k: int)
    requires a > 0 && j <= k
    ensures j * a <= a * k
  {
    assert a * k - j * a == a * (k - j);
  }

  // ---------------------------------------------------------------- rounds

  /** Where a check that was due is put. */
  type Mover = Schedule -> Schedule

  function ToNextTime(now: Time): Mover {
    (s: Schedule) => Schedule(s.check, NextTime(s.check, s.next, now))
  }

  /** A mover keeps the check and moves every valid one beyond now. */
  ghost predicate MovesOn(move: Mover, now: Time) {
    forall s :: move(s).check == s.check && (ValidCheck(s.check) ==> move(s).next > now)
  }

  lemma NextTimeMovesOn(now: Time)
    ensures MovesOn(ToNextTime(now), now)
  {
    forall s: Schedule ensures ToNextTime(now)(s).check == s.check
      && (ValidCheck(s.check) ==> ToNextTime(now)(s).next > now) {
      if ValidCheck(s.check) { var _ := NextTimeIsLeast(s.check, s.next, now); }
    }
  }

  /** The checks of a schedule, with repetition. */
  function Checks(s: seq<Schedule>): multiset<Check> {
    if s == [] then multiset{} else multiset{s[0].check} + Checks(s[1..])
  }

  lemma {:induction false} ChecksAppend(a: seq<Schedule>, b: seq<Schedule>)
    ensures Checks(a + b) == Checks(a) + Checks(b)
  {
    if a == [] {
      assert a + b == b;
    } else {
      assert (a + b)[1..] == a[1..] + b;
      ChecksAppend(a[1..], b);
    }
  }

  lemma ChecksCons(s: Schedule, rest: seq<Schedule>)
    ensures Checks([s] + rest) == multiset{s.check} + Checks(rest)
  {
    assert ([s] + rest)[1..] == rest;
  }

  predicate AllValid(s: seq<Schedule>) {
    forall i :: 0 <= i < |s| ==> ValidCheck(s[i].check)
  }

  /** Entries put back after a round; one that is no longer valid is left out. */
  function Rescheduled(due: seq<Schedule>, move: Mover): seq<Schedule> {
    if due == [] then [] else (if ValidCheck(due[0].check) then [move(due[0])] else []) + Rescheduled(due[1..], move)
  }

  lemma {:induction false} ReschedulingKeepsChecks(due: seq<Schedule>, move: Mover, now: Time)
    requires AllValid(due) && MovesOn(move, now)
    ensures Checks(Rescheduled(due, move)) == Checks(due)
  {
    if due != [] {
      ReschedulingKeepsChecks(due[1..], move, now);
      assert Rescheduled(due, move)[1..] == Rescheduled(due[1..], move);
    }
  }

  /** A round: what is due moves on, the rest stays. */
  function Round(heap: seq<Schedule>, move: Mover, now: Time): seq<Schedule> {
    if heap == [] then [] else [if heap[0].next > now then heap[0] else move(heap[0])] + Round(heap[1..], move, now)
  }

  lemma {:induction false} RoundIsLater(heap: seq<Schedule>, move: Mover, now: Time)
    requires AllValid(heap) && MovesOn(move, now)
    ensures forall s :: s in multiset(Round(heap, move, now)) ==> s.next > now
  {
    if heap != [] {
      RoundIsLater(heap[1..], move, now);
      assert Round(heap, move, now) == [Round(heap, move, now)[0]] + Round(heap[1..], move, now);
    }
  }

  /** A round that takes out the due entries in front and puts them back. */
  lemma {:induction false} RoundSplits(due: seq<Schedule>, later: seq<Schedule>, move: Mover, now: Time)
    requires AllValid(due) && (forall i :: 0 <= i < |due| ==> due[i].next <= now)
             && (forall i :: 0 <= i < |later| ==> later[i].next > now)
    ensures Round(due + later, move, now) == Rescheduled(due, move) + later
  {
    if due != [] {
      assert (due + later)[1..] == due[1..] + later;
      RoundSplits(due[1..], later, move, now);
    } else {
      assert due + later == later && Rescheduled(due, move) + later == later;
      RoundOfLater(later, move, now);
    }
  }

  lemma {:induction false} RoundOfLater(later: seq<Schedule>, move: Mover, now: Time)
    requires forall i :: 0 <= i < |later| ==> later[i].next > now
    ensures Round(later, move, now) == later
  {
    if later != [] { RoundOfLater(later[1..], move, now); }
  }

  /** A heap is given by its entries in order of time. */
  predicate Ordered(heap: seq<Schedule>) {
    forall i, j :: 0 <= i < j < |heap| ==> heap[i].next <= heap[j].next
  }

  /** Where an entry goes: behind all that are not later. */
  function Insert(heap: seq<Schedule>, s: Schedule): seq<Schedule> {
    if heap == [] || s.next < heap[0].next then [s] + heap else [heap[0]] + Insert(heap[1..], s)
  }

  lemma {:induction false} InsertEntries(heap: seq<Schedule>, s: Schedule)
    ensures multiset(Insert(heap, s)) == multiset(heap) + multiset{s}
  {
    if heap != [] && s.next >= heap[0].next {
      InsertEntries(heap[1..], s);
      assert heap == [heap[0]] + heap[1..];
    }
  }

  lemma {:induction false} InsertKeepsOrder(heap: seq<Schedule>, s: Schedule)
    requires Ordered(heap)
    ensures Ordered(Insert(heap, s))
  {
    if heap != [] && s.next >= heap[0].next {
      InsertKeepsOrder(heap[1..], s);
      InsertEntries(heap[1..], s);
      var r := Insert(heap[1..], s);
      forall j | 0 <= j < |r| ensures heap[0].next <= r[j].next {
        assert r[j] in multiset(r);
        assert r[j] in multiset(heap[1..]) || r[j] == s;
      }
    }
  }

  lemma {:induction false} InsertCounts(heap: seq<Schedule>, s: Schedule, c: Check)
    ensures Checks(Insert(heap, s))[c] == Checks(heap)[c] + if s.check == c then 1 else 0
  {
    if heap == [] || s.next < heap[0].next {
      ChecksCons(s, heap);
    } else {
      InsertCounts(heap[1..], s, c);
      ChecksCons(heap[0], Insert(heap[1..], s));
    }
  }

  lemma InsertAddsCheck(heap: seq<Schedule>, s: Schedule)
    ensures Checks(Insert(heap, s)) == Checks(heap) + multiset{s.check}
  {
    forall c ensures Checks(Insert(heap, s))[c] == (Checks(heap) + multiset{s.check})[c] { InsertCounts(heap, s, c); }
  }

  lemma SplitOrdered(all: seq<Schedule>, k: nat, now: Time)
    requires Ordered(all) && AllValid(all) && k <= |all| && (k < |all| ==> all[k].next > now)
    ensures all == all[..k] + all[k..] && Ordered(all[k..]) && AllValid(all[k..]) && AllValid(all[..k])
    ensures forall i :: 0 <= i < |all[k..]| ==> all[k..][i].next > now
  {
    forall i | 0 <= i < |all| - k ensures all[k..][i].next > now {
      if i > 0 { assert all[k].next <= all[k + i].next; }
    }
  }

  /** The valid ones of the configured checks. */
  function Configured(checks: seq<Check>): multiset<Check> {
    if checks == [] then multiset{}
    else
      var less := Configured(checks[..|checks| - 1]);
      if ValidCheck(checks[|checks| - 1]) then less + multiset{checks[|checks| - 1]} else less
  }

  /** The first entry of a check: at once, or after one interval. */
  function First(now: Time, afterInterval: bool): Check -> Schedule {
    (c: Check) => Schedule(c, if afterInterval then NextTime(c, now, now) else now)
  }

  predicate AllFrom(heap: seq<Schedule>, first: Check -> Schedule) {
    forall i :: 0 <= i < |heap| ==> heap[i] == first(heap[i].check)
  }

  predicate DistinctChecks(checks: seq<Check>) {
    forall i, j :: 0 <= i < j < |checks| ==> checks[i] != checks[j]
  }

  lemma {:induction false} ConfiguredOnce(checks: seq<Check>, c: Check)
    requires DistinctChecks(checks)
    ensures Configured(checks)[c] == if c in checks && ValidCheck(c) then 1 else 0
  {
    if checks != [] {
      ConfiguredOnce(checks[..|checks| - 1], c);
      assert checks == checks[..|checks| - 1] + [checks[|checks| - 1]];
    }
  }

  /** The entries that are due. */
  function Due(heap: seq<Schedule>, now: Time): seq<Schedule> {
    if heap == [] then [] else (if heap[0].next <= now then [heap[0]] else []) + Due(heap[1..], now)
  }

  lemma {:induction false} DueInFront(due: seq<Schedule>, later: seq<Schedule>, now: Time)
    requires (forall i :: 0 <= i < |due| ==> due[i].next <= now)
             && (forall i :: 0 <= i < |later| ==> later[i].next > now)
    ensures Due(due + later, now) == due
  {
    if due != [] {
      assert (due + later)[1..] == due[1..] + later;
      DueInFront(due[1..], later, now);
    } else if later != [] {
      assert due + later == later && [] + later[1..] == later[1..];
      DueInFront([], later[1..], now);
    }
  }

  /** A check has an entry that is not later than now. */
  predicate IsDue(heap: seq<Schedule>, now: Time, c: Check) {
    exists i :: 0 <= i < |heap| && heap[i].check == c && heap[i].next <= now
  }

  /** Exactly the due checks are scheduled twice after a round, and only if it had a reset. */
  ghost predicate TwiceExactly(heap: seq<Schedule>, now: Time, after: multiset<Check>, reset: bool) {
    forall c :: after[c] == 2 <==> reset && IsDue(heap, now, c)
  }

  lemma TakenOut(due: seq<Schedule>, later: seq<Schedule>, now: Time)
    requires (forall i :: 0 <= i < |due| ==> due[i].next <= now)
             && (forall i :: 0 <= i < |later| ==> later[i].next > now)
    ensures Due(due + later, now) == due && Checks(due + later) == Checks(due) + Checks(later)
  {
    DueInFront(due, later, now);
    ChecksAppend(due, later);
  }

  /** A check is among the due ones exactly if it has an entry that is not later than now. */
  lemma {:induction false} DueIff(heap: seq<Schedule>, now: Time, c: Check)
    ensures c in Checks(Due(heap, now)) <==> IsDue(heap, now, c)
  {
    if heap != [] {
      DueIff(heap[1..], now, c);
      var rest := Due(heap[1..], now);
      if heap[0].next <= now { ChecksCons(heap[0], rest); } else { assert Due(heap, now) == rest; }
      if i :| 0 <= i < |heap[1..]| && heap[1..][i].check == c && heap[1..][i].next <= now {
        assert heap[i + 1] == heap[1..][i];
      }
      if i :| 0 <= i < |heap| && heap[i].check == c && heap[i].next <= now {
        if i > 0 { assert heap[1..][i - 1] == heap[i]; }
      }
    }
  }

  class HealthChecker {
    const checks: seq<Check>
    var heap: seq<Schedule>

    ghost predicate Valid()
      reads this
    {
      Ordered(heap) && AllValid(heap)
    }

    /** Every configured check that is valid is scheduled at once. */
    constructor (checks: seq<Check>, now: Time)
      ensures Valid() && this.checks == checks && Checks(heap) == Configured(checks) && AllFrom(heap, First(now, false))
    {
      this.checks := checks;
      heap := [];
      new;
      Initialize(now, false);
    }

    /** initializeHealthScheduleHeap on an empty heap. */
    method Initialize(now: Time, afterInterval: bool)
      requires heap == []
      modifies this
      ensures Valid() && Checks(heap) == Configured(checks) && AllFrom(heap, First(now, afterInterval))
    {
      var first := First(now, afterInterval);
      assert checks[..0] == [];
      for i := 0 to |checks|
        invariant Valid() && Checks(heap) == Configured(checks[..i]) && AllFrom(heap, first)
      {
        assert checks[..i + 1][..i] == checks[..i];
        if ValidCheck(checks[i]) {
          PushFirst(checks[i], first);
        }
      }
      assert checks[..|checks|] == checks;
    }

    /** The first entry of a check, beside first entries of others. */
    method PushFirst(c: Check, first: Check -> Schedule)
      requires Valid() && ValidCheck(c) && AllFrom(heap, first) && first(c).check == c
      modifies this
      ensures Valid() && AllFrom(heap, first) && Checks(heap) == Checks(old(heap)) + multiset{c}
    {
      Push(first(c));
      forall k | 0 <= k < |heap| ensures heap[k] == first(heap[k].check) {
        assert heap[k] in multiset(heap);
        assert heap[k] in multiset(old(heap)) || heap[k] == first(c);
      }
    }

    /** Reset: whatever was scheduled is forgotten, and every valid check is scheduled anew. */
    method Reset(now: Time)
      modifies this
      ensures Valid() && Checks(heap) == Configured(checks) && AllFrom(heap, First(now, true))
    {
      heap := [];
      Initialize(now, true);
    }

    /** Takes out exactly the entries that are not later than now. */
    method PopDue(now: Time) returns (due: seq<Schedule>)
      requires Valid()
      modifies this
      ensures Valid() && AllValid(due) && old(heap) == due + heap
      ensures forall i :: 0 <= i < |due| ==> due[i].next <= now
      ensures forall i :: 0 <= i < |heap| ==> heap[i].next > now
    {
      due := [];
      ghost var all := heap;
      ghost var k := 0;
      while |heap| > 0 && heap[0].next <= now
        invariant 0 <= k <= |all| && due == all[..k] && heap == all[k..]
        invariant forall i :: 0 <= i < k ==> all[i].next <= now
        decreases |heap|
      {
        due := due + [heap[0]];
        heap := heap[1..];
        k := k + 1;
      }
      SplitOrdered(all, k, now);
    }

    method Push(s: Schedule)
      requires Valid() && ValidCheck(s.check)
      modifies this
      ensures Valid() && multiset(heap) == multiset(old(heap)) + multiset{s}
              && Checks(heap) == Checks(old(heap)) + multiset{s.check}
    {
      InsertKeepsOrder(heap, s);
      InsertEntries(heap, s);
      InsertAddsCheck(heap, s);
      heap := Insert(heap, s);
      forall i | 0 <= i < |heap| ensures ValidCheck(heap[i].check) {
        assert heap[i] in multiset(heap);
        assert heap[i] in multiset(old(heap)) || heap[i] == s;
      }
    }

    /** Puts the first of some entries back, if its check is valid. */
    method Requeue(rest: seq<Schedule>, move: Mover)
      requires Valid() && rest != [] && forall s :: move(s).check == s.check
      modifies this
      ensures Valid()
      ensures multiset(heap) + multiset(Rescheduled(rest[1..], move)) ==
              multiset(old(heap)) + multiset(Rescheduled(rest, move))
      ensures Checks(heap) + Checks(Rescheduled(rest[1..], move)) == Checks(old(heap)) + Checks(Rescheduled(rest, move))
    {
      if ValidCheck(rest[0].check) {
        RescheduledHead(rest, move);
        Push(move(rest[0]));
      } else {
        assert Rescheduled(rest, move) == Rescheduled(rest[1..], move);
      }
    }

    /** Puts entries back where `move` says. */
    method Reschedule(due: seq<Schedule>, move: Mover)
      requires Valid() && forall s :: move(s).check == s.check
      modifies this
      ensures Valid() && multiset(heap) == multiset(old(heap)) + multiset(Rescheduled(due, move))
      ensures Checks(heap) == Checks(old(heap)) + Checks(Rescheduled(due, move))
    {
      var rest := due;
      while rest != []
        invariant Valid()
        invariant multiset(heap) + multiset(Rescheduled(rest, move)) ==
                  multiset(old(heap)) + multiset(Rescheduled(due, move))
        invariant Checks(heap) + Checks(Rescheduled(rest, move)) == Checks(old(heap)) + Checks(Rescheduled(due, move))
        decreases |rest|
      {
        Requeue(rest, move);
        rest := rest[1..];
      }
    }

    /**
     A round with no reset in between: the same checks are scheduled, each beyond now, and only what was due has
     moved.
     */
    method RunChecks(now: Time)
      requires Valid()
      modifies this
      ensures Valid() && Checks(heap) == Checks(old(heap))
      ensures forall i :: 0 <= i < |heap| ==> heap[i].next > now
      ensures multiset(heap) == multiset(Round(old(heap), ToNextTime(now), now))
    {
      NextTimeMovesOn(now);
      RunChecksBy(ToNextTime(now), now);
    }

    /**
     A round during whose checks the schedule is reset any number of times. Without a reset the same checks are
     scheduled; with one, every valid check once, and once more each that was due when the round began.
     */
    method RunChecksWithResets(now: Time, resets: seq<Time>)
      requires Valid()
      modifies this
      ensures Valid()
      ensures Checks(heap) == if resets == [] then Checks(old(heap))
              else Configured(checks) + Checks(Due(old(heap), now))
      ensures DistinctChecks(checks) && Checks(old(heap)) == Configured(checks) ==>
                TwiceExactly(old(heap), now, Checks(heap), resets != [])
    {
      ghost var before := heap;
      var due := PopDue(now);
      ghost var later := heap;
      ResetEach(resets);
      PutBack(due, now);
      Resettled(before, due, later, checks, resets != [], Checks(heap), now);
    }

    /** Any number of resets. */
    method ResetEach(resets: seq<Time>)
      requires Valid()
      modifies this
      ensures Valid() && Checks(heap) == if resets == [] then Checks(old(heap)) else Configured(checks)
    {
      for i := 0 to |resets|
        invariant Valid() && Checks(heap) == if i == 0 then Checks(old(heap)) else Configured(checks)
      {
        Reset(resets[i]);
      }
    }

    /** The due entries are put back at their next times. */
    method PutBack(due: seq<Schedule>, now: Time)
      requires Valid() && AllValid(due)
      modifies this
      ensures Valid() && Checks(heap) == Checks(old(heap)) + Checks(due)
    {
      NextTimeMovesOn(now);
      ReschedulingKeepsChecks(due, ToNextTime(now), now);
      Reschedule(due, ToNextTime(now));
    }

    method RunChecksBy(move: Mover, now: Time)
      requires Valid() && MovesOn(move, now)
      modifies this
      ensures Valid() && Checks(heap) == Checks(old(heap))
      ensures forall i :: 0 <= i < |heap| ==> heap[i].next > now
      ensures multiset(heap) == multiset(Round(old(heap), move, now))
    {
      var due := PopDue(now);
      ghost var later := heap;
      Reschedule(due, move);
      RoundDone(old(heap), due, later, heap, move, now);
    }
  }

  /** Putting back what was due completes a round. */
  lemma RoundDone(before: seq<Schedule>, due: seq<Schedule>, later: seq<Schedule>, after: seq<Schedule>, move: Mover,
                  now: Time)
    requires before == due + later && AllValid(before) && AllValid(due) && MovesOn(move, now)
    requires (forall i :: 0 <= i < |due| ==> due[i].next <= now)
             && (forall i :: 0 <= i < |later| ==> later[i].next > now)
    requires multiset(after) == multiset(later) + multiset(Rescheduled(due, move))
    requires Checks(after) == Checks(later) + Checks(Rescheduled(due, move))
    ensures multiset(after) == multiset(Round(before, move, now)) && Checks(after) == Checks(before)
    ensures forall i :: 0 <= i < |after| ==> after[i].next > now
  {
    RoundEntries(due, later, move, now);
    assert Checks(after) == Checks(before) by {
      ReschedulingKeepsChecks(due, move, now);
      ChecksAppend(due, later);
    }
    forall i | 0 <= i < |after| ensures after[i].next > now {
      RoundIsLater(before, move, now);
      assert after[i] in multiset(after);
    }
  }

  lemma RoundEntries(due: seq<Schedule>, later: seq<Schedule>, move: Mover, now: Time)
    requires AllValid(due) && (forall i :: 0 <= i < |due| ==> due[i].next <= now)
             && (forall i :: 0 <= i < |later| ==> later[i].next > now)
    ensures multiset(Round(due + later, move, now)) == multiset(later) + multiset(Rescheduled(due, move))
  {
    RoundSplits(due, later, move, now);
  }

  lemma RescheduledHead(rest: seq<Schedule>, move: Mover)
    requires rest != [] && ValidCheck(rest[0].check) && move(rest[0]).check == rest[0].check
    ensures multiset(Rescheduled(rest, move)) == multiset{move(rest[0])} + multiset(Rescheduled(rest[1..], move))
    ensures Checks(Rescheduled(rest, move)) == multiset{rest[0].check} + Checks(Rescheduled(rest[1..], move))
  {
    assert Rescheduled(rest, move) == [move(rest[0])] + Rescheduled(rest[1..], move);
    assert Rescheduled(rest, move)[1..] == Rescheduled(rest[1..], move);
  }

  /**
   Starting with every valid check scheduled once, exactly the due ones are scheduled twice after a round with a
   reset.
   */
  lemma TwiceIff(checks: seq<Check>, heap: seq<Schedule>, now: Time, after: multiset<Check>, reset: bool)
    requires DistinctChecks(checks) && Checks(heap) == Configured(checks)
    requires after == if reset then Configured(checks) + Checks(Due(heap, now)) else Checks(heap)
    ensures TwiceExactly(heap, now, after, reset)
  {
    forall c ensures after[c] == 2 <==> reset && IsDue(heap, now, c) {
      ConfiguredOnce(checks, c);
      DueIff(heap, now, c);
      DueAtMost(heap, now, c);
    }
  }

  /** What is scheduled after a round, from what was taken out and what the resets left. */
  lemma Resettled(before: seq<Schedule>, due: seq<Schedule>, later: seq<Schedule>, checks: seq<Check>, reset: bool,
                  after: multiset<Check>, now: Time)
    requires before == due + later && (forall i :: 0 <= i < |due| ==> due[i].next <= now)
             && (forall i :: 0 <= i < |later| ==> later[i].next > now)
    requires after == (if reset then Configured(checks) else Checks(later)) + Checks(due)
    ensures after == if reset then Configured(checks) + Checks(Due(before, now)) else Checks(before)
    ensures DistinctChecks(checks) && Checks(before) == Configured(checks) ==> TwiceExactly(before, now, after, reset)
  {
    TakenOut(due, later, now);
    assert Checks(due) + Checks(later) == Checks(later) + Checks(due);
    if DistinctChecks(checks) && Checks(before) == Configured(checks) { TwiceIff(checks, before, now, after, reset); }
  }

  lemma {:induction false} DueAtMost(heap: seq<Schedule>, now: Time, c: Check)
    ensures Checks(Due(heap, now))[c] <= Checks(heap)[c]
  {
    if heap != [] {
      DueAtMost(heap[1..], now, c);
      var rest := Due(heap[1..], now);
      if heap[0].next <= now { ChecksCons(heap[0], rest); } else { assert Due(heap, now) == rest; }
    }
  }

  // ---------------------------------------------------------------- reported statuses

  datatype Status = Down | Up

  /** The failures in a row of each target, and the status last reported for it. */
  datatype Counts = Counts(fails: map<Target, nat>, last: map<Target, Status>)

  function Fails(c: Counts, t: Target): nat {
    if t in c.fails then c.fails[t] else 0
  }

  predicate ReportedDown(c: Counts, t: Target) {
    t in c.last && c.last[t] == Down
  }

  /** The bookkeeping of doCheck for one target. */
  function Observe(c: Counts, max: nat, t: Target, failed: bool): Counts
    requires max > 0
  {
    if failed then
      var n := Fails(c, t) + 1;
      Counts(c.fails[t := n], if n % max == 0 then c.last[t := Down] else c.last)
    else Counts(c.fails[t := 0], if Fails(c, t) >= max then c.last[t := Up] else c.last)
  }

  function ObserveAll(c: Counts, max: nat, run: seq<(Target, bool)>): Counts
    requires max > 0
  {
    if run == [] then c
    else Observe(ObserveAll(c, max, run[..|run| - 1]), max, run[|run| - 1].0, run[|run| - 1].1)
  }

  lemma Multiples(n: nat, max: nat)
    requires max > 0
    ensures (n + 1) % max == 0 ==> n + 1 >= max
    ensures n + 1 == max ==> (n + 1) % max == 0
  {
    if 0 < n + 1 < max { SmallModulus(n + 1, max); }
  }

  lemma SmallModulus(n: nat, max: nat)
    requires n < max
    ensures n % max == n
  {
  }

  /**
   Over any run of checks, a target is last reported down exactly while its failures in a row have reached the
   limit.
   */
  lemma {:induction false} DownIffLimitReached(max: nat, run: seq<(Target, bool)>, t: Target)
    requires max > 0
    ensures var c := ObserveAll(Counts(map[], map[]), max, run); ReportedDown(c, t) <==> Fails(c, t) >= max
  {
    if run != [] {
      DownIffLimitReached(max, run[..|run| - 1], t);
      Multiples(Fails(ObserveAll(Counts(map[], map[]), max, run[..|run| - 1]), t), max);
    }
  }

  /** A reset forgets the failures but not what was reported. */
  function Forgotten(c: Counts): Counts {
    c.(fails := map[])
  }

  datatype Event = Checked(target: Target, failed: bool) | ResetAll

  function Then(c: Counts, max: nat, e: Event): Counts
    requires max > 0
  {
    match e
    case Checked(t, failed) => Observe(c, max, t, failed)
    case ResetAll => Forgotten(c)
  }

  /** The counts and reports after a history of checks and resets. */
  function History(max: nat, run: seq<Event>): Counts
    requires max > 0
  {
    if run == [] then Counts(map[], map[]) else Then(History(max, run[..|run| - 1]), max, run[|run| - 1])
  }

  /** How often a target has failed in a row, since it last succeeded or was reset. */
  function Streak(run: seq<Event>, t: Target): nat {
    if run == [] then 0
    else
      var before := Streak(run[..|run| - 1], t);
      match run[|run| - 1]
      case Checked(target, failed) => if target != t then before else if failed then before + 1 else 0
      case ResetAll => 0
  }

  /** At some reset the target had reached the limit, and it has not reached it again since. */
  predicate Lost(max: nat, run: seq<Event>, t: Target) {
    run != [] &&
    var before := run[..|run| - 1];
    match run[|run| - 1]
    case Checked(target, failed) => Lost(max, before, t) && !(target == t && failed && Streak(before, t) + 1 >= max)
    case ResetAll => Lost(max, before, t) || Streak(before, t) >= max
  }

  /**
   After any history of checks and resets, a target is last reported down exactly if its failures in a row have
   reached the limit, or had at a reset and have not again since.
   */
  lemma {:induction false} DownIff(max: nat, run: seq<Event>, t: Target)
    requires max > 0
    ensures var c := History(max, run);
            && Fails(c, t) == Streak(run, t)
            && (ReportedDown(c, t) <==> Streak(run, t) >= max || Lost(max, run, t))
            && !(Lost(max, run, t) && Streak(run, t) >= max)
  {
    if run != [] {
      DownIff(max, run[..|run| - 1], t);
      Multiples(Streak(run[..|run| - 1], t), max);
    }
  }

  /**
   So "reported down exactly while the failures have reached the limit" holds after a history if and only if it
   is not lost.
   */
  lemma LawHoldsIff(max: nat, run: seq<Event>, t: Target)
    requires max > 0
    ensures var c := History(max, run); (ReportedDown(c, t) <==> Fails(c, t) >= max) <==> !Lost(max, run, t)
  {
    DownIff(max, run, t);
  }

  /** In particular it holds as long as there was no reset. */
  lemma {:induction false} NothingLostWithoutReset(max: nat, run: seq<Event>, t: Target)
    requires forall i :: 0 <= i < |run| ==> run[i].Checked?
    ensures !Lost(max, run, t)
  {
    if run != [] { NothingLostWithoutReset(max, run[..|run| - 1], t); }
  }

  /** A target that is lost and then succeeds, however often, is still reported down. */
  lemma {:induction false} RecoveryIsNotReported(max: nat, run: seq<Event>, t: Target, successes: nat)
    requires max > 0 && Lost(max, run, t)
    ensures var longer := run + seq(successes, _ => Checked(t, false));
            Lost(max, longer, t) && ReportedDown(History(max, longer), t)
  {
    var longer := run + seq(successes, _ => Checked(t, false));
    if successes == 0 {
      assert longer == run;
    } else {
      assert longer[..|longer| - 1] == run + seq(successes - 1, _ => Checked(t, false));
      RecoveryIsNotReported(max, run, t, successes - 1);
    }
    DownIff(max, longer, t);
  }

  /** Some targets are lost: one that fails up to the limit and is then reset. */
  lemma {:induction false} ResetLoses(max: nat, t: Target)
    requires max > 0
    ensures Lost(max, seq(max, _ => Checked(t, true)) + [ResetAll], t)
  {
    FailsUpTo(max, t);
    var run := seq(max, _ => Checked(t, true)) + [ResetAll];
    assert run[..|run| - 1] == seq(max, _ => Checked(t, true));
  }

  lemma {:induction false} FailsUpTo(n: nat, t: Target)
    ensures Streak(seq(n, _ => Checked(t, true)), t) == n
  {
    if n > 0 {
      var run: seq<Event> := seq(n, _ => Checked(t, true));
      assert run[..n - 1] == seq(n - 1, _ => Checked(t, true));
      FailsUpTo(n - 1, t);
    }
  }

  /** What was last reported, after further reports. */
  function Reported(last: map<Target, Status>, reports: seq<(Target, Status)>): map<Target, Status> {
    if reports == [] then last
    else Reported(last, reports[..|reports| - 1])[reports[|reports| - 1].0 := reports[|reports| - 1].1]
  }

  /** One check of a list of targets, as a loop over the list. */
  class Monitor {
    const max: nat
    var fails: map<Target, nat>
    /** What was reported last for each target. */
    ghost var last: map<Target, Status>

    constructor (max: nat)
      requires max > 0
      ensures this.max == max && fails == map[] && last == map[]
    {
      this.max := max;
      fails, last := map[], map[];
    }

    /** The reports that go out are what the bookkeeping of each target in turn says was last reported. */
    method DoCheck(results: seq<(Target, bool)>) returns (reports: seq<(Target, Status)>)
      requires max > 0
      modifies this
      ensures Counts(fails, last) == ObserveAll(old(Counts(fails, last)), max, results)
      ensures last == Reported(old(last), reports)
    {
      reports := [];
      var i := 0;
      while i < |results|
        invariant 0 <= i <= |results|
        invariant Counts(fails, last) == ObserveAll(old(Counts(fails, last)), max, results[..i])
        invariant last == Reported(old(last), reports)
      {
        var report := Note(results[i].0, results[i].1);
        assert results[..i + 1][..i] == results[..i];
        if report.Some? {
          var longer := reports + [(results[i].0, report.value)];
          assert longer[..|reports|] == reports;
          reports := longer;
        }
        i := i + 1;
      }
      assert results[..i] == results;
    }

    /**
     The bookkeeping of one target, and the report it makes: down when its failures reach a multiple of the limit
     and, as long as it is reported down exactly while they have reached the limit, up exactly when it was down and
     succeeds.
     */
    method Note(t: Target, failed: bool) returns (report: Option<Status>)
      requires max > 0
      modifies this
      ensures Counts(fails, last) == Observe(old(Counts(fails, last)), max, t, failed)
      ensures last == if report.Some? then old(last)[t := report.value] else old(last)
      ensures report == Some(Down) <==> failed && (Fails(old(Counts(fails, last)), t) + 1) % max == 0
      ensures (old(ReportedDown(Counts(fails, last), t)) <==> Fails(old(Counts(fails, last)), t) >= max) ==>
                (report == Some(Up) <==> !failed && old(ReportedDown(Counts(fails, last), t)))
    {
      report := None;
      var n := if t in fails then fails[t] else 0;
      if failed {
        fails := fails[t := n + 1];
        if (n + 1) % max == 0 {
          report, last := Some(Down), last[t := Down];
        }
      } else {
        if n >= max {
          report, last := Some(Up), last[t := Up];
        }
        fails := fails[t := 0];
      }
    }

    method Reset()
      modifies this
      ensures Counts(fails, last) == Forgotten(old(Counts(fails, last)))
    {
      fails := map[];
    }
  }
}
