/**
 The round-robin pool of owners behind one file route (runtimeOwnerPool in bridge/client.go).
 */
module OwnerPools {

  /** The identity of a node; only equality and blankness matter. */
  type Uuid = nat
  const BLANK: Uuid := 0

  // ---------------------------------------------------------------- sequences of owners

  predicate Distinct(s: seq<Uuid>) {
    forall i, j :: 0 <= i < j < |s| ==> s[i] != s[j]
  }

  /** `s` with every occurrence of `x` deleted. */
  function Without(s: seq<Uuid>, x: Uuid): seq<Uuid> {
    if s == [] then []
    else if s[0] == x then Without(s[1..], x)
    else [s[0]] + Without(s[1..], x)
  }

  lemma {:induction false} WithoutMember(s: seq<Uuid>, x: Uuid, y: Uuid)
    ensures y in Without(s, x) <==> y in s && y != x
  {
    if s != [] {
      WithoutMember(s[1..], x, y);
      assert y in s <==> y == s[0] || y in s[1..];
    }
  }

  lemma {:induction false} WithoutAbsent(s: seq<Uuid>, x: Uuid)
    requires x !in s
    ensures Without(s, x) == s
  {
    if s != [] {
      assert s[0] in s;
      WithoutAbsent(s[1..], x);
    }
  }

  lemma {:induction false} WithoutConcat(a: seq<Uuid>, b: seq<Uuid>, x: Uuid)
    ensures Without(a + b, x) == Without(a, x) + Without(b, x)
  {
    if a == [] {
      assert a + b == b;
    } else {
      assert (a + b)[1..] == a[1..] + b;
      WithoutConcat(a[1..], b, x);
    }
  }

  /** `s` without the element at index `i`. */
  function DropAt(s: seq<Uuid>, i: nat): seq<Uuid>
    requires i < |s|
  {
    s[..i] + s[i + 1..]
  }

  /** Deleting the element at index `i` of a list of distinct owners is deleting that owner. */
  lemma {:induction false} WithoutAt(s: seq<Uuid>, i: nat)
    requires Distinct(s) && i < |s|
    ensures Without(s, s[i]) == DropAt(s, i)
  {
    if i == 0 {
      assert s[0] !in s[1..];
      WithoutAbsent(s[1..], s[0]);
      assert s[..0] + s[1..] == s[1..];
    } else {
      WithoutAt(s[1..], i - 1);
      assert s[1..][..i - 1] == s[1..i];
      assert s[1..][i..] == s[i + 1..];
      assert [s[0]] + (s[1..i] + s[i + 1..]) == s[..i] + s[i + 1..];
    }
  }

  /** The owners in the order in which the pool will hand them out. */
  function Upcoming(order: seq<Uuid>, next: nat): seq<Uuid>
    requires next <= |order|
  {
    order[next..] + order[..next]
  }

  /** The state of a pool: its order of owners and the position of the next one. */
  datatype Ring = Ring(order: seq<Uuid>, next: nat) {

    predicate Ok() {
      Distinct(order) && BLANK !in order && (next < |order| || (order == [] && next == 0))
    }

    function Queue(): seq<Uuid>
      requires Ok()
    {
      Upcoming(order, next)
    }

    /** The ring after `set`. */
    function Add(x: Uuid): Ring {
      if x == BLANK || x in order then this else Ring(order + [x], next)
    }

    /** The ring after `remove`. */
    function Remove(x: Uuid): Ring
      requires Ok()
    {
      if x !in order then this
      else
        var i := IndexOf(order, x);
        var rest := order[..i] + order[i + 1..];
        if rest == [] then Ring([], 0)
        else if next > i then Ring(rest, next - 1)
        else if next >= |rest| then Ring(rest, 0)
        else Ring(rest, next)
    }

    /** The ring after `selectNext`, which hands out the head of the queue. */
    function Advance(): Ring
      requires Ok()
    {
      if order == [] then this else Ring(order, if next + 1 == |order| then 0 else next + 1)
    }
  }

  function IndexOf(s: seq<Uuid>, x: Uuid): (i: nat)
    requires x in s
    ensures i < |s| && s[i] == x && x !in s[..i]
  {
    if s[0] == x then 0 else 1 + IndexOf(s[1..], x)
  }

  lemma RemoveOk(r: Ring, x: Uuid)
    requires r.Ok()
    ensures r.Remove(x).Ok()
    ensures r.Remove(x).order == Without(r.order, x)
  {
    if x in r.order {
      var i := IndexOf(r.order, x);
      WithoutAt(r.order, i);
      DropAtOk(r.order, i);
    } else {
      WithoutAbsent(r.order, x);
    }
  }

  lemma DropAtOk(s: seq<Uuid>, i: nat)
    requires Distinct(s) && i < |s|
    ensures Distinct(s[..i] + s[i + 1..]) && (BLANK !in s ==> BLANK !in s[..i] + s[i + 1..])
  {
    var rest := s[..i] + s[i + 1..];
    assert forall k :: 0 <= k < |rest| ==> rest[k] == if k < i then s[k] else s[k + 1];
  }

  /** Removing an owner leaves the order in which the others will be chosen as it was. */
  lemma RemoveKeepsQueue(r: Ring, x: Uuid)
    requires r.Ok()
    ensures r.Remove(x).Ok() && r.Remove(x).Queue() == Without(r.Queue(), x)
  {
    RemoveOk(r, x);
    if x in r.order {
      var i := IndexOf(r.order, x);
      RemovePresent(r.order, r.next, i);
      assert r.Remove(x).order == DropAt(r.order, i) && r.Remove(x).next == NextAfterDrop(r.order, r.next, i);
    } else {
      UpcomingMember(r.order, r.next, x);
      WithoutAbsent(r.Queue(), x);
    }
  }

  /** The position of the next owner once the one at `i` is gone. */
  function NextAfterDrop(order: seq<Uuid>, next: nat, i: nat): nat
    requires i < |order|
  {
    if next > i then next - 1 else if next >= |order| - 1 then 0 else next
  }

  lemma RemovePresent(order: seq<Uuid>, next: nat, i: nat)
    requires Distinct(order) && next < |order| && i < |order|
    ensures NextAfterDrop(order, next, i) <= |DropAt(order, i)|
    ensures Without(Upcoming(order, next), order[i]) == Upcoming(DropAt(order, i), NextAfterDrop(order, next, i))
  {
    WithoutConcat(order[next..], order[..next], order[i]);
    var rest := DropAt(order, i);
    if next > i {
      RemoveBehind(order, next, i);
    } else {
      RemoveAhead(order, next, i);
      if next >= |order| - 1 { WrapsToStart(rest, next); }
    }
  }

  lemma WrapsToStart(s: seq<Uuid>, n: nat)
    requires n == |s|
    ensures s[n..] + s[..n] == s[0..] + s[..0]
  {
  }

  lemma DropBehind(s: seq<Uuid>, next: nat, i: nat)
    requires i < next <= |s|
    ensures DropAt(s, i)[next - 1..] == s[next..] && DropAt(s, i)[..next - 1] == DropAt(s[..next], i)
  {
  }

  lemma RemoveBehind(order: seq<Uuid>, next: nat, i: nat)
    requires Distinct(order) && i < next < |order|
    ensures Without(order[next..], order[i]) == DropAt(order, i)[next - 1..]
    ensures Without(order[..next], order[i]) == DropAt(order, i)[..next - 1]
  {
    DropBehind(order, next, i);
    assert order[..next][i] == order[i];
    WithoutAt(order[..next], i);
    WithoutAbsent(order[next..], order[i]);
  }

  lemma DropAhead(s: seq<Uuid>, next: nat, i: nat)
    requires next <= i < |s|
    ensures DropAt(s, i)[..next] == s[..next] && DropAt(s, i)[next..] == DropAt(s[next..], i - next)
  {
    var (a, b) := (DropAt(s, i)[next..], DropAt(s[next..], i - next));
    assert |a| == |b|;
    forall k | 0 <= k < |a| ensures a[k] == b[k] {
      assert a[k] == DropAt(s, i)[next + k];
    }
  }

  lemma RemoveAhead(order: seq<Uuid>, next: nat, i: nat)
    requires Distinct(order) && next <= i < |order|
    ensures Without(order[next..], order[i]) == DropAt(order, i)[next..]
    ensures Without(order[..next], order[i]) == DropAt(order, i)[..next]
  {
    DropAhead(order, next, i);
    assert order[next..][i - next] == order[i];
    WithoutAt(order[next..], i - next);
    WithoutAbsent(order[..next], order[i]);
  }

  /** Handing out the head of the queue sends it to the end. */
  lemma AdvanceRotatesQueue(r: Ring)
    requires r.Ok() && r.order != []
    ensures r.Advance().Ok()
    ensures r.Advance().Queue() == r.Queue()[1..] + [r.Queue()[0]]
  {
    if r.next + 1 == |r.order| {
      assert r.Advance().next == 0;
    } else {
      assert r.Advance().next == r.next + 1;
    }
  }

  /** Adding an owner puts it into the queue without disturbing the others. */
  lemma AddKeepsQueue(r: Ring, x: Uuid)
    requires r.Ok() && x != BLANK && x !in r.order
    ensures r.Add(x).Ok() && Without(r.Add(x).Queue(), x) == r.Queue() && x in r.Add(x).Queue()
  {
    var r' := r.Add(x);
    assert r'.Queue() == (r.order[r.next..] + [x]) + r.order[..r.next];
    WithoutConcat(r.order[r.next..] + [x], r.order[..r.next], x);
    WithoutConcat(r.order[r.next..], [x], x);
    WithoutAbsent(r.order[r.next..], x);
    WithoutAbsent(r.order[..r.next], x);
    assert Without([x], x) == [];
    assert r.order[r.next..] + [] == r.order[r.next..];
  }

  // ---------------------------------------------------------------- the pool object

  class OwnerPool {
    var order: seq<Uuid>
    var entries: map<Uuid, Uuid>
    var next: int

    ghost predicate Valid()
      reads this
    {
      next >= 0 && View().Ok() && entries.Keys == set x | x in order
    }

    function View(): Ring
      requires next >= 0
      reads this
    {
      Ring(order, next)
    }

    constructor ()
      ensures Valid() && View() == Ring([], 0)
    {
      order, entries, next := [], map[], 0;
    }

    method Set(uuid: Uuid, value: Uuid)
      requires Valid()
      modifies this
      ensures Valid() && View() == old(View()).Add(uuid)
      ensures entries == if uuid == BLANK then old(entries) else old(entries)[uuid := value]
    {
      if uuid == BLANK {
        return;
      }
      if uuid !in entries {
        order := order + [uuid];
      }
      entries := entries[uuid := value];
      NormalizeNext();
    }

    method NormalizeNext()
      modifies this`next
      ensures next == if order == [] || old(next) < 0 || old(next) >= |order| then 0 else old(next)
      ensures order != [] ==> 0 <= next < |order|
      ensures 0 <= old(next) < |order| ==> next == old(next)
    {
      if |order| == 0 {
        next := 0;
        return;
      }
      if next < 0 || next >= |order| {
        next := 0;
      }
    }

    method Has(uuid: Uuid) returns (ok: bool)
      requires Valid()
      ensures ok == (uuid in order)
    {
      ok := uuid != BLANK && uuid in entries;
    }

    method FindIndex(uuid: Uuid) returns (index: int)
      ensures if uuid in order && uuid != BLANK then index == IndexOf(order, uuid) else index == -1
    {
      if uuid == BLANK {
        return -1;
      }
      var i := 0;
      while i < |order|
        invariant 0 <= i <= |order| && uuid !in order[..i]
      {
        if order[i] == uuid {
          FirstIndex(order, uuid, i);
          return i;
        }
        i := i + 1;
      }
      return -1;
    }

    method Remove(uuid: Uuid) returns (remaining: nat, removed: bool)
      requires Valid()
      modifies this
      ensures Valid() && View() == old(View()).Remove(uuid)
      ensures removed == (uuid in old(order))
      ensures uuid != BLANK ==> remaining == |order|
    {
      if uuid == BLANK {
        return 0, false;
      }
      if uuid !in entries {
        return |order|, false;
      }
      ghost var before := View();
      RemoveOk(before, uuid);
      KeysWithout(order, uuid);
      entries := entries - {uuid};
      var index := FindIndex(uuid);
      RemoveOrderIndex(index);
      RemovedAt(before, uuid, index, View());
      NormalizeNext();
      return |order|, true;
    }

    /** removeOrderIndexLocked: the upcoming owners are what they were, without the one at that index. */
    method RemoveOrderIndex(index: nat)
      requires index < |order| && next >= 0
      modifies this`order, this`next
      ensures Distinct(old(order)) && old(next) < |old(order)| ==>
                0 <= next <= |order| && Upcoming(order, next) == Without(old(Upcoming(order, next)), old(order)[index])
      ensures order == DropAt(old(order), index) && next >= 0
      ensures next == if order == [] then 0 else NextAfterDrop(old(order), old(next), index)
    {
      if Distinct(order) && next < |order| {
        RemovePresent(order, next, index);
      }
      order := order[..index] + order[index + 1..];
      if |order| == 0 {
        next := 0;
        return;
      }
      if next > index {
        next := next - 1;
        return;
      }
      if next >= |order| {
        next := 0;
      }
    }

    /**
     Hands out the first upcoming owner that has an entry. In a valid pool that is the head of the
     queue, which then moves to the end.
     */
    method SelectNext() returns (uuid: Uuid, count: nat, ok: bool)
      modifies this`next
      ensures count == |order|
      ensures if ok then uuid in order && uuid in entries else forall x :: x in order ==> x !in entries
      ensures old(Valid()) ==> Valid() && View() == old(View()).Advance() && ok == (order != [])
      ensures old(Valid()) && ok ==> uuid == old(View()).Queue()[0]
    {
      count := |order|;
      if count == 0 {
        return BLANK, 0, false;
      }
      NormalizeNext();
      var steps := FirstPresent();
      if steps == count {
        forall x | x in order ensures x !in entries {
          UpcomingMember(order, next, x);
        }
        assert order[0] in order;
        return BLANK, count, false;
      }
      assert old(Valid()) ==> steps == 0 by {
        assert Upcoming(order, next)[0] == order[next];
      }
      var index := Wrap(next + steps, count);
      uuid := order[index];
      next := Wrap(index + 1, count);
      return uuid, count, true;
    }

    /** How far the first upcoming owner with an entry is; the number of owners if there is none. */
    method FirstPresent() returns (i: nat)
      requires 0 <= next < |order|
      ensures i <= |order| && forall k :: 0 <= k < i ==> Upcoming(order, next)[k] !in entries
      ensures i < |order| ==> Upcoming(order, next)[i] in entries
    {
      i := 0;
      while i < |order|
        invariant 0 <= i <= |order|
        invariant forall k :: 0 <= k < i ==> Upcoming(order, next)[k] !in entries
      {
        var index := Wrap(next + i, |order|);
        if order[index] in entries {
          return;
        }
        i := i + 1;
      }
    }

    method SnapshotKeys() returns (keys: seq<Uuid>)
      requires Valid()
      ensures keys == order
    {
      keys := [];
      var i := 0;
      while i < |order|
        invariant 0 <= i <= |order| && keys == order[..i]
      {
        var uuid := order[i];
        if uuid != BLANK && uuid in entries {
          keys := keys + [uuid];
        }
        i := i + 1;
      }
    }
  }

  /** `a` modulo `n`, for an index that has run past the end at most once. */
  method Wrap(a: nat, n: nat) returns (r: nat)
    requires a < 2 * n
    ensures r == if a < n then a else a - n
  {
    if a >= n {
      ModShift(a - n, n);
    }
    r := a % n;
  }

  lemma ModShift(a: nat, n: nat)
    requires a < n
    ensures (a + n) % n == a
  {
    assert (a + n) - n * 1 == a;
    assert (a + n) / n == 1;
  }

  /** Taking out the position at which an owner stands is removing the owner. */
  lemma RemovedAt(r: Ring, x: Uuid, i: nat, r': Ring)
    requires r.Ok() && i < |r.order| && r.order[i] == x && r'.order == DropAt(r.order, i)
    requires r'.next == if r'.order == [] then 0 else NextAfterDrop(r.order, r.next, i)
    ensures r' == r.Remove(x) && (r'.order != [] ==> r'.next < |r'.order|)
  {
    assert IndexOf(r.order, x) == i;
  }

  lemma UpcomingMember(order: seq<Uuid>, start: nat, x: Uuid)
    requires start <= |order|
    ensures x in Upcoming(order, start) <==> x in order
  {
    assert order == order[..start] + order[start..];
  }

  lemma KeysWithout(order: seq<Uuid>, x: Uuid)
    ensures (set y | y in Without(order, x)) == (set y | y in order) - {x}
  {
    forall y
      ensures y in Without(order, x) <==> y in order && y != x
    {
      WithoutMember(order, x, y);
    }
  }

  lemma {:induction false} FirstIndex(s: seq<Uuid>, x: Uuid, i: nat)
    requires i < |s| && s[i] == x && x !in s[..i]
    ensures IndexOf(s, x) == i
  {
    if i > 0 {
      assert s[0] in s[..i];
      assert s[1..][..i - 1] == s[..i][1..];
      FirstIndex(s[1..], x, i - 1);
    }
  }
}
