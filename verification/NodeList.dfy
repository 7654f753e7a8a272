/**
 The list of node uuids of a runtime client: a set kept in a slice, with removal by moving the last
 element into the gap and round-robin selection (lib/pool/pool.go).
 */
module NodeLists {
  import opened OwnerPools

  const ROUND_ROBIN_LIMIT: nat := 0x1000_0000_0000_0000

  /** `list` without the element at index `i`: the last element takes its place. */
  function SwapRemove(list: seq<Uuid>, i: nat): seq<Uuid>
    requires i < |list|
  {
    var last := |list| - 1;
    if i == last then list[..last] else list[i := list[last]][..last]
  }

  /** Swapping the last element in removes exactly one element and keeps the rest distinct. */
  lemma SwapRemoveMembers(list: seq<Uuid>, i: nat)
    requires i < |list| && Distinct(list)
    ensures Distinct(SwapRemove(list, i))
    ensures forall x :: x in SwapRemove(list, i) <==> x in list && x != list[i]
  {
    var r := SwapRemove(list, i);
    assert forall k :: 0 <= k < |r| ==> r[k] == if k == i then list[|list| - 1] else list[k];
    forall x | x in list && x != list[i]
      ensures x in r
    {
      var k :| 0 <= k < |list| && list[k] == x;
      assert if k < |list| - 1 then r[k] == x else r[i] == x;
    }
  }

  /** `idx` tells where each element of `list` is. */
  predicate Indexes(idx: map<Uuid, nat>, list: seq<Uuid>) {
    && (forall x :: x in idx ==> idx[x] < |list| && list[idx[x]] == x)
    && (forall i :: 0 <= i < |list| ==> list[i] in idx && idx[list[i]] == i)
  }

  function SwapRemoveIndex(list: seq<Uuid>, idx: map<Uuid, nat>, i: nat): map<Uuid, nat>
    requires i < |list|
  {
    var last := |list| - 1;
    (if i == last then idx else idx[list[last] := i]) - {list[i]}
  }

  lemma SwapRemoveIndexed(list: seq<Uuid>, idx: map<Uuid, nat>, i: nat)
    requires i < |list| && Distinct(list) && Indexes(idx, list)
    ensures Indexes(SwapRemoveIndex(list, idx, i), SwapRemove(list, i))
  {
    var r := SwapRemove(list, i);
    assert forall k :: 0 <= k < |r| ==> r[k] == if k == i then list[|list| - 1] else list[k];
  }

  /** The member at a count of the round-robin counter. */
  function At(list: seq<Uuid>, i: nat): Uuid
    requires list != []
  {
    list[i % |list|]
  }

  lemma {:induction false} AtLeastOnce(d: nat, n: nat)
    requires d >= 1
    ensures d * n >= n
  {
    if d > 1 {
      AtLeastOnce(d - 1, n);
      assert d * n == (d - 1) * n + n;
    }
  }

  lemma UniqueRemainder(n: nat, p: nat, r: nat, q: nat, m: nat)
    requires p * n + r == q * n + m && r < n && m < n
    ensures r == m
  {
    if p > q {
      AtLeastOnce(p - q, n);
    } else if p < q {
      AtLeastOnce(q - p, n);
    }
  }

  /** The position `d` counts further on. */
  function Further(m: nat, d: nat, n: nat): int {
    if m + d < n then m + d else m + d - n
  }

  lemma Divide(a: nat, n: nat) returns (q: nat, m: nat)
    requires n > 0
    ensures m == a % n && m < n && a == q * n + m
  {
    q, m := a / n, a % n;
  }

  lemma Carry(n: nat, p: nat, r: nat, q: nat, m: nat, d: nat)
    requires p * n + r == q * n + m + d && r < n && m < n && d < n
    ensures r == Further(m, d, n)
  {
    if m + d < n {
      UniqueRemainder(n, p, r, q, m + d);
    } else {
      assert (q + 1) * n == q * n + n;
      UniqueRemainder(n, p, r, q + 1, m + d - n);
    }
  }

  lemma ModPlus(i: nat, n: nat, d: nat)
    requires d < n
    ensures (i + d) % n == Further(i % n, d, n)
  {
    var q, m := Divide(i, n);
    var p, r := Divide(i + d, n);
    Carry(n, p, r, q, m, d);
  }

  predicate TakenAt(list: seq<Uuid>, start: nat, k: nat, x: Uuid)
    requires list != []
  {
    At(list, start + k) == x
  }

  /** While the members do not change, a round of as many selections as members takes each of them exactly once. */
  lemma RoundVisitsEachOnce(list: seq<Uuid>, start: nat, x: Uuid) returns (j: nat)
    requires Distinct(list) && x in list
    ensures j < |list| && forall k :: 0 <= k < |list| ==> (TakenAt(list, start, k, x) <==> k == j)
  {
    var n := |list|;
    var i :| 0 <= i < n && list[i] == x;
    var m := start % n;
    j := if i >= m then i - m else i - m + n;
    forall k | 0 <= k < n ensures TakenAt(list, start, k, x) <==> k == j {
      ModPlus(start, n, k);
      Spread(list, m, i, k);
    }
  }

  lemma Spread(list: seq<Uuid>, m: nat, i: nat, k: nat)
    requires Distinct(list) && m < |list| && i < |list| && k < |list|
    ensures list[Further(m, k, |list|)] == list[i] <==> k == if i >= m then i - m else i - m + |list|
  {
  }

  class NodeList {
    var list: seq<Uuid>
    var idx: map<Uuid, nat>
    var rr: nat

    ghost predicate Valid()
      reads this
    {
      Distinct(list) && Indexes(idx, list)
    }

    constructor ()
      ensures Valid() && list == []
    {
      list, idx, rr := [], map[], 0;
    }

    method Has(x: Uuid) returns (ok: bool)
      requires Valid()
      ensures ok == (x in list)
    {
      ok := x in idx;
    }

    method Add(x: Uuid)
      requires Valid()
      modifies this
      ensures Valid() && list == if x in old(list) then old(list) else old(list) + [x]
    {
      if x !in idx {
        list := list + [x];
        idx := idx[x := |list| - 1];
      }
    }

    method Remove(x: Uuid)
      requires Valid()
      modifies this`list, this`idx
      ensures Valid()
      ensures forall y :: y in list <==> y in old(list) && y != x
      ensures |list| == |old(list)| - if x in old(list) then 1 else 0
    {
      if x in idx {
        RemoveAt(idx[x]);
      }
    }

    method RemoveAt(i: nat)
      requires i < |list|
      modifies this`list, this`idx
      ensures list == SwapRemove(old(list), i) && idx == SwapRemoveIndex(old(list), old(idx), i)
      ensures old(Valid()) ==> Valid() && forall x :: x in list <==> x in old(list) && x != old(list)[i]
    {
      if Distinct(list) && Indexes(idx, list) {
        SwapRemoveMembers(list, i);
        SwapRemoveIndexed(list, idx, i);
      }
      var last := |list| - 1;
      var v := list[i];
      if i != last {
        list := list[i := list[last]];
        idx := idx[list[i] := i];
      }
      list := list[..last];
      idx := idx - {v};
    }

    method Clear()
      modifies this
      ensures Valid() && list == []
    {
      list, idx, rr := [], map[], 0;
    }

    /** Round robin: the counter starts again before it can overflow. */
    method Next() returns (x: Uuid, ok: bool)
      modifies this`rr
      ensures ok == (list != []) && (ok ==> x in list) && (!ok ==> x == BLANK && rr == old(rr))
      ensures ok ==> x == At(list, if old(rr) > ROUND_ROBIN_LIMIT then 0 else old(rr))
      ensures ok ==> rr == if old(rr) > ROUND_ROBIN_LIMIT then 0 else old(rr) + 1
    {
      if |list| == 0 {
        return BLANK, false;
      }
      var i := rr;
      rr := rr + 1;
      if i > ROUND_ROBIN_LIMIT {
        rr := 0;
        i := 0;
      }
      x, ok := list[i % |list|], true;
    }

    method Random() returns (x: Uuid, ok: bool)
      ensures ok == (list != []) && (ok ==> x in list) && (!ok ==> x == BLANK)
    {
      if |list| == 0 {
        return BLANK, false;
      }
      var i :| 0 <= i < |list|;
      x, ok := list[i], true;
    }
  }
}
