/**
 The runtime client of the bridge: its nodes, the node it currently prefers and its file routes
 (Client in bridge/client.go). Node statuses and grace windows are inputs that stay fixed during a call.
 */
module RuntimeClient {
  import opened Wrappers
  import opened OwnerPools
  import opened NodeLists
  import opened FileRoutes

  /** What is stored for a uuid: a node with its connections, or a value that is not a usable node. */
  datatype Node = Broken | Node(baseVer: int, tunnelUp: bool, signalUp: bool)

  /** isOfflineLocked for a node of client `id`; a virtual client (negative id) is always online. */
  predicate Offline(n: Node, id: int)
    requires n.Node?
  {
    if n.baseVer < 5 then !n.tunnelUp && !n.signalUp && id > 0
    else !(id < 0 || (n.tunnelUp && n.signalUp))
  }

  type Nodes = map<Uuid, Node>

  predicate Ready(nodes: Nodes, id: int, u: Uuid) {
    u in nodes && nodes[u].Node? && !Offline(nodes[u], id)
  }

  /** The grace windows in force: the client's own, and the nodes that joined a moment ago. */
  datatype Grace = Grace(connecting: bool, joining: set<Uuid>)

  /** An offline node that may not be removed yet. */
  predicate Deferred(nodes: Nodes, id: int, grace: Grace, allowJoin: bool, u: Uuid) {
    u in nodes && nodes[u].Node? && Offline(nodes[u], id) && (grace.connecting || (allowJoin && u in grace.joining))
  }

  datatype Candidate = Missing | Invalid | Usable | Defer | Prune

  /** evaluateNodeCandidate. */
  function Classify(nodes: Nodes, id: int, grace: Grace, allowJoin: bool, u: Uuid): Candidate {
    if u == BLANK || u !in nodes then Missing
    else if nodes[u].Broken? then Invalid
    else if !Offline(nodes[u], id) then Usable
    else if grace.connecting || (allowJoin && u in grace.joining) then Defer
    else Prune
  }

  /** One round of CheckNode: a node, no node, or another round with that many grace checks left. */
  datatype Round = Found(uuid: Uuid) | GiveUp | Again(left: nat)

  datatype Mode = Primary | RoundRobin | Random

  /** The entries, the list and the file routes of a client at some moment. */
  datatype Snapshot = Snapshot(nodes: Nodes, list: seq<Uuid>, routes: Table)

  ghost function Gone(a: Snapshot, b: Snapshot): set<Uuid> {
    set x | x in a.list && x !in b.list
  }

  /** Exactly the owners in `gone` have left the routes that have a name. */
  ghost predicate OwnersLeft(before: Table, after: Table, gone: set<Uuid>) {
    forall k, x {:trigger after.Names(k, x)} :: after.Names(k, x) <==> before.Names(k, x) && x !in gone
  }

  /** What CheckNode may do: nodes go, but none that is online, each with its file routes. */
  ghost predicate OnlyRemoves(a: Snapshot, b: Snapshot, id: int) {
    && (forall x :: x in b.nodes ==> x in a.nodes && b.nodes[x] == a.nodes[x])
    && (forall x :: Ready(a.nodes, id, x) ==> x in b.nodes)
    && (forall x :: x in b.list ==> x in a.list)
    && (forall x :: x in a.nodes && x in b.list ==> x in b.nodes)
    && OwnersLeft(a.routes, b.routes, Gone(a, b))
  }

  /** If no node was deferred, none was online either when the list has become empty, and one was when one is. */
  lemma NothingOnline(a: Snapshot, b: Snapshot, id: int, grace: Grace, u: Uuid, found: bool)
    requires OnlyRemoves(a, b, id) && (forall x :: x in a.nodes ==> !Deferred(a.nodes, id, grace, true, x))
    requires forall x :: x in b.nodes ==> x in b.list
    requires if found then Ready(b.nodes, id, u) else b.list == [] || exists x :: Deferred(b.nodes, id, grace, true, x)
    ensures found == (exists x :: Ready(a.nodes, id, x)) && (!found ==> b.list == [])
  {
    if found { assert Ready(a.nodes, id, u); }
    assert forall x :: Deferred(b.nodes, id, grace, true, x) ==> Deferred(a.nodes, id, grace, true, x);
  }

  lemma OnlyRemovesThen(a: Snapshot, b: Snapshot, c: Snapshot, id: int)
    requires OnlyRemoves(a, b, id) && OnlyRemoves(b, c, id)
    ensures OnlyRemoves(a, c, id)
  {
    assert Gone(a, c) == Gone(a, b) + Gone(b, c);
    forall k, x ensures c.routes.Names(k, x) <==> a.routes.Names(k, x) && x !in Gone(a, c) {
      assert b.routes.Names(k, x) <==> a.routes.Names(k, x) && x !in Gone(a, b);
    }
  }

  class Client {
    const id: int
    const nodeList: NodeList
    const routes: Routes
    var nodes: Nodes
    var lastUUID: Uuid
    var lastUUIDRef: Option<Uuid>

    /** Everything but the claim that the current uuid is listed. */
    ghost predicate Sound()
      reads this, nodeList, routes
    {
      && nodeList.Valid() && BLANK !in nodeList.list
      && Listed()
      && lastUUIDRef == (if lastUUID == BLANK then None else Some(lastUUID))
      && routes.Valid() && routes.View().Exact()
    }

    /** Every node with an entry is listed. */
    ghost predicate Listed()
      reads this, nodeList
    {
      forall u :: u in nodes ==> u in nodeList.list
    }

    /** The current uuid names nothing any more. */
    ghost predicate Dangling()
      reads this, nodeList
    {
      lastUUID != BLANK && lastUUID !in nodeList.list
    }

    ghost predicate Valid()
      reads this, nodeList, routes
    {
      Sound() && !Dangling()
    }

    constructor (id: int, u: Uuid, n: Node)
      requires u != BLANK
      ensures Valid() && nodes == map[u := n] && nodeList.list == [u] && lastUUID == u
      ensures fresh(nodeList) && fresh(routes) && this.id == id
    {
      this.id := id;
      var l := new NodeList();
      nodeList := l;
      var r := new Routes();
      routes := r;
      nodes := map[u := n];
      lastUUID := u;
      lastUUIDRef := Some(u);
      new;
      nodeList.Add(u);
    }

    method AssignCurrent(u: Uuid)
      modifies this`lastUUID, this`lastUUIDRef
      ensures lastUUID == u && lastUUIDRef == if u == BLANK then None else Some(u)
    {
      lastUUID := u;
      if u == BLANK {
        lastUUIDRef := None;
        return;
      }
      lastUUIDRef := Some(u);
    }

    /** dropNodeRuntimeLocked and advanceCurrentNodeLocked. */
    method DropNode(u: Uuid, removeEntry: bool)
      requires Sound() && u != BLANK && (!removeEntry ==> u !in nodes)
      modifies this, nodeList
      ensures Sound() && nodes == old(nodes) - {u}
      ensures forall x :: x in nodeList.list <==> x in old(nodeList.list) && x != u
      ensures |nodeList.list| == |old(nodeList.list)| - if u in old(nodeList.list) then 1 else 0
      ensures old(lastUUID) == u ==> !Dangling()
      ensures old(lastUUID) != u ==> lastUUID == old(lastUUID)
    {
      if removeEntry {
        nodes := nodes - {u};
      }
      nodeList.Remove(u);
      if lastUUID != u {
        return;
      }
      var next, ok := nodeList.Next();
      if ok {
        AssignCurrent(next);
        return;
      }
      AssignCurrent(BLANK);
    }

    /** Node `u` has left the client: its entry, its place in the list and its file routes. */
    twostate predicate Removes(u: Uuid)
      reads this, nodeList, routes
    {
      && nodes == old(nodes) - {u}
      && (forall x :: x in nodeList.list <==> x in old(nodeList.list) && x != u)
      && |nodeList.list| == |old(nodeList.list)| - (if u in old(nodeList.list) then 1 else 0)
      && (if old(lastUUID) == u then !Dangling() else lastUUID == old(lastUUID))
      && old(routes.View()).Ok() && routes.View() == old(routes.View()).Prune(u)
    }

    /** Nothing that matters has changed. */
    twostate predicate Same()
      reads this, nodeList, routes
    {
      && nodes == old(nodes) && nodeList.list == old(nodeList.list) && lastUUID == old(lastUUID)
      && routes.View() == old(routes.View())
    }

    /** A node leaves the client: its entry, its place in the list and its file routes. */
    method Forget(u: Uuid, removeEntry: bool)
      requires Sound() && u != BLANK && (!removeEntry ==> u !in nodes)
      modifies this, nodeList, routes
      ensures Sound() && Removes(u)
    {
      DropNode(u, removeEntry);
      PruneKeepsExact(routes.View(), u);
      ExactIffPointwise(routes.View());
      routes.PruneOwner(u);
    }

    /** closeAndRemoveNodeIfCurrent: only a node that is offline at that moment goes. */
    method CloseAndRemove(u: Uuid) returns (removed: bool)
      requires Sound()
      modifies this, nodeList, routes
      ensures Sound() && removed == (u != BLANK && u in old(nodes) && old(nodes)[u].Node? && Offline(old(nodes)[u], id))
      ensures if removed then Removes(u) else Same()
    {
      if u == BLANK || u !in nodes || nodes[u].Broken? || !Offline(nodes[u], id) {
        return false;
      }
      Forget(u, true);
      return true;
    }

    /** pruneMissingNodeUUID: only a listed uuid without an entry goes. */
    method PruneMissing(u: Uuid) returns (removed: bool)
      requires Sound()
      modifies this, nodeList, routes
      ensures Sound() && removed == (u != BLANK && u !in old(nodes) && u in old(nodeList.list))
      ensures if removed then Removes(u) else Same()
    {
      if u == BLANK || u in nodes {
        return false;
      }
      var listed := nodeList.Has(u);
      if !listed {
        return false;
      }
      Forget(u, false);
      return true;
    }

    /** evaluateNodeCandidate; looking up an unusable entry removes it. */
    method Evaluate(u: Uuid, allowJoin: bool, grace: Grace) returns (c: Candidate)
      requires Sound()
      modifies this, nodeList, routes
      ensures Sound() && c == Classify(old(nodes), id, grace, allowJoin, u)
      ensures if c == Invalid then Removes(u) else Same()
    {
      if u == BLANK || u !in nodes {
        return Missing;
      }
      if nodes[u].Broken? {
        Forget(u, true);
        return Invalid;
      }
      if !Offline(nodes[u], id) {
        return Usable;
      }
      if grace.connecting {
        return Defer;
      }
      if allowJoin && u in grace.joining {
        return Defer;
      }
      return Prune;
    }

    method NextByMode(mode: Mode) returns (u: Uuid)
      modifies nodeList`rr
      ensures u == BLANK || u in nodeList.list
      ensures u == BLANK && BLANK !in nodeList.list ==> nodeList.list == []
    {
      var ok: bool;
      if mode == Random {
        u, ok := nodeList.Random();
      } else {
        u, ok := nodeList.Next();
      }
    }

    /** A listed uuid other than `exclude`, or blank exactly when there is none. */
    method NextDistinct(exclude: Uuid, mode: Mode) returns (u: Uuid)
      requires BLANK !in nodeList.list
      modifies nodeList`rr
      ensures u != BLANK ==> u in nodeList.list && u != exclude
      ensures u == BLANK ==> forall x :: x in nodeList.list ==> x == exclude
    {
      var attempts := |nodeList.list|;
      for i := 0 to attempts {
        u := NextByMode(mode);
        if u != BLANK && u != exclude {
          return;
        }
      }
      for i := 0 to |nodeList.list|
        invariant forall j :: 0 <= j < i ==> nodeList.list[j] == exclude
      {
        if nodeList.list[i] != exclude {
          return nodeList.list[i];
        }
      }
      return BLANK;
    }

    method CurrentOrNext(mode: Mode) returns (u: Uuid)
      requires Sound()
      modifies this`lastUUID, this`lastUUIDRef, nodeList`rr
      ensures Sound() && u == lastUUID
      ensures old(lastUUID) != BLANK ==> lastUUID == old(lastUUID)
      ensures old(lastUUID) == BLANK ==> !Dangling() && (lastUUID == BLANK ==> nodeList.list == [])
    {
      if lastUUIDRef.Some? {
        return lastUUIDRef.value;
      }
      u := NextByMode(mode);
      if u == BLANK {
        return;
      }
      if lastUUID == BLANK {
        AssignCurrent(u);
      }
      u := lastUUID;
    }

    ghost function Now(): Snapshot
      reads this, nodeList, routes
    {
      Snapshot(nodes, nodeList.list, routes.View())
    }

    twostate lemma SameOnlyRemoves()
      requires Now() == old(Now())
      ensures OnlyRemoves(old(Now()), Now(), id)
    {
    }

    twostate lemma RemovalOnlyRemoves(u: Uuid)
      requires Removes(u) && u != BLANK && u in old(nodeList.list) && !Ready(old(nodes), id, u)
      ensures OnlyRemoves(old(Now()), Now(), id)
    {
      PruneLeaves(old(routes.View()), u);
      assert Gone(old(Now()), Now()) == {u};
    }

    /**
     One round of CheckNode's loop. A dangling current uuid makes the round repeat itself with nothing
     changed; otherwise every further round has fewer nodes or fewer grace checks left.
     */
    method CheckOnce(grace: Grace, mode: Mode, left: nat) returns (r: Round)
      requires Sound() && left > 0
      modifies this, nodeList, routes
      ensures Sound() && OnlyRemoves(old(Now()), Now(), id)
      ensures Progresses(grace, left, r)
    {
      var u := CurrentOrNext(mode);
      if u == BLANK {
        SameOnlyRemoves();
        return GiveUp;
      }
      r := RoundFor(u, grace, mode, left);
    }

    /** What becomes of the current uuid `u` in a round. */
    twostate predicate RoundDone(u: Uuid, grace: Grace, left: nat, r: Round)
      reads this, nodeList, routes
    {
      match Classify(old(nodes), id, grace, true, u)
      case Usable => r == Found(u) && Same()
      case Defer =>
        if left <= 1 then r == GiveUp && Same()
        else
          && r == Again(left - 1) && nodes == old(nodes) && nodeList.list == old(nodeList.list) && !Dangling()
          && routes.View() == old(routes.View())
      case Missing => r == Again(left) && if u in old(nodeList.list) then Removes(u) else Same()
      case _ => r == Again(left) && Removes(u)
    }

    /** The round once it has a current uuid. */
    method RoundFor(u: Uuid, grace: Grace, mode: Mode, left: nat) returns (r: Round)
      requires Sound() && left > 0 && u == lastUUID != BLANK
      modifies this, nodeList, routes
      ensures Sound() && OnlyRemoves(old(Now()), Now(), id) && Progresses(grace, left, r)
    {
      r := Settle(u, grace, mode, left);
      RoundMeans(u, grace, left, r);
    }

    method Settle(u: Uuid, grace: Grace, mode: Mode, left: nat) returns (r: Round)
      requires Sound() && left > 0 && u == lastUUID != BLANK
      modifies this, nodeList, routes
      ensures Sound() && RoundDone(u, grace, left, r)
    {
      var candidate := Evaluate(u, true, grace);
      match candidate {
        case Usable =>
          return Found(u);
        case Defer =>
          if left <= 1 {
            return GiveUp;
          }
          var next := NextDistinct(u, mode);
          AssignCurrent(next);
          return Again(left - 1);
        case Invalid =>
          return Again(left);
        case Missing =>
          var removed := PruneMissing(u);
          return Again(left);
        case Prune =>
          var removed := CloseAndRemove(u);
          return Again(left);
      }
    }

    /** What a round finds, and what it leaves for the next one. */
    twostate predicate Progresses(grace: Grace, left: nat, r: Round)
      reads this, nodeList, routes
    {
      && (forall x :: Deferred(old(nodes), id, grace, true, x) ==> x in nodes)
      && (r.Found? ==> Ready(nodes, id, r.uuid))
      && (if old(Dangling()) then r == Again(left) && Same() else !Dangling())
      && (!old(Dangling()) && r.Again? ==> 0 < r.left && r.left + |nodeList.list| < left + |old(nodeList.list)|)
      && (!old(Dangling()) && r.GiveUp? ==> nodeList.list == [] || exists x :: Deferred(nodes, id, grace, true, x))
    }

    twostate lemma RoundMeans(new u: Uuid, new grace: Grace, new left: nat, new r: Round)
      requires old(Listed()) && left > 0 && u == old(lastUUID) && u != BLANK && RoundDone(u, grace, left, r)
      ensures OnlyRemoves(old(Now()), Now(), id) && Progresses(grace, left, r)
    {
      RoundOnlyRemoves(u, grace, left, r);
      RoundProgresses(u, grace, left, r);
    }

    twostate lemma RoundOnlyRemoves(new u: Uuid, new grace: Grace, new left: nat, new r: Round)
      requires old(Listed()) && u != BLANK && RoundDone(u, grace, left, r)
      ensures OnlyRemoves(old(Now()), Now(), id)
    {
      var c := Classify(old(nodes), id, grace, true, u);
      if c == Usable || c == Defer || (c == Missing && u !in old(nodeList.list)) {
        SameOnlyRemoves();
      } else {
        RemovalOnlyRemoves(u);
      }
    }

    twostate lemma RoundProgresses(new u: Uuid, new grace: Grace, new left: nat, new r: Round)
      requires old(Listed()) && left > 0 && u == old(lastUUID) && u != BLANK && RoundDone(u, grace, left, r)
      ensures Progresses(grace, left, r)
    {
      if r.GiveUp? { assert Deferred(nodes, id, grace, true, u); }
    }

    ghost predicate NothingDeferred(grace: Grace)
      reads this
    {
      forall u :: u in nodes ==> !Deferred(nodes, id, grace, true, u)
    }

    /** The current uuid dangles although there are nodes: the one state in which CheckNode makes no progress. */
    ghost predicate Stuck()
      reads this, nodeList
    {
      Dangling() && nodeList.list != []
    }

    /**
     CheckNode terminates, never gives up a node that is online, keeps the current uuid listed, and
     takes file routes away from exactly the nodes it removed. When no node is deferred it finds a
     node exactly when one is online, and otherwise leaves no node at all.
     */
    method CheckNode(grace: Grace, mode: Mode) returns (u: Uuid, found: bool)
      requires Sound() && !Stuck()
      modifies this, nodeList, routes
      ensures Sound() && OnlyRemoves(old(Now()), Now(), id) && (Dangling() ==> old(Dangling()))
      ensures found ==> Ready(nodes, id, u)
      ensures old(NothingDeferred(grace)) ==> found == exists x :: Ready(old(nodes), id, x)
      ensures old(NothingDeferred(grace)) && !found ==> nodeList.list == []
    {
      var size := |nodeList.list|;
      if size == 0 {
        SameOnlyRemoves();
        return BLANK, false;
      }
      u, found := CurrentIfOnline(grace);
      if found {
        return;
      }
      ghost var before := Now();
      u, found := CheckRounds(grace, mode, size);
      OnlyRemovesThen(old(Now()), before, Now(), id);
      if old(NothingDeferred(grace)) {
        NothingOnline(old(Now()), Now(), id, grace, u, found);
      }
    }

    /** The loop of CheckNode: it ends with a node that is online, or without nodes or with one deferred. */
    method CheckRounds(grace: Grace, mode: Mode, size: nat) returns (u: Uuid, found: bool)
      requires Valid() && size > 0
      modifies this, nodeList, routes
      ensures Valid() && OnlyRemoves(old(Now()), Now(), id)
      ensures if found then Ready(nodes, id, u)
              else nodeList.list == [] || exists x :: Deferred(nodes, id, grace, true, x)
    {
      ghost var start := Now();
      SameOnlyRemoves();
      var left := size;
      while true
        invariant Valid() && left > 0 && OnlyRemoves(start, Now(), id)
        decreases |nodeList.list| + left
      {
        ghost var before := Now();
        var r := CheckOnce(grace, mode, left);
        OnlyRemovesThen(start, before, Now(), id);
        match r {
          case Found(x) =>
            return x, true;
          case GiveUp =>
            return BLANK, false;
          case Again(n) =>
            left := n;
        }
      }
    }

    /** currentNodeIfOnline: looking up the current node also removes an unusable entry. */
    method CurrentIfOnline(grace: Grace) returns (u: Uuid, found: bool)
      requires Sound()
      modifies this, nodeList, routes
      ensures Sound() && OnlyRemoves(old(Now()), Now(), id)
      ensures (Dangling() <==> old(Dangling())) && |nodeList.list| <= |old(nodeList.list)|
      ensures u == old(lastUUID) && found == Ready(old(nodes), id, u) && (found ==> Ready(nodes, id, u))
      ensures old(Dangling()) ==>
                !found && nodes == old(nodes) && nodeList.list == old(nodeList.list) && lastUUID == old(lastUUID)
                && routes.View() == old(routes.View())
    {
      u := lastUUID;
      var candidate := Evaluate(u, true, grace);
      found := candidate == Usable;
      if candidate == Invalid { RemovalOnlyRemoves(u); } else { SameOnlyRemoves(); }
    }

    /**
     CheckNode stopped after a number of rounds. It ends within twice as many rounds as there are nodes if and
     only if the current uuid does not dangle among nodes; if it does, no number of rounds changes anything.
     */
    method CheckNodeFor(grace: Grace, mode: Mode, rounds: nat) returns (ended: bool)
      requires Sound()
      modifies this, nodeList, routes
      ensures Sound()
      ensures old(Stuck()) ==>
                && !ended && nodes == old(nodes) && nodeList.list == old(nodeList.list)
                && lastUUID == old(lastUUID) && routes.View() == old(routes.View())
      ensures rounds >= 2 * |old(nodeList.list)| ==> (ended <==> !old(Stuck()))
    {
      var size := |nodeList.list|;
      if size == 0 {
        return true;
      }
      var _, found := CurrentIfOnline(grace);
      if found {
        return true;
      }
      var left := size;
      for i := 0 to rounds
        invariant Sound() && left > 0 && (Dangling() <==> old(Dangling()))
        invariant old(Dangling()) ==>
                    && nodes == old(nodes) && nodeList.list == old(nodeList.list)
                    && lastUUID == old(lastUUID) && routes.View() == old(routes.View())
        invariant !old(Dangling()) ==> left + |nodeList.list| + i <= 2 * size
      {
        var r := CheckOnce(grace, mode, left);
        if !r.Again? {
          return true;
        }
        left := r.left;
      }
      return false;
    }

    /** resolveFileRouteNode: an owner that cannot serve and may not be spared loses the route. */
    method ResolveNode(k: Key, u: Uuid, grace: Grace) returns (found: bool)
      requires Sound() && k != BLANK_KEY && u != BLANK
      modifies this, nodeList, routes
      ensures Sound() && found == Ready(old(nodes), id, u)
      ensures forall x :: x != u ==> (x in nodes <==> x in old(nodes)) && (x in nodes ==> nodes[x] == old(nodes)[x])
      ensures found || Deferred(old(nodes), id, grace, false, u) ==>
                nodes == old(nodes) && routes.View() == old(routes.View())
      ensures !found && !Deferred(old(nodes), id, grace, false, u) ==>
                OwnerTakenOff(old(routes.View()), routes.View(), k, u)
    {
      TakenOff(routes.View(), k, u);
      var candidate := Evaluate(u, false, grace);
      match candidate {
        case Usable =>
          return true;
        case Defer =>
          return false;
        case Missing =>
          DropMissing(k, u);
          return false;
        case Invalid =>
          TakeOff(k, u);
          return false;
        case Prune =>
          DropOffline(k, u);
          return false;
      }
    }

    /** An owner leaves a route. */
    method TakeOff(k: Key, u: Uuid)
      requires Sound() && k != BLANK_KEY && u != BLANK
      modifies routes
      ensures Sound() && old(routes.View()).Ok() && routes.View() == old(routes.View()).Remove(k, u)
    {
      RemoveKeepsExact(routes.View(), k, u);
      var _ := routes.RemoveFileOwner(k, u);
    }

    /** An owner without a node leaves the route, and the list if it is there. */
    method DropMissing(k: Key, u: Uuid)
      requires Sound() && k != BLANK_KEY && u != BLANK && u !in nodes
      modifies this, nodeList, routes
      ensures Sound() && nodes == old(nodes) && OwnerTakenOff(old(routes.View()), routes.View(), k, u)
    {
      TakenOff(routes.View(), k, u);
      assert nodes - {u} == nodes;
      TakeOff(k, u);
      var _ := PruneMissing(u);
    }

    /** An owner whose node is offline leaves the route, and the node the client. */
    method DropOffline(k: Key, u: Uuid)
      requires Sound() && k != BLANK_KEY && u in nodes && nodes[u].Node? && Offline(nodes[u], id) && u != BLANK
      modifies this, nodeList, routes
      ensures Sound() && nodes == old(nodes) - {u} && OwnerTakenOff(old(routes.View()), routes.View(), k, u)
    {
      TakenOff(routes.View(), k, u);
      TakeOff(k, u);
      var _ := CloseAndRemove(u);
    }

    /** The pool of route `k` has handed out `q[i]`; none of the owners before it could serve. */
    ghost predicate Walking(k: Key, start: Nodes, grace: Grace, q: seq<Uuid>, i: nat)
      requires routes.Valid()
      reads this, routes
    {
      && k != BLANK_KEY && k in routes.files && routes.files[k].Many?
      && i < |q| && Distinct(q)
      && (forall j :: 0 <= j < i ==> !Ready(start, id, q[j]))
      && (forall j :: i <= j < |q| ==> SameNode(start, nodes, q[j]))
      && routes.files[k].Queue() == q[i + 1..] + Spared(start, id, grace, q[..i]) + [q[i]]
    }

    /** The loop body of resolveFileRouteOwnerPool for the owner `q[i]`. */
    method TryOwner(k: Key, u: Uuid, grace: Grace, ghost start: Nodes, ghost q: seq<Uuid>, ghost i: nat)
      returns (found: bool)
      requires Sound() && Walking(k, start, grace, q, i) && u == q[i]
      modifies this, nodeList, routes
      ensures Sound() && found == Ready(start, id, u)
      ensures found ==> routes.View() == old(routes.View())
      ensures !found ==> forall j :: i < j < |q| ==> SameNode(start, nodes, q[j])
      ensures !found ==>
                var rest := q[i + 1..] + Spared(start, id, grace, q[..i + 1]);
                QueueIs(k, rest) && (rest != [] ==> routes.files[k].Many?)
    {
      QueueHasOwner(routes.files[k], u);
      ghost var before := routes.View();
      found := ResolveNode(k, u, grace);
      if !found {
        AfterFailure(before, routes.View(), k, start, id, grace, q, i);
      }
    }

    /** Hands out the next owner of a pool whose queue starts with it. */
    method NextOwner(k: Key, ghost q: seq<Uuid>) returns (u: Uuid, count: nat, ok: bool)
      requires Sound() && k in routes.files && routes.files[k].Many? && routes.files[k].Queue() == q
      modifies routes`files
      ensures Sound() && ok && u == q[0] && count == |q|
      ensures k in routes.files && routes.files[k].Many? && routes.files[k].Queue() == q[1..] + [q[0]]
    {
      AdvanceRotatesQueue(routes.files[k].ring);
      SelectKeepsExact(routes.View(), k);
      u, count, ok := routes.SelectNext(k);
    }

    /** The first selection of resolveFileRouteOwnerPool. */
    method FirstOwner(k: Key, grace: Grace, ghost q: seq<Uuid>) returns (u: Uuid, count: nat, ok: bool)
      requires Sound() && k != BLANK_KEY && k in routes.files && routes.files[k].Many? && routes.files[k].Queue() == q
      modifies routes`files
      ensures Sound() && ok && count == |q| && Walking(k, nodes, grace, q, 0) && u == q[0]
    {
      QueueDistinct(routes.files[k]);
      u, count, ok := NextOwner(k, q);
      assert Spared(nodes, id, grace, q[..0]) == [];
      assert q[1..] + [] + [q[0]] == q[1..] + [q[0]];
    }

    /** One turn of the loop: the owner serves, the pool is exhausted, or the next owner is handed out. */
    method Turn(k: Key, u: Uuid, grace: Grace, last: bool, ghost start: Nodes, ghost q: seq<Uuid>, ghost i: nat)
      returns (next: Uuid, found: bool)
      requires Sound() && Walking(k, start, grace, q, i) && u == q[i] && last == (i + 1 == |q|)
      modifies this, nodeList, routes
      ensures Sound() && found == Ready(start, id, u)
      ensures found ==> QueueIs(k, AfterResolving(start, id, grace, q)) && FirstReady(start, id, q) == i
      ensures !found && last ==> QueueIs(k, AfterResolving(start, id, grace, q)) && FirstReady(start, id, q) == |q|
      ensures !found && !last ==> Walking(k, start, grace, q, i + 1) && next == q[i + 1]
    {
      next := BLANK;
      found := TryOwner(k, u, grace, start, q, i);
      if found {
        ResolvedAt(start, id, grace, q, i);
        return;
      }
      if last {
        ResolvedNowhere(start, id, grace, q);
        return;
      }
      var count, ok;
      next, count, ok := NextOwner(k, q[i + 1..] + Spared(start, id, grace, q[..i + 1]));
      RotatedRest(q, i + 1, Spared(start, id, grace, q[..i + 1]));
    }

    /** resolveFileRouteOwnerPool: owners are taken off the pool while the loop walks it. */
    method ResolvePool(k: Key, grace: Grace) returns (u: Uuid, found: bool)
      requires Sound() && k != BLANK_KEY && k in routes.files && routes.files[k].Many?
      modifies this, nodeList, routes
      ensures Sound()
      ensures var q := old(routes.files)[k].Queue();
              var i := FirstReady(old(nodes), id, q);
              && found == (i < |q|) && (found ==> u == q[i])
              && QueueIs(k, AfterResolving(old(nodes), id, grace, q))
    {
      ghost var start := nodes;
      ghost var q := routes.files[k].Queue();
      var attempts, ok;
      u, attempts, ok := FirstOwner(k, grace, q);
      var attempt := 0;
      while attempt < attempts
        invariant Sound() && Walking(k, start, grace, q, attempt)
        invariant attempts == |q| && u == q[attempt]
      {
        var next;
        next, found := Turn(k, u, grace, attempt + 1 >= attempts, start, q, attempt);
        if found {
          return u, true;
        }
        if attempt + 1 >= attempts {
          return BLANK, false;
        }
        u := next;
        attempt := attempt + 1;
      }
      return BLANK, false;
    }

    /**
     GetNodeByFile: the first owner, in the order of the route's queue, whose node is online. The
     owners before it that cannot be spared leave the route, those that can keep their order, and the
     chosen one goes to the end of the queue.
     */
    method GetNodeByFile(k: Key, grace: Grace) returns (u: Uuid, found: bool)
      requires Sound()
      modifies this, nodeList, routes
      ensures Sound()
      ensures k == BLANK_KEY || k !in old(routes.files) ==> !found && routes.View() == old(routes.View())
      ensures k != BLANK_KEY && k in old(routes.files) ==>
                var q := old(routes.files)[k].Queue();
                && found == (exists i :: 0 <= i < |q| && Ready(old(nodes), id, q[i]))
                && (found ==> u == q[FirstReady(old(nodes), id, q)])
                && QueueIs(k, AfterResolving(old(nodes), id, grace, q))
    {
      if k == BLANK_KEY || k !in routes.files {
        return BLANK, false;
      }
      match routes.files[k] {
        case One(owner) =>
          AfterResolvingOne(nodes, id, grace, owner);
          u := owner;
          found := ResolveNode(k, owner, grace);
        case Many(_) =>
          u, found := ResolvePool(k, grace);
      }
    }

    /** Route `k` will hand out exactly the owners of `q`, in that order; no owners means no route. */
    ghost predicate QueueIs(k: Key, q: seq<Uuid>)
      requires routes.Valid()
      reads this, routes
    {
      if q == [] then k !in routes.files else k in routes.files && routes.files[k].Queue() == q
    }
  }

  /** The first position of `q` whose node is online, or its length. */
  function FirstReady(nodes: Nodes, id: int, q: seq<Uuid>): (i: nat)
    ensures i <= |q|
    ensures i < |q| ==> Ready(nodes, id, q[i])
    ensures forall j :: 0 <= j < i ==> !Ready(nodes, id, q[j])
  {
    if q == [] || Ready(nodes, id, q[0]) then 0 else 1 + FirstReady(nodes, id, q[1..])
  }

  /** The owners of `q` that are offline but spared by the connect grace window. */
  function Spared(nodes: Nodes, id: int, grace: Grace, q: seq<Uuid>): seq<Uuid> {
    if q == [] then []
    else
      var last := q[|q| - 1];
      Spared(nodes, id, grace, q[..|q| - 1]) + if Deferred(nodes, id, grace, false, last) then [last] else []
  }

  /** The queue that resolving a route with queue `q` leaves behind. */
  function AfterResolving(nodes: Nodes, id: int, grace: Grace, q: seq<Uuid>): seq<Uuid> {
    var i := FirstReady(nodes, id, q);
    if i == |q| then Spared(nodes, id, grace, q)
    else q[i + 1..] + Spared(nodes, id, grace, q[..i]) + [q[i]]
  }

  predicate SameNode(a: Nodes, b: Nodes, u: Uuid) {
    (u in a <==> u in b) && (u in a ==> a[u] == b[u])
  }

  lemma {:induction false} FirstReadyIs(nodes: Nodes, id: int, q: seq<Uuid>, i: nat)
    requires i <= |q| && (i < |q| ==> Ready(nodes, id, q[i]))
    requires forall j :: 0 <= j < i ==> !Ready(nodes, id, q[j])
    ensures FirstReady(nodes, id, q) == i
  {
  }

  lemma AfterResolvingOne(nodes: Nodes, id: int, grace: Grace, u: Uuid)
    ensures AfterResolving(nodes, id, grace, [u])
         == if Ready(nodes, id, u) || Deferred(nodes, id, grace, false, u) then [u] else []
    ensures FirstReady(nodes, id, [u]) == if Ready(nodes, id, u) then 0 else 1
  {
    if Ready(nodes, id, u) {
      FirstReadyIs(nodes, id, [u], 0);
    } else {
      FirstReadyIs(nodes, id, [u], 1);
      assert Spared(nodes, id, grace, [u][..0]) == [];
    }
  }

  lemma ResolvedAt(nodes: Nodes, id: int, grace: Grace, q: seq<Uuid>, i: nat)
    requires i < |q| && Ready(nodes, id, q[i]) && forall j :: 0 <= j < i ==> !Ready(nodes, id, q[j])
    ensures FirstReady(nodes, id, q) == i
    ensures AfterResolving(nodes, id, grace, q) == q[i + 1..] + Spared(nodes, id, grace, q[..i]) + [q[i]]
  {
    FirstReadyIs(nodes, id, q, i);
  }

  lemma ResolvedNowhere(nodes: Nodes, id: int, grace: Grace, q: seq<Uuid>)
    requires q != [] && forall j :: 0 <= j < |q| ==> !Ready(nodes, id, q[j])
    ensures AfterResolving(nodes, id, grace, q) == q[|q|..] + Spared(nodes, id, grace, q[..|q|])
  {
    FirstReadyIs(nodes, id, q, |q|);
    assert q[..|q|] == q;
  }

  lemma RotatedRest(q: seq<Uuid>, i: nat, spared: seq<Uuid>)
    requires i < |q|
    ensures var rest := q[i..] + spared; rest[0] == q[i] && rest[1..] + [rest[0]] == q[i + 1..] + spared + [q[i]]
  {
  }

  lemma QueueDistinct(route: Route)
    requires route.Ok()
    ensures Distinct(route.Queue()) && BLANK !in route.Queue() && |route.Queue()| == |route.Owners()|
  {
  }

  lemma QueueHasOwner(route: Route, u: Uuid)
    requires route.Ok() && u in route.Queue()
    ensures u in route.Owners() && u != BLANK
  {
  }

  lemma {:induction false} SparedMembers(nodes: Nodes, id: int, grace: Grace, q: seq<Uuid>, x: Uuid)
    requires x in Spared(nodes, id, grace, q)
    ensures x in q
  {
    if q != [] && x in Spared(nodes, id, grace, q[..|q| - 1]) {
      SparedMembers(nodes, id, grace, q[..|q| - 1], x);
    }
  }

  /** What the queue is after the owner at position `i` failed: still there if spared, taken off if not. */
  lemma AfterFailure(t: Table, t': Table, k: Key, nodes: Nodes, id: int, grace: Grace, q: seq<Uuid>, i: nat)
    requires t.Ok() && t'.Ok() && k in t.files && t.files[k].Many? && Distinct(q) && i < |q|
    requires t.files[k].Queue() == q[i + 1..] + Spared(nodes, id, grace, q[..i]) + [q[i]]
    requires if Deferred(nodes, id, grace, false, q[i]) then t' == t else OwnerTakenOff(t, t', k, q[i])
    ensures var rest := q[i + 1..] + Spared(nodes, id, grace, q[..i + 1]);
            if rest == [] then k !in t'.files
            else k in t'.files && t'.files[k].Many? && t'.files[k].Queue() == rest
  {
    var u, spared := q[i], Spared(nodes, id, grace, q[..i]);
    assert q[..i + 1][..i] == q[..i];
    if Deferred(nodes, id, grace, false, u) {
      assert q[i + 1..] + spared + [u] == q[i + 1..] + (spared + [u]);
    } else {
      if u in spared {
        SparedMembers(nodes, id, grace, q[..i], u);
      }
      RemoveOwnerQueue(t.files[k], u);
      WithoutConcat(q[i + 1..] + spared, [u], u);
      WithoutAbsent(q[i + 1..] + spared, u);
      assert Without([u], u) == [];
      assert Spared(nodes, id, grace, q[..i + 1]) == spared;
    }
  }

  /**
   GetNode picks a uuid and stores it in two separate steps. If the picked node loses its connections and
   another goroutine removes it in between, the stored uuid dangles among the other nodes, and CheckNode does
   not end after any number of rounds, although all other online nodes are still there.
   */
  method StaleSelection(c: Client, mode: Mode, grace: Grace, lost: Node, rounds: nat)
    returns (picked: Uuid, ended: bool)
    requires c.Valid() && |c.nodeList.list| >= 2 && mode != Primary
    requires (forall u :: u in c.nodeList.list ==> u in c.nodes) && lost.Node? && Offline(lost, c.id)
    modifies c, c.nodeList, c.routes
    ensures c.Sound() && c.Stuck() && !ended
    ensures forall x :: x != picked && Ready(old(c.nodes), c.id, x) ==> Ready(c.nodes, c.id, x)
  {
    picked := c.NextByMode(mode);
    c.nodes := c.nodes[picked := lost];
    var removed := c.CloseAndRemove(picked);
    c.AssignCurrent(picked);
    ended := c.CheckNodeFor(grace, mode, rounds);
  }

  lemma PruneLeaves(t: Table, u: Uuid)
    requires t.Ok() && u != BLANK
    ensures forall k, x :: t.Prune(u).Names(k, x) <==> t.Names(k, x) && x != u
  {
    forall k, x
      ensures t.Prune(u).Names(k, x) <==> t.Names(k, x) && x != u
    {
      if k in t.files {
        RemoveOwnerOk(t.files[k], u);
      }
    }
  }
}
