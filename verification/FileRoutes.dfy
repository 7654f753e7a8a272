/**
 The file routes of a runtime client and the reverse index from owners to routes
 (`files` and `fileOwnerKeys` in bridge/client.go).
 */
module FileRoutes {
  import opened Wrappers
  import opened OwnerPools

  /** The name of a file route; only equality and blankness matter. */
  type Key = nat
  const BLANK_KEY: Key := 0

  // ---------------------------------------------------------------- values

  /** A route with a single owner is a plain uuid; one with several owners is a pool. */
  datatype Route = One(uuid: Uuid) | Many(ring: Ring) {

    predicate Ok() {
      match this
      case One(u) => u != BLANK
      case Many(r) => r.Ok() && r.order != []
    }

    function Owners(): seq<Uuid> {
      match this
      case One(u) => [u]
      case Many(r) => r.order
    }

    /** The owners in the order in which the route will hand them out. */
    function Queue(): seq<Uuid>
      requires Ok()
    {
      match this
      case One(u) => [u]
      case Many(r) => r.Queue()
    }
  }

  /** addFileOwnerToRoute: the new route and whether the owner was added. */
  function AddOwner(route: Option<Route>, u: Uuid): (Route, bool) {
    match route
    case None => (One(u), true)
    case Some(One(c)) => if c == u then (One(c), false) else (Many(Ring([], 0).Add(c).Add(u)), true)
    case Some(Many(r)) => if u in r.order then (Many(r), false) else (Many(r.Add(u)), true)
  }

  /** removeFileOwnerFromRoute: what is left of the route and whether the owner was removed. */
  function RemoveOwner(route: Route, u: Uuid): (Option<Route>, bool)
    requires route.Ok()
  {
    match route
    case One(c) => if c == u then (None, true) else (Some(route), false)
    case Many(r) =>
      if u !in r.order then (Some(route), false)
      else (if r.Remove(u).order == [] then None else Some(Many(r.Remove(u))), true)
  }

  type Index = map<Uuid, set<Key>>

  function Track(index: Index, k: Key, u: Uuid): Index {
    if k == BLANK_KEY || u == BLANK then index
    else index[u := (if u in index then index[u] else {}) + {k}]
  }

  function Untrack(index: Index, k: Key, u: Uuid): Index {
    if k == BLANK_KEY || u == BLANK then index
    else if u !in index || index[u] - {k} == {} then index - {u}
    else index[u := index[u] - {k}]
  }

  function TrackAll(index: Index, k: Key, us: seq<Uuid>): Index {
    if us == [] then index else Track(TrackAll(index, k, us[..|us| - 1]), k, us[|us| - 1])
  }

  function UntrackAll(index: Index, k: Key, us: seq<Uuid>): Index {
    if us == [] then index else Untrack(UntrackAll(index, k, us[..|us| - 1]), k, us[|us| - 1])
  }

  ghost function AllOwners(files: map<Key, Route>): set<Uuid> {
    set k, u | k in files && u in files[k].Owners() :: u
  }

  /** For every owner of a route, the routes it owns. */
  ghost function Inverse(files: map<Key, Route>): Index {
    map u | u in AllOwners(files) :: set k | k in files && u in files[k].Owners()
  }

  /** The two maps that the client's mutex protects. */
  datatype Table = Table(files: map<Key, Route>, index: Index) {

    predicate Ok() {
      forall k :: k in files ==> files[k].Ok()
    }

    predicate Owns(k: Key, u: Uuid) {
      k in files && u in files[k].Owners()
    }

    /** The same for routes with a name: a route under a blank name is stored but never indexed. */
    predicate Names(k: Key, u: Uuid) {
      k != BLANK_KEY && Owns(k, u)
    }

    predicate Indexed(k: Key, u: Uuid) {
      u in index && k in index[u]
    }

    /** `index` is the inverse of the owner lists of the routes with a name. */
    ghost predicate Exact() {
      index == Inverse(files - {BLANK_KEY})
    }

    /** The same, route by route and owner by owner. */
    ghost predicate ExactPointwise() {
      && (forall k, u :: Names(k, u) <==> Indexed(k, u))
      && (forall u :: u in index ==> index[u] != {})
    }

    /** AddFileOwner for a uuid whose node is known. */
    function Add(k: Key, u: Uuid): Table {
      var (route, added) := AddOwner(if k != BLANK_KEY && k in files then Some(files[k]) else None, u);
      if !added then this
      else Table(files[k := route], if k == BLANK_KEY then index else TrackAll(index, k, route.Owners()))
    }

    /** removeFileOwnerLocked. */
    function Remove(k: Key, u: Uuid): Table
      requires Ok()
    {
      if k !in files then this
      else
        var (rest, removed) := RemoveOwner(files[k], u);
        if !removed then this
        else Table(if rest.None? then files - {k} else files[k := rest.value], Untrack(index, k, u))
    }

    /** removeFileRouteLocked and deleteFileMappingIfCurrent of the current route. */
    function RemoveRoute(k: Key): Table {
      if k == BLANK_KEY || k !in files then this
      else Table(files - {k}, UntrackAll(index, k, files[k].Owners()))
    }

    /** A selection from the pool of route `k`; a single owner needs none. */
    function Select(k: Key): Table {
      if k in files && files[k].Many? && files[k].ring.Ok() then
        this.(files := files[k := Many(files[k].ring.Advance())])
      else this
    }

    /** The routes that the index names for `u`. */
    function KeysOf(u: Uuid): set<Key> {
      if u in index then index[u] else {}
    }

    /** pruneFileMappings once it has handled the routes in `done`. */
    function PruneIn(u: Uuid, done: set<Key>): Table
      requires Ok()
    {
      var left := KeysOf(u) - done;
      Table(map k | k in files && (k !in done || RemoveOwner(files[k], u).0.Some?) ::
              if k in done then RemoveOwner(files[k], u).0.value else files[k],
            if left == {} then index - {u} else index[u := left])
    }

    /** Whether route `k` stays when `u` is pruned. */
    predicate Survives(k: Key, u: Uuid)
      requires Ok()
    {
      k in files && (k == BLANK_KEY || RemoveOwner(files[k], u).0.Some?)
    }

    /** pruneFileMappings: the owner leaves every route with a name. */
    function Prune(u: Uuid): Table
      requires Ok()
    {
      if u == BLANK then this
      else Table(map k | k in files && Survives(k, u) ::
                   if k == BLANK_KEY then files[k] else RemoveOwner(files[k], u).0.value,
                 index - {u})
    }
  }

  const EMPTY := Table(map[], map[])

  // ---------------------------------------------------------------- one operation

  lemma AddOwnerOk(route: Option<Route>, u: Uuid)
    requires u != BLANK && (route.Some? ==> route.value.Ok())
    ensures AddOwner(route, u).0.Ok()
    ensures forall x :: x in AddOwner(route, u).0.Owners() <==> x == u || (route.Some? && x in route.value.Owners())
    ensures AddOwner(route, u).1 == !(route.Some? && u in route.value.Owners())
  {
    if route.Some? && route.value.Many? && u !in route.value.ring.order {
      AddKeepsQueue(route.value.ring, u);
    }
  }

  lemma OwnersNotBlank(route: Route)
    requires route.Ok()
    ensures BLANK !in route.Owners()
  {
  }

  lemma RemoveOwnerOk(route: Route, u: Uuid)
    requires route.Ok()
    ensures RemoveOwner(route, u).1 == (u in route.Owners())
    ensures RemoveOwner(route, u).0.Some? ==> RemoveOwner(route, u).0.value.Ok()
    ensures forall x :: x in route.Owners() && x != u
                        <==> RemoveOwner(route, u).0.Some? && x in RemoveOwner(route, u).0.value.Owners()
  {
    if route.Many? && u in route.ring.order {
      RemoveOk(route.ring, u);
      forall x
        ensures x in Without(route.ring.order, u) <==> x in route.ring.order && x != u
      {
        WithoutMember(route.ring.order, u, x);
      }
    }
  }

  lemma {:induction false} TrackAllMembers(index: Index, k: Key, us: seq<Uuid>)
    requires k != BLANK_KEY && BLANK !in us
    ensures forall u :: u in TrackAll(index, k, us) <==> u in index || u in us
    ensures forall u :: u in TrackAll(index, k, us) ==>
              TrackAll(index, k, us)[u] == (if u in index then index[u] else {}) + (if u in us then {k} else {})
  {
    if us != [] {
      TrackAllMembers(index, k, us[..|us| - 1]);
      assert us == us[..|us| - 1] + [us[|us| - 1]];
    }
  }

  lemma {:induction false} UntrackAllMembers(index: Index, k: Key, us: seq<Uuid>)
    requires k != BLANK_KEY && BLANK !in us && forall u :: u in index ==> index[u] != {}
    ensures forall u :: u in UntrackAll(index, k, us) <==> u in index && (u in us ==> index[u] - {k} != {})
    ensures forall u :: u in UntrackAll(index, k, us) ==>
              UntrackAll(index, k, us)[u] == index[u] - (if u in us then {k} else {})
  {
    if us != [] {
      UntrackAllMembers(index, k, us[..|us| - 1]);
      assert us == us[..|us| - 1] + [us[|us| - 1]];
    }
  }

  lemma InverseAt(files: map<Key, Route>, k: Key, u: Uuid)
    ensures k in files && u in files[k].Owners() <==> u in Inverse(files) && k in Inverse(files)[u]
  {
  }

  lemma InverseNotEmpty(files: map<Key, Route>, u: Uuid)
    requires u in Inverse(files)
    ensures Inverse(files)[u] != {}
  {
    var k :| k in files && u in files[k].Owners();
    assert k in Inverse(files)[u];
  }

  lemma ExactIsPointwise(t: Table)
    requires t.Exact()
    ensures t.ExactPointwise()
  {
    var named := t.files - {BLANK_KEY};
    forall u | u in t.index ensures t.index[u] != {} { InverseNotEmpty(named, u); }
    forall k, u ensures t.Names(k, u) <==> t.Indexed(k, u) { InverseAt(named, k, u); }
  }

  lemma PointwiseAt(t: Table, u: Uuid)
    requires t.ExactPointwise()
    ensures var inv := Inverse(t.files - {BLANK_KEY});
            (u in t.index <==> u in inv) && (u in t.index ==> t.index[u] == inv[u])
  {
    var named := t.files - {BLANK_KEY};
    var inv := Inverse(named);
    forall k ensures t.Indexed(k, u) <==> u in inv && k in inv[u] {
      InverseAt(named, k, u);
      assert t.Names(k, u) <==> t.Indexed(k, u);
    }
    if u in t.index {
      var k :| k in t.index[u];
      assert t.Indexed(k, u);
    }
    if u in inv {
      InverseNotEmpty(named, u);
      var k :| k in inv[u];
      assert t.Indexed(k, u);
      assert forall k :: k in t.index[u] <==> t.Indexed(k, u);
    }
  }

  lemma ExactIffPointwise(t: Table)
    ensures t.Exact() <==> t.ExactPointwise()
  {
    if t.Exact() { ExactIsPointwise(t); }
    if t.ExactPointwise() {
      forall u
        ensures u in t.index <==> u in Inverse(t.files - {BLANK_KEY})
        ensures u in t.index ==> t.index[u] == Inverse(t.files - {BLANK_KEY})[u]
      {
        PointwiseAt(t, u);
      }
    }
  }

  /** The new route of `k` when `u` is added to it. */
  function Joined(t: Table, k: Key, u: Uuid): (Route, bool) {
    AddOwner(if k != BLANK_KEY && k in t.files then Some(t.files[k]) else None, u)
  }

  lemma AddOk(t: Table, k: Key, u: Uuid)
    requires t.Ok() && u != BLANK
    ensures t.Add(k, u).Ok()
  {
    AddOwnerOk(if k != BLANK_KEY && k in t.files then Some(t.files[k]) else None, u);
  }

  lemma AddNames(t: Table, k: Key, u: Uuid, j: Key, x: Uuid)
    requires t.Ok() && u != BLANK
    ensures t.Add(k, u).Names(j, x) <==> t.Names(j, x) || (j == k != BLANK_KEY && x == u)
  {
    AddOwnerOk(if k != BLANK_KEY && k in t.files then Some(t.files[k]) else None, u);
  }

  lemma AddIndexes(t: Table, k: Key, u: Uuid, j: Key, x: Uuid)
    requires t.Ok() && u != BLANK && (t.Names(k, x) <==> t.Indexed(k, x))
    ensures t.Add(k, u).Indexed(j, x) <==> t.Indexed(j, x) || (j == k != BLANK_KEY && x == u)
  {
    AddOwnerOk(if k != BLANK_KEY && k in t.files then Some(t.files[k]) else None, u);
    var (route, added) := Joined(t, k, u);
    if added && k != BLANK_KEY {
      OwnersNotBlank(route);
      TrackAllMembers(t.index, k, route.Owners());
    }
  }

  lemma AddLeavesNoneEmpty(t: Table, k: Key, u: Uuid, x: Uuid)
    requires t.Ok() && u != BLANK && (x in t.index ==> t.index[x] != {}) && x in t.Add(k, u).index
    ensures t.Add(k, u).index[x] != {}
  {
    AddOwnerOk(if k != BLANK_KEY && k in t.files then Some(t.files[k]) else None, u);
    var (route, added) := Joined(t, k, u);
    if added && k != BLANK_KEY {
      OwnersNotBlank(route);
      TrackAllMembers(t.index, k, route.Owners());
    }
  }

  lemma AddKeepsPointwise(t: Table, k: Key, u: Uuid)
    requires t.Ok() && t.ExactPointwise() && u != BLANK
    ensures t.Add(k, u).Ok() && t.Add(k, u).ExactPointwise()
  {
    AddOk(t, k, u);
    forall j, x ensures t.Add(k, u).Names(j, x) <==> t.Add(k, u).Indexed(j, x) {
      assert (t.Names(k, x) <==> t.Indexed(k, x)) && (t.Names(j, x) <==> t.Indexed(j, x));
      AddNames(t, k, u, j, x);
      AddIndexes(t, k, u, j, x);
    }
    forall x | x in t.Add(k, u).index ensures t.Add(k, u).index[x] != {} { AddLeavesNoneEmpty(t, k, u, x); }
  }

  lemma AddKeepsExact(t: Table, k: Key, u: Uuid)
    requires t.Ok() && t.Exact() && u != BLANK
    ensures t.Add(k, u).Ok() && t.Add(k, u).Exact()
  {
    ExactIffPointwise(t);
    AddKeepsPointwise(t, k, u);
    ExactIffPointwise(t.Add(k, u));
  }

  lemma RemoveNames(t: Table, k: Key, u: Uuid, j: Key, x: Uuid)
    requires t.Ok() && k != BLANK_KEY && u != BLANK
    ensures t.Remove(k, u).Names(j, x) <==> t.Names(j, x) && !(j == k && x == u)
  {
    if k in t.files { RemoveOwnerOk(t.files[k], u); }
  }

  lemma RemoveIndexes(t: Table, k: Key, u: Uuid, j: Key, x: Uuid)
    requires t.Ok() && k != BLANK_KEY && u != BLANK && (t.Names(k, u) <==> t.Indexed(k, u))
    ensures t.Remove(k, u).Indexed(j, x) <==> t.Indexed(j, x) && !(j == k && x == u)
  {
    if k in t.files { RemoveOwnerOk(t.files[k], u); }
    if x == u && j != k && t.Indexed(j, u) { assert j in t.index[u] - {k}; }
  }

  lemma RemoveKeepsPointwise(t: Table, k: Key, u: Uuid)
    requires t.Ok() && t.ExactPointwise() && k != BLANK_KEY && u != BLANK
    ensures t.Remove(k, u).Ok() && t.Remove(k, u).ExactPointwise()
  {
    if k in t.files { RemoveOwnerOk(t.files[k], u); }
    forall j, x ensures t.Remove(k, u).Names(j, x) <==> t.Remove(k, u).Indexed(j, x) {
      assert (t.Names(k, u) <==> t.Indexed(k, u)) && (t.Names(j, x) <==> t.Indexed(j, x));
      RemoveNames(t, k, u, j, x);
      RemoveIndexes(t, k, u, j, x);
    }
  }

  lemma RemoveKeepsExact(t: Table, k: Key, u: Uuid)
    requires t.Ok() && t.Exact() && k != BLANK_KEY && u != BLANK
    ensures t.Remove(k, u).Ok() && t.Remove(k, u).Exact()
  {
    ExactIffPointwise(t);
    RemoveKeepsPointwise(t, k, u);
    ExactIffPointwise(t.Remove(k, u));
  }

  lemma RemoveRouteKeepsPointwise(t: Table, k: Key)
    requires t.Ok() && t.ExactPointwise()
    ensures t.RemoveRoute(k).Ok() && t.RemoveRoute(k).ExactPointwise()
  {
    if k != BLANK_KEY && k in t.files {
      OwnersNotBlank(t.files[k]);
      UntrackAllMembers(t.index, k, t.files[k].Owners());
      var t' := t.RemoveRoute(k);
      forall j, x
        ensures t'.Names(j, x) <==> t'.Indexed(j, x)
      {
        assert t.Names(j, x) <==> t.Indexed(j, x);
      }
    }
  }

  lemma RemoveRouteKeepsExact(t: Table, k: Key)
    requires t.Ok() && t.Exact()
    ensures t.RemoveRoute(k).Ok() && t.RemoveRoute(k).Exact()
  {
    ExactIffPointwise(t);
    RemoveRouteKeepsPointwise(t, k);
    ExactIffPointwise(t.RemoveRoute(k));
  }

  lemma PruneNames(t: Table, u: Uuid, k: Key, x: Uuid)
    requires t.Ok() && u != BLANK
    ensures t.Prune(u).Names(k, x) <==> t.Names(k, x) && x != u
  {
    if k in t.files { RemoveOwnerOk(t.files[k], u); }
  }

  lemma PruneOk(t: Table, u: Uuid)
    requires t.Ok()
    ensures t.Prune(u).Ok()
  {
    forall k | k in t.Prune(u).files ensures t.Prune(u).files[k].Ok() { RemoveOwnerOk(t.files[k], u); }
  }

  lemma PruneKeepsPointwise(t: Table, u: Uuid)
    requires t.Ok() && t.ExactPointwise()
    ensures t.Prune(u).Ok() && t.Prune(u).ExactPointwise()
  {
    PruneOk(t, u);
    if u != BLANK {
      forall k, x ensures t.Prune(u).Names(k, x) <==> t.Prune(u).Indexed(k, x) {
        assert t.Names(k, x) <==> t.Indexed(k, x);
        PruneNames(t, u, k, x);
      }
    }
  }

  lemma PruneKeepsExact(t: Table, u: Uuid)
    requires t.Ok() && t.Exact()
    ensures t.Prune(u).Ok() && t.Prune(u).Exact()
  {
    ExactIffPointwise(t);
    PruneKeepsPointwise(t, u);
    ExactIffPointwise(t.Prune(u));
  }

  // ---------------------------------------------------------------- any history of operations

  /**
   A route that a caller has loaded: a single owner, compared by its uuid, or a pool, compared by its identity;
   `same` says whether the pool in the map, whatever happened to it since, is still the one that was loaded.
   */
  datatype Seen = Owner(u: Uuid) | Pool(same: bool)

  predicate Current(route: Route, seen: Seen) {
    match route
    case One(u) => seen == Owner(u)
    case Many(_) => seen == Pool(true)
  }

  /** Everything that happens to the two maps between two releases of the client's mutex, and a pool's own selection. */
  datatype Op =
    | AddFileOwner(k: Key, u: Uuid, known: bool)
    | RemoveFileOwner(k: Key, u: Uuid)
    | RemoveFile(k: Key)
    | DeleteIfCurrent(k: Key, seen: Seen)
    | Select(k: Key)
    | PruneOwner(u: Uuid)
    | Close

  function Apply(t: Table, op: Op): Table
    requires t.Ok()
  {
    match op
    case AddFileOwner(k, u, known) => if known && u != BLANK then t.Add(k, u) else t
    case RemoveFileOwner(k, u) => if k == BLANK_KEY || u == BLANK then t else t.Remove(k, u)
    case RemoveFile(k) => t.RemoveRoute(k)
    case DeleteIfCurrent(k, seen) => if k in t.files && Current(t.files[k], seen) then t.RemoveRoute(k) else t
    case Select(k) => t.Select(k)
    case PruneOwner(u) => t.Prune(u)
    case Close => EMPTY
  }

  lemma ApplyKeepsExact(t: Table, op: Op)
    requires t.Ok() && t.Exact()
    ensures Apply(t, op).Ok() && Apply(t, op).Exact()
  {
    match op
    case AddFileOwner(k, u, known) =>
      if known && u != BLANK {
        AddKeepsExact(t, k, u);
      }
    case RemoveFileOwner(k, u) =>
      if k != BLANK_KEY && u != BLANK {
        RemoveKeepsExact(t, k, u);
      }
    case RemoveFile(k) => RemoveRouteKeepsExact(t, k);
    case DeleteIfCurrent(k, _) => RemoveRouteKeepsExact(t, k);
    case Select(k) => SelectKeepsExact(t, k);
    case PruneOwner(u) => PruneKeepsExact(t, u);
    case Close =>
  }

  ghost predicate Reaches(t: Table, ops: seq<Op>, t': Table)
    decreases |ops|
  {
    if ops == [] then t' == t else t.Ok() && Reaches(Apply(t, ops[0]), ops[1..], t')
  }

  /** At every release of the mutex, after any history, the index is the exact inverse of the routes with a name. */
  lemma {:induction false} IndexAlwaysExact(t: Table, ops: seq<Op>, t': Table)
    requires t.Ok() && t.Exact() && Reaches(t, ops, t')
    ensures t'.Ok() && t'.Exact()
    decreases |ops|
  {
    if ops != [] {
      ApplyKeepsExact(t, ops[0]);
      IndexAlwaysExact(Apply(t, ops[0]), ops[1..], t');
    }
  }

  /**
   The code stores a route under a blank name but does not index it, so the index is the inverse of all
   routes if and only if no route has a blank name.
   */
  lemma IndexExactIffNamed(t: Table)
    requires t.Ok() && t.Exact()
    ensures t.index == Inverse(t.files) <==> BLANK_KEY !in t.files
  {
    if BLANK_KEY in t.files {
      var u := t.files[BLANK_KEY].Owners()[0];
      assert t.Owns(BLANK_KEY, u);
      assert BLANK_KEY in Inverse(t.files)[u];
      ExactIffPointwise(t);
      assert t.Names(BLANK_KEY, u) <==> t.Indexed(BLANK_KEY, u);
    } else {
      assert t.files - {BLANK_KEY} == t.files;
    }
  }

  /** For example after an owner was added under a blank name to an empty table. */
  lemma BlankNameIsNotIndexed(u: Uuid)
    requires u != BLANK
    ensures var t := EMPTY.Add(BLANK_KEY, u); BLANK_KEY in t.files && t.index == map[] && t.index != Inverse(t.files)
  {
    var t := EMPTY.Add(BLANK_KEY, u);
    InverseAt(t.files, BLANK_KEY, u);
  }

  /**
   After pruning, no route with a name lists the owner and the index does not know it; every other owner keeps
   its turn, and only empty routes go. A route under a blank name, which the index does not lead to, stays as it is.
   */
  lemma PruneForgetsOwner(t: Table, u: Uuid, k: Key)
    requires t.Ok() && u != BLANK
    ensures u !in t.Prune(u).index && !t.Prune(u).Names(k, u)
    ensures k != BLANK_KEY ==> (k in t.Prune(u).files <==> k in t.files && Without(t.files[k].Queue(), u) != [])
    ensures k != BLANK_KEY && k in t.Prune(u).files ==>
              t.Prune(u).files[k].Ok() && t.Prune(u).files[k].Queue() == Without(t.files[k].Queue(), u)
    ensures BLANK_KEY in t.files ==> BLANK_KEY in t.Prune(u).files && t.Prune(u).files[BLANK_KEY] == t.files[BLANK_KEY]
  {
    if k in t.files {
      RemoveOwnerOk(t.files[k], u);
      RemoveOwnerQueue(t.files[k], u);
    }
  }

  /** Removing an owner from a route deletes it from the queue and changes nothing else. */
  lemma RemoveOwnerQueue(route: Route, u: Uuid)
    requires route.Ok()
    ensures RemoveOwner(route, u).0.None? <==> Without(route.Queue(), u) == []
    ensures RemoveOwner(route, u).0.Some? ==>
              && RemoveOwner(route, u).0.value.Ok()
              && RemoveOwner(route, u).0.value.Queue() == Without(route.Queue(), u)
  {
    match route
    case One(c) =>
      assert Without([c], u) == if c == u then [] else [c];
    case Many(r) =>
      RemoveKeepsQueue(r, u);
      if u !in r.order {
        UpcomingMember(r.order, r.next, u);
        WithoutAbsent(r.Queue(), u);
      }
  }

  lemma SelectKeepsPointwise(t: Table, k: Key)
    requires t.Ok() && t.ExactPointwise()
    ensures t.Select(k).Ok() && t.Select(k).ExactPointwise()
  {
    if k in t.files && t.files[k].Many? { AdvanceRotatesQueue(t.files[k].ring); }
    forall j, x ensures t.Select(k).Names(j, x) <==> t.Select(k).Indexed(j, x) {
      assert t.Names(j, x) <==> t.Indexed(j, x);
    }
  }

  /** Choosing an owner changes no owner list, so the index stays exact. */
  lemma SelectKeepsExact(t: Table, k: Key)
    requires t.Ok() && t.Exact()
    ensures t.Select(k).Ok() && t.Select(k).Exact()
  {
    ExactIffPointwise(t);
    SelectKeepsPointwise(t, k);
    ExactIffPointwise(t.Select(k));
  }

  /** Route `k` of `t'` is route `k` of `t` after `u` was taken off it. */
  predicate OwnerTakenOff(t: Table, t': Table, k: Key, u: Uuid)
    requires t.Ok()
  {
    var rest := if k in t.files then RemoveOwner(t.files[k], u).0 else None;
    if rest.None? then k !in t'.files else k in t'.files && t'.files[k] == rest.value
  }

  lemma RemoveIsOk(t: Table, k: Key, u: Uuid)
    requires t.Ok()
    ensures t.Remove(k, u).Ok()
  {
    if k in t.files { RemoveOwnerOk(t.files[k], u); }
  }

  /** Removing an owner from one route, from all routes, or both, in either order, is the same for that route. */
  lemma TakenOff(t: Table, k: Key, u: Uuid)
    requires t.Ok() && u != BLANK && k != BLANK_KEY
    ensures t.Remove(k, u).Ok() && t.Prune(u).Ok()
    ensures OwnerTakenOff(t, t.Remove(k, u), k, u)
    ensures OwnerTakenOff(t, t.Remove(k, u).Prune(u), k, u)
    ensures OwnerTakenOff(t, t.Prune(u).Remove(k, u), k, u)
  {
    RemoveIsOk(t, k, u);
    PruneOk(t, u);
    if k in t.files {
      RemoveOwnerOk(t.files[k], u);
      var rest := RemoveOwner(t.files[k], u).0;
      if rest.Some? {
        RemoveOwnerOk(rest.value, u);
      }
    }
  }

  lemma PruneInOk(t: Table, u: Uuid, done: set<Key>)
    requires t.Ok()
    ensures t.PruneIn(u, done).Ok()
  {
    forall k | k in t.PruneIn(u, done).files ensures t.PruneIn(u, done).files[k].Ok() { RemoveOwnerOk(t.files[k], u); }
  }

  /** The routes after one key more. */
  lemma PruneOneMoreFiles(t: Table, u: Uuid, done: set<Key>, k: Key)
    requires t.Ok() && t.PruneIn(u, done).Ok() && k in t.files && u in t.files[k].Owners() && k !in done
    ensures t.PruneIn(u, done).Remove(k, u).files == t.PruneIn(u, done + {k}).files
  {
    RemoveOwnerOk(t.files[k], u);
  }

  /** The index after one key more. */
  lemma PruneOneMoreIndex(t: Table, u: Uuid, done: set<Key>, k: Key)
    requires t.Ok() && t.PruneIn(u, done).Ok() && k in t.files && u in t.files[k].Owners() && u != BLANK
    requires k in t.KeysOf(u) && k !in done && k != BLANK_KEY
    ensures t.PruneIn(u, done).Remove(k, u).index == t.PruneIn(u, done + {k}).index
  {
    RemoveOwnerOk(t.files[k], u);
    assert t.KeysOf(u) - done - {k} == t.KeysOf(u) - (done + {k});
  }

  lemma PruneOneMore(t: Table, u: Uuid, done: set<Key>, k: Key)
    requires t.Ok() && t.ExactPointwise() && u != BLANK
    requires k in t.KeysOf(u) && k !in done
    ensures k != BLANK_KEY && k in t.files
    ensures t.PruneIn(u, done).Ok() && t.PruneIn(u, done).Remove(k, u) == t.PruneIn(u, done + {k})
  {
    assert t.Indexed(k, u);
    assert t.Names(k, u);
    PruneInOk(t, u, done);
    PruneOneMoreFiles(t, u, done, k);
    PruneOneMoreIndex(t, u, done, k);
  }

  lemma PrunedAll(t: Table, u: Uuid)
    requires t.Ok() && t.ExactPointwise() && u != BLANK
    ensures t.PruneIn(u, t.KeysOf(u)) == t.Prune(u)
  {
    forall k | k in t.files && k !in t.KeysOf(u)
      ensures k == BLANK_KEY || RemoveOwner(t.files[k], u).0 == Some(t.files[k])
    {
      assert !t.Indexed(k, u);
      assert !t.Names(k, u);
    }
    assert BLANK_KEY !in t.KeysOf(u) by {
      assert t.Names(BLANK_KEY, u) <==> t.Indexed(BLANK_KEY, u);
    }
  }

  // ---------------------------------------------------------------- the object

  /** The route table of a client. A pooled route is stored as the state of its pool. */
  class Routes {
    var files: map<Key, Route>
    var fileOwnerKeys: Index

    ghost predicate Valid()
      reads this
    {
      View().Ok()
    }

    function View(): Table
      reads this
    {
      Table(files, fileOwnerKeys)
    }

    constructor ()
      ensures Valid() && View() == EMPTY
    {
      files, fileOwnerKeys := map[], map[];
    }

    method AddFileOwner(k: Key, u: Uuid, known: bool) returns (added: bool, found: bool)
      requires Valid()
      modifies this
      ensures found == (known && u != BLANK)
      ensures Valid() && View() == Apply(old(View()), Op.AddFileOwner(k, u, known))
      ensures added == (found && (k == BLANK_KEY || !old(View()).Owns(k, u)))
    {
      if !known || u == BLANK {
        return false, false;
      }
      var current := if k != BLANK_KEY && k in files then Some(files[k]) else None;
      AddOwnerOk(current, u);
      var (route, changed) := AddOwner(current, u);
      if !changed {
        return false, true;
      }
      files := files[k := route];
      TrackOwners(k, route.Owners());
      return true, true;
    }

    method RemoveFileOwner(k: Key, u: Uuid) returns (removed: bool)
      requires Valid()
      modifies this
      ensures Valid() && View() == Apply(old(View()), Op.RemoveFileOwner(k, u))
      ensures removed == (k != BLANK_KEY && u != BLANK && old(View()).Owns(k, u))
    {
      if k == BLANK_KEY || u == BLANK || k !in files {
        return false;
      }
      RemoveOwnerOk(files[k], u);
      var (rest, gone) := RemoveOwner(files[k], u);
      if !gone {
        return false;
      }
      UntrackOwner(k, u);
      if rest.None? {
        files := files - {k};
      } else {
        files := files[k := rest.value];
      }
      return true;
    }

    method RemoveFile(k: Key) returns (removed: bool)
      requires Valid()
      modifies this
      ensures Valid() && View() == Apply(old(View()), Op.RemoveFile(k))
      ensures removed <==> k != BLANK_KEY && k in old(files)
    {
      if k == BLANK_KEY || k !in files {
        return false;
      }
      var route := files[k];
      files := files - {k};
      UntrackOwners(k, route.Owners());
      return true;
    }

    /** deleteFileMappingIfCurrent. */
    method DeleteIfCurrent(k: Key, seen: Seen) returns (deleted: bool)
      requires Valid()
      modifies this
      ensures Valid() && View() == Apply(old(View()), Op.DeleteIfCurrent(k, seen))
      ensures deleted <==> k != BLANK_KEY && k in old(files) && Current(old(files)[k], seen)
    {
      if k == BLANK_KEY || k !in files || !Current(files[k], seen) {
        return false;
      }
      var route := files[k];
      files := files - {k};
      UntrackOwners(k, route.Owners());
      return true;
    }

    method Close()
      modifies this
      ensures Valid() && View() == EMPTY
    {
      files := map[];
      fileOwnerKeys := map[];
    }

    method TrackOwner(k: Key, u: Uuid)
      modifies this`fileOwnerKeys
      ensures fileOwnerKeys == Track(old(fileOwnerKeys), k, u)
    {
      if k == BLANK_KEY || u == BLANK {
        return;
      }
      var keys := if u in fileOwnerKeys then fileOwnerKeys[u] else {};
      fileOwnerKeys := fileOwnerKeys[u := keys + {k}];
    }

    method UntrackOwner(k: Key, u: Uuid)
      modifies this`fileOwnerKeys
      ensures fileOwnerKeys == Untrack(old(fileOwnerKeys), k, u)
    {
      if k == BLANK_KEY || u == BLANK {
        return;
      }
      if u !in fileOwnerKeys || |fileOwnerKeys[u]| == 0 {
        fileOwnerKeys := fileOwnerKeys - {u};
        return;
      }
      fileOwnerKeys := fileOwnerKeys[u := fileOwnerKeys[u] - {k}];
      if |fileOwnerKeys[u]| == 0 {
        fileOwnerKeys := fileOwnerKeys - {u};
      }
    }

    method TrackOwners(k: Key, us: seq<Uuid>)
      modifies this`fileOwnerKeys
      ensures fileOwnerKeys == if k == BLANK_KEY then old(fileOwnerKeys) else TrackAll(old(fileOwnerKeys), k, us)
    {
      if k == BLANK_KEY {
        return;
      }
      for i := 0 to |us|
        invariant fileOwnerKeys == TrackAll(old(fileOwnerKeys), k, us[..i])
      {
        assert us[..i + 1][..i] == us[..i];
        TrackOwner(k, us[i]);
      }
      assert us[..|us|] == us;
    }

    method UntrackOwners(k: Key, us: seq<Uuid>)
      modifies this`fileOwnerKeys
      ensures fileOwnerKeys == if k == BLANK_KEY then old(fileOwnerKeys) else UntrackAll(old(fileOwnerKeys), k, us)
    {
      if k == BLANK_KEY {
        return;
      }
      for i := 0 to |us|
        invariant fileOwnerKeys == UntrackAll(old(fileOwnerKeys), k, us[..i])
      {
        assert us[..i + 1][..i] == us[..i];
        UntrackOwner(k, us[i]);
      }
      assert us[..|us|] == us;
    }

    /** selectNextWithCount on the pool of route `k`; a pool that has lost its route is empty. */
    method SelectNext(k: Key) returns (u: Uuid, count: nat, ok: bool)
      requires Valid()
      modifies this`files
      ensures ok == (k in old(files) && old(files)[k].Many?)
      ensures View() == Apply(old(View()), Op.Select(k))
      ensures ok ==> u == old(files)[k].Queue()[0] && count == |old(files)[k].ring.order|
      ensures Valid()
    {
      if k !in files || files[k].One? {
        return BLANK, 0, false;
      }
      var ring := files[k].ring;
      AdvanceRotatesQueue(ring);
      files := files[k := Many(ring.Advance())];
      return ring.order[ring.next], |ring.order|, true;
    }

    /** pruneFileMappings: the owner is removed from every route that the index names for it. */
    method PruneOwner(u: Uuid)
      requires Valid() && View().ExactPointwise()
      modifies this
      ensures Valid() && View() == Apply(old(View()), Op.PruneOwner(u))
    {
      if u == BLANK {
        return;
      }
      ghost var before := View();
      var todo := if u in fileOwnerKeys then fileOwnerKeys[u] else {};
      ghost var done: set<Key> := {};
      while todo != {}
        invariant done !! todo && done + todo == before.KeysOf(u)
        invariant Valid() && View() == before.PruneIn(u, done)
        decreases todo
      {
        var k :| k in todo;
        PruneOneMore(before, u, done, k);
        var removed := RemoveFileOwner(k, u);
        todo := todo - {k};
        done := done + {k};
      }
      PrunedAll(before, u);
    }
  }
}
