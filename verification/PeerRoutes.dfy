/**
 The client's P2P route table (client/p2p_route_state.go): local services bound to associations,
 associations with their routes, providers, and peers with their transports. Every function below is
 one critical section of the manager's mutex. References are positions in the lists of objects ever
 created, so an association or a binding that has left the maps can still be held and changed.
 */
module PeerRoutes {
  import opened Wrappers

  type LocalKey = nat
  type Provider = nat
  type Transport = nat
  const NO_PROVIDER: Provider := 0

  /** The bridge derives the ID of an association from its two parties. */
  datatype AssocID = NoID | AssocID(visitor: nat, provider: Provider)

  datatype Mode = Kcp | Quic

  datatype PeerKey = PeerKey(provider: Provider, mode: Mode)

  type BindingRef = nat
  type AssocRef = nat
  type PeerRef = nat
  type Chan = nat

  datatype Binding = Binding(localKey: LocalKey, provider: Provider, assocID: AssocID, peerKey: PeerKey)

  datatype Assoc = Assoc(
    id: AssocID,
    peerKey: Option<PeerKey>,
    routeRefs: map<LocalKey, BindingRef>,
    dialing: bool,
    readyCh: Option<Chan>,
    failed: bool)

  datatype Peer = Peer(key: PeerKey, assocID: AssocID, transport: Option<Transport>)

  datatype Manager = Manager(
    localBindings: map<LocalKey, BindingRef>,
    associations: map<AssocID, AssocRef>,
    peerIndex: map<Provider, AssocID>,
    peers: map<PeerKey, PeerRef>,
    bindings: seq<Binding>,
    assocs: seq<Assoc>,
    peerObjects: seq<Peer>)

  const EMPTY := Manager(map[], map[], map[], map[], [], [], [])

  /** Every stored reference refers to an object. */
  predicate InRange(m: Manager) {
    && (forall l :: l in m.localBindings ==> m.localBindings[l] < |m.bindings|)
    && (forall id :: id in m.associations ==> m.associations[id] < |m.assocs|)
    && (forall k :: k in m.peers ==> m.peers[k] < |m.peerObjects|)
  }

  // ---------------------------------------------------------------- critical sections

  function WithoutProvider(m: Manager, p: Provider, id: AssocID): map<Provider, AssocID> {
    if p in m.peerIndex && m.peerIndex[p] == id then m.peerIndex - {p} else m.peerIndex
  }

  /** Takes an association without routes out of the maps; its transport, if it owns one, is to be closed. */
  function DropAssociation(m: Manager, id: AssocID, binding: Binding): (Manager, Option<Transport>)
    requires InRange(m) && id in m.associations
  {
    var a := m.assocs[m.associations[id]];
    var m1 := m.(associations := m.associations - {id}, peerIndex := WithoutProvider(m, binding.provider, id));
    var stale := if a.peerKey.Some? then a.peerKey.value else binding.peerKey;
    if stale !in m.peers || m.peerObjects[m.peers[stale]].assocID != id then (m1, None)
    else (m1.(peers := m.peers - {stale}), m.peerObjects[m.peers[stale]].transport)
  }

  /** Takes a local service out of the bindings and out of its association's routes. */
  function Unroute(m: Manager, l: LocalKey): Manager
    requires InRange(m) && l in m.localBindings
  {
    var b := m.bindings[m.localBindings[l]];
    var m1 := m.(localBindings := m.localBindings - {l});
    if b.assocID !in m.associations then m1.(peerIndex := WithoutProvider(m, b.provider, b.assocID))
    else
      var r := m.associations[b.assocID];
      m1.(assocs := m.assocs[r := m.assocs[r].(routeRefs := m.assocs[r].routeRefs - {l})])
  }

  /** detachLocalBindingLocked: unbinds a local service, except that association `keep` stays even without routes. */
  function Detach(m: Manager, l: LocalKey, keep: AssocID): (Manager, Option<Transport>)
    requires InRange(m)
  {
    if l !in m.localBindings then (m, None)
    else
      var b := m.bindings[m.localBindings[l]];
      var m1 := Unroute(m, l);
      UnrouteInRange(m, l);
      if b.assocID !in m.associations || b.assocID == keep || m1.assocs[m1.associations[b.assocID]].routeRefs != map[]
      then (m1, None)
      else DropAssociation(m1, b.assocID, b)
  }

  /** The association with that ID, created if the map has none. */
  function Obtain(m: Manager, id: AssocID): (Manager, AssocRef)
    requires InRange(m)
  {
    if id in m.associations then (m, m.associations[id])
    else (m.(associations := m.associations[id := |m.assocs|],
             assocs := m.assocs + [Assoc(id, None, map[], false, None, false)]), |m.assocs|)
  }

  /** Binds local service `l` to association object `r` of provider `p`. */
  function Bind(m: Manager, l: LocalKey, p: Provider, r: AssocRef, mode: Mode): (Manager, BindingRef)
    requires r < |m.assocs|
  {
    var a := m.assocs[r];
    var key := if a.peerKey.Some? then a.peerKey.value else PeerKey(p, mode);
    var b := |m.bindings|;
    (m.(localBindings := m.localBindings[l := b],
        peerIndex := m.peerIndex[p := a.id],
        bindings := m.bindings + [Binding(l, p, a.id, key)],
        assocs := m.assocs[r := a.(peerKey := Some(key), routeRefs := a.routeRefs[l := b])]), b)
  }

  /** What a rebind returns: the binding, its association, and a transport to close. */
  datatype Rebound = Rebound(binding: BindingRef, assoc: AssocRef, stale: Option<Transport>)

  /**
   storeResolvedRouteBindingLocked for the bridge's answer (`p`, `id`), where `mode` is the configured
   transport mode; an answer without provider or ID is refused.
   */
  function Rebind(m: Manager, l: LocalKey, p: Provider, id: AssocID, mode: Mode): (Manager, Option<Rebound>)
    requires InRange(m)
  {
    if p == NO_PROVIDER || id == NoID then (m, None)
    else
      var (m1, stale) := Detach(m, l, id);
      DetachInRange(m, l, id);
      var (m2, r) := Obtain(m1, id);
      var (m3, b) := Bind(m2, l, p, r, mode);
      (m3, Some(Rebound(b, r, stale)))
  }

  /** Sets the peer key of every binding that an association lists. */
  function Rekey(bindings: seq<Binding>, refs: map<LocalKey, BindingRef>, key: PeerKey): (r: seq<Binding>)
    ensures |r| == |bindings|
  {
    seq(|bindings|, i requires 0 <= i < |bindings| => if i in refs.Values then bindings[i].(peerKey := key)
      else bindings[i])
  }

  /** The key under which a peer is looked for when a transport to it arrives. */
  function Reused(m: Manager, actual: PeerKey, former: PeerKey): Option<PeerKey> {
    if actual in m.peers then Some(actual) else if former in m.peers then Some(former) else None
  }

  /** Puts a transport into the peer found under `reuse`, or into a new peer, and files the peer under `actual`. */
  function SetPeer(m: Manager, reuse: Option<PeerKey>, actual: PeerKey, id: AssocID,
                   t: Transport): (Manager, Option<Transport>)
    requires InRange(m) && (reuse.Some? ==> reuse.value in m.peers)
  {
    var peer := Peer(actual, id, Some(t));
    if reuse.None? then
      (m.(peers := m.peers[actual := |m.peerObjects|], peerObjects := m.peerObjects + [peer]), None)
    else
      var p := m.peers[reuse.value];
      (m.(peers := (m.peers - {reuse.value})[actual := p], peerObjects := m.peerObjects[p := peer]),
        m.peerObjects[p].transport)
  }

  /** Makes `key` the peer key of an association and of every binding it lists. */
  function SetPeerKey(m: Manager, r: AssocRef, key: PeerKey): Manager
    requires r < |m.assocs|
  {
    m.(assocs := m.assocs[r := m.assocs[r].(peerKey := Some(key))],
      bindings := Rekey(m.bindings, m.assocs[r].routeRefs, key))
  }

  /**
   The map-update part of establishPeerTransport: a transport dialled in `mode` for binding `b` and
   association object `r` replaces that of the peer it belongs to; the replaced one is to be closed.
   */
  function Install(m: Manager, b: BindingRef, r: AssocRef, mode: Mode, t: Transport): (Manager, Option<Transport>)
    requires InRange(m) && b < |m.bindings| && r < |m.assocs|
  {
    var binding := m.bindings[b];
    var actual := PeerKey(binding.provider, mode);
    var (m1, previous) := SetPeer(m, Reused(m, actual, binding.peerKey), actual, binding.assocID, t);
    (SetPeerKey(m1, r, actual), previous)
  }

  /** The start of a round of waitOrEstablishPeer: the caller's binding takes over the association's peer key. */
  function SyncKey(m: Manager, b: BindingRef, r: AssocRef): Manager
    requires b < |m.bindings| && r < |m.assocs|
  {
    if m.assocs[r].peerKey.None? then m
    else m.(bindings := m.bindings[b := m.bindings[b].(peerKey := m.assocs[r].peerKey.value)])
  }

  /** Opens or ends a dial on an association object. */
  function SetDial(m: Manager, r: AssocRef, ch: Option<Chan>, failed: bool): Manager
    requires r < |m.assocs|
  {
    m.(assocs := m.assocs[r := m.assocs[r].(dialing := ch.Some?, failed := failed, readyCh := ch)])
  }

  /** Close drops every map; objects that callers still hold stay as they are. */
  function CloseAll(m: Manager): Manager {
    m.(localBindings := map[], associations := map[], peerIndex := map[], peers := map[])
  }

  // ---------------------------------------------------------------- consistency of the maps

  type Bound = map<LocalKey, BindingRef>

  predicate Live(bound: Bound, bs: seq<Binding>, b: BindingRef) {
    b < |bs| && bs[b].localKey in bound && bound[bs[b].localKey] == b
  }

  predicate LiveAssoc(m: Manager, r: AssocRef)
    requires r < |m.assocs|
  {
    m.assocs[r].id in m.associations && m.associations[m.assocs[r].id] == r
  }

  /** An association's route is the live binding of that service, of that association, with that peer key. */
  predicate RouteOk(bound: Bound, bs: seq<Binding>, a: Assoc, l: LocalKey)
    requires l in a.routeRefs
  {
    && l in bound && bound[l] == a.routeRefs[l] < |bs|
    && var b := bs[a.routeRefs[l]];
    b.localKey == l && b.assocID == a.id && a.id.AssocID? && b.provider == a.id.provider && a.peerKey == Some(b.peerKey)
  }

  predicate RoutesOf(bound: Bound, bs: seq<Binding>, a: Assoc) {
    forall l :: l in a.routeRefs ==> RouteOk(bound, bs, a, l)
  }

  /**
   A stored association has a route and a peer key (association `spare` may yet lack them), and its routes are
   right.
   */
  predicate AssociationOk(m: Manager, id: AssocID, spare: AssocID)
    requires id in m.associations
  {
    && m.associations[id] < |m.assocs|
    && var a := m.assocs[m.associations[id]];
    && a.id == id && id.AssocID?
    && (id != spare ==> a.peerKey.Some? && a.routeRefs != map[])
    && RoutesOf(m.localBindings, m.bindings, a)
  }

  /** A bound service is listed, under its own key, by the live association its binding names. */
  predicate BindingOk(m: Manager, l: LocalKey)
    requires l in m.localBindings
  {
    && m.localBindings[l] < |m.bindings|
    && var b := m.bindings[m.localBindings[l]];
    && b.localKey == l && b.assocID in m.associations && m.associations[b.assocID] < |m.assocs|
    && var refs := m.assocs[m.associations[b.assocID]].routeRefs;
    l in refs && refs[l] == m.localBindings[l]
  }

  /** A provider is indexed by a live association with that provider. */
  predicate ProviderOk(m: Manager, p: Provider)
    requires p in m.peerIndex
  {
    m.peerIndex[p] in m.associations && m.peerIndex[p].AssocID? && m.peerIndex[p].provider == p
  }

  predicate NoneLive(bound: Bound, bs: seq<Binding>, refs: map<LocalKey, BindingRef>) {
    forall l :: l in refs ==> refs[l] < |bs| && !Live(bound, bs, refs[l])
  }

  /** Only the association objects in the map list live bindings. */
  predicate DetachedOk(m: Manager, r: AssocRef)
    requires r < |m.assocs|
  {
    LiveAssoc(m, r) || NoneLive(m.localBindings, m.bindings, m.assocs[r].routeRefs)
  }

  predicate RoutesOk(m: Manager, spare: AssocID) {
    && (forall l {:trigger BindingOk(m, l)} :: l in m.localBindings ==> BindingOk(m, l))
    && (forall id {:trigger AssociationOk(m, id, spare)} :: id in m.associations ==> AssociationOk(m, id, spare))
    && (forall p {:trigger ProviderOk(m, p)} :: p in m.peerIndex ==> ProviderOk(m, p))
    && (forall r {:trigger DetachedOk(m, r)} :: 0 <= r < |m.assocs| ==> DetachedOk(m, r))
  }

  predicate PeersOk(m: Manager) {
    forall k :: k in m.peers ==>
      m.peers[k] < |m.peerObjects| && m.peerObjects[m.peers[k]].key == k && m.peerObjects[m.peers[k]].transport.Some?
  }

  /** What holds of the maps whenever the mutex is free. */
  predicate Consistent(m: Manager) {
    RoutesOk(m, NoID) && PeersOk(m)
  }

  lemma UnrouteInRange(m: Manager, l: LocalKey)
    requires InRange(m) && l in m.localBindings
    ensures InRange(Unroute(m, l))
  {
  }

  lemma DetachInRange(m: Manager, l: LocalKey, keep: AssocID)
    requires InRange(m)
    ensures InRange(Detach(m, l, keep).0)
  {
    if l in m.localBindings { UnrouteInRange(m, l); }
  }

  lemma ConsistentInRange(m: Manager, spare: AssocID)
    requires RoutesOk(m, spare) && PeersOk(m)
    ensures InRange(m)
  {
    forall l | l in m.localBindings ensures m.localBindings[l] < |m.bindings| { assert BindingOk(m, l); }
    forall id | id in m.associations ensures m.associations[id] < |m.assocs| { assert AssociationOk(m, id, spare); }
  }

  /** The service `l` with binding `b` and its live association `r`. */
  lemma BoundTo(m: Manager, l: LocalKey) returns (b: Binding, r: AssocRef)
    requires RoutesOk(m, NoID) && l in m.localBindings
    ensures BindingOk(m, l) && b == m.bindings[m.localBindings[l]]
    ensures AssociationOk(m, b.assocID, NoID) && r == m.associations[b.assocID]
    ensures l in m.assocs[r].routeRefs && RouteOk(m.localBindings, m.bindings, m.assocs[r], l)
  {
    assert BindingOk(m, l);
    b := m.bindings[m.localBindings[l]];
    r := m.associations[b.assocID];
    assert AssociationOk(m, b.assocID, NoID);
  }

  // Unbinding a service: each part of the consistency on its own.

  lemma UnrouteKeepsAssociation(m: Manager, l: LocalKey, id: AssocID)
    requires RoutesOk(m, NoID) && InRange(m) && l in m.localBindings && id in m.associations
    ensures AssociationOk(Unroute(m, l), id, m.bindings[m.localBindings[l]].assocID)
  {
    var b, r := BoundTo(m, l);
    assert AssociationOk(m, id, NoID);
    var a, a1 := m.assocs[m.associations[id]], Unroute(m, l).assocs[m.associations[id]];
    forall k | k in a1.routeRefs ensures RouteOk(m.localBindings - {l}, m.bindings, a1, k) {
      assert RouteOk(m.localBindings, m.bindings, a, k);
    }
  }

  lemma UnrouteKeepsBinding(m: Manager, l: LocalKey, k: LocalKey)
    requires RoutesOk(m, NoID) && InRange(m) && l in m.localBindings && k in m.localBindings && k != l
    ensures BindingOk(Unroute(m, l), k)
  {
    var b, r := BoundTo(m, l);
    assert BindingOk(m, k);
  }

  lemma UnrouteKeepsDetached(m: Manager, l: LocalKey, r: AssocRef)
    requires RoutesOk(m, NoID) && InRange(m) && l in m.localBindings && r < |m.assocs|
    ensures |Unroute(m, l).assocs| == |m.assocs| && DetachedOk(Unroute(m, l), r)
  {
    var b, q := BoundTo(m, l);
    assert DetachedOk(m, r);
  }

  /** Unbinding a service leaves the routes right; only its association may have lost its last route. */
  lemma UnrouteKeepsRoutes(m: Manager, l: LocalKey)
    requires RoutesOk(m, NoID) && InRange(m) && l in m.localBindings
    ensures var id := m.bindings[m.localBindings[l]].assocID;
            RoutesOk(Unroute(m, l), id) && id in m.associations && l !in Unroute(m, l).localBindings
  {
    var b, r := BoundTo(m, l);
    var m1 := Unroute(m, l);
    forall id | id in m1.associations ensures AssociationOk(m1, id, b.assocID) { UnrouteKeepsAssociation(m, l, id); }
    forall k | k in m1.localBindings ensures BindingOk(m1, k) { UnrouteKeepsBinding(m, l, k); }
    forall p | p in m1.peerIndex ensures ProviderOk(m1, p) { assert ProviderOk(m, p); }
    forall q | 0 <= q < |m1.assocs| ensures DetachedOk(m1, q) { UnrouteKeepsDetached(m, l, q); }
  }

  lemma DropKeepsDetached(m: Manager, id: AssocID, b: Binding, r: AssocRef)
    requires RoutesOk(m, id) && InRange(m) && id in m.associations && m.assocs[m.associations[id]].routeRefs == map[]
    requires r < |m.assocs|
    ensures DropAssociation(m, id, b).0.assocs == m.assocs && DetachedOk(DropAssociation(m, id, b).0, r)
  {
    assert DetachedOk(m, r) && AssociationOk(m, id, id);
  }

  lemma DropKeepsBinding(m: Manager, id: AssocID, b: Binding, k: LocalKey)
    requires RoutesOk(m, id) && InRange(m) && id in m.associations && m.assocs[m.associations[id]].routeRefs == map[]
    requires k in m.localBindings
    ensures DropAssociation(m, id, b).0.localBindings == m.localBindings && BindingOk(DropAssociation(m, id, b).0, k)
  {
    assert BindingOk(m, k);
  }

  lemma DropKeepsProvider(m: Manager, id: AssocID, b: Binding, p: Provider)
    requires RoutesOk(m, id) && InRange(m) && id in m.associations
    requires id.AssocID? && b.provider == id.provider && p in DropAssociation(m, id, b).0.peerIndex
    ensures ProviderOk(DropAssociation(m, id, b).0, p)
  {
    assert ProviderOk(m, p);
  }

  /** Dropping an association that has lost its last route makes the routes consistent again. */
  lemma DropKeepsRoutes(m: Manager, id: AssocID, b: Binding)
    requires RoutesOk(m, id) && InRange(m) && id in m.associations && m.assocs[m.associations[id]].routeRefs == map[]
    requires b.assocID == id && id.AssocID? && b.provider == id.provider
    ensures RoutesOk(DropAssociation(m, id, b).0, NoID)
  {
    var m1 := DropAssociation(m, id, b).0;
    forall i | i in m1.associations ensures AssociationOk(m1, i, NoID) { assert AssociationOk(m, i, id); }
    forall k | k in m1.localBindings ensures BindingOk(m1, k) { DropKeepsBinding(m, id, b, k); }
    forall p | p in m1.peerIndex ensures ProviderOk(m1, p) { DropKeepsProvider(m, id, b, p); }
    forall r | 0 <= r < |m1.assocs| ensures DetachedOk(m1, r) { DropKeepsDetached(m, id, b, r); }
  }

  lemma SpareRoutes(m: Manager, spare: AssocID)
    requires RoutesOk(m, NoID)
    ensures RoutesOk(m, spare)
  {
    forall i | i in m.associations ensures AssociationOk(m, i, spare) { assert AssociationOk(m, i, NoID); }
  }

  lemma SettledRoutes(m: Manager, spare: AssocID)
    requires RoutesOk(m, spare)
    requires spare in m.associations && m.associations[spare] < |m.assocs|
    requires m.assocs[m.associations[spare]].peerKey.Some? && m.assocs[m.associations[spare]].routeRefs != map[]
    ensures RoutesOk(m, NoID)
  {
    forall i | i in m.associations ensures AssociationOk(m, i, NoID) { assert AssociationOk(m, i, spare); }
  }

  lemma DetachKeepsRoutes(m: Manager, l: LocalKey, keep: AssocID)
    requires RoutesOk(m, NoID) && InRange(m)
    ensures RoutesOk(Detach(m, l, keep).0, keep) && l !in Detach(m, l, keep).0.localBindings
  {
    if l !in m.localBindings {
      SpareRoutes(m, keep);
    } else {
      UnrouteKeepsRoutes(m, l);
      UnrouteInRange(m, l);
      var b, r := BoundTo(m, l);
      var m1 := Unroute(m, l);
      if b.assocID != keep {
        if m1.assocs[r].routeRefs != map[] {
          SettledRoutes(m1, b.assocID);
          SpareRoutes(m1, keep);
        } else {
          DropKeepsRoutes(m1, b.assocID, b);
          SpareRoutes(Detach(m, l, keep).0, keep);
        }
      }
    }
  }

  lemma ObtainKeepsRoutes(m: Manager, id: AssocID)
    requires RoutesOk(m, id) && InRange(m) && id.AssocID?
    ensures var (m1, r) := Obtain(m, id);
            RoutesOk(m1, id) && id in m1.associations && m1.associations[id] == r && m1.localBindings == m.localBindings
  {
    if id !in m.associations {
      var m1 := Obtain(m, id).0;
      forall i | i in m1.associations ensures AssociationOk(m1, i, id) {
        if i != id { assert AssociationOk(m, i, id); }
      }
      forall k | k in m1.localBindings ensures BindingOk(m1, k) { assert BindingOk(m, k); }
      forall p | p in m1.peerIndex ensures ProviderOk(m1, p) { assert ProviderOk(m, p); }
      forall r | 0 <= r < |m1.assocs| ensures DetachedOk(m1, r) { if r < |m.assocs| { assert DetachedOk(m, r); } }
    }
  }

  lemma BindKeepsAssociation(m: Manager, l: LocalKey, p: Provider, r: AssocRef, mode: Mode, id: AssocID)
    requires r < |m.assocs| && RoutesOk(m, m.assocs[r].id) && l !in m.localBindings && LiveAssoc(m, r)
    requires m.assocs[r].id.AssocID? && m.assocs[r].id.provider == p && id in m.associations
    ensures AssociationOk(Bind(m, l, p, r, mode).0, id, NoID)
  {
    var m1 := Bind(m, l, p, r, mode).0;
    assert AssociationOk(m, id, m.assocs[r].id);
    var a, a1 := m.assocs[m.associations[id]], m1.assocs[m.associations[id]];
    forall k | k in a1.routeRefs ensures RouteOk(m1.localBindings, m1.bindings, a1, k) {
      if k in a.routeRefs { assert RouteOk(m.localBindings, m.bindings, a, k); }
    }
    if m.associations[id] == r { assert l in a1.routeRefs; }
  }

  lemma BindKeepsDetached(m: Manager, l: LocalKey, p: Provider, r: AssocRef, mode: Mode, q: AssocRef)
    requires r < |m.assocs| && l !in m.localBindings && LiveAssoc(m, r) && q < |m.assocs| && DetachedOk(m, q)
    ensures DetachedOk(Bind(m, l, p, r, mode).0, q)
  {
  }

  /** Binding a service to an association makes the routes consistent, whether or not it had routes before. */
  lemma BindKeepsRoutes(m: Manager, l: LocalKey, p: Provider, r: AssocRef, mode: Mode)
    requires r < |m.assocs| && RoutesOk(m, m.assocs[r].id) && l !in m.localBindings && LiveAssoc(m, r)
    requires m.assocs[r].id.AssocID? && m.assocs[r].id.provider == p
    ensures RoutesOk(Bind(m, l, p, r, mode).0, NoID)
  {
    var m1 := Bind(m, l, p, r, mode).0;
    forall id | id in m1.associations ensures AssociationOk(m1, id, NoID) {
      BindKeepsAssociation(m, l, p, r, mode, id);
    }
    forall k | k in m1.localBindings ensures BindingOk(m1, k) { if k != l { assert BindingOk(m, k); } }
    forall q | q in m1.peerIndex ensures ProviderOk(m1, q) { if q != p { assert ProviderOk(m, q); } }
    forall q | 0 <= q < |m1.assocs| ensures DetachedOk(m1, q) {
      assert DetachedOk(m, q);
      BindKeepsDetached(m, l, p, r, mode, q);
    }
  }

  /** Bindings that differ in nothing but their peer keys. */
  predicate OnlyKeysDiffer(bs: seq<Binding>, bs1: seq<Binding>) {
    |bs| == |bs1| && forall i :: 0 <= i < |bs| ==> bs1[i] == bs[i].(peerKey := bs1[i].peerKey)
  }

  /** Changing peer keys keeps the routes consistent if each association's routes are still right. */
  lemma KeysKeepRoutes(m: Manager, m1: Manager)
    requires RoutesOk(m, NoID) && OnlyKeysDiffer(m.bindings, m1.bindings) && |m1.assocs| == |m.assocs|
    requires forall r :: 0 <= r < |m.assocs| ==>
               m1.assocs[r].id == m.assocs[r].id && m1.assocs[r].routeRefs == m.assocs[r].routeRefs
    requires m1.localBindings == m.localBindings && m1.associations == m.associations && m1.peerIndex == m.peerIndex
    requires forall id {:trigger AssociationOk(m1, id, NoID)} :: id in m1.associations ==> AssociationOk(m1, id, NoID)
    ensures RoutesOk(m1, NoID)
  {
    forall k | k in m1.localBindings ensures BindingOk(m1, k) { assert BindingOk(m, k); }
    forall q | q in m1.peerIndex ensures ProviderOk(m1, q) { assert ProviderOk(m, q); }
    forall q | 0 <= q < |m1.assocs| ensures DetachedOk(m1, q) { assert DetachedOk(m, q); }
  }

  /** Setting the peer key of an association object, in the maps or not, reaches exactly its own live routes. */
  lemma SetPeerKeyKeepsAssociation(m: Manager, r: AssocRef, key: PeerKey, id: AssocID)
    requires RoutesOk(m, NoID) && r < |m.assocs| && id in m.associations
    ensures AssociationOk(SetPeerKey(m, r, key), id, NoID)
  {
    var m1 := SetPeerKey(m, r, key);
    assert AssociationOk(m, id, NoID);
    var a, a1 := m.assocs[m.associations[id]], m1.assocs[m.associations[id]];
    forall k | k in a1.routeRefs ensures RouteOk(m1.localBindings, m1.bindings, a1, k) {
      assert RouteOk(m.localBindings, m.bindings, a, k);
      var b := a.routeRefs[k];
      if m.associations[id] == r {
        assert b in m.assocs[r].routeRefs.Values;
      } else if b in m.assocs[r].routeRefs.Values {
        OneAssociation(m, r, m.associations[id], b);
      }
    }
  }

  /** A live binding is listed by one association object only. */
  lemma OneAssociation(m: Manager, r: AssocRef, q: AssocRef, b: BindingRef)
    requires RoutesOk(m, NoID) && r < |m.assocs| && q < |m.assocs| && Live(m.localBindings, m.bindings, b)
    requires b in m.assocs[r].routeRefs.Values && b in m.assocs[q].routeRefs.Values
    ensures r == q
  {
    assert DetachedOk(m, r) && DetachedOk(m, q);
    assert LiveAssoc(m, r) && LiveAssoc(m, q);
    assert AssociationOk(m, m.assocs[r].id, NoID) && AssociationOk(m, m.assocs[q].id, NoID);
  }

  lemma SetPeerKeyKeepsRoutes(m: Manager, r: AssocRef, key: PeerKey)
    requires RoutesOk(m, NoID) && r < |m.assocs|
    ensures RoutesOk(SetPeerKey(m, r, key), NoID)
  {
    var m1 := SetPeerKey(m, r, key);
    forall id | id in m1.associations ensures AssociationOk(m1, id, NoID) { SetPeerKeyKeepsAssociation(m, r, key, id); }
    KeysKeepRoutes(m, m1);
  }

  /** A transport put into a peer: its key is the peer's own again, and no other peer is touched. */
  lemma SetPeerKeepsPeers(m: Manager, reuse: Option<PeerKey>, actual: PeerKey, id: AssocID, t: Transport)
    requires PeersOk(m) && InRange(m) && (reuse.Some? ==> reuse.value in m.peers)
             && (actual in m.peers ==> reuse == Some(actual))
    ensures PeersOk(SetPeer(m, reuse, actual, id, t).0)
  {
  }

  lemma SameRoutes(m: Manager, m1: Manager)
    requires RoutesOk(m, NoID)
    requires m1 == m.(peers := m1.peers, peerObjects := m1.peerObjects)
    ensures RoutesOk(m1, NoID)
  {
    forall id | id in m1.associations ensures AssociationOk(m1, id, NoID) { assert AssociationOk(m, id, NoID); }
    forall k | k in m1.localBindings ensures BindingOk(m1, k) { assert BindingOk(m, k); }
    forall q | q in m1.peerIndex ensures ProviderOk(m1, q) { assert ProviderOk(m, q); }
    forall q | 0 <= q < |m1.assocs| ensures DetachedOk(m1, q) { assert DetachedOk(m, q); }
  }

  // ---------------------------------------------------------------- every critical section keeps the maps consistent

  /** Unbinding takes at most one peer out, whose transport it hands over, and changes no peer object. */
  predicate HandsOver(m: Manager, m1: Manager, stale: Option<Transport>)
    requires PeersOk(m)
  {
    && m1.peerObjects == m.peerObjects
    && (stale.None? ==> m1.peers == m.peers)
    && (stale.Some? ==> exists k ::
         k in m.peers && m1.peers == m.peers - {k} && m.peerObjects[m.peers[k]].transport == stale)
  }

  lemma DetachHandsOver(m: Manager, l: LocalKey, keep: AssocID)
    requires PeersOk(m) && InRange(m)
    ensures HandsOver(m, Detach(m, l, keep).0, Detach(m, l, keep).1)
  {
    if l in m.localBindings {
      UnrouteInRange(m, l);
      var m1 := Unroute(m, l);
      var id := m.bindings[m.localBindings[l]].assocID;
      if id in m.associations && id != keep && m1.assocs[m1.associations[id]].routeRefs == map[] {
        var a := m1.assocs[m1.associations[id]];
        var k := if a.peerKey.Some? then a.peerKey.value else m.bindings[m.localBindings[l]].peerKey;
        assert k in m.peers ==> m.peerObjects[m.peers[k]].transport.Some?;
      }
    }
  }

  lemma RebindHandsOver(m: Manager, l: LocalKey, p: Provider, id: AssocID, mode: Mode)
    requires PeersOk(m) && InRange(m)
    ensures var (m1, r) := Rebind(m, l, p, id, mode);
            HandsOver(m, m1, if r.Some? then r.value.stale else None) && PeersOk(m1)
  {
    DetachHandsOver(m, l, id);
  }

  lemma RebindKeepsRoutes(m: Manager, l: LocalKey, p: Provider, id: AssocID, mode: Mode)
    requires RoutesOk(m, NoID) && InRange(m) && p != NO_PROVIDER && id.AssocID? && id.provider == p
    ensures RoutesOk(Rebind(m, l, p, id, mode).0, NoID)
  {
    DetachInRange(m, l, id);
    DetachKeepsRoutes(m, l, id);
    var m1 := Detach(m, l, id).0;
    ObtainKeepsRoutes(m1, id);
    var (m2, r) := Obtain(m1, id);
    assert AssociationOk(m2, id, id);
    BindKeepsRoutes(m2, l, p, r, mode);
  }

  /** A rebind to the association of `p` leaves the maps consistent. */
  lemma RebindKeepsConsistent(m: Manager, l: LocalKey, p: Provider, id: AssocID, mode: Mode)
    requires Consistent(m) && (id.AssocID? ==> id.provider == p)
    ensures InRange(m) && Consistent(Rebind(m, l, p, id, mode).0)
  {
    ConsistentInRange(m, NoID);
    RebindHandsOver(m, l, p, id, mode);
    if p != NO_PROVIDER && id != NoID { RebindKeepsRoutes(m, l, p, id, mode); }
  }

  lemma InstallKeepsConsistent(m: Manager, b: BindingRef, r: AssocRef, mode: Mode, t: Transport)
    requires Consistent(m) && b < |m.bindings| && r < |m.assocs|
    ensures InRange(m) && Consistent(Install(m, b, r, mode, t).0)
  {
    ConsistentInRange(m, NoID);
    var binding := m.bindings[b];
    var actual := PeerKey(binding.provider, mode);
    var reuse := Reused(m, actual, binding.peerKey);
    var m1 := SetPeer(m, reuse, actual, binding.assocID, t).0;
    SetPeerKeepsPeers(m, reuse, actual, binding.assocID, t);
    SameRoutes(m, m1);
    SetPeerKeyKeepsRoutes(m1, r, actual);
  }

  /** A peer under key `k` stays as it is, or has moved away from the key `reuse`. */
  predicate KeepsPeer(m: Manager, m1: Manager, reuse: Option<PeerKey>, k: PeerKey)
    requires InRange(m) && k in m.peers
  {
    if k in m1.peers then
      && m1.peers[k] == m.peers[k] && m1.peers[k] < |m1.peerObjects|
      && m1.peerObjects[m1.peers[k]] == m.peerObjects[m.peers[k]]
    else reuse == Some(k)
  }

  lemma SetPeerFiles(m: Manager, reuse: Option<PeerKey>, actual: PeerKey, id: AssocID, t: Transport)
    requires PeersOk(m) && InRange(m) && (reuse.Some? ==> reuse.value in m.peers)
             && (actual in m.peers ==> reuse == Some(actual))
    ensures var m1 := SetPeer(m, reuse, actual, id, t).0;
            && actual in m1.peers && m1.peers[actual] < |m1.peerObjects|
            && m1.peerObjects[m1.peers[actual]] == Peer(actual, id, Some(t))
            && forall k {:trigger KeepsPeer(m, m1, reuse, k)} ::
                 k in m.peers && k != actual ==> KeepsPeer(m, m1, reuse, k)
  {
  }

  /**
   A dialled transport is filed under the provider and mode of the dial, for the binding's association,
   which has that peer key from then on; a peer under any other key keeps its transport or, if it was
   the binding's own under the former key, has moved.
   */
  lemma InstallFiles(m: Manager, b: BindingRef, r: AssocRef, mode: Mode, t: Transport)
    requires PeersOk(m) && InRange(m) && b < |m.bindings| && r < |m.assocs|
    ensures var m1 := Install(m, b, r, mode, t).0; var actual := PeerKey(m.bindings[b].provider, mode);
            && actual in m1.peers && m1.peers[actual] < |m1.peerObjects|
            && m1.peerObjects[m1.peers[actual]] == Peer(actual, m.bindings[b].assocID, Some(t))
            && |m1.assocs| == |m.assocs| && m1.assocs[r].peerKey == Some(actual)
            && forall k {:trigger k in m.peers} :: k in m.peers && k != actual ==>
                 KeepsPeer(m, m1, if actual in m.peers then None else Some(m.bindings[b].peerKey), k)
  {
    var actual := PeerKey(m.bindings[b].provider, mode);
    var reuse := Reused(m, actual, m.bindings[b].peerKey);
    SetPeerFiles(m, reuse, actual, m.bindings[b].assocID, t);
    var m0 := SetPeer(m, reuse, actual, m.bindings[b].assocID, t).0;
    var m1 := Install(m, b, r, mode, t).0;
    forall k | k in m.peers && k != actual
      ensures KeepsPeer(m, m1, if actual in m.peers then None else Some(m.bindings[b].peerKey), k)
    {
      assert KeepsPeer(m, m0, reuse, k);
    }
  }

  lemma SetDialKeepsConsistent(m: Manager, r: AssocRef, ch: Option<Chan>, failed: bool)
    requires Consistent(m) && r < |m.assocs|
    ensures Consistent(SetDial(m, r, ch, failed))
  {
    var m1 := SetDial(m, r, ch, failed);
    forall id | id in m1.associations ensures AssociationOk(m1, id, NoID) {
      assert AssociationOk(m, id, NoID);
      var a, a1 := m.assocs[m.associations[id]], m1.assocs[m.associations[id]];
      forall k | k in a1.routeRefs ensures RouteOk(m1.localBindings, m1.bindings, a1, k) {
        assert RouteOk(m.localBindings, m.bindings, a, k);
      }
    }
    KeysKeepRoutes(m, m1);
  }

  /** A caller holds a binding with the association it was made for, for as long as the binding is live. */
  predicate Held(m: Manager, b: BindingRef, r: AssocRef) {
    && b < |m.bindings| && r < |m.assocs|
    && (Live(m.localBindings, m.bindings, b) ==> m.bindings[b].assocID == m.assocs[r].id && LiveAssoc(m, r))
  }

  /** A live binding's peer key already is its association's. */
  lemma SyncKeyOfLive(m: Manager, b: BindingRef, r: AssocRef)
    requires Consistent(m) && Held(m, b, r) && Live(m.localBindings, m.bindings, b)
    ensures SyncKey(m, b, r) == m
  {
    var binding, q := BoundTo(m, m.bindings[b].localKey);
    assert m.bindings[b := binding] == m.bindings;
  }

  lemma StaleKeyKeepsAssociation(m: Manager, b: BindingRef, r: AssocRef, id: AssocID)
    requires Consistent(m) && b < |m.bindings| && r < |m.assocs| && !Live(m.localBindings, m.bindings, b)
    requires id in m.associations
    ensures AssociationOk(SyncKey(m, b, r), id, NoID)
  {
    var m1 := SyncKey(m, b, r);
    assert AssociationOk(m, id, NoID);
    var a := m.assocs[m.associations[id]];
    forall k | k in a.routeRefs ensures RouteOk(m1.localBindings, m1.bindings, a, k) {
      assert RouteOk(m.localBindings, m.bindings, a, k);
    }
  }

  /** A binding that was replaced may change its peer key freely. */
  lemma SyncKeyOfStale(m: Manager, b: BindingRef, r: AssocRef)
    requires Consistent(m) && Held(m, b, r) && !Live(m.localBindings, m.bindings, b)
    ensures Consistent(SyncKey(m, b, r))
  {
    var m1 := SyncKey(m, b, r);
    SyncKeyDiffers(m, b, r);
    forall id | id in m1.associations ensures AssociationOk(m1, id, NoID) { StaleKeyKeepsAssociation(m, b, r, id); }
    KeysKeepRoutes(m, m1);
  }

  lemma SyncKeyDiffers(m: Manager, b: BindingRef, r: AssocRef)
    requires b < |m.bindings| && r < |m.assocs|
    ensures var m1 := SyncKey(m, b, r); m1 == m.(bindings := m1.bindings) && OnlyKeysDiffer(m.bindings, m1.bindings)
  {
  }

  lemma SyncKeyKeepsConsistent(m: Manager, b: BindingRef, r: AssocRef)
    requires Consistent(m) && Held(m, b, r)
    ensures Consistent(SyncKey(m, b, r))
  {
    if Live(m.localBindings, m.bindings, b) { SyncKeyOfLive(m, b, r); } else { SyncKeyOfStale(m, b, r); }
  }

  lemma CloseAllKeepsConsistent(m: Manager)
    requires Consistent(m)
    ensures Consistent(CloseAll(m))
  {
    var m1 := CloseAll(m);
    forall q | 0 <= q < |m1.assocs| ensures DetachedOk(m1, q) {
      assert DetachedOk(m, q);
      if LiveAssoc(m, q) { assert AssociationOk(m, m.assocs[q].id, NoID); }
    }
  }

  // ---------------------------------------------------------------- what a caller holds

  /** From `m` to `m1`, no binding and no ID of an association object changes, and no ID gets another object. */
  predicate Grows(m: Manager, m1: Manager) {
    && m.bindings <= m1.bindings && |m.assocs| <= |m1.assocs|
    && (forall r :: 0 <= r < |m.assocs| ==> m1.assocs[r].id == m.assocs[r].id)
    && (forall i :: i in m.associations && i in m1.associations ==> m1.associations[i] == m.associations[i])
  }

  lemma DetachGrows(m: Manager, l: LocalKey, keep: AssocID)
    requires InRange(m)
    ensures var m1 := Detach(m, l, keep).0;
            Grows(m, m1) && m1.localBindings == m.localBindings - {l} && m1.bindings == m.bindings
            && (keep in m.associations ==> keep in m1.associations)
  {
    if l in m.localBindings {
      UnrouteInRange(m, l);
      UnrouteGrows(m, l);
    }
  }

  lemma UnrouteGrows(m: Manager, l: LocalKey)
    requires InRange(m) && l in m.localBindings
    ensures var m1 := Unroute(m, l);
            && Grows(m, m1) && m1.associations == m.associations && m1.bindings == m.bindings
            && m1.localBindings == m.localBindings - {l}
  {
  }

  lemma BindGrows(m: Manager, l: LocalKey, p: Provider, id: AssocID, mode: Mode)
    requires InRange(m)
    ensures var (m1, r) := Obtain(m, id); var (m2, b) := Bind(m1, l, p, r, mode);
            && Grows(m, m2) && m2.localBindings == m.localBindings[l := |m.bindings|]
            && |m2.bindings| == |m.bindings| + 1 == b + 1 && m2.bindings[b].localKey == l
            && id in m2.associations && m2.associations[id] == r < |m2.assocs| && p in m2.peerIndex
               && m2.peerIndex[p] == m2.assocs[r].id
            && m2.bindings[b].assocID == m2.assocs[r].id
  {
  }

  /** What the caller of a rebind gets, and what it leaves alone. */
  lemma RebindBinds(m: Manager, l: LocalKey, p: Provider, id: AssocID, mode: Mode)
    requires InRange(m) && p != NO_PROVIDER && id.AssocID?
    ensures var (m1, r) := Rebind(m, l, p, id, mode);
            && Grows(m, m1) && r.Some? && r.value.binding == |m.bindings| < |m1.bindings| && r.value.assoc < |m1.assocs|
            && m1.localBindings == m.localBindings[l := |m.bindings|]
            && m1.bindings[|m.bindings|].localKey == l
            && m1.bindings[|m.bindings|].assocID == m1.assocs[r.value.assoc].id
            && id in m1.associations && m1.associations[id] == r.value.assoc
            && p in m1.peerIndex && m1.peerIndex[p] == m1.assocs[r.value.assoc].id
  {
    DetachInRange(m, l, id);
    DetachGrows(m, l, id);
    BindGrows(Detach(m, l, id).0, l, p, id, mode);
  }

  lemma GrowingKeepsHeld(m: Manager, m1: Manager, l: LocalKey, b: BindingRef, r: AssocRef)
    requires Held(m, b, r) && Grows(m, m1) && RoutesOk(m1, NoID)
             && m1.localBindings == m.localBindings[l := |m.bindings|]
    ensures Held(m1, b, r)
  {
    assert m1.bindings[b] == m.bindings[b];
    if Live(m1.localBindings, m1.bindings, b) { assert BindingOk(m1, m1.bindings[b].localKey); }
  }

  lemma RebindKeepsHeld(m: Manager, l: LocalKey, p: Provider, id: AssocID, mode: Mode, b: BindingRef, r: AssocRef)
    requires Consistent(m) && InRange(m) && (id.AssocID? ==> id.provider == p) && Held(m, b, r)
    ensures Held(Rebind(m, l, p, id, mode).0, b, r)
  {
    if p != NO_PROVIDER && id != NoID {
      RebindKeepsConsistent(m, l, p, id, mode);
      RebindBinds(m, l, p, id, mode);
      GrowingKeepsHeld(m, Rebind(m, l, p, id, mode).0, l, b, r);
    }
  }

  /** The caller of a rebind holds the binding and the association it got. */
  lemma RebindHolds(m: Manager, l: LocalKey, p: Provider, id: AssocID, mode: Mode)
    requires Consistent(m) && InRange(m) && p != NO_PROVIDER && id.AssocID? && id.provider == p
    ensures var (m1, r) := Rebind(m, l, p, id, mode); r.Some? && Held(m1, r.value.binding, r.value.assoc)
  {
    var m1 := Rebind(m, l, p, id, mode).0;
    RebindBinds(m, l, p, id, mode);
    RebindKeepsConsistent(m, l, p, id, mode);
    assert AssociationOk(m1, id, NoID);
  }

  lemma OthersKeepHeld(m: Manager, m1: Manager, b: BindingRef, r: AssocRef)
    requires Held(m, b, r) && m1.localBindings == m.localBindings && m1.associations == m.associations
    requires OnlyKeysDiffer(m.bindings, m1.bindings) && |m1.assocs| == |m.assocs| && m1.assocs[r].id == m.assocs[r].id
    ensures Held(m1, b, r)
  {
  }

  // ---------------------------------------------------------------- meaning of the maps

  /** An association is stored exactly while some service is bound to it. */
  lemma StoredIffBound(m: Manager, id: AssocID)
    requires Consistent(m)
    ensures InRange(m) && (id in m.associations <==> exists l ::
              l in m.localBindings && m.bindings[m.localBindings[l]].assocID == id)
  {
    ConsistentInRange(m, NoID);
    if id in m.associations {
      assert AssociationOk(m, id, NoID);
      var a := m.assocs[m.associations[id]];
      var l :| l in a.routeRefs;
      assert RouteOk(m.localBindings, m.bindings, a, l);
    }
    if l :| l in m.localBindings && m.bindings[m.localBindings[l]].assocID == id {
      assert BindingOk(m, l);
    }
  }

  predicate LastService(m: Manager, l: LocalKey)
    requires InRange(m) && l in m.localBindings
  {
    forall k :: k in m.localBindings && k != l ==>
      m.bindings[m.localBindings[k]].assocID != m.bindings[m.localBindings[l]].assocID
  }

  /**
   A rebind hands a transport over for closing exactly when the service was the last one bound to
   another association and the peer filed under the service's peer key belongs to that association.
   */
  lemma RebindClosesIff(m: Manager, l: LocalKey, id: AssocID)
    requires Consistent(m)
    ensures InRange(m)
    ensures Detach(m, l, id).1.Some? <==>
              && l in m.localBindings && LastService(m, l)
              && var b := m.bindings[m.localBindings[l]];
              b.assocID != id && b.peerKey in m.peers && m.peerObjects[m.peers[b.peerKey]].assocID == b.assocID
  {
    ConsistentInRange(m, NoID);
    if l in m.localBindings {
      var b, r := BoundTo(m, l);
      LastServiceIff(m, l, r);
    }
  }

  lemma LastServiceIff(m: Manager, l: LocalKey, r: AssocRef)
    requires RoutesOk(m, NoID) && InRange(m) && l in m.localBindings && BindingOk(m, l)
    requires r == m.associations[m.bindings[m.localBindings[l]].assocID]
    ensures LastService(m, l) <==> m.assocs[r].routeRefs - {l} == map[]
  {
    var id := m.bindings[m.localBindings[l]].assocID;
    var a := m.assocs[r];
    assert AssociationOk(m, id, NoID);
    forall k | k in m.localBindings && k != l && m.bindings[m.localBindings[k]].assocID == id
      ensures k in a.routeRefs - {l} {
      assert BindingOk(m, k);
    }
    forall k | k in a.routeRefs ensures k in m.localBindings && m.bindings[m.localBindings[k]].assocID == id {
      assert RouteOk(m.localBindings, m.bindings, a, k);
    }
    if a.routeRefs - {l} != map[] {
      var k :| k in a.routeRefs - {l};
      assert k in a.routeRefs && k != l;
    }
  }

  // ---------------------------------------------------------------- transports without an association

  /** The association for which the transport under `k` was dialled is stored, and has `k` as its peer key. */
  predicate Owned(m: Manager, k: PeerKey)
    requires InRange(m) && k in m.peers
  {
    var id := m.peerObjects[m.peers[k]].assocID;
    id in m.associations && m.assocs[m.associations[id]].peerKey == Some(k)
  }

  /**
   Unbinding a service takes the transport under `k` out, and hands it over, exactly if it is owned by the
   service's association, which is not to be kept and has no other service.
   */
  lemma DetachReturnsIff(m: Manager, l: LocalKey, keep: AssocID, k: PeerKey)
    requires Consistent(m) && InRange(m) && k in m.peers
    ensures k !in Detach(m, l, keep).0.peers <==>
              && l in m.localBindings && LastService(m, l)
              && var id := m.bindings[m.localBindings[l]].assocID;
              id != keep && Owned(m, k) && m.peerObjects[m.peers[k]].assocID == id
    ensures k !in Detach(m, l, keep).0.peers ==> Detach(m, l, keep).1 == m.peerObjects[m.peers[k]].transport
  {
    if l in m.localBindings {
      UnrouteInRange(m, l);
      var b, r := BoundTo(m, l);
      LastServiceIff(m, l, r);
    }
  }

  lemma DetachKeepsPeerKeys(m: Manager, l: LocalKey, keep: AssocID)
    requires InRange(m)
    ensures var m1 := Detach(m, l, keep).0;
            && InRange(m1) && m1.peerObjects == m.peerObjects && |m1.assocs| == |m.assocs|
            && (forall id :: id in m1.associations ==>
                  id in m.associations && m1.associations[id] == m.associations[id])
            && (forall r :: 0 <= r < |m.assocs| ==> m1.assocs[r].peerKey == m.assocs[r].peerKey)
            && (keep in m.associations ==> keep in m1.associations)
            && (forall k :: k in m1.peers ==> k in m.peers && m1.peers[k] == m.peers[k])
  {
    DetachInRange(m, l, keep);
  }

  lemma BindAdoptsIff(m: Manager, l: LocalKey, p: Provider, id: AssocID, mode: Mode, k: PeerKey)
    requires InRange(m) && id.AssocID? && k in m.peers && !Owned(m, k)
    requires id in m.associations ==> m.assocs[m.associations[id]].peerKey.Some?
    ensures var (m1, r) := Obtain(m, id); var m2 := Bind(m1, l, p, r, mode).0;
            && InRange(m2) && m2.peers == m.peers && m2.peerObjects == m.peerObjects
            && (Owned(m2, k) <==>
                  id == m.peerObjects[m.peers[k]].assocID && id !in m.associations && k == PeerKey(p, mode))
  {
  }

  /**
   A transport that is not owned stays filed through every rebind, and becomes owned, to be handed over later,
   exactly by one that stores its association anew with its provider and mode.
   */
  lemma UnownedUntilAdopted(m: Manager, l: LocalKey, p: Provider, id: AssocID, mode: Mode, k: PeerKey)
    requires Consistent(m) && InRange(m) && p != NO_PROVIDER && id.AssocID? && id.provider == p
    requires k in m.peers && !Owned(m, k)
    ensures var m1 := Rebind(m, l, p, id, mode).0;
            && InRange(m1) && k in m1.peers && m1.peers[k] == m.peers[k]
            && (Owned(m1, k) <==>
                  id == m.peerObjects[m.peers[k]].assocID && id !in m.associations && k == PeerKey(p, mode))
  {
    DetachReturnsIff(m, l, id, k);
    DetachKeepsPeerKeys(m, l, id);
    if id in m.associations { assert AssociationOk(m, id, NoID); }
    BindAdoptsIff(Detach(m, l, id).0, l, p, id, mode, k);
  }

  // ---------------------------------------------------------------- the dials

  predicate SameDial(a: Assoc, a1: Assoc) {
    a1.dialing == a.dialing && a1.readyCh == a.readyCh
  }

  /** No dial starts or ends; a new association is not being dialled. */
  predicate SameDials(m: Manager, m1: Manager) {
    && |m.assocs| <= |m1.assocs|
    && (forall r :: 0 <= r < |m.assocs| ==> SameDial(m.assocs[r], m1.assocs[r]))
    && (forall r :: |m.assocs| <= r < |m1.assocs| ==> !m1.assocs[r].dialing && m1.assocs[r].readyCh.None?)
  }

  lemma DetachKeepsDials(m: Manager, l: LocalKey, keep: AssocID)
    requires InRange(m)
    ensures SameDials(m, Detach(m, l, keep).0) && |Detach(m, l, keep).0.assocs| == |m.assocs|
  {
    if l in m.localBindings { UnrouteInRange(m, l); }
  }

  lemma BindKeepsDials(m: Manager, l: LocalKey, p: Provider, id: AssocID, mode: Mode)
    requires InRange(m)
    ensures var (m1, r) := Obtain(m, id); SameDials(m, Bind(m1, l, p, r, mode).0)
  {
  }

  lemma RebindKeepsDials(m: Manager, l: LocalKey, p: Provider, id: AssocID, mode: Mode)
    requires InRange(m)
    ensures SameDials(m, Rebind(m, l, p, id, mode).0)
  {
    if p != NO_PROVIDER && id != NoID {
      DetachInRange(m, l, id);
      DetachKeepsDials(m, l, id);
      BindKeepsDials(Detach(m, l, id).0, l, p, id, mode);
    }
  }
}
