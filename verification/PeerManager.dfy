/**
 The P2P manager object (client/p2p_route_state.go): each method is the body of one critical section,
 proved to do to the maps what the function of the same section in PeerRoutes says, and to leave them
 consistent at its end.
 */
module PeerManagers {
  import opened Wrappers
  import opened PeerRoutes

  class PeerManager {
    var localBindings: map<LocalKey, BindingRef>
    var associations: map<AssocID, AssocRef>
    var peerIndex: map<Provider, AssocID>
    var peers: map<PeerKey, PeerRef>
    var bindings: seq<Binding>
    var assocs: seq<Assoc>
    var peerObjects: seq<Peer>

    ghost function View(): Manager
      reads this
    {
      Manager(localBindings, associations, peerIndex, peers, bindings, assocs, peerObjects)
    }

    constructor ()
      ensures View() == EMPTY && Consistent(View())
    {
      localBindings, associations, peerIndex, peers := map[], map[], map[], map[];
      bindings, assocs, peerObjects := [], [], [];
    }

    method ForgetProvider(p: Provider, id: AssocID)
      modifies `peerIndex
      ensures peerIndex == WithoutProvider(old(View()), p, id)
    {
      if p in peerIndex && peerIndex[p] == id {
        peerIndex := peerIndex - {p};
      }
    }

    method DetachLocalBinding(l: LocalKey, keep: AssocID) returns (stale: Option<Transport>)
      requires InRange(View())
      modifies this
      ensures (View(), stale) == Detach(old(View()), l, keep)
    {
      stale := None;
      if l !in localBindings {
        return;
      }
      var binding := bindings[localBindings[l]];
      localBindings := localBindings - {l};
      var id := binding.assocID;
      if id !in associations {
        ForgetProvider(binding.provider, id);
        return;
      }
      var r := associations[id];
      assocs := assocs[r := assocs[r].(routeRefs := assocs[r].routeRefs - {l})];
      if id == keep || assocs[r].routeRefs != map[] {
        return;
      }
      stale := DropStored(id, binding);
    }

    method DropStored(id: AssocID, binding: Binding) returns (stale: Option<Transport>)
      requires InRange(View()) && id in associations
      modifies this
      ensures (View(), stale) == DropAssociation(old(View()), id, binding)
    {
      var a := assocs[associations[id]];
      associations := associations - {id};
      ForgetProvider(binding.provider, id);
      var key := if a.peerKey.Some? then a.peerKey.value else binding.peerKey;
      stale := None;
      if key in peers && peerObjects[peers[key]].assocID == id {
        stale := peerObjects[peers[key]].transport;
        peers := peers - {key};
      }
    }

    method StoreResolvedRouteBinding(l: LocalKey, p: Provider, id: AssocID, mode: Mode) returns (r: Option<Rebound>)
      requires Consistent(View()) && InRange(View())
      modifies this
      ensures (View(), r) == Rebind(old(View()), l, p, id, mode)
      ensures (id.AssocID? ==> id.provider == p) ==> Consistent(View()) && InRange(View())
    {
      if id.AssocID? ==> id.provider == p {
        RebindKeepsConsistent(View(), l, p, id, mode);
        ConsistentInRange(Rebind(View(), l, p, id, mode).0, NoID);
      }
      if p == NO_PROVIDER || id == NoID {
        return None;
      }
      DetachInRange(View(), l, id);
      var stale := DetachLocalBinding(l, id);
      if id !in associations {
        associations := associations[id := |assocs|];
        assocs := assocs + [Assoc(id, None, map[], false, None, false)];
      }
      var a := associations[id];
      var b := BindService(l, p, a, mode);
      r := Some(Rebound(b, a, stale));
    }

    /** The new binding, entered in the bindings, the provider index and the routes of its association. */
    method BindService(l: LocalKey, p: Provider, a: AssocRef, mode: Mode) returns (b: BindingRef)
      requires a < |assocs|
      modifies this
      ensures (View(), b) == Bind(old(View()), l, p, a, mode)
    {
      if assocs[a].peerKey.None? {
        assocs := assocs[a := assocs[a].(peerKey := Some(PeerKey(p, mode)))];
      }
      b := |bindings|;
      bindings := bindings + [Binding(l, p, assocs[a].id, assocs[a].peerKey.value)];
      localBindings := localBindings[l := b];
      peerIndex := peerIndex[p := assocs[a].id];
      assocs := assocs[a := assocs[a].(routeRefs := assocs[a].routeRefs[l := b])];
      assert assocs == old(assocs)[a := assocs[a]];
    }

    /** The loop over an association's routes, in whatever order the map yields them. */
    method RekeyRoutes(refs: map<LocalKey, BindingRef>, key: PeerKey)
      requires forall l :: l in refs ==> refs[l] < |bindings|
      modifies `bindings
      ensures bindings == Rekey(old(bindings), refs, key)
    {
      var rest := refs.Keys;
      while rest != {}
        invariant rest <= refs.Keys && |bindings| == |old(bindings)|
        invariant forall i :: 0 <= i < |bindings| ==> bindings[i] == old(bindings)[i].(peerKey := bindings[i].peerKey)
        invariant forall i :: 0 <= i < |bindings| && i !in refs.Values ==> bindings[i] == old(bindings)[i]
        invariant forall l :: l in refs.Keys - rest ==> bindings[refs[l]].peerKey == key
        decreases |rest|
      {
        var l :| l in rest;
        rest := rest - {l};
        assert refs[l] in refs.Values;
        bindings := bindings[refs[l] := bindings[refs[l]].(peerKey := key)];
      }
    }

    /** The section of establishPeerTransport that files a dialled transport. */
    method InstallPeer(b: BindingRef, r: AssocRef, mode: Mode, t: Transport) returns (previous: Option<Transport>)
      requires Consistent(View()) && InRange(View()) && b < |bindings| && r < |assocs|
      modifies this
      ensures (View(), previous) == Install(old(View()), b, r, mode, t)
      ensures Consistent(View()) && InRange(View())
    {
      InstallKeepsConsistent(View(), b, r, mode, t);
      ConsistentInRange(Install(View(), b, r, mode, t).0, NoID);
      RefsInRange(View(), r);
      var binding := bindings[b];
      var actual := PeerKey(binding.provider, mode);
      previous := FilePeer(binding, actual, t);
      assocs := assocs[r := assocs[r].(peerKey := Some(actual))];
      RekeyRoutes(assocs[r].routeRefs, actual);
    }

    method FilePeer(binding: Binding, actual: PeerKey, t: Transport) returns (previous: Option<Transport>)
      requires InRange(View())
      modifies `peers, `peerObjects
      ensures (View(), previous) == SetPeer(old(View()), Reused(old(View()), actual, binding.peerKey), actual,
              binding.assocID, t)
    {
      previous := None;
      var p := |peerObjects|;
      if actual in peers {
        p := peers[actual];
      } else if binding.peerKey in peers {
        p := peers[binding.peerKey];
        peers := peers - {binding.peerKey};
      }
      if p == |peerObjects| {
        peerObjects := peerObjects + [Peer(actual, binding.assocID, None)];
      }
      previous := peerObjects[p].transport;
      peerObjects := peerObjects[p := Peer(actual, binding.assocID, Some(t))];
      peers := peers[actual := p];
      assert actual in old(peers) ==> (old(peers) - {actual})[actual := p] == old(peers)[actual := p];
      assert p == |old(peerObjects)| ==> peerObjects == old(peerObjects) + [Peer(actual, binding.assocID, Some(t))];
    }
  }

  /** The bindings that an association object lists, in the maps or not, exist. */
  lemma RefsInRange(m: Manager, r: AssocRef)
    requires Consistent(m) && r < |m.assocs|
    ensures forall l :: l in m.assocs[r].routeRefs ==> m.assocs[r].routeRefs[l] < |m.bindings|
  {
    assert DetachedOk(m, r);
    if LiveAssoc(m, r) { assert AssociationOk(m, m.assocs[r].id, NoID); }
    forall l | l in m.assocs[r].routeRefs ensures m.assocs[r].routeRefs[l] < |m.bindings| {
      if LiveAssoc(m, r) { assert RouteOk(m.localBindings, m.bindings, m.assocs[r], l); }
    }
  }
}
