/**
 Any number of callers of waitOrEstablishPeer on one P2P manager (client/p2p_route_state.go), together
 with Close (client/p2p_manager.go). A step is one critical section of the manager's mutex, or an event
 between two of them: an answer of the bridge, the outcome of a dial, a wake-up, a cancelled wait.
 */
module PeerDialing {
  import opened Wrappers
  import opened PeerRoutes

  /** Where a caller stands; `b` and `r` are the binding and the association it got from its rebind. */
  datatype Caller =
    | Resolving(l: LocalKey)
    | Checking(b: BindingRef, r: AssocRef)
    | Waiting(b: BindingRef, r: AssocRef, ch: Chan)
    | Dialing(b: BindingRef, r: AssocRef)
    | Finishing(b: BindingRef, r: AssocRef, failed: bool)
    | Returned

  /**
   `owners[ch]` is the association whose dial made channel `ch`, `closes` counts how often each channel
   was closed, `dialers` says which caller dials an association; transports are numbered as they are
   dialled, `dialled` of them so far, and `handed` counts how often each was handed over for closing.
   */
  datatype World = World(
    m: Manager,
    callers: seq<Caller>,
    owners: seq<AssocRef>,
    closes: multiset<Chan>,
    dialers: map<AssocRef, nat>,
    dialled: nat,
    handed: multiset<Transport>)

  const INIT := World(EMPTY, [], [], multiset{}, map[], 0, multiset{})

  datatype Step =
    | Call(l: LocalKey)
    | Answer(i: nat, p: Provider, id: AssocID, mode: Mode)
    | NoAnswer(i: nat)
    | Check(i: nat, healthy: bool)
    | Wake(i: nat, healthy: bool)
    | GiveUp(i: nat)
    | DialFails(i: nat)
    | DialSucceeds(i: nat, mode: Mode)
    | Finish(i: nat)
    | Close

  function HandOver(handed: multiset<Transport>, t: Option<Transport>): multiset<Transport> {
    if t.Some? then handed + multiset{t.value} else handed
  }

  /** A healthy peer is filed under the binding's peer key. */
  predicate HasPeer(m: Manager, b: BindingRef, healthy: bool)
    requires b < |m.bindings|
  {
    m.bindings[b].peerKey in m.peers && healthy
  }

  predicate InBounds(m: Manager, b: BindingRef, r: AssocRef) {
    InRange(m) && b < |m.bindings| && r < |m.assocs|
  }

  /** The bridge's answer: its association ID belongs to the provider it names. */
  function AnswerStep(w: World, i: nat, p: Provider, id: AssocID, mode: Mode): Option<World> {
    if i < |w.callers| && w.callers[i].Resolving? && InRange(w.m) && (id.AssocID? ==> id.provider == p) then
      var (m1, r) := Rebind(w.m, w.callers[i].l, p, id, mode);
      if r.None? then Some(w.(callers := w.callers[i := Returned]))
      else Some(w.(m := m1, callers := w.callers[i := Checking(r.value.binding, r.value.assoc)],
        handed := HandOver(w.handed, r.value.stale)))
    else None
  }

  function Begin(w: World, i: nat, b: BindingRef, r: AssocRef): World
    requires i < |w.callers| && r < |w.m.assocs|
  {
    w.(m := SetDial(w.m, r, Some(|w.owners|), false),
       callers := w.callers[i := Dialing(b, r)], owners := w.owners + [r], dialers := w.dialers[r := i])
  }

  function CheckStep(w: World, i: nat, healthy: bool): Option<World> {
    if i < |w.callers| && w.callers[i].Checking? && InBounds(w.m, w.callers[i].b, w.callers[i].r) then
      var (b, r) := (w.callers[i].b, w.callers[i].r);
      var w1 := w.(m := SyncKey(w.m, b, r));
      var a := w.m.assocs[r];
      if HasPeer(w1.m, b, healthy) then Some(w1.(callers := w.callers[i := Returned]))
      else if a.dialing && a.readyCh.Some? then Some(w1.(callers := w.callers[i := Waiting(b, r, a.readyCh.value)]))
      else Some(Begin(w1, i, b, r))
    else None
  }

  function WakeStep(w: World, i: nat, healthy: bool): Option<World> {
    if i < |w.callers| && w.callers[i].Waiting? && w.callers[i].ch in w.closes
      && InBounds(w.m, w.callers[i].b, w.callers[i].r) then
      var (b, r) := (w.callers[i].b, w.callers[i].r);
      Some(w.(callers := w.callers[i := if w.m.assocs[r].failed || HasPeer(w.m, b, healthy) then Returned
        else Checking(b, r)]))
    else None
  }

  function Installed(w: World, i: nat, m1: Manager, handed: multiset<Transport>): World
    requires i < |w.callers| && w.callers[i].Dialing?
  {
    w.(m := m1, callers := w.callers[i := Finishing(w.callers[i].b, w.callers[i].r, false)], dialled := w.dialled + 1,
      handed := handed)
  }

  function DialFailsStep(w: World, i: nat): Option<World> {
    if i < |w.callers| && w.callers[i].Dialing? then
      Some(w.(callers := w.callers[i := Finishing(w.callers[i].b, w.callers[i].r, true)]))
    else None
  }

  function DialSucceedsStep(w: World, i: nat, mode: Mode): Option<World> {
    if i < |w.callers| && w.callers[i].Dialing? && InBounds(w.m, w.callers[i].b, w.callers[i].r) then
      var (m1, previous) := Install(w.m, w.callers[i].b, w.callers[i].r, mode, w.dialled);
      Some(Installed(w, i, m1, HandOver(w.handed, previous)))
    else None
  }

  function FinishStep(w: World, i: nat): Option<World> {
    if i < |w.callers| && w.callers[i].Finishing? && w.callers[i].r < |w.m.assocs| then
      var r := w.callers[i].r;
      var ch := w.m.assocs[r].readyCh;
      Some(w.(m := SetDial(w.m, r, None, w.callers[i].failed), callers := w.callers[i := Returned],
              closes := if ch.Some? then w.closes + multiset{ch.value} else w.closes, dialers := w.dialers - {r}))
    else None
  }

  /** The transports in the peers map. */
  function Transports(m: Manager): map<PeerKey, Transport>
    requires PeersOk(m)
  {
    map k | k in m.peers :: m.peerObjects[m.peers[k]].transport.value
  }

  function CloseStep(w: World): Option<World> {
    if PeersOk(w.m) then Some(w.(m := CloseAll(w.m), handed := w.handed + multiset(Transports(w.m).Values))) else None
  }

  function Move(w: World, i: nat, from: bool, c: Caller): Option<World> {
    if from && i < |w.callers| then Some(w.(callers := w.callers[i := c])) else None
  }

  /** The world after a step, or None when the step is not possible. */
  function Next(w: World, s: Step): Option<World> {
    match s
    case Call(l) => Some(w.(callers := w.callers + [Resolving(l)]))
    case Answer(i, p, id, mode) => AnswerStep(w, i, p, id, mode)
    case NoAnswer(i) => Move(w, i, i < |w.callers| && w.callers[i].Resolving?, Returned)
    case Check(i, healthy) => CheckStep(w, i, healthy)
    case Wake(i, healthy) => WakeStep(w, i, healthy)
    case GiveUp(i) => Move(w, i, i < |w.callers| && w.callers[i].Waiting?, Returned)
    case DialFails(i) => DialFailsStep(w, i)
    case DialSucceeds(i, mode) => DialSucceedsStep(w, i, mode)
    case Finish(i) => FinishStep(w, i)
    case Close => CloseStep(w)
  }

  /** The world after a run of steps from the empty manager. */
  function Run(steps: seq<Step>): Option<World> {
    if steps == [] then Some(INIT)
    else
      var w := Run(steps[..|steps| - 1]);
      if w.None? then None else Next(w.value, steps[|steps| - 1])
  }

  // ---------------------------------------------------------------- the invariant

  /** Each dialled transport is in exactly one peer, or was handed over for closing exactly once. */
  ghost predicate Ledger(f: map<PeerKey, Transport>, dialled: nat, handed: multiset<Transport>) {
    && (forall k :: k in f ==> f[k] < dialled)
    && (forall k, j :: k in f && j in f && f[k] == f[j] ==> k == j)
    && (forall t: Transport :: handed[t] == if t < dialled && t !in f.Values then 1 else 0)
  }

  /** What a caller relies on: its binding and association, its channel, its dial. */
  predicate CallerOk(m: Manager, dialers: map<AssocRef, nat>, channels: nat, i: nat, c: Caller) {
    match c
    case Resolving(_) => true
    case Checking(b, r) => Held(m, b, r)
    case Waiting(b, r, ch) => Held(m, b, r) && ch < channels
    case Dialing(b, r) => Held(m, b, r) && r in dialers && dialers[r] == i
    case Finishing(b, r, _) => Held(m, b, r) && r in dialers && dialers[r] == i
    case Returned => true
  }

  predicate CallersOk(m: Manager, dialers: map<AssocRef, nat>, channels: nat, callers: seq<Caller>) {
    forall i {:trigger callers[i]} :: 0 <= i < |callers| ==> CallerOk(m, dialers, channels, i, callers[i])
  }

  predicate Dials(c: Caller, r: AssocRef) {
    (c.Dialing? || c.Finishing?) && c.r == r
  }

  /** An association is dialing exactly while it has an open channel of its own and a caller that dials it. */
  predicate DialOk(w: World, r: AssocRef)
    requires r < |w.m.assocs|
  {
    var a := w.m.assocs[r];
    && (a.dialing <==> a.readyCh.Some?) && (a.dialing <==> r in w.dialers)
    && (a.readyCh.Some? ==>
         a.readyCh.value < |w.owners| && w.owners[a.readyCh.value] == r && w.closes[a.readyCh.value] == 0)
    && (r in w.dialers ==> w.dialers[r] < |w.callers| && Dials(w.callers[w.dialers[r]], r))
  }

  /** A channel is closed once, or it is still the channel of the dial it was made for. */
  predicate ChanOk(w: World, ch: Chan)
    requires ch < |w.owners|
  {
    || w.closes[ch] == 1
    || (w.closes[ch] == 0 && w.owners[ch] < |w.m.assocs| && w.m.assocs[w.owners[ch]].readyCh == Some(ch))
  }

  predicate DialsOk(w: World) {
    && (forall r {:trigger DialOk(w, r)} :: 0 <= r < |w.m.assocs| ==> DialOk(w, r))
    && (forall ch {:trigger ChanOk(w, ch)} :: 0 <= ch < |w.owners| ==> ChanOk(w, ch))
    && (forall ch :: ch in w.closes ==> ch < |w.owners|)
    && (forall r :: r in w.dialers ==> r < |w.m.assocs|)
  }

  ghost predicate Inv(w: World) {
    && Consistent(w.m) && InRange(w.m)
    && Ledger(Transports(w.m), w.dialled, w.handed)
    && CallersOk(w.m, w.dialers, |w.owners|, w.callers)
    && DialsOk(w)
  }

  // ---------------------------------------------------------------- the ledger

  lemma LedgerRemove(f: map<PeerKey, Transport>, dialled: nat, handed: multiset<Transport>, k: PeerKey)
    requires Ledger(f, dialled, handed) && k in f
    ensures Ledger(f - {k}, dialled, handed + multiset{f[k]})
  {
    var g := f - {k};
    forall t: Transport ensures (handed + multiset{f[k]})[t] == if t < dialled && t !in g.Values then 1 else 0 {
      assert f[k] in f.Values;
      if t in g.Values { var j :| j in g && g[j] == t; assert f[j] == t; }
      if t in f.Values && t != f[k] { var j :| j in f && f[j] == t; assert j in g; }
    }
  }

  lemma LedgerAdd(f: map<PeerKey, Transport>, dialled: nat, handed: multiset<Transport>, k: PeerKey)
    requires Ledger(f, dialled, handed) && k !in f
    ensures Ledger(f[k := dialled], dialled + 1, handed)
  {
    var g := f[k := dialled];
    forall t: Transport ensures handed[t] == if t < dialled + 1 && t !in g.Values then 1 else 0 {
      assert g[k] == dialled;
      if t in f.Values { var j :| j in f && f[j] == t; assert g[j] == t; }
      if t in g.Values && t != dialled { var j :| j in g && g[j] == t; assert f[j] == t; }
    }
  }

  lemma LedgerClear(f: map<PeerKey, Transport>, dialled: nat, handed: multiset<Transport>)
    requires Ledger(f, dialled, handed)
    ensures Ledger(map[], dialled, handed + multiset(f.Values))
  {
    forall t: Transport ensures (handed + multiset(f.Values))[t] == if t < dialled then 1 else 0 {
      if t in f.Values { var j :| j in f && f[j] == t; }
    }
  }

  lemma HandOverKeepsLedger(m: Manager, m1: Manager, stale: Option<Transport>, dialled: nat,
                            handed: multiset<Transport>)
    requires PeersOk(m) && PeersOk(m1) && HandsOver(m, m1, stale) && Ledger(Transports(m), dialled, handed)
    ensures Ledger(Transports(m1), dialled, HandOver(handed, stale))
  {
    if stale.Some? {
      var k :| k in m.peers && m1.peers == m.peers - {k} && m.peerObjects[m.peers[k]].transport == stale;
      LedgerRemove(Transports(m), dialled, handed, k);
      assert Transports(m1) == Transports(m) - {k};
    } else {
      assert Transports(m1) == Transports(m);
    }
  }

  lemma NewPeerTransports(m: Manager, actual: PeerKey, id: AssocID, t: Transport)
    requires PeersOk(m) && InRange(m) && actual !in m.peers
    ensures var (m1, previous) := SetPeer(m, None, actual, id, t);
            PeersOk(m1) && Transports(m1) == Transports(m)[actual := t] && previous == None
  {
  }

  lemma ReusedPeerTransports(m: Manager, reuse: PeerKey, actual: PeerKey, id: AssocID, t: Transport)
    requires PeersOk(m) && InRange(m) && reuse in m.peers && (actual in m.peers ==> reuse == actual)
    ensures var (m1, previous) := SetPeer(m, Some(reuse), actual, id, t);
            && PeersOk(m1) && Transports(m1) == (Transports(m) - {reuse})[actual := t]
            && previous == Some(Transports(m)[reuse])
  {
    SetPeerKeepsPeers(m, Some(reuse), actual, id, t);
  }

  /** Installing a transport takes the peer it reuses out of the map and puts it in again with the new transport. */
  lemma SetPeerTransports(m: Manager, reuse: Option<PeerKey>, actual: PeerKey, id: AssocID, t: Transport)
    requires PeersOk(m) && InRange(m) && (reuse.Some? ==> reuse.value in m.peers)
             && (actual in m.peers ==> reuse == Some(actual))
    ensures var (m1, previous) := SetPeer(m, reuse, actual, id, t);
            && PeersOk(m1)
            && Transports(m1) == (if reuse.Some? then Transports(m) - {reuse.value} else Transports(m))[actual := t]
            && previous == if reuse.Some? then Some(Transports(m)[reuse.value]) else None
  {
    if reuse.Some? {
      ReusedPeerTransports(m, reuse.value, actual, id, t);
    } else {
      NewPeerTransports(m, actual, id, t);
    }
  }

  /** A new transport takes the place of the one under `reuse`, which is handed over. */
  lemma LedgerReplace(f: map<PeerKey, Transport>, reuse: Option<PeerKey>, actual: PeerKey, dialled: nat,
                      handed: multiset<Transport>)
    requires Ledger(f, dialled, handed) && (reuse.Some? ==> reuse.value in f) && (actual in f ==> reuse == Some(actual))
    ensures Ledger((if reuse.Some? then f - {reuse.value} else f)[actual := dialled], dialled + 1,
                   HandOver(handed, if reuse.Some? then Some(f[reuse.value]) else None))
  {
    if reuse.None? {
      LedgerAdd(f, dialled, handed, actual);
    } else {
      LedgerRemove(f, dialled, handed, reuse.value);
      LedgerAdd(f - {reuse.value}, dialled, handed + multiset{f[reuse.value]}, actual);
    }
  }

  // ---------------------------------------------------------------- steps that neither open nor end a dial

  /** Between the two worlds no dial starts or ends, and whoever dials goes on doing so. */
  predicate DialsGoOn(w: World, w1: World) {
    && SameDials(w.m, w1.m) && w1.owners == w.owners && w1.closes == w.closes && w1.dialers == w.dialers
    && |w.callers| <= |w1.callers|
    && forall i :: 0 <= i < |w.callers| && (w.callers[i].Dialing? || w.callers[i].Finishing?) ==>
       Dials(w1.callers[i], w.callers[i].r)
  }

  lemma DialsGoOnKeepsDials(w: World, w1: World)
    requires DialsOk(w) && DialsGoOn(w, w1)
    ensures DialsOk(w1)
  {
    forall r | 0 <= r < |w1.m.assocs| ensures DialOk(w1, r) {
      if r < |w.m.assocs| { assert DialOk(w, r) && SameDial(w.m.assocs[r], w1.m.assocs[r]); }
    }
    forall ch | 0 <= ch < |w1.owners| ensures ChanOk(w1, ch) {
      assert ChanOk(w, ch);
      if w.closes[ch] == 0 { assert SameDial(w.m.assocs[w.owners[ch]], w1.m.assocs[w.owners[ch]]); }
    }
  }

  /** A step that changes nothing but where one caller stands. */
  lemma MoveKeepsInv(w: World, i: nat, c: Caller)
    requires Inv(w) && i < |w.callers| && CallerOk(w.m, w.dialers, |w.owners|, i, c)
    requires w.callers[i].Dialing? || w.callers[i].Finishing? ==> Dials(c, w.callers[i].r)
    ensures Inv(w.(callers := w.callers[i := c]))
  {
    DialsGoOnKeepsDials(w, w.(callers := w.callers[i := c]));
  }

  lemma CallKeepsInv(w: World, l: LocalKey)
    requires Inv(w)
    ensures Inv(w.(callers := w.callers + [Resolving(l)]))
  {
    DialsGoOnKeepsDials(w, w.(callers := w.callers + [Resolving(l)]));
  }

  /** Every caller still holds what it held. */
  ghost predicate HeldStays(m: Manager, m1: Manager) {
    forall b, r :: Held(m, b, r) ==> Held(m1, b, r)
  }

  lemma CallersStay(w: World, m1: Manager)
    requires CallersOk(w.m, w.dialers, |w.owners|, w.callers) && HeldStays(w.m, m1)
    ensures CallersOk(m1, w.dialers, |w.owners|, w.callers)
  {
  }

  lemma AnswerKeepsInv(w: World, i: nat, p: Provider, id: AssocID, mode: Mode)
    requires Inv(w) && AnswerStep(w, i, p, id, mode).Some?
    ensures Inv(AnswerStep(w, i, p, id, mode).value)
  {
    var l := w.callers[i].l;
    var (m1, r) := Rebind(w.m, l, p, id, mode);
    if r.None? {
      MoveKeepsInv(w, i, Returned);
    } else {
      var w1 := w.(m := m1, handed := HandOver(w.handed, r.value.stale));
      AnswerStores(w, l, p, id, mode);
      RebindHolds(w.m, l, p, id, mode);
      MoveKeepsInv(w1, i, Checking(r.value.binding, r.value.assoc));
    }
  }

  lemma AnswerStores(w: World, l: LocalKey, p: Provider, id: AssocID, mode: Mode)
    requires Inv(w) && p != NO_PROVIDER && id.AssocID? && id.provider == p
    ensures var (m1, r) := Rebind(w.m, l, p, id, mode);
            r.Some? && Inv(w.(m := m1, handed := HandOver(w.handed, r.value.stale)))
  {
    var (m1, r) := Rebind(w.m, l, p, id, mode);
    RebindKeepsConsistent(w.m, l, p, id, mode);
    ConsistentInRange(m1, NoID);
    RebindHandsOver(w.m, l, p, id, mode);
    HandOverKeepsLedger(w.m, m1, r.value.stale, w.dialled, w.handed);
    forall b, q | Held(w.m, b, q) ensures Held(m1, b, q) { RebindKeepsHeld(w.m, l, p, id, mode, b, q); }
    CallersStay(w, m1);
    RebindKeepsDials(w.m, l, p, id, mode);
    DialsGoOnKeepsDials(w, w.(m := m1, handed := HandOver(w.handed, r.value.stale)));
  }

  /** Nothing but peer keys, peers and the ledger differ, and no dial starts or ends. */
  predicate KeysOnly(m: Manager, m1: Manager) {
    && m1.localBindings == m.localBindings && m1.associations == m.associations
    && OnlyKeysDiffer(m.bindings, m1.bindings) && |m1.assocs| == |m.assocs|
    && forall r :: 0 <= r < |m.assocs| ==> m1.assocs[r].id == m.assocs[r].id && SameDial(m.assocs[r], m1.assocs[r])
  }

  lemma KeysOnlyKeepsInv(w: World, m1: Manager, dialled: nat, handed: multiset<Transport>)
    requires Inv(w) && Consistent(m1) && KeysOnly(w.m, m1)
    requires Ledger(Transports(m1), dialled, handed)
    ensures Inv(w.(m := m1, dialled := dialled, handed := handed))
  {
    ConsistentInRange(m1, NoID);
    forall c, q | Held(w.m, c, q) ensures Held(m1, c, q) { OthersKeepHeld(w.m, m1, c, q); }
    CallersStay(w, m1);
    DialsGoOnKeepsDials(w, w.(m := m1, dialled := dialled, handed := handed));
  }

  lemma SyncKeepsInv(w: World, b: BindingRef, r: AssocRef)
    requires Inv(w) && Held(w.m, b, r)
    ensures Inv(w.(m := SyncKey(w.m, b, r)))
  {
    var m1 := SyncKey(w.m, b, r);
    SyncKeyKeepsConsistent(w.m, b, r);
    SyncIsKeysOnly(w.m, b, r);
    KeysOnlyKeepsInv(w, m1, w.dialled, w.handed);
    assert w.(m := m1) == w.(m := m1, dialled := w.dialled, handed := w.handed);
  }

  lemma SyncIsKeysOnly(m: Manager, b: BindingRef, r: AssocRef)
    requires PeersOk(m) && InBounds(m, b, r)
    ensures KeysOnly(m, SyncKey(m, b, r)) && PeersOk(SyncKey(m, b, r)) && Transports(SyncKey(m, b, r)) == Transports(m)
  {
  }

  // ---------------------------------------------------------------- the dial

  lemma BeginKeepsDials(w: World, i: nat, b: BindingRef, r: AssocRef)
    requires DialsOk(w) && i < |w.callers| && r < |w.m.assocs| && !w.m.assocs[r].dialing
    requires !w.callers[i].Dialing? && !w.callers[i].Finishing?
    ensures DialsOk(Begin(w, i, b, r))
  {
    var w1 := Begin(w, i, b, r);
    assert DialOk(w, r);
    forall q | 0 <= q < |w1.m.assocs| ensures DialOk(w1, q) { assert DialOk(w, q); }
    forall ch | 0 <= ch < |w1.owners| ensures ChanOk(w1, ch) { if ch < |w.owners| { assert ChanOk(w, ch); } }
  }

  lemma BeginKeepsInv(w: World, i: nat, b: BindingRef, r: AssocRef)
    requires Inv(w) && i < |w.callers| && w.callers[i] == Checking(b, r) && r < |w.m.assocs| && !w.m.assocs[r].dialing
    ensures Inv(Begin(w, i, b, r))
  {
    var w1 := Begin(w, i, b, r);
    SetDialKeepsConsistent(w.m, r, Some(|w.owners|), false);
    assert Transports(w1.m) == Transports(w.m);
    assert DialOk(w, r);
    forall c, q | Held(w.m, c, q) ensures Held(w1.m, c, q) { OthersKeepHeld(w.m, w1.m, c, q); }
    CallersStay(w, w1.m);
    BeginKeepsDials(w, i, b, r);
  }

  lemma CheckKeepsInv(w: World, i: nat, healthy: bool)
    requires Inv(w) && CheckStep(w, i, healthy).Some?
    ensures Inv(CheckStep(w, i, healthy).value)
  {
    var (b, r) := (w.callers[i].b, w.callers[i].r);
    var w1 := w.(m := SyncKey(w.m, b, r));
    SyncKeepsInv(w, b, r);
    assert DialOk(w, r);
    var a := w.m.assocs[r];
    if HasPeer(w1.m, b, healthy) {
      MoveKeepsInv(w1, i, Returned);
    } else if a.dialing && a.readyCh.Some? {
      MoveKeepsInv(w1, i, Waiting(b, r, a.readyCh.value));
    } else {
      BeginKeepsInv(w1, i, b, r);
    }
  }

  lemma InstallIsKeysOnly(m: Manager, b: BindingRef, r: AssocRef, mode: Mode, t: Transport)
    requires InBounds(m, b, r)
    ensures KeysOnly(m, Install(m, b, r, mode, t).0)
  {
  }

  lemma InstallKeepsOwnership(m: Manager, b: BindingRef, r: AssocRef, mode: Mode, dialled: nat,
                              handed: multiset<Transport>)
    requires PeersOk(m) && InBounds(m, b, r) && Ledger(Transports(m), dialled, handed)
    ensures var (m1, previous) := Install(m, b, r, mode, dialled);
            PeersOk(m1) && Ledger(Transports(m1), dialled + 1, HandOver(handed, previous))
  {
    var binding := m.bindings[b];
    var actual := PeerKey(binding.provider, mode);
    var reuse := Reused(m, actual, binding.peerKey);
    SetPeerTransports(m, reuse, actual, binding.assocID, dialled);
    LedgerReplace(Transports(m), reuse, actual, dialled, handed);
    var m0 := SetPeer(m, reuse, actual, binding.assocID, dialled).0;
    SetPeerKeyKeepsTransports(m0, r, actual);
  }

  lemma SetPeerKeyKeepsTransports(m: Manager, r: AssocRef, key: PeerKey)
    requires PeersOk(m) && r < |m.assocs|
    ensures PeersOk(SetPeerKey(m, r, key)) && Transports(SetPeerKey(m, r, key)) == Transports(m)
  {
  }

  /** A transport dialled for a held binding: consistent maps, no other change, and the ledger balances. */
  lemma InstallIsSound(m: Manager, b: BindingRef, r: AssocRef, mode: Mode, dialled: nat, handed: multiset<Transport>)
    requires Consistent(m) && InBounds(m, b, r) && Ledger(Transports(m), dialled, handed)
    ensures var (m1, previous) := Install(m, b, r, mode, dialled);
            Consistent(m1) && KeysOnly(m, m1) && Ledger(Transports(m1), dialled + 1, HandOver(handed, previous))
  {
    InstallKeepsConsistent(m, b, r, mode, dialled);
    InstallIsKeysOnly(m, b, r, mode, dialled);
    InstallKeepsOwnership(m, b, r, mode, dialled, handed);
  }

  lemma DialSucceedsKeepsInv(w: World, i: nat, mode: Mode)
    requires Inv(w) && DialSucceedsStep(w, i, mode).Some?
    ensures Inv(DialSucceedsStep(w, i, mode).value)
  {
    InstallIsSound(w.m, w.callers[i].b, w.callers[i].r, mode, w.dialled, w.handed);
    var (m1, previous) := Install(w.m, w.callers[i].b, w.callers[i].r, mode, w.dialled);
    InstalledKeepsInv(w, i, m1, HandOver(w.handed, previous));
  }

  lemma InstalledKeepsInv(w: World, i: nat, m1: Manager, handed: multiset<Transport>)
    requires Inv(w) && i < |w.callers| && w.callers[i].Dialing? && Consistent(m1) && KeysOnly(w.m, m1)
    requires Ledger(Transports(m1), w.dialled + 1, handed)
    ensures Inv(Installed(w, i, m1, handed))
  {
    KeysOnlyKeepsInv(w, m1, w.dialled + 1, handed);
    var w1 := w.(m := m1, dialled := w.dialled + 1, handed := handed);
    assert CallerOk(w1.m, w1.dialers, |w1.owners|, i, w1.callers[i]);
    MoveKeepsInv(w1, i, Finishing(w.callers[i].b, w.callers[i].r, false));
  }

  lemma FinishKeepsDials(w: World, i: nat)
    requires DialsOk(w) && CallersOk(w.m, w.dialers, |w.owners|, w.callers) && FinishStep(w, i).Some?
    ensures DialsOk(FinishStep(w, i).value)
  {
    var w1 := FinishStep(w, i).value;
    var r := w.callers[i].r;
    assert CallerOk(w.m, w.dialers, |w.owners|, i, w.callers[i]) && DialOk(w, r);
    forall q | 0 <= q < |w1.m.assocs| ensures DialOk(w1, q) { assert DialOk(w, q); }
    forall ch | 0 <= ch < |w1.owners| ensures ChanOk(w1, ch) { assert ChanOk(w, ch); }
  }

  lemma FinishKeepsInv(w: World, i: nat)
    requires Inv(w) && FinishStep(w, i).Some?
    ensures Inv(FinishStep(w, i).value)
  {
    var w1 := FinishStep(w, i).value;
    var r := w.callers[i].r;
    SetDialKeepsConsistent(w.m, r, None, w.callers[i].failed);
    assert Transports(w1.m) == Transports(w.m);
    forall c, q | Held(w.m, c, q) ensures Held(w1.m, c, q) { OthersKeepHeld(w.m, w1.m, c, q); }
    CallersStay(w, w1.m);
    FinishKeepsDials(w, i);
  }

  lemma CloseKeepsInv(w: World)
    requires Inv(w)
    ensures Inv(CloseStep(w).value)
  {
    var w1 := CloseStep(w).value;
    CloseAllKeepsConsistent(w.m);
    LedgerClear(Transports(w.m), w.dialled, w.handed);
    assert Transports(w1.m) == map[];
    CallersStay(w, w1.m);
    DialsGoOnKeepsDials(w, w1);
  }

  /** Every step of every caller keeps the invariant. */
  lemma NextKeepsInv(w: World, s: Step)
    requires Inv(w) && Next(w, s).Some?
    ensures Inv(Next(w, s).value)
  {
    match s
    case Call(l) => CallKeepsInv(w, l);
    case Answer(i, p, id, mode) => AnswerKeepsInv(w, i, p, id, mode);
    case NoAnswer(i) => MoveKeepsInv(w, i, Returned);
    case Check(i, healthy) => CheckKeepsInv(w, i, healthy);
    case Wake(i, healthy) =>
      var (b, r) := (w.callers[i].b, w.callers[i].r);
      MoveKeepsInv(w, i, if w.m.assocs[r].failed || HasPeer(w.m, b, healthy) then Returned else Checking(b, r));
    case GiveUp(i) => MoveKeepsInv(w, i, Returned);
    case DialFails(i) => MoveKeepsInv(w, i, Finishing(w.callers[i].b, w.callers[i].r, true));
    case DialSucceeds(i, mode) => DialSucceedsKeepsInv(w, i, mode);
    case Finish(i) => FinishKeepsInv(w, i);
    case Close => CloseKeepsInv(w);
  }

  lemma InitInv()
    ensures Inv(INIT)
  {
    assert Transports(EMPTY) == map[];
  }

  /** Whatever the callers, the bridge and the network do, the invariant holds. */
  lemma {:induction false} RunsKeepInv(steps: seq<Step>)
    requires Run(steps).Some?
    ensures Inv(Run(steps).value)
  {
    if steps == [] {
      InitInv();
    } else {
      RunsKeepInv(steps[..|steps| - 1]);
      NextKeepsInv(Run(steps[..|steps| - 1]).value, steps[|steps| - 1]);
    }
  }

  // ---------------------------------------------------------------- main results, over every run

  /** The four maps agree with each other after every step. */
  lemma RoutesStayConsistent(steps: seq<Step>)
    requires Run(steps).Some?
    ensures Consistent(Run(steps).value.m)
  {
    RunsKeepInv(steps);
  }

  /** A dialled transport is in exactly one peer and not handed over, or in none and handed over once. */
  lemma OwnedOnce(steps: seq<Step>, t: Transport)
    requires Run(steps).Some? && t < Run(steps).value.dialled
    ensures var w := Run(steps).value;
            && PeersOk(w.m)
            && var f := Transports(w.m);
            && (w.handed[t] == 1 <==> forall k :: k in f ==> f[k] != t)
            && (w.handed[t] == 0 <==> exists k :: k in f && f[k] == t && forall j :: j in f && f[j] == t ==> j == k)
  {
    RunsKeepInv(steps);
    var w := Run(steps).value;
    var f := Transports(w.m);
    if t in f.Values {
      var k :| k in f && f[k] == t;
      assert forall j :: j in f && f[j] == t ==> j == k;
    } else {
      forall k | k in f ensures f[k] != t { assert f[k] in f.Values; }
    }
  }

  /** An association object has at most one dialer, and so has an association ID among the stored associations. */
  lemma OneDialer(steps: seq<Step>, i: nat, j: nat)
    requires Run(steps).Some?
    requires var cs := Run(steps).value.callers;
             && i < |cs| && j < |cs| && i != j && (cs[i].Dialing? || cs[i].Finishing?)
             && (cs[j].Dialing? || cs[j].Finishing?)
    ensures var w := Run(steps).value;
            && w.callers[i].r < |w.m.assocs| && w.callers[j].r < |w.m.assocs| && w.callers[i].r != w.callers[j].r
            && (LiveAssoc(w.m, w.callers[i].r) && LiveAssoc(w.m, w.callers[j].r) ==>
                  w.m.assocs[w.callers[i].r].id != w.m.assocs[w.callers[j].r].id)
  {
    RunsKeepInv(steps);
    var w := Run(steps).value;
    assert CallerOk(w.m, w.dialers, |w.owners|, i, w.callers[i])
           && CallerOk(w.m, w.dialers, |w.owners|, j, w.callers[j]);
  }

  /** The dialing flag, the channel and the dialer of an association object come and go together. */
  lemma DialingIffReady(steps: seq<Step>, r: AssocRef)
    requires Run(steps).Some? && r < |Run(steps).value.m.assocs|
    ensures var w := Run(steps).value; var a := w.m.assocs[r];
            && (a.dialing <==> a.readyCh.Some?)
            && (a.dialing <==> exists i :: 0 <= i < |w.callers| && Dials(w.callers[i], r))
  {
    RunsKeepInv(steps);
    var w := Run(steps).value;
    assert DialOk(w, r);
    if i :| 0 <= i < |w.callers| && Dials(w.callers[i], r) {
      assert CallerOk(w.m, w.dialers, |w.owners|, i, w.callers[i]);
    }
  }

  /** A waiting caller's channel is closed, or has a dialer whose dial, however it ends, and finish close it. */
  lemma WaiterIsServed(steps: seq<Step>, i: nat)
    requires Run(steps).Some? && i < |Run(steps).value.callers| && Run(steps).value.callers[i].Waiting?
    ensures var w := Run(steps).value; var ch := w.callers[i].ch;
            || w.closes[ch] == 1
            || (w.closes[ch] == 0 && exists j :: ServedBy(w, ch, j))
  {
    RunsKeepInv(steps);
    var w := Run(steps).value;
    assert CallerOk(w.m, w.dialers, |w.owners|, i, w.callers[i]);
    OpenIsServed(w, w.callers[i].ch);
  }

  lemma OpenIsServed(w: World, ch: Chan)
    requires Inv(w) && ch < |w.owners|
    ensures w.closes[ch] == 1 || (w.closes[ch] == 0 && exists j :: ServedBy(w, ch, j))
  {
    assert ChanOk(w, ch);
    if w.closes[ch] == 0 {
      var r := w.owners[ch];
      assert DialOk(w, r);
      var j := w.dialers[r];
      assert CallerOk(w.m, w.dialers, |w.owners|, j, w.callers[j]);
      DialerServes(w, ch, j, r);
    }
  }

  /** The finish of caller `j` closes the channel. */
  predicate FinishCloses(w: Option<World>, ch: Chan, j: nat) {
    w.Some? && FinishStep(w.value, j).Some? && FinishStep(w.value, j).value.closes[ch] == 1
  }

  predicate FailureCloses(w: World, ch: Chan, j: nat) {
    FinishCloses(DialFailsStep(w, j), ch, j)
  }

  predicate SuccessCloses(w: World, ch: Chan, j: nat, mode: Mode) {
    FinishCloses(DialSucceedsStep(w, j, mode), ch, j)
  }

  /** Caller `j` has only its finish left, which closes the channel, or its dial, and then that. */
  predicate ServedBy(w: World, ch: Chan, j: nat) {
    j < |w.callers| &&
    match w.callers[j]
    case Dialing(_, _) => FailureCloses(w, ch, j) && forall mode :: SuccessCloses(w, ch, j, mode)
    case Finishing(_, _, _) => FinishCloses(Some(w), ch, j)
    case _ => false
  }

  lemma FinishOf(w: World, ch: Chan, j: nat)
    requires j < |w.callers| && w.callers[j].Finishing? && w.callers[j].r < |w.m.assocs|
    requires w.m.assocs[w.callers[j].r].readyCh == Some(ch) && w.closes[ch] == 0
    ensures FinishCloses(Some(w), ch, j)
  {
  }

  lemma SuccessOf(w: World, ch: Chan, j: nat, mode: Mode)
    requires j < |w.callers| && w.callers[j].Dialing? && InBounds(w.m, w.callers[j].b, w.callers[j].r)
    requires w.m.assocs[w.callers[j].r].readyCh == Some(ch) && w.closes[ch] == 0
    ensures SuccessCloses(w, ch, j, mode)
  {
    var (b, r) := (w.callers[j].b, w.callers[j].r);
    InstallIsKeysOnly(w.m, b, r, mode, w.dialled);
    var (m1, previous) := Install(w.m, b, r, mode, w.dialled);
    assert SameDial(w.m.assocs[r], m1.assocs[r]);
    FinishOf(Installed(w, j, m1, HandOver(w.handed, previous)), ch, j);
  }

  lemma FailureOf(w: World, ch: Chan, j: nat)
    requires j < |w.callers| && w.callers[j].Dialing? && w.callers[j].r < |w.m.assocs|
    requires w.m.assocs[w.callers[j].r].readyCh == Some(ch) && w.closes[ch] == 0
    ensures FailureCloses(w, ch, j)
  {
    FinishOf(w.(callers := w.callers[j := Finishing(w.callers[j].b, w.callers[j].r, true)]), ch, j);
  }

  lemma DialerServes(w: World, ch: Chan, j: nat, r: AssocRef)
    requires j < |w.callers| && Dials(w.callers[j], r) && InBounds(w.m, w.callers[j].b, r)
    requires w.m.assocs[r].readyCh == Some(ch) && w.closes[ch] == 0
    ensures ServedBy(w, ch, j)
  {
    if w.callers[j].Dialing? {
      FailureOf(w, ch, j);
      forall mode ensures SuccessCloses(w, ch, j, mode) { SuccessOf(w, ch, j, mode); }
    } else {
      FinishOf(w, ch, j);
    }
  }

  /** No channel is ever closed twice. */
  lemma ClosedAtMostOnce(steps: seq<Step>, ch: Chan)
    requires Run(steps).Some?
    ensures Run(steps).value.closes[ch] <= 1
  {
    RunsKeepInv(steps);
    var w := Run(steps).value;
    if ch in w.closes { assert ChanOk(w, ch); }
  }

  /** The references a caller holds are always good: no step fails for want of an object. */
  lemma NoStepFails(steps: seq<Step>, i: nat, mode: Mode, healthy: bool)
    requires Run(steps).Some? && i < |Run(steps).value.callers|
    ensures var w := Run(steps).value;
            && (w.callers[i].Resolving? ==> forall p, v :: AnswerStep(w, i, p, AssocID(v, p), mode).Some?)
            && (w.callers[i].Checking? ==> CheckStep(w, i, healthy).Some?)
            && (w.callers[i].Waiting? && w.callers[i].ch in w.closes ==> WakeStep(w, i, healthy).Some?)
            && (w.callers[i].Dialing? ==> DialSucceedsStep(w, i, mode).Some?)
            && (w.callers[i].Finishing? ==> FinishStep(w, i).Some?)
            && CloseStep(w).Some?
  {
    RunsKeepInv(steps);
    var w := Run(steps).value;
    assert CallerOk(w.m, w.dialers, |w.owners|, i, w.callers[i]);
  }

  // ---------------------------------------------------------------- single flight is per object, not per ID

  /** The association is stored, and its object is being dialled. */
  predicate DialsStored(m: Manager, id: AssocID)
    requires InRange(m)
  {
    id in m.associations && m.assocs[m.associations[id]].dialing
  }

  lemma NewObject(m: Manager, l: LocalKey, id: AssocID, mode: Mode)
    requires InRange(m) && id.AssocID? && id !in m.associations && id.provider != NO_PROVIDER
    ensures Rebind(m, l, id.provider, id, mode).1.value.assoc == |m.assocs|
  {
    DetachKeepsDials(m, l, id);
    assert id !in Detach(m, l, id).0.associations;
  }

  /** The association object that an answer gives its caller is being dialled exactly if the stored one is. */
  lemma AnsweredObject(m: Manager, l: LocalKey, id: AssocID, mode: Mode, m1: Manager, r: AssocRef)
    requires InRange(m) && RoutesOk(m1, NoID) && SameDials(m, m1) && Grows(m, m1)
    requires id in m1.associations && m1.associations[id] == r && (id !in m.associations ==> r == |m.assocs|)
    ensures r < |m1.assocs| && m1.assocs[r].id == id && (m1.assocs[r].dialing <==> DialsStored(m, id))
  {
    assert AssociationOk(m1, id, NoID);
    if id in m.associations { assert SameDial(m.assocs[r], m1.assocs[r]); }
  }

  /** What an answer gives its caller. */
  lemma AnswerGives(w: World, j: nat, id: AssocID, mode: Mode)
    requires Inv(w) && j < |w.callers| && w.callers[j].Resolving? && id.AssocID? && id.provider != NO_PROVIDER
    ensures var w1 := AnswerStep(w, j, id.provider, id, mode);
            && w1.Some? && Inv(w1.value)
            && exists b, r :: w1.value.callers == w.callers[j := Checking(b, r)] && Gives(w.m, w1.value.m, id, r)
  {
    var l := w.callers[j].l;
    var (m1, r) := Rebind(w.m, l, id.provider, id, mode);
    RebindBinds(w.m, l, id.provider, id, mode);
    RebindKeepsDials(w.m, l, id.provider, id, mode);
    RebindKeepsConsistent(w.m, l, id.provider, id, mode);
    if id !in w.m.associations { NewObject(w.m, l, id, mode); }
    AnsweredObject(w.m, l, id, mode, m1, r.value.assoc);
    AnswerKeepsInv(w, j, id.provider, id, mode);
    assert Gives(w.m, m1, id, r.value.assoc);
    assert AnswerStep(w, j, id.provider, id, mode).value.callers ==
           w.callers[j := Checking(r.value.binding, r.value.assoc)];
  }

  predicate Gives(m: Manager, m1: Manager, id: AssocID, r: AssocRef)
    requires InRange(m)
  {
    r < |m1.assocs| && m1.assocs[r].id == id && (m1.assocs[r].dialing <==> DialsStored(m, id))
  }

  /** Without a healthy peer, a caller dials exactly if its association object is not being dialled. */
  lemma CheckDialsIff(w: World, j: nat)
    requires j < |w.callers| && w.callers[j].Checking? && InBounds(w.m, w.callers[j].b, w.callers[j].r)
    requires DialOk(w, w.callers[j].r)
    ensures var (b, r) := (w.callers[j].b, w.callers[j].r); var w1 := CheckStep(w, j, false);
            && w1.Some? && |w1.value.m.assocs| == |w.m.assocs| && w1.value.m.assocs[r].id == w.m.assocs[r].id
            && var a := w.m.assocs[r];
            w1.value.callers == w.callers[j := if a.dialing then Waiting(b, r, a.readyCh.value) else Dialing(b, r)]
  {
  }

  /** Caller `j` checks after its answer: it dials exactly if `dials`, and then for that ID with another object. */
  predicate ChecksFor(w: World, i: nat, j: nat, id: AssocID, dials: bool) {
    && i < |w.callers| && w.callers[i].Dialing? && CheckStep(w, j, false).Some?
    && var w1 := CheckStep(w, j, false).value;
    && |w1.callers| == |w.callers| && j < |w.callers| && w1.callers[i] == w.callers[i]
    && (w1.callers[j].Dialing? <==> dials)
    && (w1.callers[j].Dialing? ==>
          && w1.callers[j].r != w.callers[i].r
          && w1.callers[j].r < |w1.m.assocs| && w1.m.assocs[w1.callers[j].r].id == id)
  }

  lemma AnsweredChecks(w: World, i: nat, j: nat, id: AssocID)
    requires Inv(w) && i < |w.callers| && j < |w.callers| && w.callers[i].Dialing? && w.callers[j].Checking?
    requires w.callers[j].r < |w.m.assocs| && w.m.assocs[w.callers[j].r].id == id
    ensures ChecksFor(w, i, j, id, !w.m.assocs[w.callers[j].r].dialing)
  {
    assert CallerOk(w.m, w.dialers, |w.owners|, j, w.callers[j]) && DialOk(w, w.callers[j].r);
    assert CallerOk(w.m, w.dialers, |w.owners|, i, w.callers[i]) && DialOk(w, w.callers[i].r);
    CheckDialsIff(w, j);
  }

  /**
   While caller `i` dials for an association ID, another caller `j` that gets the same answer, and finds no
   healthy peer, dials for it too if and only if the object stored for that ID is not being dialled: because none
   is stored any more, or a new one is, whose dial has not begun. Its object then is another one than caller `i`'s.
   */
  lemma SecondDialIff(w: World, i: nat, j: nat, mode: Mode)
    requires Inv(w) && i < |w.callers| && j < |w.callers| && w.callers[i].Dialing? && w.callers[j].Resolving?
    requires w.callers[i].r < |w.m.assocs|
    requires var id := w.m.assocs[w.callers[i].r].id; id.AssocID? && id.provider != NO_PROVIDER
    ensures var id := w.m.assocs[w.callers[i].r].id; var w1 := AnswerStep(w, j, id.provider, id, mode);
            w1.Some? && w1.value.callers[i] == w.callers[i] && ChecksFor(w1.value, i, j, id, !DialsStored(w.m, id))
  {
    var id := w.m.assocs[w.callers[i].r].id;
    AnswerGives(w, j, id, mode);
    var w1 := AnswerStep(w, j, id.provider, id, mode).value;
    var b, r :| w1.callers == w.callers[j := Checking(b, r)] && Gives(w.m, w1.m, id, r);
    AnsweredChecks(w1, i, j, id);
  }

  /** In particular two callers dial for one ID if its association left the map during the first dial. */
  lemma SecondDialForOneID(w: World, i: nat, j: nat, mode: Mode)
    requires Inv(w) && i < |w.callers| && j < |w.callers| && w.callers[i].Dialing? && w.callers[j].Resolving?
    requires w.callers[i].r < |w.m.assocs|
    requires var id := w.m.assocs[w.callers[i].r].id;
             id.AssocID? && id !in w.m.associations && id.provider != NO_PROVIDER
    ensures var id := w.m.assocs[w.callers[i].r].id; var w1 := AnswerStep(w, j, id.provider, id, mode);
            w1.Some? && w1.value.callers[i] == w.callers[i] && ChecksFor(w1.value, i, j, id, true)
  {
    SecondDialIff(w, i, j, mode);
  }

  lemma {:induction false} RunSnoc(steps: seq<Step>, s: Step)
    requires Run(steps).Some?
    ensures Run(steps + [s]) == Next(Run(steps).value, s)
  {
    assert (steps + [s])[..|steps|] == steps;
  }

  const FIRST := AssocID(4, 5)
  const SECOND := AssocID(4, 6)

  /** Service 1, bound to the association of provider 5 only, whose dial has begun. */
  predicate DialsFirst(w: World) {
    && InRange(w.m) && w.m.localBindings == map[1 := 0] && w.m.associations == map[FIRST := 0]
    && |w.m.assocs| == 1 && |w.m.bindings| == 1 && w.m.bindings[0].assocID == FIRST && w.m.bindings[0].provider == 5
    && w.m.assocs[0].id == FIRST && w.m.assocs[0].routeRefs == map[1 := 0]
    && w.callers == [Dialing(0, 0)]
  }

  /** The same service, bound and about to check. */
  predicate ChecksFirst(w: World) {
    && w.m.localBindings == map[1 := 0] && w.m.associations == map[FIRST := 0] && w.m.peers == map[]
    && w.m.assocs == [Assoc(FIRST, Some(PeerKey(5, Quic)), map[1 := 0], false, None, false)]
    && w.m.bindings == [Binding(1, 5, FIRST, PeerKey(5, Quic))] && w.callers == [Checking(0, 0)]
  }

  lemma FirstBind(w: World)
    requires w.m == EMPTY && w.callers == [Resolving(1)]
    ensures AnswerStep(w, 0, 5, FIRST, Quic).Some? && ChecksFirst(AnswerStep(w, 0, 5, FIRST, Quic).value)
  {
  }

  lemma FirstCheck(w: World)
    requires ChecksFirst(w)
    ensures CheckStep(w, 0, false).Some? && DialsFirst(CheckStep(w, 0, false).value)
  {
    assert SyncKey(w.m, 0, 0).bindings == w.m.bindings;
  }

  lemma FirstDial() returns (steps: seq<Step>)
    ensures Run(steps).Some? && DialsFirst(Run(steps).value)
  {
    RunSnoc([], Call(1));
    var one := [] + [Call(1)];
    assert INIT.callers + [Resolving(1)] == [Resolving(1)];
    FirstBind(Run(one).value);
    RunSnoc(one, Answer(0, 5, FIRST, Quic));
    var two := one + [Answer(0, 5, FIRST, Quic)];
    FirstCheck(Run(two).value);
    RunSnoc(two, Check(0, false));
    steps := two + [Check(0, false)];
  }

  lemma SwitchedAway(m: Manager)
    requires InRange(m) && m.localBindings == map[1 := 0] && m.associations == map[FIRST := 0] && |m.assocs| == 1
             && |m.bindings| == 1
    requires m.bindings[0].assocID == FIRST && m.assocs[0].routeRefs == map[1 := 0] && m.assocs[0].id == FIRST
    ensures var m1 := Rebind(m, 1, 6, SECOND, Quic).0;
            |m1.assocs| == 2 && m1.assocs[0].id == FIRST && FIRST !in m1.associations
  {
    assert Unroute(m, 1).assocs[0].routeRefs == map[];
  }

  /**
   A run that meets the condition of SecondDialForOneID: service 1 is bound elsewhere during its dial, and called
   again.
   */
  lemma SecondDialIsReachable() returns (steps: seq<Step>)
    ensures Run(steps).Some?
    ensures var w := Run(steps).value;
            && Inv(w) && |w.callers| == 3 && w.callers[0].Dialing? && w.callers[2].Resolving?
            && w.callers[0].r < |w.m.assocs| && w.m.assocs[w.callers[0].r].id == FIRST && FIRST !in w.m.associations
  {
    var run := FirstDial();
    RunSnoc(run, Call(1));
    var called := run + [Call(1)];
    SwitchedAway(Run(called).value.m);
    RunSnoc(called, Answer(1, 6, SECOND, Quic));
    var away := called + [Answer(1, 6, SECOND, Quic)];
    RunSnoc(away, Call(1));
    steps := away + [Call(1)];
    RunsKeepInv(steps);
  }

  // ---------------------------------------------------------------- a transport that arrives too late

  /** A transport is filed under the key of the first association, and nobody owns it. */
  predicate FiledUnowned(w: World) {
    InRange(w.m) && PeerKey(5, Quic) in w.m.peers && !Owned(w.m, PeerKey(5, Quic))
  }

  lemma LateInstall(w: World)
    requires DialsFirst(w) && PeersOk(w.m)
    ensures var w1 := CloseStep(w);
            && w1.Some? && DialSucceedsStep(w1.value, 0, Quic).Some?
            && FiledUnowned(DialSucceedsStep(w1.value, 0, Quic).value)
  {
  }

  lemma RunClose(steps: seq<Step>)
    requires Run(steps).Some?
    ensures Run(steps + [Close]) == CloseStep(Run(steps).value)
  {
    RunSnoc(steps, Close);
  }

  lemma RunDialSucceeds(steps: seq<Step>, i: nat, mode: Mode)
    requires Run(steps).Some?
    ensures Run(steps + [DialSucceeds(i, mode)]) == DialSucceedsStep(Run(steps).value, i, mode)
  {
    RunSnoc(steps, DialSucceeds(i, mode));
    NextIsSuccess(Run(steps).value, i, mode);
  }

  lemma NextIsSuccess(w: World, i: nat, mode: Mode)
    ensures Next(w, DialSucceeds(i, mode)) == DialSucceedsStep(w, i, mode)
  {
  }

  lemma DialsThenCloses(run: seq<Step>)
    requires Run(run).Some? && DialsFirst(Run(run).value) && PeersOk(Run(run).value.m)
    ensures var w := Run(run + [Close] + [DialSucceeds(0, Quic)]); w.Some? && FiledUnowned(w.value)
  {
    LateInstall(Run(run).value);
    RunClose(run);
    RunDialSucceeds(run + [Close], 0, Quic);
  }

  /** A dial that succeeds after Close files a transport that nobody owns. */
  lemma UnownedIsReachable() returns (steps: seq<Step>)
    ensures Run(steps).Some? && FiledUnowned(Run(steps).value)
  {
    var run := FirstDial();
    RunsKeepInv(run);
    DialsThenCloses(run);
    steps := run + [Close] + [DialSucceeds(0, Quic)];
  }
}
