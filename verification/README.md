# A verified model of the core of NPS

NPS lets clients behind NAT offer services through a public server, the bridge. This project models the
parts of it where many entry points share state: lock-protected session objects, indexes and pools that
have to agree with each other, timers with races, and hand-written wire formats. Dafny proves the
properties; nothing here was executed.

Concurrent code is modelled as a state machine. A step is one critical section of a mutex, one network
write or one event between two sections; any number of goroutines is a sequence of program counters; and
the theorems hold for every sequence of steps. The same critical sections also appear as methods of a
class, proved to do what the functions of the state machine say. Objects that Go code shares by pointer
are positions in lists of objects wherever sharing matters.

| file | what it models |
|---|---|
| SessionState, SessionObject, SessionProtocol, SessionCauses, SessionEnding | one P2P rendezvous session on the bridge, and every interleaving of its goroutines |
| OwnerPool, FileRoutes, NodeList, RuntimeClient | a runtime client: its nodes, the owners of file routes, and the selection loops |
| PeerRoutes, PeerManager, PeerDialing | the client's P2P route table, its transports and its single-flight dialer |
| Associations | the bridge's association manager with its sweep |
| IdleTimer | the idle timer of a tunnel |
| Bytes, Streams, Framed, BufferedConn | byte streams, framing, write buffer and pushed-back input |
| Handshake, HandshakeIO | the version-gated handshake |
| SocksUdp | SOCKS5 UDP datagrams (section 7 of RFC 1928) |
| ConfigStatus | the status protocol for new tasks |
| Health | the health checker's schedule and reports |
| FlowRefresh | traffic totals and the shared refresh |

## Results that differ from what one would expect

- A current UUID that is not in the node list, while the list has nodes, makes every round of `CheckNode`
  repeat with nothing changed; in every other state it ends (`CheckNodeFor`). `StaleSelection` shows a race
  of `GetNode` with a removal that leads there.
- A file route with a blank key is stored but not indexed, so the owner index is the inverse of all routes
  if and only if there is no such route (`IndexExactIffNamed`, `BlankNameIsNotIndexed`). Of the named ones
  it always is (`IndexAlwaysExact`). The one caller in the repository passes a generated UUID as the key
  (bridge/config.go:448), which is not blank.
- Single flight is per association object, and among the stored associations per ID too (`OneDialer`). A
  second caller dials for an ID that is being dialled if and only if no object stored for that ID is being
  dialled (`SecondDialIff`); `SecondDialIsReachable` is a run that leads there.
- A transport that is filed after its association has left the map, for example after Close
  (`UnownedIsReachable`), is handed over by no rebind until the association is stored again with its
  provider and mode (`UnownedUntilAdopted`, `DetachReturnsIff`).
- The association sweep shows in the answers exactly when a punching mark comes for a pair that is attached
  but was already swept (`SweepDoesNotShowIff`); `LateMarkShows` gives a history.
- The idle timer decides to close with no active stream (`DecidedIdle`), but closeFn can run with one
  active, exactly if an `Inc` was between its look at the flag and the mutex at that moment
  (`ClosesActiveIff`, `InFlightIsReachable`).
- A negative protocol version is served as the latest one but sends the oldest info, which the bridge
  refuses (`InfoRoundTripIff`, `GatesAgreeIff`, `ClientRoundTripIff`).
- The bridge's and the client's count of task statuses agree if and only if the condition of
  `CountsAgreeIff` holds; `SecretTaskDisagrees` is a task for which they do not. The handling panics for
  exactly the tasks of `PanicsIff`: too few targets, where it indexes past their end (`SecretTaskPanics`),
  or a file task of one variant whose message leaves the target out, where it writes to a nil target
  (`FileTaskPanicsIff`). The repository's own client always sends a target.
- A reset of the health checker during a round schedules exactly the due checks twice
  (`RunChecksWithResets`). A reset while a target is reported down loses the report of its recovery, and
  nothing else breaks the law of the reports (`LawHoldsIff`, `RecoveryIsNotReported`).
- A full refresh and a refresh of some clients share one channel. A caller that joins gets its clients
  recomputed exactly if the refresh had not run yet and covers them (`ServedIff`), and what that means for
  the totals is `ServedTotals`. So a caller of a full refresh can return with some clients' totals as they
  were when it entered (`ReleasedIsReachable`).

## Model

| member | source | states |
|---|---|---|
| SessionObject.BridgeSession.constructor | bridge/p2p_session.go:168-182 | a new session is valid and open, with only the visitor's control, nothing sent and an armed timer |
| SessionObject.BridgeSession.Attach | bridge/p2p_session.go:234-243 | keeps the session valid; succeeds exactly if the given control is the provider's afterwards, and never replaces one |
| SessionObject.BridgeSession.StoreReport | bridge/p2p_session.go:466-481 | keeps the session valid: only a report of that role for this session is stored, the other role's is left alone, and true means both are there |
| SessionObject.BridgeSession.StoreReady | bridge/p2p_session.go:490-505 | keeps the session valid: no READY before the summary, none taken back, and true means both are ready and GO was not sent |
| SessionObject.BridgeSession.StoreProgress | bridge/p2p_session.go:195-215 | keeps the session valid; gives a completion exactly if this call closed the session, with all that the session gave up, and then it is established |
| SessionObject.BridgeSession.EstablishLocked | bridge/p2p_session.go:270-307 | the same, and a session that it leaves open lacks a transport |
| SessionObject.BridgeSession.PrepareSummaryDispatch | bridge/p2p_session.go:523-544 | gives a dispatch exactly if this call set the flag; an open session with both reports has the flag afterwards |
| SessionObject.BridgeSession.SchedulePostSummaryTimeout | bridge/p2p_session.go:554-569 | afterwards the timer is armed exactly if the session is open |
| SessionObject.BridgeSession.PrepareGoDispatch | bridge/p2p_session.go:592-615 | gives a dispatch, with both controls, exactly if this call set the flag; with both roles ready it keeps the session valid |
| SessionObject.BridgeSession.TryFinalizeTransportEstablished | bridge/p2p_session.go:258-288 | gives a completion exactly if this call closed the session; one with GO that stays open lacks a transport |
| SessionObject.BridgeSession.PrepareAbortCompletion | bridge/p2p_session.go:642-673 | the session is closed afterwards; gives a completion exactly if this call closed it, and an outcome already decided stays |
| SessionObject.Performs | bridge/p2p_session.go:132-673 | any section keeps the session valid and what was handed out in step with its flags, and changes nothing once it is closed |
| SessionObject.Drive | bridge/p2p_session.go:132-673 | however the sections are called, at most one summary dispatch, at most one GO dispatch, only after it, and at most one completion, one exactly when the session is closed |
| SessionProtocol.CompleteKeepsInv | bridge/p2p_session.go:642-703 | preparing a completion keeps the invariant: one applier, holding exactly the effects still to come |
| SessionProtocol.WriteKeepsInv | bridge/p2p_session.go:507-590 | every SUMMARY and GO write keeps the invariant on the log of messages |
| SessionProtocol.ApplyKeepsInv | bridge/p2p_session.go:675-703 | applying a completion puts out its effects in order |
| SessionProtocol.NextKeepsInv | bridge/p2p_session.go:138-728 | every step of every goroutine and of the timer keeps the invariant |
| SessionProtocol.RunsKeepInv | bridge/p2p_session.go:138-728 | the invariant holds after every run |
| SessionProtocol.PhasesInOrder | bridge/p2p_session.go:466-615 | GO implies both ready, ready implies summary, summary implies both reports; at most one SUMMARY and GO per role; the summaries mirror each other |
| SessionProtocol.DispatchIsOfReports | bridge/p2p_session.go:523-544 | the summary of a run is made of the two reports stored at one moment, the first at which one was prepared |
| SessionProtocol.MessagesAsAddressed | bridge/p2p_session.go:507-590 | every SUMMARY goes to its role's control with that role's address first, and every GO to its role's control |
| SessionProtocol.NoGoBeforeSummary | bridge/p2p_session.go:507-615 | with clients that send READY only after a SUMMARY, no control sees GO before its SUMMARY |
| SessionProtocol.EffectsAreEnding | bridge/p2p_session.go:675-703 | the effects of the one completion are the ending told by outcome and controls alone |
| SessionProtocol.EndingNeverRepeats | bridge/p2p_session.go:675-703 | no effect of an ending occurs twice |
| SessionProtocol.CompletesAtMostOnce | bridge/p2p_session.go:642-703 | closed, final telemetry and a decided outcome are the same thing; what has been done is a prefix of that outcome's ending |
| SessionProtocol.ClosingIsFinal | bridge/p2p_session.go:554-673 | closed stays closed with the same outcome, and holds no control or timer again |
| SessionCauses.StepRecordsIff | bridge/p2p_session.go:195-215 | a role's report, READY and transport change exactly by a valid message of that role, read by its own serve loop while the session is open |
| SessionCauses.UpHasCause | bridge/p2p_session.go:195-215 | a role whose transport is up said so itself earlier in the run |
| SessionCauses.ReadyHasCause | bridge/p2p_session.go:490-505 | a role that is ready said so itself, after a summary was prepared |
| SessionCauses.ReportHasCause | bridge/p2p_session.go:466-481 | a stored report was sent by its own role for this session |
| SessionCauses.EstablishedHasCauses | bridge/p2p_session.go:865-904 | an established session had all three from each role |
| SessionEnding.OpenIsBoundToEnd | bridge/p2p_session.go:554-569 | at any moment of any run, an open session has its timer armed or a goroutine about to abort it for a timeout |
| SessionEnding.ClosedIsEnding | bridge/p2p_session.go:675-703 | a closed session has done its whole ending, or exactly one goroutine holds exactly the rest of it |
| SessionEnding.EstablishedNeeds | bridge/p2p_session.go:270-307 | an established session has sent summary and GO, has a provider, and both roles were ready and said their transport is up |
| SessionEnding.FinishEnding | bridge/p2p_session.go:675-703 | the goroutine that ends a session does so in as many steps of its own as there are effects left, and one more |
| SessionEnding.EveryRunEnds | bridge/p2p_session.go:138-728 | every run can be continued, by the timer or the goroutine that aborts or ends, to a session that has done its whole ending once |
| OwnerPools.RemoveKeepsQueue | bridge/client.go:1858-1964 | removing an owner leaves the upcoming order of selection as it was, without that owner |
| OwnerPools.AdvanceRotatesQueue | bridge/client.go:1876-1919 | a selection takes the first of the upcoming owners and puts it last |
| OwnerPools.AddKeepsQueue | bridge/client.go:1829-1843 | a new owner joins without disturbing the order of the others |
| OwnerPools.OwnerPool.Set | bridge/client.go:1829-1843 | adds an owner with its value, or changes the value of one that is there; a blank one changes nothing |
| OwnerPools.OwnerPool.NormalizeNext | bridge/client.go:1921-1931 | the position is in range of a pool that is not empty, and a position in range stays |
| OwnerPools.OwnerPool.FindIndex | bridge/client.go:1933-1943 | the position of an owner, or -1 exactly when it is not there |
| OwnerPools.OwnerPool.Remove | bridge/client.go:1858-1874 | removes an owner from order and entries, and says how many are left |
| OwnerPools.OwnerPool.RemoveOrderIndex | bridge/client.go:1945-1964 | the upcoming owners are those before, in the same order, without the one taken out |
| OwnerPools.OwnerPool.SelectNext | bridge/client.go:1876-1919 | returns the first upcoming owner and rotates; skips positions without an entry |
| OwnerPools.OwnerPool.SnapshotKeys | bridge/client.go:1966-1986 | the owners in the order of the pool |
| FileRoutes.ExactIffPointwise | bridge/client.go:1694-1748 | the index is the inverse of the owner sets of the named routes if and only if it lists exactly their keys and no empty set |
| FileRoutes.AddKeepsExact | bridge/client.go:939-984 | adding an owner, also under a blank key, keeps the index the inverse of the named routes |
| FileRoutes.RemoveKeepsExact | bridge/client.go:986-1023 | removing an owner keeps it so |
| FileRoutes.RemoveRouteKeepsExact | bridge/client.go:1010-1036 | removing a route keeps it so |
| FileRoutes.PruneKeepsExact | bridge/client.go:1628-1683 | pruning a node from all routes keeps it so |
| FileRoutes.SelectKeepsExact | bridge/client.go:1062-1086 | a selection from any route, or from none, keeps it so |
| FileRoutes.IndexAlwaysExact | bridge/client.go:939-1036 | after every sequence of operations, selections among them, the index is the inverse of the named routes |
| FileRoutes.IndexExactIffNamed | bridge/client.go:939-984 | it is the inverse of all routes if and only if none has a blank key |
| FileRoutes.BlankNameIsNotIndexed | bridge/client.go:939-984 | an owner added under a blank key to an empty table is stored and not indexed |
| FileRoutes.PruneForgetsOwner | bridge/client.go:1628-1683 | after a prune neither the index nor any named route has that node, the other owners keep their turns, only empty routes go, and a blank route is left alone |
| FileRoutes.RemoveOwnerQueue | bridge/client.go:986-1008 | a route's queue after a removal, also when a pool of two becomes a single owner |
| FileRoutes.Routes.AddFileOwner | bridge/client.go:939-953 | whole new state of routes and index; nothing for an unknown node |
| FileRoutes.Routes.RemoveFileOwner | bridge/client.go:1016-1023 | whole new state of routes and index |
| FileRoutes.Routes.RemoveFile | bridge/client.go:1010-1014 | whole new state of routes and index; true exactly if a named route was there |
| FileRoutes.Routes.DeleteIfCurrent | bridge/client.go:1025-1036 | whole new state; deletes, and says so, exactly if the named route is still the one seen: the same single owner, or the same pool object whatever its state |
| FileRoutes.Routes.Close | bridge/client.go:1566-1598 | no routes and an empty index |
| FileRoutes.Routes.TrackOwners | bridge/client.go:1694-1715 | the loop over owners adds exactly their entries |
| FileRoutes.Routes.UntrackOwners | bridge/client.go:1717-1748 | the loop over owners removes exactly their entries and leaves no empty set |
| FileRoutes.Routes.SelectNext | bridge/client.go:1062-1086 | rotates the pool of one route |
| FileRoutes.Routes.PruneOwner | bridge/client.go:1628-1653 | the loop over a node's keys takes it off every named route it owns, and no other route changes |
| NodeLists.SwapRemoveMembers | lib/pool/pool.go:186-209 | a swap-remove loses exactly one member |
| NodeLists.NodeList.Add | lib/pool/pool.go:31-38 | appends a member that is not there yet |
| NodeLists.NodeList.Remove | lib/pool/pool.go:40-49 | removes a member, keeping list and index consistent |
| NodeLists.NodeList.RemoveAt | lib/pool/pool.go:186-209 | list and index stay consistent and lose exactly that member |
| NodeLists.NodeList.Next | lib/pool/pool.go:119-131 | the member at the counter, which moves on by one and starts again at its limit |
| NodeLists.RoundVisitsEachOnce | lib/pool/pool.go:119-131 | as many selections as members take each member exactly once |
| NodeLists.NodeList.Random | lib/pool/pool.go:133-141 | some member, if there is one |
| NodeLists.NodeList.Clear | lib/pool/pool.go:162-184 | no members |
| RuntimeClient.Client.constructor | bridge/client.go:756-768 | a new client lists its node and has it as current |
| RuntimeClient.Client.DropNode | bridge/client.go:1532-1552 | a dropped node leaves list and entries, and the current UUID moves on |
| RuntimeClient.Client.CloseAndRemove | bridge/client.go:1469-1507 | removes an offline node with its routes |
| RuntimeClient.Client.PruneMissing | bridge/client.go:1509-1526 | removes exactly a listed UUID without an entry, with its routes |
| RuntimeClient.Client.Evaluate | bridge/client.go:1111-1141 | classifies a candidate: usable exactly when online, spared exactly within a grace window |
| RuntimeClient.Client.NextDistinct | bridge/client.go:890-915 | a listed UUID other than the excluded one, blank exactly when there is none |
| RuntimeClient.Client.CurrentOrNext | bridge/client.go:917-932 | the current UUID, or a listed one that becomes current |
| RuntimeClient.Client.CheckOnce | bridge/client.go:1143-1191 | a round makes progress exactly when the current UUID does not dangle, and removes no online or spared node |
| RuntimeClient.Client.CheckNode | bridge/client.go:1143-1191 | unless the current UUID dangles among nodes: terminates, keeps every online node and the current UUID listed; with nothing deferred finds a node exactly when one is online and otherwise empties the list |
| RuntimeClient.Client.CurrentIfOnline | bridge/client.go:1143-1148 | the current node exactly if it is online; a dangling UUID changes nothing |
| RuntimeClient.Client.CheckNodeFor | bridge/client.go:1143-1191 | within twice as many rounds as nodes, CheckNode ends if and only if the current UUID does not dangle among nodes; if it does, no number of rounds changes anything |
| RuntimeClient.StaleSelection | bridge/client.go:1193-1198 | with two or more nodes, a selection that races with the removal of the selected node leaves a dangling UUID among the others, and CheckNode does not end in any number of rounds |
| RuntimeClient.Client.ResolveNode | bridge/client.go:1088-1109 | an owner serves exactly if online; one that is not and cannot be spared leaves the route |
| RuntimeClient.Client.ResolvePool | bridge/client.go:1062-1086 | walks the pool while deleting from it, visiting owners in the original order; finds the first online one, exactly if there is one |
| RuntimeClient.Client.GetNodeByFile | bridge/client.go:1038-1060 | the first online owner of the route, and the exact queue left behind |
| RuntimeClient.AfterFailure | bridge/client.go:1062-1109 | the queue after an owner failed, whether it was taken off or spared |
| PeerManagers.PeerManager.DetachLocalBinding | client/p2p_route_state.go:223-268 | whole new state of unbinding a local service, and the transport to close |
| PeerManagers.PeerManager.StoreResolvedRouteBinding | client/p2p_route_state.go:173-221 | whole new state of a rebind, including the refused answers; the maps stay consistent for an answer whose ID belongs to its provider |
| PeerManagers.PeerManager.RekeyRoutes | client/p2p_route_state.go:405-407 | the loop over an association's routes sets exactly their peer keys |
| PeerManagers.PeerManager.InstallPeer | client/p2p_route_state.go:388-414 | whole new state of filing a dialled transport, and the one it replaces; the maps stay consistent |
| PeerRoutes.RebindKeepsConsistent | client/p2p_route_state.go:173-268 | a rebind keeps bindings and route lists inverse, every association with a route, every route with its association's peer key, and every provider indexed by a live association of its own |
| PeerRoutes.InstallKeepsConsistent | client/p2p_route_state.go:388-414 | filing a transport keeps the maps consistent, also for a detached association |
| PeerRoutes.InstallFiles | client/p2p_route_state.go:385-414 | the transport is filed under provider and mode of the dial, and no other peer changes, except that the binding's own may have moved |
| PeerRoutes.SyncKeyKeepsConsistent | client/p2p_route_state.go:298-301 | a caller that writes its binding's peer key, stale or not, keeps the maps consistent |
| PeerRoutes.CloseAllKeepsConsistent | client/p2p_manager.go:141-155 | closing leaves consistent maps, though callers still hold objects |
| PeerRoutes.OneAssociation | client/p2p_route_state.go:204-219 | a live binding is listed by one association object only |
| PeerRoutes.StoredIffBound | client/p2p_route_state.go:173-268 | an association is stored exactly while some service is bound to it |
| PeerRoutes.RebindClosesIff | client/p2p_route_state.go:223-268 | unbinding hands a transport over exactly when the service was the last of another association that owns the peer under its key |
| PeerRoutes.RebindBinds | client/p2p_route_state.go:208-220 | what the caller of a rebind gets, and that no other service's binding changes |
| PeerRoutes.DetachReturnsIff | client/p2p_route_state.go:223-268 | unbinding hands over the transport under a key exactly if the association it was dialled for is stored with that key, and the service is its last |
| PeerRoutes.UnownedUntilAdopted | client/p2p_route_state.go:173-268 | a transport whose association is not stored with its key stays filed through every rebind, until exactly one that stores the association anew with its provider and mode |
| PeerDialing.NextKeepsInv | client/p2p_route_state.go:291-418 | every step of every caller, and Close, keep the invariant |
| PeerDialing.RunsKeepInv | client/p2p_route_state.go:291-418 | the invariant holds after every run |
| PeerDialing.RoutesStayConsistent | client/p2p_route_state.go:173-268 | the maps are consistent after every run |
| PeerDialing.LedgerReplace | client/p2p_route_state.go:388-416 | a new transport takes a place and the replaced one is handed over, so each is accounted for once |
| PeerDialing.OwnedOnce | client/p2p_route_state.go:223-268 | every dialled transport is in exactly one peer, or was handed over for closing exactly once |
| PeerDialing.OneDialer | client/p2p_route_state.go:307-341 | at most one dialer per association object, and per ID among the stored ones |
| PeerDialing.DialingIffReady | client/p2p_route_state.go:335-354 | dialing, a ready channel and a dialer come and go together |
| PeerDialing.ClosedAtMostOnce | client/p2p_route_state.go:351-354 | no ready channel is closed twice |
| PeerDialing.WaiterIsServed | client/p2p_route_state.go:307-329 | a waiter's channel is closed, or there is a dialer whose finish closes it, after its dial if that is not over, however the dial ends |
| PeerDialing.NoStepFails | client/p2p_route_state.go:291-361 | what a caller holds is always good for its next step |
| PeerDialing.SecondDialIff | client/p2p_route_state.go:307-349 | while one caller dials for an association ID, another one with the same answer and no healthy peer dials too if and only if the object stored for the ID is not being dialled, and then for another object |
| PeerDialing.SecondDialForOneID | client/p2p_route_state.go:187-194 | in particular an association that left the map during its dial gets a second one |
| PeerDialing.SecondDialIsReachable | client/p2p_route_state.go:223-249 | a run that leads there |
| PeerDialing.UnownedIsReachable | client/p2p_route_state.go:385-414 | a dial that succeeds after Close files a transport whose association is not stored |
| Associations.AssociationManager.SweepExpired | bridge/p2p_runtime.go:228-241 | the loop removes exactly the expired entries, at most once per interval |
| Associations.AssociationManager.Attach | bridge/p2p_runtime.go:141-176 | whole new state and answer of attaching |
| Associations.AssociationManager.SetPunching | bridge/p2p_runtime.go:192-226 | marks only a stored pair; for 30 seconds after, an attach of the pair is answered with punching and no request to punch |
| Associations.AssociationManager.Forget | bridge/p2p_runtime.go:196-212 | whenever a finished pair is attached again, it is asked to punch |
| Associations.OnlyPendingStored | bridge/p2p_runtime.go:141-226 | only binding and punching are ever stored, whatever the clocks show |
| Associations.SweepDrops | bridge/p2p_runtime.go:228-258 | a sweep drops a stored pair only once it has expired |
| Associations.EntriesTrackUpdates | bridge/p2p_runtime.go:141-258 | a stored pair shows its last update, and one that is not stored has none or has expired |
| Associations.NeedPunchIff | bridge/p2p_runtime.go:141-190 | a caller is told to punch exactly when the pair has no update within 30 seconds |
| Associations.PunchesAreApart | bridge/p2p_runtime.go:141-226 | between two punches of a pair it was finished or went 30 seconds without an update |
| Associations.SweepDoesNotShowAtOnce | bridge/p2p_runtime.go:153-176 | in one state, sweeping first changes neither the answer nor the entry |
| Associations.SweepDoesNotShow | bridge/p2p_runtime.go:141-258 | over runs whose marks find their pairs, every answer is that of a manager that never sweeps |
| Associations.LazyStoresAttached | bridge/p2p_runtime.go:141-226 | without the sweep exactly the pairs attached and not finished since are stored |
| Associations.MissedMarkShows | bridge/p2p_runtime.go:214-226 | right after a mark that misses its swept pair, an attach of the pair tells the two managers apart |
| Associations.SweepDoesNotShowIff | bridge/p2p_runtime.go:141-258 | all along a history every answer is that of a manager that never sweeps, if and only if no mark comes for a pair that is attached but was already swept |
| Associations.LateMarkShows | bridge/p2p_runtime.go:214-226 | a history with such a mark, and the two answers |
| IdleTimers.NextKeepsInv | bridge/runtime_tunnel_server.go:299-345 | every step of Inc, Dec, Stop and the callbacks keeps the invariant |
| IdleTimers.RunsKeepInv | bridge/runtime_tunnel_server.go:299-345 | the invariant holds after every run |
| IdleTimers.ClosesAtMostOnce | bridge/runtime_tunnel_server.go:299-313 | closeFn runs at most once, and only after a callback took the flag |
| IdleTimers.StopIsFinal | bridge/runtime_tunnel_server.go:341-345 | if Stop took the flag, closeFn never runs |
| IdleTimers.IdleIsWatched | bridge/runtime_tunnel_server.go:327-339 | an open timer without streams is armed or has a callback on its way |
| IdleTimers.ArmedIsIdle | bridge/runtime_tunnel_server.go:315-325 | with the mutex free, an armed timer has no active stream |
| IdleTimers.CallbackCloses | bridge/runtime_tunnel_server.go:301-311 | a callback that finds no stream and an open timer closes it |
| IdleTimers.DecidedIdle | bridge/runtime_tunnel_server.go:301-307 | in every run the callback that took the flag did so by its own step, from a state without active streams |
| IdleTimers.DecisionOf | bridge/runtime_tunnel_server.go:301-307 | every such run passes through the state right after that decision |
| IdleTimers.QuietForEver | bridge/runtime_tunnel_server.go:315-330 | closed, without streams and with no Inc past its look at the flag, the timer has no stream ever again |
| IdleTimers.InFlightIncCounts | bridge/runtime_tunnel_server.go:301-325 | an Inc past its look at the flag when the callback decided can count its stream before closeFn runs |
| IdleTimers.ClosesActiveIff | bridge/runtime_tunnel_server.go:301-325 | closeFn can come to run with a stream active if and only if some Inc was past its look at the flag when the callback decided |
| IdleTimers.InFlightIsReachable | bridge/runtime_tunnel_server.go:301-325 | a run in which one was |
| Framed.ChunksConcat | lib/conn/framed.go:65-90 | the payloads of one write concatenate to its argument |
| Framed.ReadOneFrame | lib/conn/framed.go:24-63 | a read returns the start of a frame, as much as fits, and skips the rest |
| Framed.ReadsFollowFrames | lib/conn/framed.go:24-63 | the i-th read returns the start of the i-th frame whatever the buffer sizes, and stays on a boundary |
| Framed.WritesThenReads | lib/conn/framed.go:24-90 | the same for any sequence of writes, whose payloads hold all bytes in order |
| Framed.FramedConn.WriteAll | lib/conn/framed.go:149-163 | over a short-writing stream, puts out all of its argument or a prefix |
| Framed.FramedConn.WriteFrame | lib/conn/framed.go:134-147 | puts out a frame or the start of one |
| Framed.FramedConn.Write | lib/conn/framed.go:65-90 | puts out the frames of its argument; after a failure, whole frames that match the count and the start of one more |
| Framed.FramedConn.Read | lib/conn/framed.go:24-63 | fills the buffer as the specification says and leaves the rest of it alone, also when the connection ends or breaks inside a frame |
| BufferedConns.Conn.WriteAllCount | lib/conn/conn.go:419-435 | counts exactly what the stream took |
| BufferedConns.Conn.FlushBuffer | lib/conn/conn.go:401-417 | sent followed by pending is unchanged, also when a flush fails part-way |
| BufferedConns.Conn.Write | lib/conn/conn.go:380-399 | accepts bytes behind those pending; sent followed by pending is all that was accepted |
| BufferedConns.Conn.BufferWrite | lib/conn/conn.go:437-450 | accepts all bytes without sending any |
| BufferedConns.Conn.FlushBuf | lib/conn/conn.go:452-462 | keeps what was accepted; nothing pending after success |
| BufferedConns.Conn.SetRb | lib/conn/conn.go:50-59 | pushed-back chunks queue up in order |
| BufferedConns.Conn.Read | lib/conn/conn.go:465-496 | returns the next bytes without loss or repetition, pushed-back ones first |
| BufferedConns.Conn.Close | lib/conn/conn.go:348-377 | closes once and drops buffers |
| Handshake.PrefixedRoundTrip | lib/conn/conn.go:117-164 | a length-prefixed payload is read back exactly, or refused if over 32 KiB |
| Handshake.IndexOfVersion | lib/version/version.go:25-57 | the bridge finds the index of the version text a client sends, the latest for one out of range |
| Handshake.HelloRoundTrip | client/control.go:853-873 | the bridge reads the padded hello exactly, or refuses an old version in secure mode |
| Handshake.AuthRoundTrip | client/control.go:948-965 | the auth envelope is read back with all fields |
| Handshake.TimestampRoundTrip | lib/common/util.go:474-483 | every 64-bit timestamp survives its eight bytes |
| Handshake.IPRoundTrip | lib/common/addr_network.go:279-306 | every address survives its encoding |
| Handshake.InfoRoundTripIff | bridge/handshake.go:253-274 | the bridge recovers address and transport name for every version from 0 on, and for no negative one |
| Handshake.WorkRoundTrip | bridge/handshake.go:472-502 | the work envelope is read back, with the fields its version carries |
| Handshake.ResponseRoundTrip | client/control.go:967-999 | the client reads the bridge's answer exactly, with the fields its version carries, or refuses it for its hash or its fingerprint only |
| Handshake.GatesAgreeIff | bridge/handshake.go:366-398 | the version gates of both sides agree exactly for versions from 0 on |
| Handshake.SessionRoundTrip | bridge/handshake.go:144-309 | hello, auth and work together are consumed exactly and give the client's fields, the info still encrypted |
| Handshake.ClientRoundTripIff | bridge/handshake.go:400-502 | from the bytes of a client of any version but 0, with info that decrypts, the bridge recovers version, address, transport name, auth fields and work and leaves what follows, if and only if the version is positive and, in secure mode, new enough |
| Handshake.BothSidesAccept | bridge/handshake.go:352-370 | for any keyed hash the bridge's check of the client's hash passes, and it answers with the hash the client expects |
| Handshake.AnswerIsAccepted | client/control.go:967-1016 | the client accepts that answer and reads it exactly, if it accepts the fingerprint, where there is one |
| HandshakeIO.GetShortLenContent | lib/conn/conn.go:117-153 | reads a prefixed payload from a connection, or fails as the specification does |
| HandshakeIO.WriteLenContent | lib/conn/conn.go:155-163 | buffers a prefixed payload |
| HandshakeIO.WriteClientControlVersion | client/control.go:853-873 | buffers exactly the hello |
| HandshakeIO.WriteClientControlRuntimeAuthPayload | client/control.go:948-965 | buffers exactly the auth envelope |
| HandshakeIO.SendType | client/control.go:1018-1051 | after success everything accepted is on the wire; after a failure the connection is closed |
| HandshakeIO.ReadBridgeHandshakeVersion | bridge/handshake.go:144-191 | consumes exactly the hello, or fails as specified |
| HandshakeIO.ReadBridgeRuntimeAuthEnvelope | bridge/handshake.go:276-309 | consumes exactly the auth envelope, or fails as specified |
| HandshakeIO.ReadBridgeRuntimeWorkEnvelope | bridge/handshake.go:472-502 | consumes exactly the work envelope, or fails as specified |
| HandshakeIO.WriteBridgeRuntimeAuthResponse | bridge/handshake.go:366-398 | puts out exactly the answer |
| HandshakeIO.ReadClientControlRuntimeAuthResponse | client/control.go:967-999 | consumes exactly the answer after checking hash and fingerprint, or fails as specified |
| SocksUdp.NormalIffWellFormed | lib/common/netpackager.go:86-120 | exactly the well-formed addresses are their own normal form |
| SocksUdp.AddrRoundTrip | lib/common/netpackager.go:47-120 | every address is read back in its normal form |
| SocksUdp.DatagramRoundTripIff | lib/common/netpackager.go:144-258 | a datagram comes back the same, with what follows left unread, if and only if it is no fragment, has a well-formed address, and RSV is zero at the end of the input or the data's length |
| SocksUdp.Encode | lib/common/netpackager.go:86-120 | writes exactly the address into the buffer |
| SocksUdp.BuildPacket | lib/common/netpackager.go:217-247 | the packet, in the pooled buffer or a bigger one |
| SocksUdp.Write | lib/common/netpackager.go:217-258 | puts out the packet, or a prefix if it fails |
| SocksUdp.Read | lib/common/netpackager.go:144-208 | reads a datagram and leaves exactly what follows it, or fails as specified |
| ConfigStatus.CountsAgreeIff | client/control.go:343-367 | the exact tasks for which both sides count the same number of statuses |
| ConfigStatus.DistinctPortsCount | lib/common/addr.go:238-275 | a list of distinct plain ports names as many ports as it has targets |
| ConfigStatus.CountsAgree | bridge/config.go:368-384 | agreement for the tasks the protocol is for |
| ConfigStatus.PanicsIff | bridge/config.go:386-457 | the tasks whose handling can panic are exactly those that lack a target: too few of them, or none given for a file task of one variant; and they do when all goes well before |
| ConfigStatus.SecretTaskPanics | bridge/config.go:368-437 | a secret task with one port and one target is one |
| ConfigStatus.FileTaskPanicsIff | bridge/config.go:439-457 | a file task without ports and target panics exactly if its file runtime can be attached |
| ConfigStatus.SecretTaskDisagrees | client/control.go:343-367 | for a secret task with one port and two targets nothing panics, the bridge writes two statuses and the client reads one |
| ConfigStatus.Client.WriteRemaining | bridge/config.go:337-344 | writes exactly the remaining failures |
| ConfigStatus.Client.HandleNewTask | bridge/config.go:459-504 | exactly when it panics, exactly when the session stays open, and then one status per variant: trues, then falses |
| ConfigStatus.ReadStatuses | client/control.go:332-341 | reads its count and succeeds exactly if all are true |
| ConfigStatus.Exchange | client/control.go:332-367 | in an open session the client reads every status and misses none if and only if the counts agree, and then it reports success exactly if every variant was published |
| Health.NextTimeIsLeast | client/health.go:230-241 | the next time is the least number of whole intervals, at least one, beyond now |
| Health.HealthChecker.PopDue | client/health.go:197-212 | takes out exactly what is due |
| Health.HealthChecker.Reschedule | client/health.go:214-228 | puts the valid ones back at their next times |
| Health.HealthChecker.RunChecks | client/health.go:164-171 | a round keeps the scheduled checks, all of them beyond now, and moves only what was due |
| Health.HealthChecker.constructor | client/health.go:83-105 | every valid check is scheduled once, at once |
| Health.HealthChecker.Initialize | client/health.go:179-195 | every valid check is scheduled once, at its first time |
| Health.HealthChecker.Reset | client/health.go:131-137 | whatever was scheduled, every valid check is scheduled once, an interval away |
| Health.HealthChecker.RunChecksWithResets | client/health.go:131-171 | with resets between taking out and putting back: a check is scheduled twice if and only if there was one and the check was due |
| Health.TwiceIff | client/health.go:164-228 | the same from the schedule as it was before the round |
| Health.DownIffLimitReached | client/health.go:278-290 | over any run of checks a target is reported down exactly while its failures have reached the limit |
| Health.DownIff | client/health.go:179-292 | over any history of checks and resets, a target is last reported down exactly if its failures have reached the limit, or had at a reset and have not again since |
| Health.LawHoldsIff | client/health.go:179-292 | so "down exactly while the limit is reached" holds after a history if and only if no reset came at the limit without a new report since |
| Health.NothingLostWithoutReset | client/health.go:243-292 | without a reset it always holds |
| Health.RecoveryIsNotReported | client/health.go:278-290 | otherwise no number of successes reports the recovery |
| Health.ResetLoses | client/health.go:131-137 | for every limit there is such a history |
| Health.Monitor.DoCheck | client/health.go:243-292 | the loop over targets does the bookkeeping of each in turn, and the reports it returns are what that bookkeeping says was last reported |
| Health.Monitor.Note | client/health.go:278-290 | the bookkeeping of one target; down is reported exactly at every multiple of the limit and, while the law of the reports holds, up exactly when a target reported down succeeds |
| FlowRefresh.IndexedTotal | server/server_flow_runtime.go:92-117 | adding up what the index lists equals looking through everything |
| FlowRefresh.Store.Aggregate | server/server_flow_runtime.go:129-166 | adds to each known client exactly the traffic of its items |
| FlowRefresh.Store.RefreshClients | server/server_flow_runtime.go:45-53 | every client's totals are the sums over exactly its hosts and tunnels |
| FlowRefresh.Store.RefreshIndexed | server/server_flow_runtime.go:92-117 | one client gets the same totals as from a full refresh, no other changes |
| FlowRefresh.Store.RefreshClientSet | server/server_flow_runtime.go:55-63 | the same for a set of clients; no other changes |
| FlowRefresh.RunsKeepInv | server/server_flow_runtime.go:490-553 | the invariant of the shared refresh holds after every run |
| FlowRefresh.OneLeader | server/server_flow_runtime.go:522-553 | one leader at a time, and no channel is closed twice |
| FlowRefresh.WaiterIsServed | server/server_flow_runtime.go:490-553 | a waiter's channel is closed, or a caller that can always go on will close it with the steps it has left |
| FlowRefresh.ServedIff | server/server_flow_runtime.go:494-520 | the refresh a caller joined recomputed a client after the caller entered, exactly if it had not run yet by then and is a full one or has that client in its set; a leader gets all it wanted |
| FlowRefresh.TotalsFollow | server/server_flow_runtime.go:45-63 | the totals that a log of refreshes leaves are those of the refreshes one after the other, each as the methods above compute it |
| FlowRefresh.ServedTotals | server/server_flow_runtime.go:494-520 | a client that was recomputed since a caller entered has the totals of the traffic at a moment since then; one that no refresh since included has the totals it had then |
| FlowRefresh.SkipNeedsFull | server/server_flow_runtime.go:522-571 | nobody skips before a full refresh has run |
| FlowRefresh.ReleasedIsReachable | server/server_flow_runtime.go:490-553 | whatever two callers ask for, the second can be released by the first one's refresh, without a client the first did not ask for, and without any if it came late |

## Left out

- Listeners, dialing, TLS, QUIC, KCP, WebSocket and the proxies: plumbing over external libraries.
- Cryptography and device identity: hashes and encrypted fields are arbitrary byte strings or functions.
- Real clocks, deadlines and timers: times are inputs, and timers fire as steps of their own.
- NAT observation merging, summary hints and telemetry maps: copying of fields.
- The session manager's map of sessions and the choice of a provider for a task.
- Database-backed publication of tunnels and hosts: a variant of a task is published or not by an input.
- Dashboards, lists, configuration files, launch parsing and command lines.
- Trimming of UUIDs, keys and phases: they are taken as already trimmed; comma lists come as classified items.
- Adding a node to a client and closing a client: easy next to selection and removal.
- Phases, passwords and route contexts of client-side associations: fields nothing here depends on.
- The version 0 handshake, the replay cache, the timestamp window and the choice of a UUID for work that carries none.
- Wrap-around of 64-bit traffic counters.
- Recovery from a failed health send: a report counts as made when it is handed to the connection.
- The idle timer, waitOrEstablishPeer and the shared refresh appear as steps of state machines only, not as methods, because other goroutines act between their statements.
- FileRoutes.Routes.SelectNext: a route stores its pool's state by value, so a pool that another goroutine still holds after the route was removed is not modelled.
- FlowRefresh.ServedIff: a refresh reads all traffic in one step; a caller that enters while it runs counts as entering before or after it.
- Framed.FramedConn.Read: a read that fails and later succeeds, as after a passed deadline, is not modelled; the end of the connection and an error for good are.
- BufferedConns.Conn.Read: the same, and an underlying read that returns bytes together with an error is taken as two reads.
