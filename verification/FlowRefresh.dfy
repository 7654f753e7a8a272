/**
 Traffic totals of clients (server/server_flow_runtime.go): a full refresh and a refresh of some clients
 recompute them from the hosts and tunnels, and concurrent refreshes share one run. Counters are
 unbounded here.
 */
module FlowRefresh {
  import opened Wrappers

  datatype ClientID = ID(n: int)

  /** The ID 0 of no client. */
  const NOBODY := ID(0)

  datatype Flow = Flow(inlet: int, export_: int)

  const ZERO := Flow(0, 0)

  function Add(a: Flow, b: Flow): Flow {
    Flow(a.inlet + b.inlet, a.export_ + b.export_)
  }

  /** A host or a tunnel: the client it belongs to and its traffic, either of which may be missing. */
  datatype Item = Item(client: Option<ClientID>, flow: Option<Flow>)

  predicate Of(i: Item, id: ClientID) {
    i.client == Some(id)
  }

  function FlowOf(i: Item): Flow {
    if i.flow.Some? then i.flow.value else ZERO
  }

  /** The traffic of all items of a client. */
  function Total(items: seq<Item>, id: ClientID): Flow {
    if items == [] then ZERO
    else
      var before := Total(items[..|items| - 1], id);
      if Of(items[|items| - 1], id) then Add(before, FlowOf(items[|items| - 1])) else before
  }

  lemma TotalSnoc(items: seq<Item>, i: Item, id: ClientID)
    ensures Total(items + [i], id) == if Of(i, id) then Add(Total(items, id), FlowOf(i)) else Total(items, id)
  {
    assert (items + [i])[..|items|] == items;
  }

  /** The items that the index lists for a client. */
  function Indexed(items: seq<Item>, id: ClientID): seq<Item> {
    if items == [] then []
    else Indexed(items[..|items| - 1], id) + if Of(items[|items| - 1], id) then [items[|items| - 1]] else []
  }

  /** Adding up what the index lists gives the same as looking through everything. */
  lemma {:induction false} IndexedTotal(items: seq<Item>, id: ClientID)
    ensures Total(Indexed(items, id), id) == Total(items, id)
    ensures forall i :: 0 <= i < |Indexed(items, id)| ==> Of(Indexed(items, id)[i], id)
  {
    if items != [] {
      var less := items[..|items| - 1];
      IndexedTotal(less, id);
      var all := Indexed(items, id);
      if Of(items[|items| - 1], id) {
        assert all[..|all| - 1] == Indexed(less, id);
      } else {
        assert all == Indexed(less, id);
      }
    }
  }

  /** What a client's totals should be; a client with ID 0 gets no traffic. */
  function Expected(hosts: seq<Item>, tunnels: seq<Item>, id: ClientID): Flow {
    if id == NOBODY then ZERO else Add(Total(hosts, id), Total(tunnels, id))
  }

  /** What a caller asks for: every client, at once or only if the last such refresh is stale, or a set of clients. */
  datatype Want = All(force: bool) | Clients(ids: set<ClientID>)

  /** A set refresh passes over the ID 0. */
  predicate Includes(w: Want, id: ClientID) {
    w.All? || (id in w.ids && id != NOBODY)
  }

  /** The hosts and tunnels, with their traffic, at some moment. */
  datatype Traffic = Traffic(hosts: seq<Item>, tunnels: seq<Item>)

  /** What everybody's totals should be. */
  function FullOf(totals: map<ClientID, Flow>, t: Traffic): (r: map<ClientID, Flow>)
    ensures r.Keys == totals.Keys
  {
    map id | id in totals :: Expected(t.hosts, t.tunnels, id)
  }

  /** The totals with those of the clients that a refresh includes taken from `full`. */
  function Merged(totals: map<ClientID, Flow>, w: Want, full: map<ClientID, Flow>): (r: map<ClientID, Flow>)
    requires full.Keys == totals.Keys
    ensures r.Keys == totals.Keys
  {
    map id | id in totals :: if Includes(w, id) then full[id] else totals[id]
  }

  /** The totals after a refresh: the clients it includes have what they should, all others what they had. */
  function Recomputed(totals: map<ClientID, Flow>, w: Want, t: Traffic): map<ClientID, Flow> {
    Merged(totals, w, FullOf(totals, t))
  }

  /** Some element of a set that is not empty. */
  method Pick(s: set<ClientID>) returns (id: ClientID)
    requires s != {}
    ensures id in s
  {
    id :| id in s;
  }

  class Store {
    var totals: map<ClientID, Flow>
    const hosts: seq<Item>
    const tunnels: seq<Item>

    constructor (totals: map<ClientID, Flow>, hosts: seq<Item>, tunnels: seq<Item>)
      ensures this.totals == totals && this.hosts == hosts && this.tunnels == tunnels
    {
      this.totals, this.hosts, this.tunnels := totals, hosts, tunnels;
    }

    /** addClientTrafficFromFlow; only clients in `known` are remembered by the refresh. */
    method AddTraffic(known: set<ClientID>, id: ClientID, flow: Option<Flow>)
      requires known <= totals.Keys
      modifies this
      ensures totals == if flow.Some? && id != NOBODY && id in known
                        then old(totals)[id := Add(old(totals)[id], flow.value)] else old(totals)
    {
      if flow.None? || id == NOBODY || id !in known {
        return;
      }
      totals := totals[id := Add(totals[id], flow.value)];
    }

    /** Adds the traffic of items, each to its client. */
    method Aggregate(known: set<ClientID>, items: seq<Item>)
      requires known <= totals.Keys && NOBODY !in known
      modifies this
      ensures totals.Keys == old(totals).Keys
      ensures forall id :: id in known ==> totals[id] == Add(old(totals)[id], Total(items, id))
      ensures forall id :: id in totals && id !in known ==> totals[id] == old(totals)[id]
    {
      assert items[..0] == [];
      for i := 0 to |items|
        invariant totals.Keys == old(totals).Keys
        invariant forall id :: id in known ==> totals[id] == Add(old(totals)[id], Total(items[..i], id))
        invariant forall id :: id in totals && id !in known ==> totals[id] == old(totals)[id]
      {
        ghost var before := totals;
        AddItem(known, items[i]);
        forall id | id in known ensures totals[id] == Add(old(totals)[id], Total(items[..i + 1], id)) {
          TotalSnoc(items[..i], items[i], id);
          assert items[..i] + [items[i]] == items[..i + 1];
        }
      }
      assert items[..|items|] == items;
    }

    method AddItem(known: set<ClientID>, item: Item)
      requires known <= totals.Keys && NOBODY !in known
      modifies this
      ensures totals.Keys == old(totals).Keys
      ensures forall id :: id in totals ==>
                totals[id] == if id in known && Of(item, id) then Add(old(totals)[id], FlowOf(item))
                  else old(totals)[id]
    {
      if item.client.Some? {
        AddTraffic(known, item.client.value, item.flow);
      }
    }

    /** After a full refresh every client's totals are the sums over exactly its hosts and tunnels. */
    method RefreshClients()
      modifies this
      ensures totals == FullOf(old(totals), Traffic(hosts, tunnels))
      ensures forall force :: totals == Recomputed(old(totals), All(force), Traffic(hosts, tunnels))
    {
      var known := totals.Keys - {NOBODY};
      totals := map id | id in totals :: ZERO;
      Aggregate(known, hosts);
      Aggregate(known, tunnels);
    }

    /** Adds the traffic of the items that the index lists for one client. */
    method AddIndexed(id: ClientID, items: seq<Item>)
      requires id in totals && id != NOBODY
      modifies this
      ensures totals == old(totals)[id := Add(old(totals)[id], Total(items, id))]
    {
      IndexedTotal(items, id);
      ghost var want := Total(items, id);
      Aggregate({id}, Indexed(items, id));
      OnlyOne(old(totals), totals, id, Add(old(totals)[id], want));
    }

    /** A refresh of one client gives it the same totals, from the index, and touches no other. */
    method RefreshIndexed(id: ClientID)
      modifies this
      ensures totals == if id != NOBODY && id in old(totals) then old(totals)[id := Expected(hosts, tunnels, id)]
              else old(totals)
    {
      if id == NOBODY || id !in totals {
        return;
      }
      ghost var h, t := Total(hosts, id), Total(tunnels, id);
      totals := totals[id := ZERO];
      AddIndexed(id, hosts);
      AddIndexed(id, tunnels);
      AddedTwice(old(totals), id, h, t);
    }

    /** One client more of a set that is being refreshed. */
    method RefreshMember(id: ClientID, ghost first: map<ClientID, Flow>, ghost done: set<ClientID>,
                         ghost full: map<ClientID, Flow>)
      requires Refreshed(first, totals, done, full) && NOBODY !in done
      requires id in totals ==> full[id] == Expected(hosts, tunnels, id)
      modifies this
      ensures Refreshed(first, totals, done + {id} - {NOBODY}, full)
    {
      ghost var before := totals;
      RefreshIndexed(id);
      OneMore(first, before, totals, done, id, full);
    }

    /** A refresh of a set of clients: its members as after a full refresh, all others unchanged. */
    method RefreshClientSet(ids: set<ClientID>)
      modifies this
      ensures Refreshed(old(totals), totals, ids - {NOBODY}, FullOf(old(totals), Traffic(hosts, tunnels)))
      ensures totals == Recomputed(old(totals), Clients(ids), Traffic(hosts, tunnels))
    {
      ghost var full := FullOf(totals, Traffic(hosts, tunnels));
      var rest := ids;
      while rest != {}
        invariant rest <= ids
        invariant Refreshed(old(totals), totals, ids - rest - {NOBODY}, full)
        decreases |rest|
      {
        var id := Pick(rest);
        assert ids - (rest - {id}) - {id} - {NOBODY} == ids - rest - {NOBODY};
        rest := rest - {id};
        RefreshMember(id, old(totals), ids - rest - {id} - {NOBODY}, full);
        assert ids - rest - {id} - {NOBODY} + {id} - {NOBODY} == ids - rest - {NOBODY};
      }
      assert ids - {} == ids;
      RefreshedIsMerged(old(totals), totals, ids, full);
    }
  }

  lemma OnlyOne(before: map<ClientID, Flow>, after: map<ClientID, Flow>, id: ClientID, flow: Flow)
    requires id in before && after.Keys == before.Keys && after[id] == flow
    requires forall k :: k in after && k != id ==> after[k] == before[k]
    ensures after == before[id := flow]
  {
  }

  lemma AddedTwice(before: map<ClientID, Flow>, id: ClientID, h: Flow, t: Flow)
    ensures before[id := ZERO][id := Add(ZERO, h)][id := Add(Add(ZERO, h), t)] == before[id := Add(h, t)]
  {
  }

  /** The clients in `ids` have the totals of `full`, all others those they had. */
  ghost predicate Refreshed(before: map<ClientID, Flow>, after: map<ClientID, Flow>, ids: set<ClientID>,
                            full: map<ClientID, Flow>) {
    && after.Keys == before.Keys == full.Keys
    && forall id :: id in after ==> after[id] == if id in ids then full[id] else before[id]
  }

  lemma RefreshedIsMerged(before: map<ClientID, Flow>, after: map<ClientID, Flow>, ids: set<ClientID>,
                          full: map<ClientID, Flow>)
    requires Refreshed(before, after, ids - {NOBODY}, full)
    ensures after == Merged(before, Clients(ids), full)
  {
  }

  lemma OneMore(first: map<ClientID, Flow>, before: map<ClientID, Flow>, after: map<ClientID, Flow>,
                ids: set<ClientID>, id: ClientID, full: map<ClientID, Flow>)
    requires Refreshed(first, before, ids, full) && NOBODY !in ids
    requires after == if id != NOBODY && id in before then before[id := full[id]] else before
    ensures Refreshed(first, after, ids + {id} - {NOBODY}, full)
  {
  }

  // ---------------------------------------------------------------- one refresh at a time

  type Chan = nat

  /**
   The refresh a caller takes part in: its channel, what the caller wanted, and how many refreshes had run by
   then.
   */
  datatype Ticket = Ticket(ch: Chan, want: Want, since: nat)

  /** A caller of a refresh: the next thing it does, or how it returned. */
  datatype Caller =
    | Entering(want: Want)                     // takes the mutex: join, skip or lead
    | Waiting(t: Ticket)                       // until the channel is closed
    | Leading(t: Ticket)                       // runs the refresh
    | Ending(t: Ticket)                        // takes the mutex to end it
    | Closing(t: Ticket, found: Option<Chan>)  // closes the channel it found when ending
    | Served(t: Ticket)
    | Skipped
    | Idle                                     // asked for no client

  /**
   `refreshing` is the channel of the refresh under way, `makers` says who made each channel and `kinds` what
   that caller refreshes; `log` lists the refreshes that have run, in order, and `seen` the traffic that each of
   them found; `marked` is the last full one that ended, by which freshness is judged; `closes` counts closings.
   */
  datatype Service = Service(refreshing: Option<Chan>, marked: Option<Chan>, callers: seq<Caller>, makers: seq<nat>,
                             kinds: seq<Want>, log: seq<Chan>, seen: seq<Traffic>, closes: multiset<Chan>)

  const INIT := Service(None, None, [], [], [], [], [], multiset{})

  /**
   A new call; a step of a caller, with whether the last full refresh is recent enough, and the traffic at that
   moment, which a refresh that runs now finds.
   */
  datatype Step = Call(want: Want) | Advance(i: nat, recent: bool, traffic: Traffic)

  function Lead(s: Service, i: nat, want: Want): Service
    requires i < |s.callers|
  {
    var ch := |s.makers|;
    s.(refreshing := Some(ch), callers := s.callers[i := Leading(Ticket(ch, want, |s.log|))],
       makers := s.makers + [i], kinds := s.kinds + [want])
  }

  function End(s: Service, i: nat, t: Ticket): Service
    requires i < |s.callers|
  {
    s.(refreshing := None, marked := if t.want.All? then Some(t.ch) else s.marked,
       callers := s.callers[i := Closing(t, s.refreshing)])
  }

  function StepOf(s: Service, i: nat, recent: bool, traffic: Traffic): Option<Service>
    requires i < |s.callers|
  {
    match s.callers[i]
    case Entering(want) =>
      if s.refreshing.Some? then
        Some(s.(callers := s.callers[i := Waiting(Ticket(s.refreshing.value, want, |s.log|))]))
      else if want == All(false) && s.marked.Some? && recent then Some(s.(callers := s.callers[i := Skipped]))
      else Some(Lead(s, i, want))
    case Waiting(t) => if t.ch in s.closes then Some(s.(callers := s.callers[i := Served(t)])) else None
    case Leading(t) => Some(s.(log := s.log + [t.ch], seen := s.seen + [traffic], callers := s.callers[i := Ending(t)]))
    case Ending(t) => Some(End(s, i, t))
    case Closing(t, found) =>
      Some(s.(callers := s.callers[i := Served(t)],
              closes := if found.Some? then s.closes + multiset{found.value} else s.closes))
    case _ => None
  }

  function Next(s: Service, t: Step): Option<Service> {
    match t
    case Call(want) => Some(s.(callers := s.callers + [if want == Clients({}) then Idle else Entering(want)]))
    case Advance(i, recent, traffic) => if i < |s.callers| then StepOf(s, i, recent, traffic) else None
  }

  function Run(steps: seq<Step>): Option<Service> {
    if steps == [] then Some(INIT)
    else
      var s := Run(steps[..|steps| - 1]);
      if s.None? then None else Next(s.value, steps[|steps| - 1])
  }

  /** The caller that has to close a channel. */
  predicate Owes(c: Caller, ch: Chan) {
    || (c.Leading? && c.t.ch == ch)
    || (c.Ending? && c.t.ch == ch)
    || (c.Closing? && c.found == Some(ch))
  }

  /** None of the first `since` refreshes was that of `ch`. */
  predicate NotBefore(log: seq<Chan>, since: nat, ch: Chan) {
    since <= |log| && ch !in log[..since]
  }

  /** Caller `i` made the channel of its ticket, for what it wanted, and nobody has closed it. */
  predicate Made(s: Service, i: nat, t: Ticket) {
    t.ch < |s.makers| == |s.kinds| && s.makers[t.ch] == i && s.kinds[t.ch] == t.want && s.closes[t.ch] == 0
  }

  predicate CallerOk(s: Service, i: nat, c: Caller) {
    match c
    case Waiting(t) => t.ch < |s.makers| && s.makers[t.ch] != i && t.since <= |s.log|
    case Leading(t) => Made(s, i, t) && s.refreshing == Some(t.ch) && t.ch !in s.log && t.since <= |s.log|
    case Ending(t) => Made(s, i, t) && s.refreshing == Some(t.ch) && t.ch in s.log && NotBefore(s.log, t.since, t.ch)
    case Closing(t, found) =>
      Made(s, i, t) && found == Some(t.ch) && s.refreshing != found && t.ch in s.log && NotBefore(s.log, t.since, t.ch)
    case Served(t) => t.ch < |s.makers| && t.ch in s.log && t.since <= |s.log| && ServedBy(s, i, t)
    case Skipped => s.marked.Some?
    case _ => true
  }

  /** A caller served by its own refresh got what it wanted, run after it entered. */
  predicate ServedBy(s: Service, i: nat, t: Ticket)
    requires t.ch < |s.makers|
  {
    s.makers[t.ch] == i ==> t.ch < |s.kinds| && s.kinds[t.ch] == t.want && NotBefore(s.log, t.since, t.ch)
  }

  /** A channel was closed once, its refresh having run, or its maker still owes the closing. */
  predicate ChanOk(s: Service, ch: Chan)
    requires ch < |s.makers|
  {
    || (s.closes[ch] == 1 && ch in s.log)
    || (s.closes[ch] == 0 && s.makers[ch] < |s.callers| && Owes(s.callers[s.makers[ch]], ch))
  }

  /** Each refresh ran once. */
  predicate LogOk(s: Service) {
    && (forall k :: 0 <= k < |s.log| ==> s.log[k] < |s.makers|)
    && (forall j, k :: 0 <= j < k < |s.log| ==> s.log[j] != s.log[k])
  }

  predicate MarkedOk(s: Service) {
    s.marked.Some? ==> s.marked.value in s.log && s.marked.value < |s.kinds| && s.kinds[s.marked.value].All?
  }

  predicate RefreshingOk(s: Service) {
    s.refreshing.Some? ==> s.refreshing.value < |s.makers| && s.closes[s.refreshing.value] == 0
  }

  predicate ChannelsKnown(s: Service) {
    && (forall ch :: ch in s.closes ==> ch < |s.makers|)
    && (forall ch :: 0 <= ch < |s.makers| ==> s.makers[ch] < |s.callers|)
  }

  predicate Inv(s: Service) {
    && |s.kinds| == |s.makers| && |s.seen| == |s.log| && LogOk(s) && MarkedOk(s) && RefreshingOk(s)
    && (forall i {:trigger s.callers[i]} :: 0 <= i < |s.callers| ==> CallerOk(s, i, s.callers[i]))
    && (forall ch {:trigger ChanOk(s, ch)} :: 0 <= ch < |s.makers| ==> ChanOk(s, ch))
    && ChannelsKnown(s)
  }

  lemma LogGrows(log: seq<Chan>, ch: Chan, since: nat, of: Chan)
    requires since <= |log|
    ensures NotBefore(log + [ch], since, of) == NotBefore(log, since, of)
  {
    assert (log + [ch])[..since] == log[..since];
  }

  lemma StepKeepsOwn(s: Service, i: nat, recent: bool, traffic: Traffic)
    requires Inv(s) && i < |s.callers| && StepOf(s, i, recent, traffic).Some?
    ensures var s1 := StepOf(s, i, recent, traffic).value; CallerOk(s1, i, s1.callers[i])
  {
    assert CallerOk(s, i, s.callers[i]);
    match s.callers[i]
    case Entering(_) => if s.refreshing.Some? { assert ChanOk(s, s.refreshing.value); }
    case Waiting(t) => assert ChanOk(s, t.ch);
    case Leading(t) => LogGrows(s.log, t.ch, t.since, t.ch);
    case _ =>
  }

  /** The refresh of caller `i` runs. */
  lemma RunKeepsOther(s: Service, i: nat, traffic: Traffic, j: nat)
    requires Inv(s) && i < |s.callers| && s.callers[i].Leading? && j < |s.callers| && j != i
    ensures var s1 := StepOf(s, i, false, traffic).value; CallerOk(s1, j, s1.callers[j])
  {
    assert CallerOk(s, i, s.callers[i]) && CallerOk(s, j, s.callers[j]);
    if s.callers[j].Ending? || s.callers[j].Closing? || s.callers[j].Served? {
      LogGrows(s.log, s.callers[i].t.ch, s.callers[j].t.since, s.callers[j].t.ch);
    }
  }

  lemma StepKeepsOther(s: Service, i: nat, recent: bool, traffic: Traffic, j: nat)
    requires Inv(s) && i < |s.callers| && StepOf(s, i, recent, traffic).Some? && j < |s.callers| && j != i
    ensures var s1 := StepOf(s, i, recent, traffic).value; CallerOk(s1, j, s1.callers[j])
  {
    assert CallerOk(s, i, s.callers[i]) && CallerOk(s, j, s.callers[j]);
    if s.callers[i].Leading? { RunKeepsOther(s, i, traffic, j); }
  }

  lemma StepKeepsChannel(s: Service, i: nat, recent: bool, traffic: Traffic, ch: Chan)
    requires Inv(s) && i < |s.callers| && StepOf(s, i, recent, traffic).Some?
    requires ch < |StepOf(s, i, recent, traffic).value.makers|
    ensures ChanOk(StepOf(s, i, recent, traffic).value, ch)
  {
    assert CallerOk(s, i, s.callers[i]);
    if ch < |s.makers| { assert ChanOk(s, ch); }
  }

  lemma StepKeepsLog(s: Service, i: nat, recent: bool, traffic: Traffic)
    requires Inv(s) && i < |s.callers| && StepOf(s, i, recent, traffic).Some?
    ensures var s1 := StepOf(s, i, recent, traffic).value;
            |s1.callers| == |s.callers| && |s1.kinds| == |s1.makers| && |s1.seen| == |s1.log| && LogOk(s1)
  {
    assert CallerOk(s, i, s.callers[i]);
  }

  lemma StepKeepsRest(s: Service, i: nat, recent: bool, traffic: Traffic)
    requires Inv(s) && i < |s.callers| && StepOf(s, i, recent, traffic).Some?
    ensures var s1 := StepOf(s, i, recent, traffic).value; MarkedOk(s1) && RefreshingOk(s1) && ChannelsKnown(s1)
  {
    assert CallerOk(s, i, s.callers[i]);
  }

  lemma StepKeepsInv(s: Service, i: nat, recent: bool, traffic: Traffic)
    requires Inv(s) && i < |s.callers| && StepOf(s, i, recent, traffic).Some?
    ensures Inv(StepOf(s, i, recent, traffic).value)
  {
    var s1 := StepOf(s, i, recent, traffic).value;
    StepKeepsLog(s, i, recent, traffic);
    StepKeepsRest(s, i, recent, traffic);
    forall j | 0 <= j < |s1.callers| ensures CallerOk(s1, j, s1.callers[j]) {
      if j == i { StepKeepsOwn(s, i, recent, traffic); } else { StepKeepsOther(s, i, recent, traffic, j); }
    }
    forall ch | 0 <= ch < |s1.makers| ensures ChanOk(s1, ch) { StepKeepsChannel(s, i, recent, traffic, ch); }
  }

  lemma NextKeepsInv(s: Service, t: Step)
    requires Inv(s) && Next(s, t).Some?
    ensures Inv(Next(s, t).value)
  {
    match t
    case Call(want) =>
      var s1 := Next(s, t).value;
      forall j | 0 <= j < |s.callers| ensures CallerOk(s1, j, s1.callers[j]) { assert CallerOk(s, j, s.callers[j]); }
      forall ch | 0 <= ch < |s1.makers| ensures ChanOk(s1, ch) { assert ChanOk(s, ch); }
    case Advance(i, recent, traffic) =>
      StepKeepsInv(s, i, recent, traffic);
  }

  lemma {:induction false} RunsKeepInv(steps: seq<Step>)
    requires Run(steps).Some?
    ensures Inv(Run(steps).value)
  {
    if steps != [] {
      RunsKeepInv(steps[..|steps| - 1]);
      NextKeepsInv(Run(steps[..|steps| - 1]).value, steps[|steps| - 1]);
    }
  }

  /** Whether a caller runs or ends a refresh. */
  predicate Leads(c: Caller) {
    c.Leading? || c.Ending?
  }

  /** At most one caller leads a refresh at any time, and no channel is closed twice. */
  lemma OneLeader(steps: seq<Step>, i: nat, j: nat, ch: Chan)
    requires Run(steps).Some?
    ensures var s := Run(steps).value;
            && (i < |s.callers| && j < |s.callers| && Leads(s.callers[i]) && Leads(s.callers[j]) ==> i == j)
            && s.closes[ch] <= 1
  {
    RunsKeepInv(steps);
    var s := Run(steps).value;
    if i < |s.callers| && j < |s.callers| {
      assert CallerOk(s, i, s.callers[i]) && CallerOk(s, j, s.callers[j]);
    }
    if ch in s.closes { assert ChanOk(s, ch); }
  }

  /** The next step of caller `j`, if it can take one. */
  function Onward(s: Service, j: nat): (r: Service)
    requires j < |s.callers|
    ensures |r.callers| == |s.callers|
  {
    var r := StepOf(s, j, false, NO_TRAFFIC);
    if r.Some? then r.value else s
  }

  /** The steps that caller `j` has left close the channel. */
  predicate Closes(s: Service, j: nat, ch: Chan)
    requires j < |s.callers|
  {
    var s1 := if s.callers[j].Leading? then Onward(s, j) else s;
    var s2 := if s1.callers[j].Ending? then Onward(s1, j) else s1;
    Onward(s2, j).closes == s.closes + multiset{ch}
  }

  /**
   A waiting caller's channel is closed, or there is a caller that will close it by at most three steps of its
   own.
   */
  lemma WaiterIsServed(steps: seq<Step>, i: nat)
    requires Run(steps).Some? && i < |Run(steps).value.callers| && Run(steps).value.callers[i].Waiting?
    ensures var s := Run(steps).value; var ch := s.callers[i].t.ch;
            s.closes[ch] == 1 || exists j :: 0 <= j < |s.callers| && Closes(s, j, ch)
  {
    RunsKeepInv(steps);
    var s := Run(steps).value;
    var ch := s.callers[i].t.ch;
    assert CallerOk(s, i, s.callers[i]) && ChanOk(s, ch);
    if s.closes[ch] == 0 {
      var j := s.makers[ch];
      assert CallerOk(s, j, s.callers[j]);
      assert Closes(s, j, ch);
    }
  }

  // ---------------------------------------------------------------- what a caller gets

  /** The refresh of `ch` recomputed a client after `since` refreshes. */
  predicate RefreshedSince(s: Service, since: nat, ch: Chan, id: ClientID) {
    exists k :: since <= k < |s.log| && s.log[k] == ch && ch < |s.kinds| && Includes(s.kinds[ch], id)
  }

  /**
   The refresh that a caller joined or led recomputed a client after the caller entered, exactly if that refresh
   had not run yet when the caller entered, and it is a full one or one of a set with that client. A caller that
   led got all that it wanted.
   */
  lemma ServedIff(steps: seq<Step>, i: nat, id: ClientID)
    requires Run(steps).Some? && i < |Run(steps).value.callers| && Run(steps).value.callers[i].Served?
    ensures var s := Run(steps).value; var t := s.callers[i].t;
            && t.ch < |s.kinds| == |s.makers| && t.since <= |s.log|
            && (RefreshedSince(s, t.since, t.ch, id) <==> t.ch !in s.log[..t.since] && Includes(s.kinds[t.ch], id))
            && (s.makers[t.ch] == i && Includes(t.want, id) ==> RefreshedSince(s, t.since, t.ch, id))
  {
    RunsKeepInv(steps);
    var s := Run(steps).value;
    var t := s.callers[i].t;
    assert CallerOk(s, i, s.callers[i]);
    var k :| 0 <= k < |s.log| && s.log[k] == t.ch;
    if t.ch in s.log[..t.since] {
      var j :| 0 <= j < t.since && s.log[j] == t.ch;
    }
  }

  /** The log is about known refreshes, with what each found. */
  predicate Logged(s: Service) {
    |s.seen| == |s.log| && forall k :: 0 <= k < |s.log| ==> s.log[k] < |s.kinds|
  }

  /** What each refresh of the log gives a client, if it includes it. */
  function Given(s: Service, id: ClientID): (vs: seq<Option<Flow>>)
    requires Logged(s)
    ensures |vs| == |s.log|
  {
    seq(|s.log|, k requires 0 <= k < |s.log| =>
      if Includes(s.kinds[s.log[k]], id) then Some(Expected(s.seen[k].hosts, s.seen[k].tunnels, id)) else None)
  }

  /** The last of the first `n` values that is there, or `start`. */
  function Latest(start: Flow, vs: seq<Option<Flow>>, n: nat): Flow
    requires n <= |vs|
  {
    if n == 0 then start else if vs[n - 1].Some? then vs[n - 1].value else Latest(start, vs, n - 1)
  }

  /** It is one of those from `from` on, or what it was before them if none of them is there. */
  lemma {:induction false} LatestIs(start: Flow, vs: seq<Option<Flow>>, from: nat, n: nat) returns (k: Option<nat>)
    requires from <= n <= |vs|
    ensures k.None? ==> (forall j :: from <= j < n ==> vs[j].None?) && Latest(start, vs, n) == Latest(start, vs, from)
    ensures k.Some? ==> from <= k.value < n && vs[k.value].Some? && Latest(start, vs, n) == vs[k.value].value
    decreases n
  {
    k := None;
    if from < n {
      if vs[n - 1].Some? {
        k := Some(n - 1);
      } else {
        k := LatestIs(start, vs, from, n - 1);
      }
    }
  }

  lemma RecomputedAt(totals: map<ClientID, Flow>, w: Want, t: Traffic, id: ClientID)
    requires id in totals
    ensures id in Recomputed(totals, w, t)
    ensures Recomputed(totals, w, t)[id] == if Includes(w, id) then Expected(t.hosts, t.tunnels, id) else totals[id]
  {
  }

  /** The totals after the first `n` refreshes of the log: each client's are of the last of them that included it. */
  function Totals(first: map<ClientID, Flow>, s: Service, n: nat): map<ClientID, Flow>
    requires Logged(s) && n <= |s.log|
  {
    map id | id in first :: Latest(first[id], Given(s, id), n)
  }

  lemma TotalsFollowAt(first: map<ClientID, Flow>, s: Service, n: nat, id: ClientID)
    requires Logged(s) && n < |s.log| && id in first
    ensures Totals(first, s, n + 1)[id] ==
            if Includes(s.kinds[s.log[n]], id) then Expected(s.seen[n].hosts, s.seen[n].tunnels, id)
            else Totals(first, s, n)[id]
  {
    assert Given(s, id)[n].Some? <==> Includes(s.kinds[s.log[n]], id);
  }

  /** These are the totals that the refreshes make of `first`, one after the other. */
  lemma TotalsFollow(first: map<ClientID, Flow>, s: Service, n: nat)
    requires Logged(s) && n < |s.log|
    ensures Totals(first, s, 0) == first
    ensures Totals(first, s, n + 1) == Recomputed(Totals(first, s, n), s.kinds[s.log[n]], s.seen[n])
  {
    var (after, made) := (Totals(first, s, n + 1), Recomputed(Totals(first, s, n), s.kinds[s.log[n]], s.seen[n]));
    assert after.Keys == first.Keys == made.Keys;
    forall id | id in first ensures after[id] == made[id] {
      TotalsFollowAt(first, s, n, id);
      RecomputedAt(Totals(first, s, n), s.kinds[s.log[n]], s.seen[n], id);
    }
  }

  predicate NoneIncludes(s: Service, from: nat, n: nat, id: ClientID)
    requires Logged(s) && n <= |s.log|
  {
    forall k :: from <= k < n ==> !Includes(s.kinds[s.log[k]], id)
  }

  /**
   Where the refresh that a caller joined or led recomputed a client after the caller entered, the client's
   totals are those of the traffic at some moment since then. Where no refresh that ran since included the
   client, they are what they were when the caller entered.
   */
  lemma ServedTotals(first: map<ClientID, Flow>, steps: seq<Step>, i: nat, id: ClientID) returns (k: Option<nat>)
    requires Run(steps).Some? && i < |Run(steps).value.callers| && Run(steps).value.callers[i].Served? && id in first
    ensures var s := Run(steps).value; var t := s.callers[i].t;
            && Logged(s) && t.since <= |s.log|
            && (RefreshedSince(s, t.since, t.ch, id) ==> k.Some?)
            && (k.Some? ==> t.since <= k.value < |s.log| && Shows(Totals(first, s, |s.log|), s.seen[k.value], id))
            && (k.None? ==>
                  && NoneIncludes(s, t.since, |s.log|, id)
                  && Totals(first, s, |s.log|)[id] == Totals(first, s, t.since)[id])
  {
    RunsKeepInv(steps);
    var s := Run(steps).value;
    var since := s.callers[i].t.since;
    assert CallerOk(s, i, s.callers[i]);
    k := LatestIs(first[id], Given(s, id), since, |s.log|);
    assert forall j :: since <= j < |s.log| ==> (Given(s, id)[j].Some? <==> Includes(s.kinds[s.log[j]], id));
  }

  /** The client's totals are those of that traffic. */
  predicate Shows(totals: map<ClientID, Flow>, t: Traffic, id: ClientID) {
    id in totals && totals[id] == Expected(t.hosts, t.tunnels, id)
  }

  /** Nobody skips before a full refresh has run and ended. */
  lemma SkipNeedsFull(steps: seq<Step>, i: nat)
    requires Run(steps).Some? && i < |Run(steps).value.callers| && Run(steps).value.callers[i] == Skipped
    ensures var s := Run(steps).value;
            exists k :: 0 <= k < |s.log| && s.log[k] < |s.kinds| && s.kinds[s.log[k]].All?
  {
    RunsKeepInv(steps);
    var s := Run(steps).value;
    assert CallerOk(s, i, s.callers[i]);
    var k :| 0 <= k < |s.log| && s.log[k] == s.marked.value;
  }

  // ---------------------------------------------------------------- callers that get less than they asked for

  lemma Then(steps: seq<Step>, t: Step)
    requires Run(steps).Some?
    ensures Run(steps + [t]) == Next(Run(steps).value, t)
  {
    assert (steps + [t])[..|steps|] == steps;
  }

  const NO_TRAFFIC := Traffic([], [])

  function Go(i: nat): Step {
    Advance(i, false, NO_TRAFFIC)
  }

  /** One caller leads for `first`, and a second enters before that refresh has run, or after. */
  function Join(first: Want, second: Want, late: bool): seq<Step> {
    [Call(first), Call(second), Go(0)] +
    if late then [Go(0), Go(1)] else [Go(1), Go(0)]
  }

  function Released(first: Want, second: Want, late: bool): seq<Step> {
    Join(first, second, late) + [Go(0), Go(0), Go(1)]
  }

  lemma FirstLeads(first: Want, second: Want)
    requires first != Clients({}) && second != Clients({})
    ensures Run([Call(first), Call(second), Go(0)]) ==
            Some(Service(Some(0), None, [Leading(Ticket(0, first, 0)), Entering(second)], [0], [first], [], [],
                         multiset{}))
  {
    var calls := [Call(first), Call(second)];
    Then([], Call(first));
    Then([Call(first)], Call(second));
    Then(calls, Go(0));
    assert [] + [Call(first)] == [Call(first)] && [Call(first)] + [Call(second)] == calls;
    assert calls + [Go(0)] == [Call(first), Call(second), Go(0)];
    assert Run(calls).value.callers == [Entering(first), Entering(second)];
    var s := Run(calls + [Go(0)]).value;
    assert s.callers == [Leading(Ticket(0, first, 0)), Entering(second)] && s.makers == [0] && s.kinds == [first];
  }

  lemma Joins(first: Want, second: Want, late: bool)
    requires first != Clients({}) && second != Clients({})
    ensures Run(Join(first, second, late)) ==
            Some(Service(Some(0), None,
                         [Ending(Ticket(0, first, 0)), Waiting(Ticket(0, second, if late then 1 else 0))],
                         [0], [first], [0], [NO_TRAFFIC], multiset{}))
  {
    var led := [Call(first), Call(second), Go(0)];
    var t := Ticket(0, first, 0);
    FirstLeads(first, second);
    if late {
      Then(led, Go(0));
      Then(led + [Go(0)], Go(1));
      assert Run(led + [Go(0)]).value.callers == [Ending(t), Entering(second)];
      assert Join(first, second, late) == led + [Go(0)] + [Go(1)];
    } else {
      Then(led, Go(1));
      Then(led + [Go(1)], Go(0));
      assert Run(led + [Go(1)]).value.callers == [Leading(t), Waiting(Ticket(0, second, 0))];
      assert Join(first, second, late) == led + [Go(1)] + [Go(0)];
    }
    var s := Run(Join(first, second, late)).value;
    assert s.callers == [Ending(t), Waiting(Ticket(0, second, if late then 1 else 0))];
    assert s.log == [0] && s.seen == [NO_TRAFFIC];
  }

  /**
   Whatever the two ask for, the second caller can be released; it goes without a client that the first did not
   ask for, also when it wanted a full refresh, and without any if it came after the first had run.
   */
  lemma ReleasedIsReachable(first: Want, second: Want, late: bool, id: ClientID)
    requires first != Clients({}) && second != Clients({})
    ensures var s := Run(Released(first, second, late));
            && s.Some? && |s.value.callers| == 2
            && s.value.callers[1] == Served(Ticket(0, second, if late then 1 else 0))
            && (RefreshedSince(s.value, if late then 1 else 0, 0, id) <==> !late && Includes(first, id))
  {
    Joins(first, second, late);
    var join := Join(first, second, late);
    Then(join, Go(0));
    Then(join + [Go(0)], Go(0));
    Then(join + [Go(0)] + [Go(0)], Go(1));
    assert Released(first, second, late) == join + [Go(0)] + [Go(0)] + [Go(1)];
    ServedIff(Released(first, second, late), 1, id);
  }
}
