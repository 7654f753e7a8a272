/**
 The status protocol of a new task (bridge/config.go against client/control.go): the bridge answers a
 task with one status per port it expands to, and the client works out on its own how many to read.
 Comma lists are given by what each item is after trimming.
 */
module ConfigStatus {
  import opened Wrappers

  /** Blank: nothing; Plain: a port; Span: two ports with a dash; Other: anything else, which may be a target. */
  datatype Item = Blank | Plain(port: nat) | Span(first: nat, last: nat) | Other

  datatype Mode = Tcp | Udp | Secret | P2p | File | OtherMode

  /** The port list of a task, and its target list, which the message may leave out. */
  datatype Task = Task(mode: Mode, ports: seq<Item>, target: Option<seq<Item>>) {

    /** The target list, empty if it was left out. */
    function List(): seq<Item> {
      if target.Some? then target.value else []
    }
  }

  function Upto(a: nat, b: nat): set<nat>
    decreases b - a
  {
    if a > b then {} else {a} + Upto(a + 1, b)
  }

  function Between(a: nat, b: nat): set<nat> {
    if a <= b then Upto(a, b) else Upto(b, a)
  }

  function PortsOf(i: Item): set<nat> {
    match i
    case Plain(p) => {p}
    case Span(a, b) => Between(a, b)
    case _ => {}
  }

  /** GetPorts: the set of ports that a comma list names. */
  function GetPorts(items: seq<Item>): set<nat> {
    if items == [] then {} else PortsOf(items[0]) + GetPorts(items[1..])
  }

  /** splitConfigTaskTargets: the items that are not blank. */
  function Targets(items: seq<Item>): seq<Item> {
    if items == [] then [] else (if items[0] == Blank then [] else [items[0]]) + Targets(items[1..])
  }

  predicate NeedsTargets(mode: Mode) {
    mode == Tcp || mode == Udp
  }

  /** expandConfigTaskPorts: how many variants a task expands to, or 0 if it cannot be expanded. */
  function Expanded(t: Task): nat {
    var p := |GetPorts(t.ports)|;
    if p > 1 && NeedsTargets(t.mode) && p != |Targets(t.List())| then 0
    else if t.mode == Secret || t.mode == P2p then p + 1
    else if t.mode == File && p == 0 then 1
    else p
  }

  /** taskAddStatusCount: how many statuses the client reads. */
  function ReadCount(t: Task): nat {
    var p := |GetPorts(t.ports)|;
    if t.mode == Secret || t.mode == P2p then 1
    else if p == 0 then 1
    else if p > 1 && NeedsTargets(t.mode) && |GetPorts(t.List())| != p then 1
    else p
  }

  /** How many statuses the bridge writes when it keeps the session open. */
  function WriteCount(t: Task): nat {
    if Expanded(t) == 0 then 1 else Expanded(t)
  }

  /**
   A secret or p2p task names no port, and a tcp or udp task with several ports has that many targets exactly
   when its target list names that many ports.
   */
  predicate Agrees(t: Task) {
    && (t.mode == Secret || t.mode == P2p ==> GetPorts(t.ports) == {})
    && (NeedsTargets(t.mode) && |GetPorts(t.ports)| > 1 ==>
          (|Targets(t.List())| == |GetPorts(t.ports)| <==> |GetPorts(t.List())| == |GetPorts(t.ports)|))
  }

  /** The two counts agree if and only if the task meets that condition. */
  lemma CountsAgreeIff(t: Task)
    ensures WriteCount(t) == ReadCount(t) <==> Agrees(t)
  {
  }

  /** A comma list of distinct plain ports, possibly with blank items. */
  predicate DistinctPorts(items: seq<Item>) {
    && (forall i :: 0 <= i < |items| ==> items[i].Blank? || items[i].Plain?)
    && (forall i, j :: 0 <= i < j < |items| && items[i].Plain? ==> items[j] != items[i])
  }

  /** Such a list names as many ports as it has targets. */
  lemma {:induction false} DistinctPortsCount(items: seq<Item>)
    requires DistinctPorts(items)
    ensures |GetPorts(items)| == |Targets(items)|
  {
    if items != [] {
      var rest := items[1..];
      DistinctPortsCount(rest);
      if items[0].Plain? {
        forall p | p in GetPorts(rest) ensures p != items[0].port { var _ := ItemOf(rest, p); }
        assert GetPorts(items) == {items[0].port} + GetPorts(rest);
      } else {
        assert GetPorts(items) == GetPorts(rest);
      }
    }
  }

  lemma {:induction false} ItemOf(items: seq<Item>, p: nat) returns (i: nat)
    requires p in GetPorts(items)
    ensures i < |items| && p in PortsOf(items[i])
  {
    if p in PortsOf(items[0]) {
      i := 0;
    } else {
      var k := ItemOf(items[1..], p);
      i := k + 1;
    }
  }

  /**
   Agreement for tcp and udp tasks with distinct plain ports as targets, secret and p2p tasks without ports, and
   all other modes.
   */
  lemma CountsAgree(t: Task)
    requires NeedsTargets(t.mode) ==> DistinctPorts(t.List())
    requires t.mode == Secret || t.mode == P2p ==> GetPorts(t.ports) == {}
    ensures Agrees(t) && WriteCount(t) == ReadCount(t)
  {
    if NeedsTargets(t.mode) { DistinctPortsCount(t.List()); }
  }

  // ---------------------------------------------------------------- a run of the bridge

  /** What becomes of a variant: published, not published, or its file runtime cannot be attached. */
  datatype Outcome = Published | Refused | NoFileRuntime

  /** The first variant that is not published, or `n`. */
  function FirstFailure(outcome: nat -> Outcome, i: nat, n: nat): (f: nat)
    requires i <= n
    ensures i <= f <= n
    ensures forall k :: i <= k < f ==> outcome(k) == Published
    ensures f < n ==> outcome(f) != Published
    decreases n - i
  {
    if i == n || outcome(i) != Published then i else FirstFailure(outcome, i + 1, n)
  }

  /** The variant at which building the tunnel indexes past the end of the targets; none if it is `variants` or more. */
  function PanicAt(variants: nat, targets: nat): nat {
    if variants == 1 then variants else targets
  }

  /** The handling gets to a variant without a target: no earlier one fails, and the earlier statuses can be written. */
  predicate IndexPanics(t: Task, outcome: nat -> Outcome, limit: nat) {
    var n := Expanded(t);
    var g := PanicAt(n, |Targets(t.List())|);
    n > 0 && g < n && g <= FirstFailure(outcome, 0, n) && g <= limit
  }

  /** A file task of one variant, whose target was left out: attaching its file runtime writes to a target. */
  predicate NilTarget(t: Task) {
    t.mode == File && t.target.None? && Expanded(t) == 1
  }

  /** A task's handling panics, for one reason or the other. */
  predicate Panics(t: Task, outcome: nat -> Outcome, limit: nat) {
    IndexPanics(t, outcome, limit) || (NilTarget(t) && outcome(0) != NoFileRuntime)
  }

  /**
   A secret or p2p task with a port and no more targets than ports, one of another mode with several ports and
   fewer targets, or a file task with at most one port whose target was left out.
   */
  predicate LacksTarget(t: Task) {
    var p, targets := |GetPorts(t.ports)|, |Targets(t.List())|;
    match t.mode
    case Tcp => false
    case Udp => false
    case Secret => p >= 1 && targets <= p
    case P2p => p >= 1 && targets <= p
    case File => if p > 1 then targets < p else t.target.None?
    case OtherMode => p > 1 && targets < p
  }

  /** Exactly such tasks can panic, and they do when every variant before is published and every status written. */
  lemma PanicsIff(t: Task)
    ensures (exists outcome: nat -> Outcome, limit: nat :: Panics(t, outcome, limit)) <==> LacksTarget(t)
    ensures LacksTarget(t) ==> Panics(t, _ => Published, |Targets(t.List())|)
  {
    if LacksTarget(t) { LackingPanics(t); }
    if outcome: nat -> Outcome, limit: nat :| Panics(t, outcome, limit) { PanickingLacks(t, outcome, limit); }
  }

  lemma LackingPanics(t: Task)
    requires LacksTarget(t)
    ensures Panics(t, _ => Published, |Targets(t.List())|)
  {
  }

  lemma PanickingLacks(t: Task, outcome: nat -> Outcome, limit: nat)
    requires Panics(t, outcome, limit)
    ensures LacksTarget(t)
  {
  }

  /** For example a secret task with one port and one target. */
  lemma SecretTaskPanics(port: nat, target: nat)
    ensures Panics(Task(Secret, [Plain(port)], Some([Plain(target)])), _ => Published, 1)
  {
    var t := Task(Secret, [Plain(port)], Some([Plain(target)]));
    assert GetPorts(t.ports) == {port} + GetPorts([]);
    assert Targets(t.List()) == [Plain(target)] + Targets([]);
  }

  /** Or a file task without ports and without a target, unless its file runtime cannot be attached. */
  lemma FileTaskPanicsIff(outcome: nat -> Outcome, limit: nat)
    ensures Panics(Task(File, [], None), outcome, limit) <==> outcome(0) != NoFileRuntime
  {
    assert GetPorts([]) == {};
  }

  /** The counts differ, without any panic, for a secret task with one port and two targets. */
  lemma SecretTaskDisagrees(port: nat)
    ensures var t := Task(Secret, [Plain(port)], Some([Other, Other]));
            !Agrees(t) && !LacksTarget(t) && WriteCount(t) == 2 && ReadCount(t) == 1
  {
    assert GetPorts([Plain(port)]) == {port} + GetPorts([]);
    assert Targets([Other, Other]) == [Other] + ([Other] + Targets([]));
  }

  datatype VariantStatus = Panic | StopRemoveClient | ContinueAfterFailure | Continue

  /** handleConfigTaskVariant up to its write: building the tunnel, attaching a file runtime and publishing. */
  function HandleVariant(t: Task, outcome: Outcome, i: nat): VariantStatus {
    if i >= PanicAt(Expanded(t), |Targets(t.List())|) then Panic
    else if outcome == NoFileRuntime then StopRemoveClient
    else if NilTarget(t) then Panic
    else if outcome == Refused then ContinueAfterFailure
    else Continue
  }

  /** How many variants were published before the first that was not. */
  function PublishedFirst(t: Task, outcome: nat -> Outcome): nat {
    FirstFailure(outcome, 0, Expanded(t))
  }

  /** The statuses of an open session: `f` trues, then falses, one per variant, or one false if there is none. */
  predicate Written(t: Task, statuses: seq<bool>, f: nat) {
    |statuses| == WriteCount(t) && forall i :: 0 <= i < |statuses| ==> (statuses[i] <==> i < f && Expanded(t) > 0)
  }

  /** The connection to the client: the first `limit` writes succeed. */
  class Client {
    var statuses: seq<bool>
    const limit: nat

    constructor (limit: nat)
      ensures statuses == [] && this.limit == limit
    {
      statuses, this.limit := [], limit;
    }

    method WriteStatus(s: bool) returns (ok: bool)
      modifies this
      ensures ok == (|old(statuses)| < limit)
      ensures statuses == old(statuses) + if ok then [s] else []
    {
      ok := |statuses| < limit;
      if ok {
        statuses := statuses + [s];
      }
    }

    /** writeRemainingTaskAddFails. */
    method WriteRemaining(count: nat) returns (ok: bool)
      modifies this
      ensures ok ==> |statuses| == |old(statuses)| + count && old(statuses) <= statuses
      ensures ok ==> forall k :: |old(statuses)| <= k < |statuses| ==> !statuses[k]
      ensures |old(statuses)| <= limit ==> (ok <==> |old(statuses)| + count <= limit)
    {
      var i := 0;
      while i < count
        invariant 0 <= i <= count && |statuses| == |old(statuses)| + i && old(statuses) <= statuses
        invariant forall k :: |old(statuses)| <= k < |statuses| ==> !statuses[k]
        invariant |old(statuses)| <= limit ==> |statuses| <= limit
      {
        ok := WriteStatus(false);
        if !ok {
          return false;
        }
        i := i + 1;
      }
      return true;
    }

    /**
     handleConfigNewTask, once a task has been read. The session stays open exactly if nothing panics, every
     write succeeds, and the first failure, if any, is a refusal; then there is one status per variant, a run of
     trues followed by falses.
     */
    method HandleNewTask(t: Task, outcome: nat -> Outcome) returns (open: bool, panicked: bool)
      requires statuses == []
      modifies this
      ensures panicked <==> Panics(t, outcome, limit)
      ensures open ==> Written(t, statuses, PublishedFirst(t, outcome))
      ensures Expanded(t) == 0 ==> (open <==> limit >= 1)
      ensures Expanded(t) > 0 ==>
                var f := PublishedFirst(t, outcome);
                open <==> limit >= Expanded(t) && !panicked && (f == Expanded(t) || outcome(f) == Refused)
    {
      var n := Expanded(t);
      open, panicked := false, false;
      if n == 0 {
        open := WriteStatus(false);
        return;
      }
      open, panicked := HandleVariants(t, outcome, n);
    }

    /** The loop over the variants of a task that can be expanded. */
    method HandleVariants(t: Task, outcome: nat -> Outcome, n: nat) returns (open: bool, panicked: bool)
      requires statuses == [] && n == Expanded(t) > 0
      modifies this
      ensures panicked <==> Panics(t, outcome, limit)
      ensures open ==> Written(t, statuses, PublishedFirst(t, outcome))
      ensures var f := PublishedFirst(t, outcome);
              open <==> limit >= n && !panicked && (f == n || outcome(f) == Refused)
    {
      open, panicked := false, false;
      ghost var g := PanicAt(n, |Targets(t.List())|);
      var i := 0;
      while i < n
        invariant 0 <= i <= PublishedFirst(t, outcome) && (g >= n || i <= g) && (i > 0 ==> !NilTarget(t))
        invariant |statuses| == i <= limit && forall k :: 0 <= k < i ==> statuses[k]
      {
        match HandleVariant(t, outcome(i), i) {
          case Panic =>
            panicked := true;
            return;
          case StopRemoveClient =>
            var _ := WriteRemaining(n - i);
            return;
          case ContinueAfterFailure =>
            open := WriteRemaining(n - i);
            return;
          case Continue =>
            var ok := WriteStatus(true);
            if !ok {
              return;
            }
        }
        i := i + 1;
      }
      open := true;
    }
  }

  // ---------------------------------------------------------------- the client's reads

  /** readTaskAddStatuses over the statuses that arrive; a status that does not arrive reads as a failure. */
  method ReadStatuses(t: Task, incoming: seq<bool>) returns (success: bool, rest: seq<bool>)
    ensures ReadCount(t) <= |incoming| ==> rest == incoming[ReadCount(t)..]
    ensures success <==> ReadCount(t) <= |incoming| && forall i :: 0 <= i < ReadCount(t) ==> incoming[i]
  {
    var count := ReadCount(t);
    success := true;
    rest := incoming;
    for i := 0 to count
      invariant |incoming| >= i ==> rest == incoming[i..]
      invariant |incoming| < i ==> rest == []
      invariant success <==> i <= |incoming| && forall k :: 0 <= k < i ==> incoming[k]
    {
      if rest == [] || !rest[0] {
        success := false;
      }
      rest := if rest == [] then [] else rest[1..];
    }
  }

  /**
   The bridge handles a task and the client reads its statuses. If the session stays open, every status is read
   and none is missing exactly for the tasks that agree; and the client reports success exactly if as many
   variants as it reads statuses were published, which for such a task means all of them.
   */
  method Exchange(t: Task, outcome: nat -> Outcome, limit: nat)
    returns (open: bool, success: bool, sent: nat, rest: seq<bool>)
    ensures open ==> (rest == [] && sent == ReadCount(t) <==> Agrees(t))
    ensures open ==> (success <==> Expanded(t) > 0 && ReadCount(t) <= PublishedFirst(t, outcome))
    ensures open && Agrees(t) ==> (success <==> Expanded(t) > 0 && PublishedFirst(t, outcome) == Expanded(t))
  {
    var c := new Client(limit);
    var panicked;
    open, panicked := c.HandleNewTask(t, outcome);
    sent := |c.statuses|;
    success, rest := ReadStatuses(t, c.statuses);
    if open {
      StatusesRead(t, c.statuses, PublishedFirst(t, outcome), success, rest);
    }
  }

  lemma StatusesRead(t: Task, statuses: seq<bool>, f: nat, success: bool, rest: seq<bool>)
    requires Written(t, statuses, f) && f <= Expanded(t)
    requires ReadCount(t) <= |statuses| ==> rest == statuses[ReadCount(t)..]
    requires success <==> ReadCount(t) <= |statuses| && forall i :: 0 <= i < ReadCount(t) ==> statuses[i]
    ensures rest == [] && |statuses| == ReadCount(t) <==> Agrees(t)
    ensures success <==> Expanded(t) > 0 && ReadCount(t) <= f
    ensures Agrees(t) ==> (success <==> Expanded(t) > 0 && f == Expanded(t))
  {
    CountsAgreeIff(t);
    assert Expanded(t) == 0 ==> !statuses[0];
    if f < |statuses| { assert !statuses[f]; }
  }
}
