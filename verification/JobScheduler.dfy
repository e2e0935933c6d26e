/**
  The job hierarchy of `AAA_GroupedJob`: groups that schedule and serve their children through weighted fair
  queues, with reference counts. Leaves are peers, which own a queue of events.

  Jobs are numbered in the order they were created, so a job's parent has a smaller number.
 */
module JobScheduler {
  import opened Basics
  import opened WeightedQueue

  const SCHED_WFQ: nat := 1

  /** The weight of a job under any policy but plain WFQ. */
  const INFINITY: nat := 100000

  /** Who belongs to whom. A job without a policy is a leaf. */
  datatype Tree = Tree(parent: seq<Option<nat>>, weight: seq<nat>, policy: seq<Option<nat>>) {
    predicate IsGroup(g: nat) {
      g < |policy| && policy[g].Some?
    }

    predicate IsLeaf(j: nat) {
      j < |policy| && policy[j].None?
    }

    /** Every parent is an earlier group, and only groups can be roots. */
    predicate Rooted() {
      && |parent| == |weight| == |policy|
      && (forall j: nat :: j < |parent| && parent[j].Some? ==> parent[j].value < j && IsGroup(parent[j].value))
      && (forall j: nat :: j < |parent| && IsLeaf(j) ==> parent[j].Some?)
    }

    function EffectiveWeight(g: nat, j: nat): nat
      requires IsGroup(g) && j < |weight|
    {
      if policy[g] == Some(SCHED_WFQ) then weight[j] else INFINITY
    }
  }

  /** What changes: the queue of each group, and each job's references and (for a leaf) events. */
  datatype State = State(queues: seq<Queue<nat>>, refs: seq<int>, events: seq<nat>)

  predicate CanEnqueue(q: Queue<nat>) {
    Shaped(q) && q.numPriority > 0 && q.maxWeight > 0
  }

  predicate Fits(t: Tree, s: State) {
    && t.Rooted()
    && |s.queues| == |s.refs| == |s.events| == |t.parent|
    && forall g: nat :: g < |s.queues| && t.IsGroup(g) ==> CanEnqueue(s.queues[g])
  }

  // ---------------------------------------------------------------- operations

  function AddRefs(s: State, j: nat, n: int): State
    requires j < |s.refs|
  {
    s.(refs := s.refs[j := s.refs[j] + n])
  }

  function SetQueue(s: State, g: nat, q: Queue<nat>): State
    requires g < |s.queues|
  {
    s.(queues := s.queues[g := q])
  }

  /** A group uses one priority and one weight of its queue. */
  function Put(q: Queue<nat>, j: nat): (r: Queue<nat>)
    requires CanEnqueue(q)
    ensures CanEnqueue(r)
  {
    FlowInRange(q.numPriority, q.maxWeight, 1, 1);
    Enqueue(q, j, 1, 1)
  }

  /** The reference is taken before the backlog is compared with the weight, and kept even when that fails. */
  function Schedule(t: Tree, s: State, g: nat, j: nat, backlog: nat): (r: State)
    requires Fits(t, s) && t.IsGroup(g) && j < |s.refs|
    ensures Fits(t, r)
    decreases g
  {
    var held := AddRefs(s, j, 1);
    if backlog > t.EffectiveWeight(g, j) then held
    else
      var queued := SetQueue(held, g, Put(s.queues[g], j));
      match t.parent[g]
      case None => queued
      case Some(p) => Schedule(t, queued, p, g, 1)
  }

  function SetEvents(s: State, j: nat, n: nat): State
    requires j < |s.events|
  {
    s.(events := s.events[j := n])
  }

  /** A peer stores an event and asks its group to schedule it. */
  function Notify(t: Tree, s: State, j: nat): (r: State)
    requires Fits(t, s) && t.IsLeaf(j)
    ensures Fits(t, r)
  {
    Schedule(t, SetEvents(s, j, s.events[j] + 1), t.parent[j].value, j, 1)
  }

  function NotifyTimes(t: Tree, s: State, j: nat, n: nat): (r: State)
    requires Fits(t, s) && t.IsLeaf(j)
    ensures Fits(t, r)
  {
    if n == 0 then s else Notify(t, NotifyTimes(t, s, j, n - 1), j)
  }

  /** A peer takes one event from its queue; serving it may raise further events for the same peer. */
  function ServeLeaf(t: Tree, s: State, j: nat, raised: nat): (r: State)
    requires Fits(t, s) && t.IsLeaf(j)
    ensures Fits(t, r)
  {
    NotifyTimes(t, SetEvents(s, j, if s.events[j] > 0 then s.events[j] - 1 else 0), j, raised)
  }

  /** The queue of a group has an entry, which is one of its descendants. */
  predicate HasWork(t: Tree, s: State, g: nat)
    requires Fits(t, s) && t.IsGroup(g)
  {
    s.queues[g].total > 0 && Serves(s.queues[g]) && g < NextEntry(s.queues[g]) < |s.refs|
  }

  /** The entry taken off the queue of a group, with its reference released. */
  function TakeOff(t: Tree, s: State, g: nat): (r: State)
    requires Fits(t, s) && t.IsGroup(g) && HasWork(t, s, g)
    ensures Fits(t, r)
  {
    AddRefs(SetQueue(s, g, Dequeue(s.queues[g])), NextEntry(s.queues[g]), -1)
  }

  /** The job goes back into the queue if it reports a backlog of at least its weight. */
  function PutBack(t: Tree, s: State, g: nat, j: nat, backlog: nat): (r: State)
    requires Fits(t, s) && t.IsGroup(g) && j < |s.refs|
    ensures Fits(t, r)
  {
    if backlog < t.EffectiveWeight(g, j) then s else SetQueue(AddRefs(s, j, 1), g, Put(s.queues[g], j))
  }

  /**
    Serving a group serves its next job. A leaf reports `report` and raises `raised` events; a group reports
    its total.
   */
  function Serve(t: Tree, s: State, g: nat, raised: nat, report: nat): (r: State)
    requires Fits(t, s) && t.IsGroup(g)
    ensures Fits(t, r)
    decreases |s.refs| - g
  {
    if !HasWork(t, s, g) then s
    else
      var j, taken := NextEntry(s.queues[g]), TakeOff(t, s, g);
      if taken.refs[j] < 0 then taken
      else if t.IsLeaf(j) then PutBack(t, ServeLeaf(t, taken, j, raised), g, j, report)
      else
        var served := Serve(t, taken, j, raised, report);
        PutBack(t, served, g, j, served.queues[j].total)
  }

  /** Removing a job drops its entries and as many references. */
  function Removed(s: State, g: nat, j: nat): State
    requires g < |s.queues| && j < |s.refs| && Shaped(s.queues[g])
  {
    var q := s.queues[g];
    AddRefs(SetQueue(s, g, Remove(q, j)), j, Remove(q, j).total - q.total)
  }

  function Flushed(t: Tree, s: State, g: nat): (r: State)
    requires Fits(t, s) && t.IsGroup(g)
    decreases s.queues[g].total
  {
    if !HasWork(t, s, g) then s else Flushed(t, TakeOff(t, s, g), g)
  }

  // ---------------------------------------------------------------- counting entries

  /** Entries of a job in the data queues of a group. */
  function CountIn(data: seq<seq<nat>>, x: nat): nat {
    if data == [] then 0 else CountIn(data[..|data| - 1], x) + multiset(data[|data| - 1])[x]
  }

  lemma {:induction false} CountUpdate(data: seq<seq<nat>>, flow: nat, d: seq<nat>, x: nat)
    requires flow < |data|
    ensures CountIn(data[flow := d], x) == CountIn(data, x) - multiset(data[flow])[x] + multiset(d)[x]
  {
    var n := |data| - 1;
    if flow == n {
      assert data[flow := d][..n] == data[..n];
    } else {
      CountUpdate(data[..n], flow, d, x);
      assert data[flow := d][..n] == data[..n][flow := d];
    }
  }

  lemma {:induction false} CountWithin(data: seq<seq<nat>>, x: nat)
    ensures CountIn(data, x) <= Entries(data)
  {
    if data != [] {
      CountWithin(data[..|data| - 1], x);
      assert multiset(data[|data| - 1])[x] <= |multiset(data[|data| - 1])|;
    }
  }

  lemma {:induction false} CountMember(data: seq<seq<nat>>, flow: nat, x: nat)
    requires flow < |data| && x in data[flow]
    ensures CountIn(data, x) > 0
  {
    if flow < |data| - 1 {
      CountMember(data[..|data| - 1], flow, x);
    }
  }

  lemma PutCounts(q: Queue<nat>, j: nat)
    requires Valid(q) && CanEnqueue(q)
    ensures Valid(Put(q, j)) && Put(q, j).total == q.total + 1
    ensures forall x: nat :: CountIn(Put(q, j).data, x) == CountIn(q.data, x) + if x == j then 1 else 0
  {
    FlowInRange(q.numPriority, q.maxWeight, 1, 1);
    EnqueueInRangeKeepsValid(q, j, 1, 1);
    forall x: nat ensures CountIn(Put(q, j).data, x) == CountIn(q.data, x) + if x == j then 1 else 0 {
      CountUpdate(q.data, FlowIndex(q.maxWeight, 1, 1), q.data[FlowIndex(q.maxWeight, 1, 1)] + [j], x);
    }
  }

  lemma DequeueCounts(q: Queue<nat>)
    requires Valid(q) && q.total > 0
    ensures Serves(q) && Valid(Dequeue(q)) && Dequeue(q).total == q.total - 1
    ensures CountIn(q.data, NextEntry(q)) > 0
    ensures forall x: nat :: CountIn(Dequeue(q).data, x) == CountIn(q.data, x) - if x == NextEntry(q) then 1 else 0
  {
    DequeueKeepsValid(q);
    var d := q.data[NextFlow(q)];
    assert d == [d[0]] + d[1..];
    CountMember(q.data, NextFlow(q), NextEntry(q));
    forall x: nat ensures CountIn(Dequeue(q).data, x) == CountIn(q.data, x) - if x == NextEntry(q) then 1 else 0 {
      CountUpdate(q.data, NextFlow(q), d[1..], x);
    }
  }

  /** Taking every entry of a job out of one data queue lowers the total by their number. */
  lemma FlowWithout(q: Queue<nat>, r: Queue<nat>, flow: nat, d: seq<nat>, j: nat)
    requires Valid(q) && Valid(r) && flow < |q.data| && r.data == q.data[flow := d]
    requires |d| == |q.data[flow]| - multiset(q.data[flow])[j]
    requires forall x: nat :: multiset(d)[x] == if x == j then 0 else multiset(q.data[flow])[x]
    ensures q.total - r.total == CountIn(q.data, j) - CountIn(r.data, j)
    ensures forall x: nat :: x != j ==> CountIn(r.data, x) == CountIn(q.data, x)
  {
    EntriesUpdate(q.data, flow, d);
    forall x: nat ensures CountIn(r.data, x) == CountIn(q.data, x) - multiset(q.data[flow])[x] + multiset(d)[x] {
      CountUpdate(q.data, flow, d, x);
    }
  }

  lemma RemoveFromCounts(q: Queue<nat>, j: nat, flow: nat)
    requires Valid(q) && flow < |q.data| && ClassOf(q.maxWeight, flow) < |q.index|
    ensures var r := RemoveFrom(q, j, flow);
            && Valid(r) && |r.data| == |q.data|
            && q.total - r.total == CountIn(q.data, j) - CountIn(r.data, j)
            && forall x: nat :: x != j ==> CountIn(r.data, x) == CountIn(q.data, x)
  {
    hide RemoveFrom, Without, CountIn;
    RemoveFromKeepsValid(q, j, flow);
    WithoutCounts(q.data[flow], j);
    FlowWithout(q, RemoveFrom(q, j, flow), flow, Without<nat>(q.data[flow], j), j);
  }

  lemma {:induction false} RemoveCounts(q: Queue<nat>, j: nat, flows: nat)
    requires Valid(q) && flows <= |q.data|
    ensures var r := RemoveUpTo(q, j, flows);
            && Valid(r) && |r.data| == |q.data|
            && q.total - r.total == CountIn(q.data, j) - CountIn(r.data, j)
            && forall x: nat :: x != j ==> CountIn(r.data, x) == CountIn(q.data, x)
  {
    hide CountIn, RemoveFrom;
    if flows > 0 {
      RemoveCounts(q, j, flows - 1);
      ClassInRange(q.numPriority, q.maxWeight, flows - 1);
      RemoveFromCounts(RemoveUpTo(q, j, flows - 1), j, flows - 1);
    }
  }

  lemma {:induction false} WithoutCounts(s: seq<nat>, j: nat)
    ensures |Without<nat>(s, j)| == |s| - multiset(s)[j]
    ensures forall x: nat :: multiset(Without<nat>(s, j))[x] == if x == j then 0 else multiset(s)[x]
  {
    if s != [] {
      assert s == [s[0]] + s[1..];
      WithoutCounts(s[1..], j);
    }
  }

  lemma {:induction false} NothingLeft(data: seq<seq<nat>>, j: nat)
    requires forall i :: 0 <= i < |data| ==> j !in data[i]
    ensures CountIn(data, j) == 0
  {
    if data != [] {
      NothingLeft(data[..|data| - 1], j);
    }
  }

  // ---------------------------------------------------------------- the invariant

  /** How often a job stands in its parent's queue. */
  function Occ(t: Tree, s: State, x: nat): nat
    requires Fits(t, s) && x < |s.refs|
  {
    if t.parent[x].Some? then CountIn(s.queues[t.parent[x].value].data, x) else 0
  }

  /** What a job has to do: the total of a group, the events of a leaf. */
  function Load(t: Tree, s: State, x: nat): nat
    requires Fits(t, s) && x < |s.refs|
  {
    if t.IsLeaf(x) then s.events[x] else s.queues[x].total
  }

  function Excess(t: Tree, s: State, x: nat): int
    requires Fits(t, s) && x < |s.refs|
  {
    Occ(t, s, x) - Load(t, s, x)
  }

  /** References beyond the queued occurrences. */
  function Balance(t: Tree, s: State, x: nat): int
    requires Fits(t, s) && x < |s.refs|
  {
    s.refs[x] - Occ(t, s, x)
  }

  /** A group's queue holds only its own children. */
  ghost predicate HoldsChildren(t: Tree, g: nat, q: Queue<nat>) {
    forall x: nat :: CountIn(q.data, x) > 0 ==> x < |t.parent| && t.parent[x] == Some(g)
  }

  ghost predicate WellFormed(t: Tree, s: State) {
    && Fits(t, s)
    && forall g: nat :: g < |s.queues| && t.IsGroup(g) ==> Valid(s.queues[g]) && HoldsChildren(t, g, s.queues[g])
  }

  lemma PutEffect(t: Tree, s: State, g: nat, j: nat)
    requires WellFormed(t, s) && t.IsGroup(g) && j < |s.refs| && t.parent[j] == Some(g)
    ensures var r := SetQueue(s, g, Put(s.queues[g], j));
            && WellFormed(t, r)
            && forall x: nat :: x < |s.refs| ==>
                 && Occ(t, r, x) == Occ(t, s, x) + (if x == j then 1 else 0)
                 && Load(t, r, x) == Load(t, s, x) + (if x == g then 1 else 0)
  {
    hide WeightedQueue.Valid;
    PutCounts(s.queues[g], j);
    var r := SetQueue(s, g, Put(s.queues[g], j));
    assert HoldsChildren(t, g, s.queues[g]) && HoldsChildren(t, g, r.queues[g]);
  }

  lemma TakeEffect(t: Tree, s: State, g: nat)
    requires WellFormed(t, s) && t.IsGroup(g) && s.queues[g].total > 0
    ensures HasWork(t, s, g) && t.parent[NextEntry(s.queues[g])] == Some(g)
    ensures var r := TakeOff(t, s, g);
            var j := NextEntry(s.queues[g]);
            && WellFormed(t, r) && Occ(t, s, j) > 0
            && r.refs == s.refs[j := s.refs[j] - 1] && r.events == s.events
            && forall x: nat :: x < |s.refs| ==>
                 && Occ(t, r, x) == Occ(t, s, x) - (if x == j then 1 else 0)
                 && Load(t, r, x) == Load(t, s, x) - (if x == g then 1 else 0)
  {
    hide WeightedQueue.Valid;
    DequeueCounts(s.queues[g]);
    assert HoldsChildren(t, g, s.queues[g]);
    var r := TakeOff(t, s, g);
    assert HoldsChildren(t, g, s.queues[g]) && HoldsChildren(t, g, r.queues[g]);
  }

  // ---------------------------------------------------------------- reference counts

  /** Every job has a positive weight where it is scheduled. */
  ghost predicate Positive(t: Tree) {
    forall j: nat :: j < |t.parent| && t.parent[j].Some? && t.IsGroup(t.parent[j].value) && j < |t.weight| ==>
      t.EffectiveWeight(t.parent[j].value, j) >= 1
  }

  /** The jobs a Schedule puts into queues: the job itself and every group above it but the root. */
  lemma {:induction false} ScheduleEffect(t: Tree, s: State, g: nat, j: nat, backlog: nat)
    requires WellFormed(t, s) && Positive(t) && t.IsGroup(g) && j < |s.refs| && t.parent[j] == Some(g)
    ensures var r := Schedule(t, s, g, j, backlog);
            var fits := backlog <= t.EffectiveWeight(g, j);
            && WellFormed(t, r) && r.events == s.events
            && forall x: nat :: x < |s.refs| ==>
                 && Balance(t, r, x) == Balance(t, s, x) + (if x == j && !fits then 1 else 0)
                 && (t.parent[x].Some? ==> Excess(t, r, x) == Excess(t, s, x) + (if x == j && fits then 1 else 0))
    decreases g
  {
    hide WeightedQueue.Valid, Put, CountIn, HoldsChildren;
    var held := AddRefs(s, j, 1);
    assert WellFormed(t, held);
    assert forall x: nat :: x < |s.refs| ==> Occ(t, held, x) == Occ(t, s, x) && Load(t, held, x) == Load(t, s, x);
    if backlog <= t.EffectiveWeight(g, j) {
      var queued := SetQueue(held, g, Put(s.queues[g], j));
      PutEffect(t, held, g, j);
      match t.parent[g]
      case None =>
      case Some(p) => ScheduleEffect(t, queued, p, g, 1);
    }
  }

  predicate KeepsAt(t: Tree, s: State, r: State, x: nat)
    requires Fits(t, s) && Fits(t, r) && x < |s.refs|
  {
    Balance(t, r, x) == Balance(t, s, x) && (t.parent[x].Some? ==> Excess(t, r, x) == Excess(t, s, x))
  }

  /** A notified peer has one more event and one more occurrence; nobody else's balance or excess changes. */
  lemma NotifyEffect(t: Tree, s: State, j: nat)
    requires WellFormed(t, s) && Positive(t) && t.IsLeaf(j) && j < |s.refs|
    ensures WellFormed(t, Notify(t, s, j))
    ensures forall x: nat :: x < |s.refs| ==> KeepsAt(t, s, Notify(t, s, j), x)
  {
    hide WeightedQueue.Valid, Put, CountIn, Schedule;
    var m := SetEvents(s, j, s.events[j] + 1);
    assert forall x: nat :: x < |s.refs| ==>
             Occ(t, m, x) == Occ(t, s, x) && Load(t, m, x) == Load(t, s, x) + if x == j then 1 else 0;
    ScheduleEffect(t, m, t.parent[j].value, j, 1);
  }

  lemma {:induction false} NotifyTimesEffect(t: Tree, s: State, j: nat, n: nat)
    requires WellFormed(t, s) && Positive(t) && t.IsLeaf(j) && j < |s.refs|
    ensures WellFormed(t, NotifyTimes(t, s, j, n))
    ensures forall x: nat :: x < |s.refs| ==> KeepsAt(t, s, NotifyTimes(t, s, j, n), x)
  {
    hide WeightedQueue.Valid, HoldsChildren, Balance, Excess, Notify;
    if n > 0 {
      var m := NotifyTimes(t, s, j, n - 1);
      NotifyTimesEffect(t, s, j, n - 1);
      NotifyEffect(t, m, j);
      forall x: nat | x < |s.refs| ensures KeepsAt(t, s, Notify(t, m, j), x) {
        assert KeepsAt(t, s, m, x) && KeepsAt(t, m, Notify(t, m, j), x);
      }
    }
  }

  lemma ServeLeafEffect(t: Tree, s: State, j: nat, raised: nat)
    requires WellFormed(t, s) && Positive(t) && t.IsLeaf(j) && j < |s.refs|
    ensures var r := ServeLeaf(t, s, j, raised);
            && WellFormed(t, r)
            && forall x: nat :: x < |s.refs| ==>
                 && Balance(t, r, x) == Balance(t, s, x)
                 && (t.parent[x].Some? ==> Excess(t, r, x) ==
                                             Excess(t, s, x) + if x == j && s.events[j] > 0 then 1 else 0)
  {
    hide WeightedQueue.Valid, CountIn, NotifyTimes;
    var m := SetEvents(s, j, if s.events[j] > 0 then s.events[j] - 1 else 0);
    NotifyTimesEffect(t, m, j, raised);
    forall x: nat | x < |s.refs|
      ensures KeepsAt(t, m, ServeLeaf(t, s, j, raised), x)
      ensures Balance(t, m, x) == Balance(t, s, x)
      ensures t.parent[x].Some? ==> Excess(t, m, x) == Excess(t, s, x) + if x == j && s.events[j] > 0 then 1 else 0
    {
      assert Occ(t, m, x) == Occ(t, s, x);
    }
  }

  lemma TakeOffEffect(t: Tree, s: State, g: nat)
    requires WellFormed(t, s) && t.IsGroup(g) && s.queues[g].total > 0
    ensures HasWork(t, s, g) && t.parent[NextEntry(s.queues[g])] == Some(g)
    ensures var j, r := NextEntry(s.queues[g]), TakeOff(t, s, g);
            && WellFormed(t, r) && Occ(t, s, j) > 0 && r.events == s.events
            && r.refs[j] == Balance(t, s, j) + Occ(t, s, j) - 1
            && r.queues[g].total == s.queues[g].total - 1
            && (forall h: nat :: h < |s.queues| && h != g ==> r.queues[h] == s.queues[h])
            && forall x: nat :: x < |s.refs| ==>
                 && Balance(t, r, x) == Balance(t, s, x)
                 && (t.parent[x].Some? ==>
                       Excess(t, r, x) == Excess(t, s, x) - (if x == j then 1 else 0) + (if x == g then 1 else 0))
  {
    hide WeightedQueue.Valid, CountIn, Dequeue;
    TakeEffect(t, s, g);
    assert Load(t, TakeOff(t, s, g), g) == Load(t, s, g) - 1;
  }

  lemma PutBackEffect(t: Tree, s: State, g: nat, j: nat, backlog: nat)
    requires WellFormed(t, s) && t.IsGroup(g) && j < |s.refs| && t.parent[j] == Some(g)
    ensures var r := PutBack(t, s, g, j, backlog);
            var back := backlog >= t.EffectiveWeight(g, j);
            && WellFormed(t, r) && (!back ==> r == s)
            && (forall h: nat :: h < |s.queues| && h != g ==> r.queues[h] == s.queues[h])
            && forall x: nat :: x < |s.refs| ==>
                 && Balance(t, r, x) == Balance(t, s, x)
                 && (t.parent[x].Some? ==>
                       Excess(t, r, x) ==
                         Excess(t, s, x) + (if back && x == j then 1 else 0) - (if back && x == g then 1 else 0))
  {
    hide WeightedQueue.Valid, CountIn, Put;
    if backlog >= t.EffectiveWeight(g, j) {
      var m := AddRefs(s, j, 1);
      assert WellFormed(t, m);
      assert forall x: nat :: x < |s.refs| ==> Occ(t, m, x) == Occ(t, s, x) && Load(t, m, x) == Load(t, s, x);
      PutEffect(t, m, g, j);
    }
  }

  /** Serving conserves every job's balance of references and queued occurrences. */
  lemma {:induction false} ServeKeepsBalance(t: Tree, s: State, g: nat, raised: nat, report: nat)
    requires WellFormed(t, s) && Positive(t) && t.IsGroup(g) && g < |s.refs|
    ensures WellFormed(t, Serve(t, s, g, raised, report))
    ensures forall x: nat :: x < |s.refs| ==> Balance(t, Serve(t, s, g, raised, report), x) == Balance(t, s, x)
    decreases |s.refs| - g
  {
    hide WeightedQueue.Valid, HoldsChildren, Balance, Excess, TakeOff, PutBack, ServeLeaf, Occ;
    if HasWork(t, s, g) {
      TakeOffEffect(t, s, g);
      var j, taken := NextEntry(s.queues[g]), TakeOff(t, s, g);
      if taken.refs[j] >= 0 {
        if t.IsLeaf(j) {
          ServeLeafEffect(t, taken, j, raised);
          PutBackEffect(t, ServeLeaf(t, taken, j, raised), g, j, report);
        } else {
          ServeKeepsBalance(t, taken, j, raised, report);
          var served := Serve(t, taken, j, raised, report);
          PutBackEffect(t, served, g, j, served.queues[j].total);
        }
      }
    }
  }

  // ---------------------------------------------------------------- peers that stand in a queue

  /** Every peer has at least as many events as occurrences, so it never takes from an empty event queue. */
  ghost predicate LeavesFed(t: Tree, s: State)
    requires Fits(t, s)
  {
    forall x: nat :: x < |s.refs| && t.IsLeaf(x) ==> Excess(t, s, x) <= 0
  }

  lemma LeafHasEvent(t: Tree, s: State, j: nat)
    requires Fits(t, s) && LeavesFed(t, s) && j < |s.refs| && t.IsLeaf(j) && Occ(t, s, j) > 0
    ensures s.events[j] > 0
  {
    assert Excess(t, s, j) <= 0;
  }

  // ---------------------------------------------------------------- removing and flushing

  lemma RemoveEffect(q: Queue<nat>, j: nat)
    requires Valid(q)
    ensures var r := Remove(q, j);
            && Valid(r) && Shaped(r) && r.numPriority == q.numPriority && r.maxWeight == q.maxWeight
            && CountIn(r.data, j) == 0 && q.total - r.total == CountIn(q.data, j)
            && forall x: nat :: x != j ==> CountIn(r.data, x) == CountIn(q.data, x)
  {
    RemoveCounts(q, j, |q.data|);
    RemoveUpToKeepsValid(q, j, |q.data|);
    forall i | 0 <= i < |q.data|
      ensures j !in Remove(q, j).data[i]
    {
      WithoutIsShorter(q.data[i], j);
    }
    NothingLeft(Remove(q, j).data, j);
  }

  /** Removing a child drops as many references as occurrences. */
  lemma RemoveKeepsBalance(t: Tree, s: State, g: nat, j: nat)
    requires WellFormed(t, s) && t.IsGroup(g) && g < |s.refs| && j < |s.refs| && t.parent[j] == Some(g)
    ensures var r := Removed(s, g, j);
            && WellFormed(t, r) && Occ(t, r, j) == 0
            && forall x: nat :: x < |s.refs| ==> Balance(t, r, x) == Balance(t, s, x)
  {
    hide WeightedQueue.Valid, Remove, CountIn;
    var q, r := s.queues[g], Removed(s, g, j);
    RemoveEffect(q, j);
    assert HoldsChildren(t, g, q) && HoldsChildren(t, g, r.queues[g]);
  }

  /** Flushing a group empties its queue and releases every reference held by it. */
  lemma {:induction false} FlushKeepsBalance(t: Tree, s: State, g: nat)
    requires WellFormed(t, s) && t.IsGroup(g) && g < |s.refs|
    ensures WellFormed(t, Flushed(t, s, g)) && Flushed(t, s, g).queues[g].total == 0
    ensures forall x: nat :: x < |s.refs| ==> Balance(t, Flushed(t, s, g), x) == Balance(t, s, x)
    decreases s.queues[g].total
  {
    hide WeightedQueue.Valid, HoldsChildren, Balance, Excess, TakeOff, Occ;
    if s.queues[g].total > 0 {
      TakeOffEffect(t, s, g);
      FlushKeepsBalance(t, TakeOff(t, s, g), g);
    }
  }
}
