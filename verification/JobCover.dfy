/**
  Cover: every child group stands in its parent's queue at least as often as it has entries of its own. Under cover
  no scheduled job is stranded, and nested weights keep cover over every run.
 */
module JobCover {
  import opened Basics
  import opened WeightedQueue
  import opened JobScheduler

  predicate IsChildGroup(t: Tree, c: nat) {
    c < |t.parent| && t.IsGroup(c) && t.parent[c].Some?
  }

  /** Every child group but one stands in its parent's queue at least as often as it has entries. */
  ghost predicate CoveredBut(t: Tree, s: State, g: nat)
    requires Fits(t, s)
  {
    forall c: nat :: c < |s.refs| && IsChildGroup(t, c) && c != g ==> Excess(t, s, c) >= 0
  }

  ghost predicate Covered(t: Tree, s: State)
    requires Fits(t, s)
  {
    forall c: nat :: c < |s.refs| && IsChildGroup(t, c) ==> Excess(t, s, c) >= 0
  }

  function OwnWeight(t: Tree, c: nat): nat
    requires t.Rooted() && c < |t.parent| && t.parent[c].Some?
  {
    t.EffectiveWeight(t.parent[c].value, c)
  }

  /**
    The least backlog with which a child group is put back in a service that leaves the backlog as it was or takes
    one entry away. It is the weight if some group inside can be put back at that backlog, and one more otherwise.
   */
  ghost function LeastKept(t: Tree, x: nat): (m: nat)
    requires t.Rooted() && IsChildGroup(t, x)
    ensures OwnWeight(t, x) <= m <= OwnWeight(t, x) + 1
    decreases |t.parent| - x
  {
    if exists h: nat :: x < h < |t.parent| && IsChildGroup(t, h) && t.parent[h] == Some(x) &&
                        LeastKept(t, h) <= OwnWeight(t, x)
    then OwnWeight(t, x) else OwnWeight(t, x) + 1
  }

  /** No group weighs more than the backlog at which a group inside it is first put back. */
  ghost predicate Nested(t: Tree)
    requires t.Rooted()
  {
    forall i: nat :: IsChildGroup(t, i) && IsChildGroup(t, t.parent[i].value) ==>
      OwnWeight(t, t.parent[i].value) <= LeastKept(t, i)
  }

  /** Leaves report less than their weight. */
  ghost predicate Quick(t: Tree, report: nat)
    requires t.Rooted()
  {
    forall j: nat :: j < |t.parent| && t.IsLeaf(j) ==> report < OwnWeight(t, j)
  }

  ghost predicate Backed(t: Tree, s: State)
    requires Fits(t, s)
  {
    forall x: nat :: x < |s.refs| ==> Balance(t, s, x) >= 0
  }

  lemma OccWithinTotal(t: Tree, s: State, j: nat, g: nat)
    requires WellFormed(t, s) && j < |s.refs| && t.parent[j] == Some(g)
    ensures Occ(t, s, j) <= s.queues[g].total
  {
    assert t.IsGroup(g);
    CountWithin(s.queues[g].data, j);
  }

  /** With a backlog of n, some group inside g was put back in its last service. */
  ghost predicate Retains(t: Tree, g: nat, n: nat)
    requires t.Rooted()
  {
    exists h: nat :: g < h < |t.parent| && IsChildGroup(t, h) && t.parent[h] == Some(g) && LeastKept(t, h) <= n
  }

  /** Before and after one group is served: every other child group stays covered, this one is no worse off. */
  ghost predicate ServedWell(t: Tree, s: State, r: State, g: nat)
    requires Fits(t, s) && Fits(t, r) && t.IsGroup(g) && g < |s.refs|
  {
    && LeavesFed(t, r) && CoveredBut(t, r, g)
    && (forall x: nat :: x < g && t.parent[x].Some? ==> Excess(t, r, x) == Excess(t, s, x))
    && (s.queues[g].total == 0 ==> r == s)
    && (s.queues[g].total > 0 && t.parent[g].Some? ==>
          || Excess(t, r, g) >= Excess(t, s, g) + 1
          || (Excess(t, r, g) >= Excess(t, s, g) && Retains(t, g, r.queues[g].total)))
  }

  lemma ServeLeafWell(t: Tree, s: State, g: nat, raised: nat, report: nat)
    requires WellFormed(t, s) && Positive(t) && Quick(t, report) && t.IsGroup(g) && g < |s.refs|
    requires Backed(t, s) && LeavesFed(t, s) && CoveredBut(t, s, g)
    requires s.queues[g].total > 0 && HasWork(t, s, g) && t.IsLeaf(NextEntry(s.queues[g]))
    ensures ServedWell(t, s, Serve(t, s, g, raised, report), g)
  {
    hide WeightedQueue.Valid, HoldsChildren, TakeOff, PutBack, ServeLeaf, Occ, Load, Retains;
    TakeOffEffect(t, s, g);
    var j, taken := NextEntry(s.queues[g]), TakeOff(t, s, g);
    assert Excess(t, s, j) <= 0 && s.events[j] > 0 by { LeafHasEvent(t, s, j); }
    ServeLeafEffect(t, taken, j, raised);
    var served := ServeLeaf(t, taken, j, raised);
    PutBackEffect(t, served, g, j, report);
    assert report < OwnWeight(t, j);
    assert Serve(t, s, g, raised, report) == served;
  }

  /** A child group was served: either it did its share, or it goes back into the queue. */
  lemma ServeGroupWell(t: Tree, s: State, g: nat, j: nat, served: State, r: State)
    requires WellFormed(t, s) && Nested(t) && Positive(t) && t.IsGroup(g) && s.queues[g].total > 0
    requires LeavesFed(t, s) && CoveredBut(t, s, g)
    requires HasWork(t, s, g) && j == NextEntry(s.queues[g]) && t.IsGroup(j) && t.parent[j] == Some(g)
    requires WellFormed(t, served) && ServedWell(t, TakeOff(t, s, g), served, j)
    requires r == PutBack(t, served, g, j, served.queues[j].total)
    ensures ServedWell(t, s, r, g)
  {
    hide WeightedQueue.Valid, HoldsChildren, TakeOff, PutBack, Occ, Load, LeastKept, Nested, Retains;
    TakeOffEffect(t, s, g);
    var taken := TakeOff(t, s, g);
    PutBackEffect(t, served, g, j, served.queues[j].total);
    assert IsChildGroup(t, j) && Excess(t, s, j) >= 0;
    assert OwnWeight(t, j) >= 1;
    NoDebtWhenEmpty(t, served, j);
    var n := served.queues[j].total;
    if Retains(t, j, n) {
      RetainedIsPutBack(t, j, n);
    }
    assert Excess(t, r, j) >= 0;
    if n >= OwnWeight(t, j) && t.parent[g].Some? {
      OccWithinTotal(t, r, j, g);
      ExcessIs(t, r, j);
      RetainsBy(t, g, j, n, r.queues[g].total);
    }
  }

  lemma RetainedIsPutBack(t: Tree, j: nat, n: nat)
    requires t.Rooted() && IsChildGroup(t, j) && Nested(t) && Retains(t, j, n)
    ensures OwnWeight(t, j) <= n
  {
  }

  /** A group put back with something to spare, or with a group inside that was put back, counts as retained. */
  lemma RetainsBy(t: Tree, g: nat, j: nat, n: nat, total: nat)
    requires t.Rooted() && IsChildGroup(t, j) && t.parent[j] == Some(g) && OwnWeight(t, j) <= n
    requires total > n || (total == n && Retains(t, j, n))
    ensures Retains(t, g, total)
  {
    hide OwnWeight;
    assert g < j;
    if total == n == OwnWeight(t, j) {
      assert LeastKept(t, j) == OwnWeight(t, j);
    }
  }

  lemma NoDebtWhenEmpty(t: Tree, s: State, j: nat)
    requires Fits(t, s) && t.IsGroup(j) && j < |s.refs|
    ensures s.queues[j].total == 0 ==> Excess(t, s, j) >= 0
  {
  }

  lemma ExcessIs(t: Tree, s: State, j: nat)
    requires Fits(t, s) && t.IsGroup(j) && j < |s.refs|
    ensures Excess(t, s, j) == Occ(t, s, j) - s.queues[j].total
  {
  }

  lemma {:induction false} ServeKeepsCover(t: Tree, s: State, g: nat, raised: nat, report: nat)
    requires WellFormed(t, s) && Positive(t) && Nested(t) && Quick(t, report) && t.IsGroup(g) && g < |s.refs|
    requires Backed(t, s) && LeavesFed(t, s) && CoveredBut(t, s, g)
    requires t.parent[g].Some? ==> Excess(t, s, g) >= -1
    ensures ServedWell(t, s, Serve(t, s, g, raised, report), g)
    decreases |s.refs| - g
  {
    hide WeightedQueue.Valid, HoldsChildren, TakeOff, PutBack, ServeLeaf, Occ, Load, Nested, Retains;
    if s.queues[g].total > 0 {
      TakeOffEffect(t, s, g);
      var j, taken := NextEntry(s.queues[g]), TakeOff(t, s, g);
      if t.IsLeaf(j) {
        ServeLeafWell(t, s, g, raised, report);
      } else {
        assert Backed(t, taken) && LeavesFed(t, taken) && CoveredBut(t, taken, j);
        ServeKeepsCover(t, taken, j, raised, report);
        ServeKeepsBalance(t, taken, j, raised, report);
        ServeGroupWell(t, s, g, j, Serve(t, taken, j, raised, report), Serve(t, s, g, raised, report));
      }
    }
  }

  // ---------------------------------------------------------------- whole runs

  ghost predicate Sound(t: Tree, s: State) {
    WellFormed(t, s) && Backed(t, s) && LeavesFed(t, s) && Covered(t, s)
  }

  datatype Op = Raise(leaf: nat) | Turn(root: nat, raised: nat, report: nat)

  ghost predicate Proper(t: Tree, op: Op)
    requires t.Rooted()
  {
    match op
    case Raise(j) => j < |t.parent| && t.IsLeaf(j)
    case Turn(g, raised, report) => g < |t.parent| && t.IsGroup(g) && t.parent[g].None? && Quick(t, report)
  }

  ghost predicate AllProper(t: Tree, ops: seq<Op>)
    requires t.Rooted()
  {
    forall i :: 0 <= i < |ops| ==> Proper(t, ops[i])
  }

  ghost function Step(t: Tree, s: State, op: Op): (r: State)
    requires Fits(t, s) && Proper(t, op)
    ensures Fits(t, r)
  {
    match op
    case Raise(j) => Notify(t, s, j)
    case Turn(g, raised, report) => Serve(t, s, g, raised, report)
  }

  ghost function Run(t: Tree, s: State, ops: seq<Op>): (r: State)
    requires Fits(t, s) && AllProper(t, ops)
    ensures Fits(t, r)
  {
    if ops == [] then s else Step(t, Run(t, s, ops[..|ops| - 1]), ops[|ops| - 1])
  }

  lemma RaiseKeepsSound(t: Tree, s: State, j: nat)
    requires t.Rooted() && Sound(t, s) && Positive(t) && t.IsLeaf(j) && j < |t.parent|
    ensures Sound(t, Notify(t, s, j))
  {
    hide WeightedQueue.Valid, HoldsChildren, Occ, Load, Balance, Excess, Notify;
    NotifyEffect(t, s, j);
    forall x: nat | x < |s.refs|
      ensures Balance(t, Notify(t, s, j), x) == Balance(t, s, x)
      ensures t.parent[x].Some? ==> Excess(t, Notify(t, s, j), x) == Excess(t, s, x)
    {
      assert KeepsAt(t, s, Notify(t, s, j), x);
    }
  }

  lemma StepKeepsSound(t: Tree, s: State, op: Op)
    requires t.Rooted() && Sound(t, s) && Positive(t) && Nested(t) && Proper(t, op)
    ensures Sound(t, Step(t, s, op))
  {
    hide WeightedQueue.Valid, HoldsChildren, Occ, Load, Balance, Excess, Notify, Serve;
    match op
    case Raise(j) =>
      RaiseKeepsSound(t, s, j);
    case Turn(g, raised, report) =>
      ServeKeepsBalance(t, s, g, raised, report);
      ServeKeepsCover(t, s, g, raised, report);
  }

  /** Where weights are nested, every run keeps jobs covered, fed and backed. */
  lemma {:induction false} RunKeepsSound(t: Tree, s: State, ops: seq<Op>)
    requires t.Rooted() && Sound(t, s) && Positive(t) && Nested(t) && AllProper(t, ops)
    ensures Sound(t, Run(t, s, ops))
  {
    hide WeightedQueue.Valid, HoldsChildren, Nested, Positive, Step, Backed, LeavesFed, Covered;
    if ops != [] {
      RunKeepsSound(t, s, ops[..|ops| - 1]);
      StepKeepsSound(t, Run(t, s, ops[..|ops| - 1]), ops[|ops| - 1]);
    }
  }

  function RootOf(t: Tree, j: nat): (r: nat)
    requires t.Rooted() && j < |t.parent|
    ensures r <= j && t.parent[r].None?
  {
    if t.parent[j].None? then j else RootOf(t, t.parent[j].value)
  }

  /** No scheduled job is stranded: while any job stands in any queue, the root has something to serve. */
  lemma {:induction false} WorkReachesTheRoot(t: Tree, s: State, j: nat)
    requires Sound(t, s) && j < |s.refs| && Occ(t, s, j) > 0
    ensures t.IsGroup(RootOf(t, j)) && s.queues[RootOf(t, j)].total > 0
    decreases j
  {
    var g := t.parent[j].value;
    OccWithinTotal(t, s, j, g);
    if t.parent[g].Some? {
      assert IsChildGroup(t, g) && Excess(t, s, g) >= 0;
      WorkReachesTheRoot(t, s, g);
    }
  }

  // ---------------------------------------------------------------- runs from empty queues

  function EmptyState(t: Tree): (s: State)
    ensures t.Rooted() ==> Fits(t, s)
  {
    State(seq(|t.parent|, _ => Empty(1, 1)), seq(|t.parent|, _ => 0), seq(|t.parent|, _ => 0))
  }

  lemma EmptyQueueHolds(x: nat)
    ensures var q := Empty<nat>(1, 1);
            Valid(q) && CanEnqueue(q) && CountIn(q.data, x) == 0
  {
    var q := Empty<nat>(1, 1);
    assert q.data == [[]] && q.data[..0] == [];
  }

  lemma EmptyIsSound(t: Tree)
    requires t.Rooted()
    ensures Sound(t, EmptyState(t))
  {
    forall x: nat ensures CountIn(Empty<nat>(1, 1).data, x) == 0 {
      EmptyQueueHolds(x);
    }
    EmptyQueueHolds(0);
    hide WeightedQueue.Valid, CountIn;
    var s := EmptyState(t);
    assert forall g: nat :: g < |s.queues| ==> HoldsChildren(t, g, s.queues[g]);
    assert WellFormed(t, s);
    assert forall x: nat :: x < |s.refs| ==> Occ(t, s, x) == 0 && Load(t, s, x) == 0;
  }

  // ---------------------------------------------------------------- peers get their events

  /**
    Whatever the weights, a service never gives a leaf more places than events, and takes none that the leaf does not
    use where references back the places.
   */
  lemma {:induction false} ServeKeepsLeaves(t: Tree, s: State, g: nat, raised: nat, report: nat, x: nat)
    requires WellFormed(t, s) && Positive(t) && Quick(t, report) && LeavesFed(t, s) && t.IsGroup(g) && g < |s.refs|
    requires t.IsLeaf(x) && x < |s.refs|
    ensures Excess(t, Serve(t, s, g, raised, report), x) <= Excess(t, s, x)
    ensures Backed(t, s) ==> Excess(t, Serve(t, s, g, raised, report), x) == Excess(t, s, x)
    decreases |s.refs| - g
  {
    hide WeightedQueue.Valid, HoldsChildren, TakeOff, PutBack, ServeLeaf, Occ, Load;
    if s.queues[g].total > 0 {
      TakeOffEffect(t, s, g);
      var j, taken := NextEntry(s.queues[g]), TakeOff(t, s, g);
      if taken.refs[j] >= 0 {
        if t.IsLeaf(j) {
          LeafHasEvent(t, s, j);
          ServeLeafEffect(t, taken, j, raised);
          PutBackEffect(t, ServeLeaf(t, taken, j, raised), g, j, report);
          assert report < OwnWeight(t, j);
        } else {
          ServeKeepsLeaves(t, taken, j, raised, report, x);
          ServeKeepsBalance(t, taken, j, raised, report);
          var served := Serve(t, taken, j, raised, report);
          PutBackEffect(t, served, g, j, served.queues[j].total);
        }
      }
    }
  }

  lemma ServeKeepsFed(t: Tree, s: State, g: nat, raised: nat, report: nat)
    requires WellFormed(t, s) && Positive(t) && Quick(t, report) && LeavesFed(t, s) && t.IsGroup(g) && g < |s.refs|
    ensures LeavesFed(t, Serve(t, s, g, raised, report))
  {
    hide Excess, Serve;
    forall x: nat | x < |s.refs| && t.IsLeaf(x)
      ensures Excess(t, Serve(t, s, g, raised, report), x) <= 0
    {
      ServeKeepsLeaves(t, s, g, raised, report, x);
    }
  }

  lemma RaiseKeepsFed(t: Tree, s: State, j: nat)
    requires WellFormed(t, s) && Positive(t) && LeavesFed(t, s) && t.IsLeaf(j) && j < |s.refs|
    ensures WellFormed(t, Notify(t, s, j)) && LeavesFed(t, Notify(t, s, j))
  {
    hide Excess, Balance, Notify;
    NotifyEffect(t, s, j);
    forall x: nat | x < |s.refs| && t.IsLeaf(x) ensures Excess(t, Notify(t, s, j), x) <= 0 {
      assert KeepsAt(t, s, Notify(t, s, j), x);
    }
  }

  /** Every run keeps leaves fed; where references back the places it keeps, for every leaf, places minus events. */
  lemma {:induction false} RunKeepsLeaves(t: Tree, s: State, ops: seq<Op>)
    requires t.Rooted() && WellFormed(t, s) && LeavesFed(t, s) && Positive(t) && AllProper(t, ops)
    ensures WellFormed(t, Run(t, s, ops)) && LeavesFed(t, Run(t, s, ops))
    ensures Backed(t, s) ==>
              && Backed(t, Run(t, s, ops))
              && forall x: nat :: x < |s.refs| && t.IsLeaf(x) ==> Excess(t, Run(t, s, ops), x) == Excess(t, s, x)
  {
    hide WeightedQueue.Valid, HoldsChildren, Occ, Load, Balance, Excess, Notify, Serve;
    if ops != [] {
      var before := Run(t, s, ops[..|ops| - 1]);
      RunKeepsLeaves(t, s, ops[..|ops| - 1]);
      match ops[|ops| - 1]
      case Raise(j) =>
        NotifyEffect(t, before, j);
        forall x: nat | x < |s.refs|
          ensures Balance(t, Notify(t, before, j), x) == Balance(t, before, x)
          ensures t.IsLeaf(x) ==> Excess(t, Notify(t, before, j), x) == Excess(t, before, x)
        {
          assert KeepsAt(t, before, Notify(t, before, j), x);
        }
      case Turn(g, raised, report) =>
        ServeKeepsBalance(t, before, g, raised, report);
        forall x: nat | x < |s.refs| && t.IsLeaf(x)
          ensures Excess(t, Serve(t, before, g, raised, report), x) <= Excess(t, before, x)
          ensures Backed(t, before) ==> Excess(t, Serve(t, before, g, raised, report), x) == Excess(t, before, x)
        {
          ServeKeepsLeaves(t, before, g, raised, report, x);
        }
    }
  }

  /** In every reachable state a leaf stands in a queue exactly as often as it has events. */
  lemma PlacesAreEvents(t: Tree, ops: seq<Op>, x: nat)
    requires t.Rooted() && Positive(t) && AllProper(t, ops) && x < |t.parent| && t.IsLeaf(x)
    ensures Occ(t, Run(t, EmptyState(t), ops), x) == Run(t, EmptyState(t), ops).events[x]
  {
    EmptyIsSound(t);
    RunKeepsLeaves(t, EmptyState(t), ops);
    NoPlaces(t, x);
    hide Run, Occ;
  }

  lemma NoPlaces(t: Tree, x: nat)
    requires t.Rooted() && x < |t.parent| && t.IsLeaf(x)
    ensures Excess(t, EmptyState(t), x) == 0
  {
    EmptyQueueHolds(x);
    hide CountIn;
  }

  /** The leaf a service of a group comes to, if it comes to one, has an event. */
  ghost predicate ComesToEvent(t: Tree, s: State, g: nat)
    requires Fits(t, s) && t.IsGroup(g)
    decreases |s.refs| - g
  {
    HasWork(t, s, g) ==>
      var j, taken := NextEntry(s.queues[g]), TakeOff(t, s, g);
      if t.IsLeaf(j) then taken.events[j] > 0 else ComesToEvent(t, taken, j)
  }

  lemma {:induction false} FedComesToEvent(t: Tree, s: State, g: nat)
    requires WellFormed(t, s) && LeavesFed(t, s) && t.IsGroup(g) && g < |s.refs|
    ensures ComesToEvent(t, s, g)
    decreases |s.refs| - g
  {
    hide WeightedQueue.Valid, HoldsChildren, TakeOff, Occ, Load;
    if s.queues[g].total > 0 {
      TakeOffEffect(t, s, g);
      var j := NextEntry(s.queues[g]);
      if t.IsLeaf(j) {
        LeafHasEvent(t, s, j);
      } else {
        FedComesToEvent(t, TakeOff(t, s, g), j);
      }
    }
  }

  /** No service of any group in any reachable state takes from an empty event queue, nested weights or not. */
  lemma EventQueuesAreNeverEmpty(t: Tree, ops: seq<Op>, g: nat)
    requires t.Rooted() && Positive(t) && AllProper(t, ops) && g < |t.parent| && t.IsGroup(g)
    ensures ComesToEvent(t, Run(t, EmptyState(t), ops), g)
  {
    EmptyIsSound(t);
    RunKeepsLeaves(t, EmptyState(t), ops);
    FedComesToEvent(t, Run(t, EmptyState(t), ops), g);
  }
}
