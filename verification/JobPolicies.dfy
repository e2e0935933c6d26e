/**
  What a scheduling policy does. Under plain weighted fair queueing (policy 1) a served job stays in its group's queue
  while it is left with a backlog of its weight; under every other policy weights are ignored and a served job leaves.
 */
module JobPolicies {
  import opened Basics
  import WeightedQueue
  import opened JobScheduler
  import opened JobCover
  import opened JobStranding

  /** The backlog at which a job in a group is put back, and beyond which it is not scheduled. */
  function Limit(t: Tree, g: nat, j: nat): nat
    requires g < |t.policy| && j < |t.weight|
  {
    if t.policy[g] == Some(1) then t.weight[j] else 100000
  }

  ghost predicate SameQueuesUpTo(s: State, r: State, g: nat) {
    && |r.queues| == |s.queues|
    && forall h: nat :: h <= g && h < |s.queues| ==> r.queues[h] == s.queues[h]
  }

  /** A service that raises nothing changes no queue above the group served. */
  lemma {:induction false} ServeStaysInside(t: Tree, s: State, g: nat, h: nat, report: nat)
    requires Fits(t, s) && t.IsGroup(g) && h < g
    ensures SameQueuesUpTo(s, Serve(t, s, g, 0, report), h)
    decreases |s.refs| - g
  {
    hide Put, WeightedQueue.Dequeue, WeightedQueue.Serves;
    if HasWork(t, s, g) {
      var j, taken := WeightedQueue.NextEntry(s.queues[g]), TakeOff(t, s, g);
      if taken.refs[j] >= 0 && !t.IsLeaf(j) {
        ServeStaysInside(t, taken, j, h, report);
      }
    }
  }

  /** Scheduling in a group changes no queue below it. */
  lemma {:induction false} ScheduleStaysAbove(t: Tree, s: State, g: nat, j: nat, backlog: nat, h: nat)
    requires Fits(t, s) && t.IsGroup(g) && j < |s.refs| && g < h < |s.queues|
    ensures Schedule(t, s, g, j, backlog).queues[h] == s.queues[h]
    decreases g
  {
    hide Put;
    if backlog <= t.EffectiveWeight(g, j) {
      match t.parent[g]
      case None =>
      case Some(p) => ScheduleStaysAbove(t, SetQueue(AddRefs(s, j, 1), g, Put(s.queues[g], j)), p, g, 1, h);
    }
  }

  /** Scheduling queues a job exactly if its backlog is within the limit; otherwise it takes a reference only. */
  lemma ScheduleByPolicy(t: Tree, s: State, g: nat, j: nat, backlog: nat)
    requires Fits(t, s) && t.IsGroup(g) && j < |s.refs|
    ensures var r := Schedule(t, s, g, j, backlog);
            && r.queues[g].total == s.queues[g].total + (if backlog <= Limit(t, g, j) then 1 else 0)
            && (backlog > Limit(t, g, j) ==> r == s.(refs := s.refs[j := s.refs[j] + 1]))
  {
    hide Schedule;
    assert t.EffectiveWeight(g, j) == Limit(t, g, j);
    PutAdds(s.queues[g], j);
    ScheduleOnce(t, s, g, j, backlog);
  }

  lemma PutAdds(q: WeightedQueue.Queue<nat>, j: nat)
    requires CanEnqueue(q)
    ensures Put(q, j).total == q.total + 1
  {
  }

  lemma ScheduleOnce(t: Tree, s: State, g: nat, j: nat, backlog: nat)
    requires Fits(t, s) && t.IsGroup(g) && j < |s.refs|
    ensures var r := Schedule(t, s, g, j, backlog);
            if backlog > t.EffectiveWeight(g, j) then r == s.(refs := s.refs[j := s.refs[j] + 1])
            else r.queues[g] == Put(s.queues[g], j)
  {
    hide Put;
    if backlog <= t.EffectiveWeight(g, j) && t.parent[g].Some? {
      ScheduleStaysAbove(t, SetQueue(AddRefs(s, j, 1), g, Put(s.queues[g], j)), t.parent[g].value, g, 1, g);
    }
  }

  /**
    A service takes one job off the group and puts it back exactly if it is left with a backlog of at least the
    limit: its weight under policy 1, and 100000 under every other.
   */
  lemma ServeByPolicy(t: Tree, s: State, g: nat, report: nat)
    requires Fits(t, s) && t.IsGroup(g) && HasWork(t, s, g) && s.refs[WeightedQueue.NextEntry(s.queues[g])] > 0
    ensures var j, r := WeightedQueue.NextEntry(s.queues[g]), Serve(t, s, g, 0, report);
            var left := if t.IsLeaf(j) then report else r.queues[j].total;
            r.queues[g].total == s.queues[g].total - (if left < Limit(t, g, j) then 1 else 0)
  {
    var j, taken := WeightedQueue.NextEntry(s.queues[g]), TakeOff(t, s, g);
    assert t.EffectiveWeight(g, j) == Limit(t, g, j);
    assert taken.refs[j] >= 0 && taken.queues[g].total == s.queues[g].total - 1;
    if t.IsLeaf(j) {
      ServeLeafQuietly(t, taken, j);
      PutBackAdds(t, ServeLeaf(t, taken, j, 0), g, j, report);
    } else {
      var served := Serve(t, taken, j, 0, report);
      ServeStaysInside(t, taken, j, g, report);
      PutBackAdds(t, served, g, j, served.queues[j].total);
    }
  }

  lemma ServeLeafQuietly(t: Tree, s: State, j: nat)
    requires Fits(t, s) && t.IsLeaf(j)
    ensures ServeLeaf(t, s, j, 0).queues == s.queues
  {
  }

  // ---------------------------------------------------------------- hierarchies without weights

  /** No group serves by weight. */
  predicate Unweighted(t: Tree) {
    forall g: nat :: g < |t.policy| ==> t.policy[g] != Some(1)
  }

  /** Services raise and report nothing. */
  ghost predicate Quiet(ops: seq<Op>) {
    forall i :: 0 <= i < |ops| && ops[i].Turn? ==> ops[i].raised == 0 && ops[i].report == 0
  }

  /** Notifications of leaves under a root less the services of it, none of which counts when there is nothing left. */
  function Outstanding(t: Tree, ops: seq<Op>, root: nat): nat
    requires t.Rooted() && forall i :: 0 <= i < |ops| && ops[i].Raise? ==> ops[i].leaf < |t.parent|
  {
    if ops == [] then 0
    else
      var n := Outstanding(t, ops[..|ops| - 1], root);
      match ops[|ops| - 1]
      case Raise(j) => if RootOf(t, j) == root then n + 1 else n
      case Turn(g, _, _) => if g == root && n > 0 then n - 1 else n
  }

  function Notices(ops: seq<Op>): nat {
    if ops == [] then 0 else Notices(ops[..|ops| - 1]) + if ops[|ops| - 1].Raise? then 1 else 0
  }

  ghost predicate AtMost(s: State, n: nat) {
    forall h: nat :: h < |s.queues| ==> s.queues[h].total <= n
  }

  lemma UnweightedIsPositive(t: Tree)
    requires t.Rooted() && Unweighted(t)
    ensures Positive(t)
    ensures forall g: nat, j: nat :: t.IsGroup(g) && j < |t.weight| ==> Limit(t, g, j) == 100000
    ensures Quick(t, 0)
  {
  }

  /** Every group above a notified leaf gets one entry, and no other. */
  lemma {:induction false} ScheduleReachesTheRoot(t: Tree, s: State, g: nat, j: nat, n: nat)
    requires Fits(t, s) && Unweighted(t) && t.IsGroup(g) && j < |s.refs|
    requires AtMost(s, n)
    ensures var r := Schedule(t, s, g, j, 1);
            && AtMost(r, n + 1)
            && forall h: nat :: h < |s.queues| && t.parent[h].None? ==>
                 r.queues[h].total == s.queues[h].total + if h == RootOf(t, g) then 1 else 0
    decreases g
  {
    hide Put;
    UnweightedIsPositive(t);
    assert t.EffectiveWeight(g, j) == Limit(t, g, j);
    PutAdds(s.queues[g], j);
    var queued := SetQueue(AddRefs(s, j, 1), g, Put(s.queues[g], j));
    match t.parent[g]
    case None =>
    case Some(p) =>
      var rest := SetQueue(queued, g, s.queues[g]);
      ScheduleReachesTheRoot(t, rest, p, g, n);
      ScheduleIgnores(t, rest, queued, p, g, 1, g);
      ScheduleStaysAbove(t, queued, p, g, 1, g);
  }

  /** What stands in the queue of a lower group makes no difference to scheduling. */
  lemma {:induction false} ScheduleIgnores(t: Tree, s: State, r: State, g: nat, j: nat, backlog: nat, k: nat)
    requires Fits(t, s) && Fits(t, r) && t.IsGroup(g) && j < |s.refs| && g < k < |s.queues|
    requires r.refs == s.refs && r.queues == s.queues[k := r.queues[k]]
    ensures forall h: nat :: h < |s.queues| && h != k ==>
              Schedule(t, r, g, j, backlog).queues[h] == Schedule(t, s, g, j, backlog).queues[h]
    decreases g
  {
    hide Put;
    if backlog <= t.EffectiveWeight(g, j) && t.parent[g].Some? {
      ScheduleIgnores(t, SetQueue(AddRefs(s, j, 1), g, Put(s.queues[g], j)),
                      SetQueue(AddRefs(r, j, 1), g, Put(r.queues[g], j)), t.parent[g].value, g, 1, k);
    }
  }

  /** Another root's queue, and everything but what is below the root served, stays as it was. */
  lemma {:induction false} RootsAreApart(t: Tree, s: State, g: nat, h: nat, report: nat)
    requires WellFormed(t, s) && Positive(t) && t.IsGroup(g) && h < |s.queues| && h != g && t.parent[h].None?
    ensures Serve(t, s, g, 0, report).queues[h] == s.queues[h]
    decreases |s.refs| - g
  {
    hide Put, WeightedQueue.Dequeue, WeightedQueue.Valid, HoldsChildren, TakeOff, PutBack, Excess, Balance, Occ;
    if s.queues[g].total > 0 {
      TakeOffEffect(t, s, g);
      var j, taken := WeightedQueue.NextEntry(s.queues[g]), TakeOff(t, s, g);
      if taken.refs[j] >= 0 {
        if t.IsLeaf(j) {
          ServeLeafQuietly(t, taken, j);
          PutBackAdds(t, ServeLeaf(t, taken, j, 0), g, j, report);
        } else {
          RootsAreApart(t, taken, j, h, report);
          var served := Serve(t, taken, j, 0, report);
          PutBackAdds(t, served, g, j, served.queues[j].total);
        }
      }
    }
  }

  lemma RootServed(t: Tree, s: State, g: nat)
    requires WellFormed(t, s) && Backed(t, s) && Unweighted(t) && t.IsGroup(g) && g < |s.refs| && AtMost(s, 99999)
    ensures Serve(t, s, g, 0, 0).queues[g].total == if s.queues[g].total > 0 then s.queues[g].total - 1 else 0
    ensures forall h: nat :: h < |s.queues| ==> Serve(t, s, g, 0, 0).queues[h].total <= s.queues[h].total
  {
    UnweightedIsPositive(t);
    ServeShrinks(t, s, g, 0);
    hide WeightedQueue.Valid, HoldsChildren, Balance, TakeOff, PutBack, Unweighted, Quick, Limit, Serve, Occ;
    if s.queues[g].total > 0 {
      TakeOffEffect(t, s, g);
      var j := WeightedQueue.NextEntry(s.queues[g]);
      assert s.refs[j] > 0 by { Referenced(t, s, j); }
      ServeByPolicy(t, s, g, 0);
    }
  }

  lemma Referenced(t: Tree, s: State, j: nat)
    requires Fits(t, s) && Backed(t, s) && j < |s.refs| && Occ(t, s, j) > 0
    ensures s.refs[j] > 0
  {
    assert Balance(t, s, j) >= 0;
  }

  /**
    In a hierarchy without weights a root has exactly one entry for every notification below it that it has not
    served: no backlog further down is asked about, as long as there are fewer than 100000 of them.
   */
  lemma {:induction false} RootsCountNotifications(t: Tree, ops: seq<Op>, root: nat)
    requires t.Rooted() && Unweighted(t) && AllProper(t, ops) && Quiet(ops) && Notices(ops) < 100000
    requires t.IsGroup(root) && root < |t.parent| && t.parent[root].None?
    ensures Run(t, EmptyState(t), ops).queues[root].total == Outstanding(t, ops, root)
    ensures AtMost(Run(t, EmptyState(t), ops), Notices(ops))
  {
    UnweightedIsPositive(t);
    if ops != [] {
      var front, op := ops[..|ops| - 1], ops[|ops| - 1];
      var before := Run(t, EmptyState(t), front);
      RootsCountNotifications(t, front, root);
      EmptyIsSound(t);
      RunKeepsWellFormed(t, EmptyState(t), front);
      hide WeightedQueue.Valid, HoldsChildren, Balance, Serve, Schedule, Unweighted, EmptyState, Positive;
      match op
      case Raise(j) =>
        assert Proper(t, op);
        NotifiedRoots(t, before, j, Notices(front), root);
      case Turn(g, raised, report) =>
        assert Proper(t, op) && raised == 0 && report == 0;
        RootServed(t, before, g);
        if g != root {
          RootsAreApart(t, before, g, root, 0);
        }
    }
  }

  lemma NotifiedRoots(t: Tree, s: State, j: nat, n: nat, root: nat)
    requires Fits(t, s) && Unweighted(t) && t.IsLeaf(j) && j < |t.parent| && AtMost(s, n)
    requires root < |t.parent| && t.parent[root].None?
    ensures AtMost(Notify(t, s, j), n + 1)
    ensures Notify(t, s, j).queues[root].total == s.queues[root].total + if RootOf(t, j) == root then 1 else 0
  {
    hide Schedule;
    ScheduleReachesTheRoot(t, SetEvents(s, j, s.events[j] + 1), t.parent[j].value, j, n);
  }
}
