/** `AAA_GroupedJob` and the peers' event queues, updating their queues and counts in place. */
module JobGroups {
  import opened Basics
  import opened WeightedQueue
  import JobScheduler
  import JobCover

  type Tree = JobScheduler.Tree

  class Jobs {
    const tree: Tree
    var queues: seq<Queue<nat>>
    var refs: seq<int>
    var events: seq<nat>

    function View(): JobScheduler.State
      reads this
    {
      JobScheduler.State(queues, refs, events)
    }

    ghost predicate Valid()
      reads this
    {
      JobScheduler.WellFormed(tree, View()) && JobScheduler.Positive(tree)
    }

    predicate IsGroup(g: nat)
      reads this
    {
      g < |queues| && tree.IsGroup(g)
    }

    /** Empty queues, no references beyond, no events: every leaf is fed. */
    constructor (tree: Tree)
      requires tree.Rooted() && JobScheduler.Positive(tree)
      ensures Valid() && this.tree == tree && View() == JobCover.EmptyState(tree)
      ensures JobScheduler.LeavesFed(tree, View())
    {
      this.tree := tree;
      queues := seq(|tree.parent|, _ => Empty(1, 1));
      refs := seq(|tree.parent|, _ => 0);
      events := seq(|tree.parent|, _ => 0);
      new;
      JobCover.EmptyIsSound(tree);
      assert View() == JobCover.EmptyState(tree);
    }

    method Acquire(j: nat)
      requires j < |refs|
      modifies this`refs
      ensures refs == old(refs)[j := old(refs[j]) + 1]
    {
      refs := refs[j := refs[j] + 1];
    }

    /** Whether the job is still alive. */
    method Release(j: nat, n: nat) returns (alive: bool)
      requires j < |refs|
      modifies this`refs
      ensures refs == old(refs)[j := old(refs[j]) - n]
      ensures alive <==> refs[j] >= 0
    {
      refs := refs[j := refs[j] - n];
      alive := refs[j] >= 0;
    }

    method Put(g: nat, j: nat)
      requires JobScheduler.Fits(tree, View()) && IsGroup(g)
      modifies this`queues
      ensures queues == old(queues)[g := JobScheduler.Put(old(queues[g]), j)]
    {
      queues := queues[g := Enqueue(queues[g], j, 1, 1)];
    }

    /** Takes a reference, and queues the job here and this group in every group above it. */
    method Schedule(g: nat, j: nat, backlog: nat)
      requires JobScheduler.Fits(tree, View()) && IsGroup(g) && j < |refs|
      modifies this`queues, this`refs
      ensures View() == JobScheduler.Schedule(tree, old(View()), g, j, backlog)
      decreases g
    {
      Acquire(j);
      if backlog > tree.EffectiveWeight(g, j) {
        return;
      }
      Put(g, j);
      if tree.parent[g].Some? {
        Schedule(tree.parent[g].value, g, 1);
      }
    }

    method Notify(j: nat)
      requires JobScheduler.Fits(tree, View()) && j < |refs| && tree.IsLeaf(j)
      modifies this
      ensures View() == JobScheduler.Notify(tree, old(View()), j)
      ensures old(Valid() && JobScheduler.LeavesFed(tree, View())) ==> Valid() && JobScheduler.LeavesFed(tree, View())
    {
      hide JobScheduler.WellFormed, JobScheduler.Positive, JobScheduler.LeavesFed, JobScheduler.Excess;
      ghost var before := View();
      events := events[j := events[j] + 1];
      Schedule(tree.parent[j].value, j, 1);
      if JobScheduler.WellFormed(tree, before) && JobScheduler.Positive(tree) && JobScheduler.LeavesFed(tree, before) {
        JobCover.RaiseKeepsFed(tree, before, j);
      }
    }

    /** A peer serves its first event, which raises further ones. */
    method ServeLeaf(j: nat, raised: nat)
      requires JobScheduler.Fits(tree, View()) && j < |refs| && tree.IsLeaf(j) && events[j] > 0
      modifies this
      ensures View() == JobScheduler.ServeLeaf(tree, old(View()), j, raised)
    {
      events := events[j := events[j] - 1];
      ghost var taken := View();
      var i := 0;
      while i < raised
        invariant i <= raised
        invariant JobScheduler.Fits(tree, View()) && |refs| == old(|refs|)
        invariant View() == JobScheduler.NotifyTimes(tree, taken, j, i)
      {
        Notify(j);
        i := i + 1;
      }
    }

    /** Takes the next job off the queue of a group and releases it; None when the queue is empty. */
    method TakeOff(g: nat) returns (j: Option<nat>)
      requires Valid() && IsGroup(g)
      modifies this`queues, this`refs
      ensures j.None? <==> old(queues[g]).total == 0
      ensures j.None? <==> !JobScheduler.HasWork(tree, old(View()), g)
      ensures j.None? ==> View() == old(View())
      ensures j.Some? ==> j.value == NextEntry(old(queues[g])) && View() == JobScheduler.TakeOff(tree, old(View()), g)
    {
      if queues[g].total == 0 {
        return None;
      }
      JobScheduler.TakeOffEffect(tree, View(), g);
      var job := NextEntry(queues[g]);
      queues := queues[g := Dequeue(queues[g])];
      var _ := Release(job, 1);
      j := Some(job);
    }

    method PutBack(g: nat, j: nat, backlog: nat)
      requires JobScheduler.Fits(tree, View()) && IsGroup(g) && j < |refs|
      modifies this`queues, this`refs
      ensures View() == JobScheduler.PutBack(tree, old(View()), g, j, backlog)
    {
      if backlog >= tree.EffectiveWeight(g, j) {
        Acquire(j);
        Put(g, j);
      }
    }

    /**
      Serves the next job of a group, and puts it back if it reports a backlog of at least its weight. Leaves stay fed
      as long as they report less than theirs.
     */
    method Serve(g: nat, raised: nat, report: nat)
      requires Valid() && JobScheduler.LeavesFed(tree, View()) && IsGroup(g)
      modifies this
      ensures View() == JobScheduler.Serve(tree, old(View()), g, raised, report) && Valid()
      ensures JobCover.Quick(tree, report) ==> JobScheduler.LeavesFed(tree, View())
      decreases |refs| - g
    {
      hide WeightedQueue.Valid, JobScheduler.HoldsChildren, JobScheduler.Occ, JobScheduler.TakeOff,
           JobScheduler.PutBack, JobScheduler.ServeLeaf;
      ghost var before := View();
      JobScheduler.ServeKeepsBalance(tree, before, g, raised, report);
      if JobCover.Quick(tree, report) {
        JobCover.ServeKeepsFed(tree, before, g, raised, report);
      }
      var next := TakeOff(g);
      if next.None? {
        return;
      }
      var j := next.value;
      JobScheduler.TakeOffEffect(tree, before, g);
      if refs[j] < 0 {
        return;
      }
      var backlog := report;
      if tree.IsLeaf(j) {
        JobScheduler.LeafHasEvent(tree, before, j);
        JobScheduler.ServeLeafEffect(tree, View(), j, raised);
        ServeLeaf(j, raised);
      } else {
        JobScheduler.ServeKeepsBalance(tree, View(), j, raised, report);
        FedAfterTaking(tree, before, g);
        Serve(j, raised, report);
        backlog := queues[j].total;
      }
      PutBack(g, j, backlog);
    }

    /** Drops every entry of a job from a group, and as many references. */
    method Remove(g: nat, j: nat)
      requires Valid() && IsGroup(g) && j < |refs| && tree.parent[j] == Some(g)
      modifies this`queues, this`refs
      ensures Valid() && View() == JobScheduler.Removed(old(View()), g, j)
    {
      ghost var before := View();
      JobScheduler.RemoveKeepsBalance(tree, before, g, j);
      JobScheduler.RemoveEffect(queues[g], j);
      var total := queues[g].total;
      queues := queues[g := WeightedQueue.Remove(queues[g], j)];
      var n := total - queues[g].total;
      var _ := Release(j, n);
      assert View() == JobScheduler.Removed(before, g, j);
    }

    /** Empties a group and releases what it held. */
    method Flush(g: nat)
      requires Valid() && IsGroup(g)
      modifies this`queues, this`refs
      ensures Valid() && View() == JobScheduler.Flushed(tree, old(View()), g) && queues[g].total == 0
    {
      while queues[g].total > 0
        invariant Valid() && IsGroup(g)
        invariant JobScheduler.Flushed(tree, View(), g) == JobScheduler.Flushed(tree, old(View()), g)
        decreases queues[g].total
      {
        JobScheduler.TakeOffEffect(tree, View(), g);
        var _ := TakeOff(g);
      }
    }
  }

  lemma FedAfterTaking(t: Tree, s: JobScheduler.State, g: nat)
    requires JobScheduler.WellFormed(t, s) && t.IsGroup(g) && s.queues[g].total > 0 && JobScheduler.LeavesFed(t, s)
    ensures JobScheduler.HasWork(t, s, g) && JobScheduler.LeavesFed(t, JobScheduler.TakeOff(t, s, g))
  {
    JobScheduler.TakeOffEffect(t, s, g);
  }
}
