/** A run from empty queues that leaves an event of a peer below an empty root. */
module JobLoss {
  import opened Basics
  import WeightedQueue
  import opened JobScheduler

  /** A queue of one priority and one weight that holds these jobs. */
  function Line(jobs: seq<nat>): WeightedQueue.Queue<nat> {
    WeightedQueue.Queue(1, 1, [if jobs == [] then [] else [0]], [jobs], |jobs|)
  }

  lemma LineSteps(jobs: seq<nat>, j: nat)
    ensures Put(Line(jobs), j) == Line(jobs + [j])
    ensures jobs != [] ==>
              && WeightedQueue.Serves(Line(jobs)) && WeightedQueue.NextEntry(Line(jobs)) == jobs[0]
              && WeightedQueue.Dequeue(Line(jobs)) == Line(jobs[1..])
  {
    var q := Line(jobs);
    assert q.data[0 := q.data[0] + [j]] == [jobs + [j]];
    if jobs == [] {
      assert q.index[0] + [0] == [0];
      assert q.index[0 := q.index[0] + [0]] == Line([j]).index;
    } else {
      var rest := jobs[1..];
      assert WeightedQueue.BestClass(q.index) == 0 && q.index[0][1..] == [];
      assert q.index[0][1..] + (if |rest| >= 1 then [0] else []) == Line(rest).index[0];
      assert q.index[0 := Line(rest).index[0]] == Line(rest).index;
      assert q.data[0 := rest] == [rest];
    }
    assert WeightedQueue.FlowIndex(1, 1, 1) == 0 && WeightedQueue.ClassIndex(1) == 0;
  }

  /**
    Job 1 is a group of weight 3 in the root 0. It holds groups 2 and 3 of weight 1, each with one leaf:
    job 4 in group 2 and job 5 in group 3.
   */
  function Fork(): (t: Tree)
    ensures t.Rooted()
  {
    Tree([None, Some(0), Some(1), Some(1), Some(2), Some(3)], [1, 3, 1, 1, 1, 1],
         [Some(SCHED_WFQ), Some(SCHED_WFQ), Some(SCHED_WFQ), Some(SCHED_WFQ), None, None])
  }

  /** The queues of jobs 0 to 3, everyone's references, and the events of the two leaves. */
  function With(a: seq<nat>, b: seq<nat>, c: seq<nat>, d: seq<nat>, refs: seq<int>, ex: nat, ey: nat): State {
    State([Line(a), Line(b), Line(c), Line(d), Line([]), Line([])], refs, [0, 0, 0, 0, ex, ey])
  }

  lemma Fitting(t: Tree, a: seq<nat>, b: seq<nat>, c: seq<nat>, d: seq<nat>, refs: seq<int>, ex: nat, ey: nat)
    requires t == Fork() && |refs| == 6
    ensures Fits(t, With(a, b, c, d, refs, ex, ey))
  {
  }

  /** Group 2 serves its leaf, or nothing when its queue is empty. */
  lemma ServeTwo(t: Tree, a: seq<nat>, b: seq<nat>, c: seq<nat>, d: seq<nat>, refs: seq<int>, ex: nat, ey: nat)
    requires t == Fork() && |refs| == 6 && (c != [] ==> c[0] == 4 && ex > 0 && refs[4] > 0)
    ensures Fits(t, With(a, b, c, d, refs, ex, ey))
    ensures Serve(t, With(a, b, c, d, refs, ex, ey), 2, 0, 0) ==
            if c == [] then With(a, b, c, d, refs, ex, ey)
            else With(a, b, c[1..], d, refs[4 := refs[4] - 1], ex - 1, ey)
  {
    var s := With(a, b, c, d, refs, ex, ey);
    Fitting(t, a, b, c, d, refs, ex, ey);
    LineSteps(c, 4);
    if c != [] {
      var m := With(a, b, c[1..], d, refs[4 := refs[4] - 1], ex, ey);
      var r := With(a, b, c[1..], d, refs[4 := refs[4] - 1], ex - 1, ey);
      hide Line, WeightedQueue.Serves, WeightedQueue.NextEntry, WeightedQueue.Dequeue;
      assert TakeOff(t, s, 2) == m;
      assert ServeLeaf(t, m, 4, 0) == r;
    }
  }

  /** Group 1 serves group 2, which goes back into its queue when something is left in it. */
  lemma ServeOne(t: Tree, a: seq<nat>, b: seq<nat>, c: seq<nat>, d: seq<nat>, refs: seq<int>, ex: nat, ey: nat)
    requires t == Fork() && |refs| == 6 && b != [] && b[0] == 2 && refs[2] > 0
    requires c != [] ==> c[0] == 4 && ex > 0 && refs[4] > 0
    ensures Fits(t, With(a, b, c, d, refs, ex, ey))
    ensures Serve(t, With(a, b, c, d, refs, ex, ey), 1, 0, 0) ==
            if c == [] then With(a, b[1..], c, d, refs[2 := refs[2] - 1], ex, ey)
            else if |c| == 1 then With(a, b[1..], [], d, refs[2 := refs[2] - 1][4 := refs[4] - 1], ex - 1, ey)
            else With(a, b[1..] + [2], c[1..], d, refs[4 := refs[4] - 1], ex - 1, ey)
  {
    var s := With(a, b, c, d, refs, ex, ey);
    var less := refs[2 := refs[2] - 1];
    TakeOne(t, a, b, c, d, refs, ex, ey);
    ServeTwo(t, a, b[1..], c, d, less, ex, ey);
    var served := Serve(t, With(a, b[1..], c, d, less, ex, ey), 2, 0, 0);
    if c != [] {
      BackToOne(t, a, b[1..], c[1..], d, less[4 := refs[4] - 1], ex - 1, ey);
      assert less[4 := refs[4] - 1][2 := refs[2]] == refs[4 := refs[4] - 1];
      assert |c| == 1 ==> c[1..] == [];
    } else {
      BackToOne(t, a, b[1..], c, d, less, ex, ey);
    }
    hide Line, WeightedQueue.Serves, WeightedQueue.NextEntry, TakeOff, PutBack, HasWork;
    assert less[2] >= 0;
  }

  lemma TakeOne(t: Tree, a: seq<nat>, b: seq<nat>, c: seq<nat>, d: seq<nat>, refs: seq<int>, ex: nat, ey: nat)
    requires t == Fork() && |refs| == 6 && b != [] && b[0] == 2
    ensures var s := With(a, b, c, d, refs, ex, ey);
            && Fits(t, s) && HasWork(t, s, 1) && WeightedQueue.NextEntry(s.queues[1]) == 2
            && TakeOff(t, s, 1) == With(a, b[1..], c, d, refs[2 := refs[2] - 1], ex, ey)
  {
    Fitting(t, a, b, c, d, refs, ex, ey);
    LineSteps(b, 2);
    hide Line, WeightedQueue.Serves, WeightedQueue.NextEntry, WeightedQueue.Dequeue;
    assert TakeOff(t, With(a, b, c, d, refs, ex, ey), 1) == With(a, b[1..], c, d, refs[2 := refs[2] - 1], ex, ey);
  }

  lemma BackToOne(t: Tree, a: seq<nat>, b: seq<nat>, c: seq<nat>, d: seq<nat>, refs: seq<int>, ex: nat, ey: nat)
    requires t == Fork() && |refs| == 6
    ensures var s := With(a, b, c, d, refs, ex, ey);
            && Fits(t, s) && s.queues[2].total == |c|
            && PutBack(t, s, 1, 2, |c|) ==
                 if c == [] then s else With(a, b + [2], c, d, refs[2 := refs[2] + 1], ex, ey)
  {
    Fitting(t, a, b, c, d, refs, ex, ey);
    LineSteps(b, 2);
    hide Line, Put;
    if c != [] {
      assert PutBack(t, With(a, b, c, d, refs, ex, ey), 1, 2, |c|) ==
             With(a, b + [2], c, d, refs[2 := refs[2] + 1], ex, ey);
    }
  }

  lemma TakeRoot(t: Tree, a: seq<nat>, b: seq<nat>, c: seq<nat>, d: seq<nat>, refs: seq<int>, ex: nat, ey: nat)
    requires t == Fork() && |refs| == 6 && a != [] && a[0] == 1
    ensures var s := With(a, b, c, d, refs, ex, ey);
            && Fits(t, s) && HasWork(t, s, 0) && WeightedQueue.NextEntry(s.queues[0]) == 1
            && TakeOff(t, s, 0) == With(a[1..], b, c, d, refs[1 := refs[1] - 1], ex, ey)
  {
    Fitting(t, a, b, c, d, refs, ex, ey);
    LineSteps(a, 1);
    hide Line, WeightedQueue.Serves, WeightedQueue.NextEntry, WeightedQueue.Dequeue;
    assert TakeOff(t, With(a, b, c, d, refs, ex, ey), 0) == With(a[1..], b, c, d, refs[1 := refs[1] - 1], ex, ey);
  }

  /** The root serves job 1 and forgets it: what it still holds is below its weight. */
  lemma ServeRoot(t: Tree, a: seq<nat>, b: seq<nat>, c: seq<nat>, d: seq<nat>, refs: seq<int>, ex: nat, ey: nat,
                  served: State)
    requires t == Fork() && |refs| == 6 && a != [] && a[0] == 1 && refs[1] > 0
    requires Fits(t, With(a[1..], b, c, d, refs[1 := refs[1] - 1], ex, ey))
    requires served == Serve(t, With(a[1..], b, c, d, refs[1 := refs[1] - 1], ex, ey), 1, 0, 0)
    requires served.queues[1].total < 3
    ensures Fits(t, With(a, b, c, d, refs, ex, ey)) && Serve(t, With(a, b, c, d, refs, ex, ey), 0, 0, 0) == served
  {
    TakeRoot(t, a, b, c, d, refs, ex, ey);
    hide Line, WeightedQueue.Serves, WeightedQueue.NextEntry, TakeOff, HasWork;
    assert t.EffectiveWeight(0, 1) == 3;
    assert refs[1 := refs[1] - 1][1] >= 0;
  }

  lemma ScheduleInRoot(t: Tree, a: seq<nat>, b: seq<nat>, c: seq<nat>, d: seq<nat>, refs: seq<int>, ex: nat, ey: nat)
    requires t == Fork() && |refs| == 6
    ensures var s := With(a, b, c, d, refs, ex, ey);
            Fits(t, s) && Schedule(t, s, 0, 1, 1) == With(a + [1], b, c, d, refs[1 := refs[1] + 1], ex, ey)
  {
    Fitting(t, a, b, c, d, refs, ex, ey);
    LineSteps(a, 1);
    hide Line, Put;
    var s := With(a, b, c, d, refs, ex, ey);
    assert SetQueue(AddRefs(s, 1, 1), 0, Put(s.queues[0], 1)) == With(a + [1], b, c, d, refs[1 := refs[1] + 1], ex, ey);
  }

  /** Scheduling group 2 or 3 in group 1 schedules group 1 in the root. */
  lemma ScheduleInOne(t: Tree, a: seq<nat>, b: seq<nat>, c: seq<nat>, d: seq<nat>, refs: seq<int>, ex: nat, ey: nat,
                      j: nat)
    requires t == Fork() && |refs| == 6 && 2 <= j <= 3
    ensures var s := With(a, b, c, d, refs, ex, ey);
            && Fits(t, s)
            && Schedule(t, s, 1, j, 1) ==
                 With(a + [1], b + [j], c, d, refs[j := refs[j] + 1][1 := refs[1] + 1], ex, ey)
  {
    Fitting(t, a, b, c, d, refs, ex, ey);
    LineSteps(b, j);
    hide Line, Put;
    var s := With(a, b, c, d, refs, ex, ey);
    var more := refs[j := refs[j] + 1];
    assert SetQueue(AddRefs(s, j, 1), 1, Put(s.queues[1], j)) == With(a, b + [j], c, d, more, ex, ey);
    ScheduleInRoot(t, a, b + [j], c, d, more, ex, ey);
    hide With;
  }

  lemma ScheduleInThree(t: Tree, a: seq<nat>, b: seq<nat>, c: seq<nat>, d: seq<nat>, refs: seq<int>, ex: nat, ey: nat)
    requires t == Fork() && |refs| == 6
    ensures var s := With(a, b, c, d, refs, ex, ey);
            && Fits(t, s)
            && Schedule(t, s, 3, 5, 1) ==
                 With(a + [1], b + [3], c, d + [5], refs[5 := refs[5] + 1][3 := refs[3] + 1][1 := refs[1] + 1], ex, ey)
  {
    Fitting(t, a, b, c, d, refs, ex, ey);
    LineSteps(d, 5);
    hide Line, Put;
    var s := With(a, b, c, d, refs, ex, ey);
    var more := refs[5 := refs[5] + 1];
    assert SetQueue(AddRefs(s, 5, 1), 3, Put(s.queues[3], 5)) == With(a, b, c, d + [5], more, ex, ey);
    ScheduleInOne(t, a, b, c, d + [5], more, ex, ey, 3);
    hide With;
  }

  /** Notifying leaf 5 puts it, group 3 and group 1 into queues. */
  lemma NotifyFive(t: Tree, a: seq<nat>, b: seq<nat>, c: seq<nat>, d: seq<nat>, refs: seq<int>, ex: nat, ey: nat)
    requires t == Fork() && |refs| == 6
    ensures Fits(t, With(a, b, c, d, refs, ex, ey))
    ensures Notify(t, With(a, b, c, d, refs, ex, ey), 5) ==
            With(a + [1], b + [3], c, d + [5], refs[5 := refs[5] + 1][3 := refs[3] + 1][1 := refs[1] + 1], ex, ey + 1)
  {
    Fitting(t, a, b, c, d, refs, ex, ey);
    hide Line, Schedule;
    assert SetEvents(With(a, b, c, d, refs, ex, ey), 5, ey + 1) == With(a, b, c, d, refs, ex, ey + 1);
    ScheduleInThree(t, a, b, c, d, refs, ex, ey + 1);
    hide With;
  }

  lemma ScheduleInTwo(t: Tree, a: seq<nat>, b: seq<nat>, c: seq<nat>, d: seq<nat>, refs: seq<int>, ex: nat, ey: nat)
    requires t == Fork() && |refs| == 6
    ensures var s := With(a, b, c, d, refs, ex, ey);
            && Fits(t, s)
            && Schedule(t, s, 2, 4, 1) ==
                 With(a + [1], b + [2], c + [4], d, refs[4 := refs[4] + 1][2 := refs[2] + 1][1 := refs[1] + 1], ex, ey)
  {
    Fitting(t, a, b, c, d, refs, ex, ey);
    LineSteps(c, 4);
    hide Line, Put;
    var s := With(a, b, c, d, refs, ex, ey);
    var more := refs[4 := refs[4] + 1];
    assert SetQueue(AddRefs(s, 4, 1), 2, Put(s.queues[2], 4)) == With(a, b, c + [4], d, more, ex, ey);
    ScheduleInOne(t, a, b, c + [4], d, more, ex, ey, 2);
    hide With;
  }

  /** Notifying leaf 4 puts it, group 2 and group 1 into queues. */
  lemma NotifyFour(t: Tree, a: seq<nat>, b: seq<nat>, c: seq<nat>, d: seq<nat>, refs: seq<int>, ex: nat, ey: nat)
    requires t == Fork() && |refs| == 6
    ensures Fits(t, With(a, b, c, d, refs, ex, ey))
    ensures Notify(t, With(a, b, c, d, refs, ex, ey), 4) ==
            With(a + [1], b + [2], c + [4], d, refs[4 := refs[4] + 1][2 := refs[2] + 1][1 := refs[1] + 1], ex + 1, ey)
  {
    Fitting(t, a, b, c, d, refs, ex, ey);
    hide Line, Schedule;
    assert SetEvents(With(a, b, c, d, refs, ex, ey), 4, ex + 1) == With(a, b, c, d, refs, ex + 1, ey);
    ScheduleInTwo(t, a, b, c, d, refs, ex + 1, ey);
    hide With;
  }

  /**
    Nothing is queued; then leaf 4 is notified twice, the root serves, leaf 5 is notified, and the root serves
    twice more. Its queue is empty now, but leaf 5 still has its event and stands in the queue of group 3.
   */
  lemma EventsCanBeLost(t: Tree)
    requires t == Fork()
    ensures var s0 := With([], [], [], [], [1, 1, 1, 1, 1, 1], 0, 0);
            && Fits(t, s0)
            && var s1 := Notify(t, Notify(t, s0, 4), 4);
               var s2 := Notify(t, Serve(t, s1, 0, 0, 0), 5);
               var s3 := Serve(t, Serve(t, s2, 0, 0, 0), 0, 0, 0);
               s3 == With([], [3], [], [5], [1, 1, 1, 2, 1, 2], 0, 1)
  {
    hide With, Serve, Notify;
    FirstNotices(t);
    FirstTurn(t);
    NotifyFive(t, [1], [2, 2], [4], [], [1, 2, 3, 1, 2, 1], 1, 0);
    assert [1] + [1] == [1, 1] && [2, 2] + [3] == [2, 2, 3] && [] + [5] == [5];
    assert [1, 2, 3, 1, 2, 1][5 := 2][3 := 2][1 := 3] == [1, 3, 3, 2, 2, 2];
    LastTurns(t);
  }

  lemma FirstNotices(t: Tree)
    requires t == Fork()
    ensures Fits(t, With([], [], [], [], [1, 1, 1, 1, 1, 1], 0, 0))
    ensures Notify(t, Notify(t, With([], [], [], [], [1, 1, 1, 1, 1, 1], 0, 0), 4), 4) ==
            With([1, 1], [2, 2], [4, 4], [], [1, 3, 3, 1, 3, 1], 2, 0)
  {
    hide With, Notify;
    NotifyFour(t, [], [], [], [], [1, 1, 1, 1, 1, 1], 0, 0);
    assert [] + [1] == [1] && [] + [2] == [2] && [] + [4] == [4];
    assert [1, 1, 1, 1, 1, 1][4 := 2][2 := 2][1 := 2] == [1, 2, 2, 1, 2, 1];
    NotifyFour(t, [1], [2], [4], [], [1, 2, 2, 1, 2, 1], 1, 0);
    assert [1] + [1] == [1, 1] && [2] + [2] == [2, 2] && [4] + [4] == [4, 4];
    assert [1, 2, 2, 1, 2, 1][4 := 3][2 := 3][1 := 3] == [1, 3, 3, 1, 3, 1];
  }

  lemma FirstTurn(t: Tree)
    requires t == Fork()
    ensures Fits(t, With([1, 1], [2, 2], [4, 4], [], [1, 3, 3, 1, 3, 1], 2, 0))
    ensures Serve(t, With([1, 1], [2, 2], [4, 4], [], [1, 3, 3, 1, 3, 1], 2, 0), 0, 0, 0) ==
            With([1], [2, 2], [4], [], [1, 2, 3, 1, 2, 1], 1, 0)
  {
    hide Serve;
    var refs := [1, 2, 3, 1, 3, 1];
    assert [1, 3, 3, 1, 3, 1][1 := 2] == refs && refs[4 := 2] == [1, 2, 3, 1, 2, 1];
    assert [1, 1][1..] == [1] && [2, 2][1..] + [2] == [2, 2] && [4, 4][1..] == [4];
    ServeOne(t, [1], [2, 2], [4, 4], [], refs, 2, 0);
    ServeRoot(t, [1, 1], [2, 2], [4, 4], [], [1, 3, 3, 1, 3, 1], 2, 0,
              With([1], [2, 2], [4], [], [1, 2, 3, 1, 2, 1], 1, 0));
  }

  lemma LastTurns(t: Tree)
    requires t == Fork()
    ensures Fits(t, With([1, 1], [2, 2, 3], [4], [5], [1, 3, 3, 2, 2, 2], 1, 1))
    ensures var s3 := Serve(t, With([1, 1], [2, 2, 3], [4], [5], [1, 3, 3, 2, 2, 2], 1, 1), 0, 0, 0);
            Serve(t, s3, 0, 0, 0) == With([], [3], [], [5], [1, 1, 1, 2, 1, 2], 0, 1)
  {
    hide Serve;
    var r1 := [1, 2, 3, 2, 2, 2];
    assert [1, 3, 3, 2, 2, 2][1 := 2] == r1 && r1[2 := 2][4 := 1] == [1, 2, 2, 2, 1, 2];
    assert [1, 1][1..] == [1] && [2, 2, 3][1..] == [2, 3] && [1][1..] == [] && [2, 3][1..] == [3];
    ServeOne(t, [1], [2, 2, 3], [4], [5], r1, 1, 1);
    ServeRoot(t, [1, 1], [2, 2, 3], [4], [5], [1, 3, 3, 2, 2, 2], 1, 1,
              With([1], [2, 3], [], [5], [1, 2, 2, 2, 1, 2], 0, 1));
    var r2 := [1, 1, 2, 2, 1, 2];
    assert [1, 2, 2, 2, 1, 2][1 := 1] == r2 && r2[2 := 1] == [1, 1, 1, 2, 1, 2];
    ServeOne(t, [], [2, 3], [], [5], r2, 0, 1);
    ServeRoot(t, [1], [2, 3], [], [5], [1, 2, 2, 2, 1, 2], 0, 1, With([], [3], [], [5], [1, 1, 1, 2, 1, 2], 0, 1));
  }
}
