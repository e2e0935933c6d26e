/**
  Exactly when no run strands a job: if a group weighs more than the backlog at which a group inside it is first put
  back, enough notifications of one peer, followed by services of the root, leave a job below an empty root.
 */
module JobStranding {
  import opened Basics
  import WeightedQueue
  import opened JobScheduler
  import opened JobCover

  // ---------------------------------------------------------------- what runs from empty queues may do

  /** A job stands in a queue and the root above it has nothing to serve. */
  ghost predicate Stranded(t: Tree, s: State)
    requires Fits(t, s)
  {
    exists j: nat :: j < |s.refs| && Occ(t, s, j) > 0 && RootOf(t, j) < |s.queues| && s.queues[RootOf(t, j)].total == 0
  }

  ghost predicate NeverStrands(t: Tree)
    requires t.Rooted()
  {
    forall ops: seq<Op> :: AllProper(t, ops) ==> !Stranded(t, Run(t, EmptyState(t), ops))
  }

  /** Every run from empty queues keeps every child group covered. */
  ghost predicate RunsCover(t: Tree)
    requires t.Rooted()
  {
    forall ops: seq<Op> :: AllProper(t, ops) ==> Covered(t, Run(t, EmptyState(t), ops))
  }

  /** So does every service of a root from any sound state. */
  ghost predicate AlwaysCovers(t: Tree)
    requires t.Rooted()
  {
    forall s: State, op: Op :: Sound(t, s) && Proper(t, op) ==> Covered(t, Step(t, s, op))
  }

  lemma {:induction false} RunAppend(t: Tree, s: State, a: seq<Op>, b: seq<Op>)
    requires Fits(t, s) && AllProper(t, a) && AllProper(t, b)
    ensures AllProper(t, a + b) && Run(t, s, a + b) == Run(t, Run(t, s, a), b)
  {
    hide Step, Proper, Fits;
    if b == [] {
      assert a + b == a;
    } else {
      var last := |b| - 1;
      RunAppend(t, s, a, b[..last]);
      assert (a + b)[..|a + b| - 1] == a + b[..last];
    }
  }

  lemma {:induction false} RunKeepsWellFormed(t: Tree, s: State, ops: seq<Op>)
    requires t.Rooted() && WellFormed(t, s) && Backed(t, s) && Positive(t) && AllProper(t, ops)
    ensures WellFormed(t, Run(t, s, ops)) && Backed(t, Run(t, s, ops))
  {
    hide WeightedQueue.Valid, HoldsChildren, Balance, Excess, Serve, Notify;
    if ops != [] {
      var before := Run(t, s, ops[..|ops| - 1]);
      RunKeepsWellFormed(t, s, ops[..|ops| - 1]);
      match ops[|ops| - 1]
      case Raise(j) =>
        NotifyEffect(t, before, j);
        forall x: nat | x < |s.refs| ensures Balance(t, Notify(t, before, j), x) >= 0 {
          assert KeepsAt(t, before, Notify(t, before, j), x);
        }
      case Turn(g, raised, report) =>
        ServeKeepsBalance(t, before, g, raised, report);
    }
  }

  // ---------------------------------------------------------------- ways down to a leaf

  /** Jobs of which each is the parent of the next and the last is a leaf. */
  ghost predicate IsPath(t: Tree, path: seq<nat>)
    requires t.Rooted()
  {
    && |path| >= 2
    && (forall a :: 0 <= a < |path| ==> path[a] < |t.parent|)
    && (forall a, b :: 0 <= a < b < |path| ==> path[a] < path[b])
    && (forall a :: 0 <= a < |path| - 1 ==> Follows(t, path, a))
    && t.IsLeaf(path[|path| - 1])
  }

  predicate Follows(t: Tree, path: seq<nat>, a: nat)
    requires a + 1 < |path| && path[a + 1] < |t.parent|
  {
    t.parent[path[a + 1]] == Some(path[a])
  }

  lemma Beyond(t: Tree, path: seq<nat>)
    requires t.Rooted() && IsPath(t, path)
    ensures t.IsGroup(path[0]) && t.parent[path[1]] == Some(path[0]) && path[0] < path[1]
    ensures |path| > 2 ==> IsPath(t, path[1..]) && IsChildGroup(t, path[1])
    ensures |path| == 2 ==> t.IsLeaf(path[1])
  {
    assert Follows(t, path, 0);
    if |path| > 2 {
      var rest := path[1..];
      forall a | 0 <= a < |rest| - 1 ensures Follows(t, rest, a) {
        assert Follows(t, path, a + 1);
      }
      assert Follows(t, rest, 0);
    }
  }

  lemma Above(t: Tree, x: nat, rest: seq<nat>)
    requires t.Rooted() && |rest| > 0 && rest[0] < |t.parent| && t.parent[rest[0]] == Some(x)
    requires IsPath(t, rest) || (|rest| == 1 && t.IsLeaf(rest[0]))
    ensures IsPath(t, [x] + rest)
  {
    var path := [x] + rest;
    forall a | 0 <= a < |path| - 1 ensures Follows(t, path, a) {
      if a > 0 {
        assert Follows(t, rest, a - 1);
      }
    }
  }

  /** Every group has a child, and so a leaf somewhere below it. */
  ghost predicate Peopled(t: Tree) {
    forall g: nat :: t.IsGroup(g) ==> exists c: nat :: c < |t.parent| && t.parent[c] == Some(g)
  }

  lemma {:induction false} ToLeaf(t: Tree, x: nat) returns (path: seq<nat>)
    requires t.Rooted() && Peopled(t) && t.IsGroup(x)
    ensures IsPath(t, path) && path[0] == x
    decreases |t.parent| - x
  {
    var c: nat :| c < |t.parent| && t.parent[c] == Some(x);
    var rest := [c];
    if t.IsGroup(c) {
      rest := ToLeaf(t, c);
    }
    Above(t, x, rest);
    path := [x] + rest;
  }

  lemma {:induction false} ToRoot(t: Tree, path: seq<nat>) returns (way: seq<nat>, k: nat)
    requires t.Rooted() && IsPath(t, path)
    ensures IsPath(t, way) && k + |path| == |way| && way[k..] == path && t.parent[way[0]].None?
    decreases path[0]
  {
    match t.parent[path[0]]
    case None =>
      way, k := path, 0;
    case Some(p) =>
      Above(t, p, path);
      way, k := ToRoot(t, [p] + path);
      assert way[k..][1..] == way[k + 1..] && ([p] + path)[1..] == path;
      k := k + 1;
  }

  lemma {:induction false} RootOnPath(t: Tree, path: seq<nat>, k: nat)
    requires t.Rooted() && IsPath(t, path) && t.parent[path[0]].None? && k < |path|
    ensures RootOf(t, path[k]) == path[0]
  {
    if k > 0 {
      assert Follows(t, path, k - 1);
      RootOnPath(t, path, k - 1);
    }
  }

  // ---------------------------------------------------------------- serving a path with equal backlogs

  /** What is left in the first group of a path after its service, when every group on it had n entries. */
  ghost function Left(t: Tree, path: seq<nat>, n: nat): (left: nat)
    requires t.Rooted() && IsPath(t, path) && n > 0
    ensures n - 1 <= left <= n
  {
    Beyond(t, path);
    if |path| > 2 && Left(t, path[1..], n) >= OwnWeight(t, path[1]) then n else n - 1
  }

  lemma LeftAbove(t: Tree, x: nat, rest: seq<nat>, n: nat)
    requires t.Rooted() && IsPath(t, rest) && t.parent[rest[0]] == Some(x) && n > 0
    ensures IsPath(t, [x] + rest) && ([x] + rest)[1] == rest[0]
    ensures Left(t, [x] + rest, n) == if Left(t, rest, n) >= OwnWeight(t, rest[0]) then n else n - 1
  {
    Above(t, x, rest);
    assert ([x] + rest)[1..] == rest;
  }

  /** A path on which a group of backlog n is put back in spite of its service. */
  lemma {:induction false} Descend(t: Tree, x: nat, n: nat) returns (path: seq<nat>)
    requires t.Rooted() && Peopled(t) && IsChildGroup(t, x) && LeastKept(t, x) <= n && n > 0
    ensures IsPath(t, path) && path[0] == x && Left(t, path, n) >= OwnWeight(t, x)
    decreases |t.parent| - x
  {
    if n > OwnWeight(t, x) {
      path := ToLeaf(t, x);
    } else {
      var h: nat :| x < h < |t.parent| && IsChildGroup(t, h) && t.parent[h] == Some(x) && LeastKept(t, h) <= n;
      var rest := Descend(t, h, n);
      LeftAbove(t, x, rest, n);
      path := [x] + rest;
    }
  }

  /** A queue in which only one job stands. */
  ghost predicate Only(q: WeightedQueue.Queue<nat>, j: nat, n: nat) {
    WeightedQueue.Valid(q) && CanEnqueue(q) && q.total == n && forall x: nat :: x != j ==> CountIn(q.data, x) == 0
  }

  lemma {:induction false} AllOfOne(data: seq<seq<nat>>, j: nat)
    requires forall x: nat :: x != j ==> CountIn(data, x) == 0
    ensures CountIn(data, j) == WeightedQueue.Entries(data)
  {
    if data != [] {
      var most, d := data[..|data| - 1], data[|data| - 1];
      forall x: nat | x != j ensures CountIn(most, x) == 0 {
        assert CountIn(data, x) == CountIn(most, x) + multiset(d)[x];
      }
      AllOfOne(most, j);
      forall i | 0 <= i < |d| ensures d[i] == j {
        assert d[i] != j ==> CountIn(data, d[i]) == CountIn(most, d[i]) + multiset(d)[d[i]];
      }
      OneInAll(d, j);
    }
  }

  lemma {:induction false} OneInAll(d: seq<nat>, j: nat)
    requires forall i :: 0 <= i < |d| ==> d[i] == j
    ensures multiset(d)[j] == |d|
  {
    if d != [] {
      OneInAll(d[1..], j);
      assert d == [d[0]] + d[1..];
    }
  }

  lemma OnlySteps(q: WeightedQueue.Queue<nat>, j: nat, n: nat)
    requires Only(q, j, n)
    ensures CountIn(q.data, j) == n && Only(Put(q, j), j, n + 1)
    ensures n > 0 ==>
              && WeightedQueue.Serves(q) && WeightedQueue.NextEntry(q) == j
              && Only(WeightedQueue.Dequeue(q), j, n - 1)
  {
    AllOfOne(q.data, j);
    PutCounts(q, j);
    if n > 0 {
      DequeueCounts(q);
    }
    hide WeightedQueue.Valid, CountIn, Put, WeightedQueue.Dequeue;
  }

  ghost predicate Stands(s: State, path: seq<nat>, b: nat, n: nat) {
    b + 1 < |path| && path[b] < |s.queues| && Only(s.queues[path[b]], path[b + 1], n)
  }

  ghost predicate StandsUpTo(s: State, path: seq<nat>, a: nat, n: nat) {
    forall b: nat :: b <= a ==> Stands(s, path, b, n)
  }

  /** The queue of every group on a path holds the next job of the path n times and nothing else. */
  ghost predicate Even(s: State, path: seq<nat>, n: nat) {
    forall b: nat :: b < |path| - 1 ==> Stands(s, path, b, n)
  }

  /** So it was before the first group of the path was served. */
  ghost predicate Uneven(t: Tree, s: State, path: seq<nat>, n: nat)
    requires t.Rooted() && IsPath(t, path) && n > 0
    decreases |path|
  {
    Beyond(t, path);
    Stands(s, path, 0, Left(t, path, n)) && (|path| > 2 ==> Uneven(t, s, path[1..], n))
  }

  ghost predicate SameFrom(s: State, r: State, g: nat) {
    |s.queues| == |r.queues| && forall h: nat :: g <= h < |s.queues| ==> r.queues[h] == s.queues[h]
  }

  ghost predicate SameBelow(s: State, r: State, g: nat) {
    |s.queues| == |r.queues| && forall h: nat :: h < g && h < |s.queues| ==> r.queues[h] == s.queues[h]
  }

  lemma {:induction false} UnevenFrame(t: Tree, s: State, r: State, path: seq<nat>, n: nat)
    requires t.Rooted() && IsPath(t, path) && SameFrom(s, r, path[0]) && n > 0 && Uneven(t, s, path, n)
    ensures Uneven(t, r, path, n)
    decreases |path|
  {
    hide Only;
    Beyond(t, path);
    if |path| > 2 {
      UnevenFrame(t, s, r, path[1..], n);
    }
  }

  /** The k-th group of a served path, seen from itself on. */
  lemma {:induction false} UnevenAt(t: Tree, s: State, path: seq<nat>, n: nat, k: nat)
    requires t.Rooted() && IsPath(t, path) && n > 0 && Uneven(t, s, path, n) && k + 1 < |path|
    ensures IsPath(t, path[k..]) && Stands(s, path, k, Left(t, path[k..], n))
  {
    hide Only, Left;
    if k == 0 {
      assert path[0..] == path;
    } else {
      Beyond(t, path);
      UnevenAt(t, s, path[1..], n, k - 1);
      assert path[1..][k - 1..] == path[k..];
    }
  }

  /** Scheduling the next job in the a-th group of a path adds one entry to it and to every group above it. */
  lemma {:induction false} ScheduleUp(t: Tree, s: State, path: seq<nat>, a: nat, n: nat)
    requires Fits(t, s) && IsPath(t, path) && Positive(t) && t.parent[path[0]].None? && a + 1 < |path|
    requires StandsUpTo(s, path, a, n)
    ensures t.IsGroup(path[a])
    ensures var r := Schedule(t, s, path[a], path[a + 1], 1);
            && StandsUpTo(r, path, a, n + 1)
            && SameFrom(s, r, path[a] + 1) && r.events == s.events
    decreases a
  {
    hide Only, Put;
    var g, j := path[a], path[a + 1];
    assert Follows(t, path, a) && Stands(s, path, a, n);
    OnlySteps(s.queues[g], j, n);
    assert 1 <= t.EffectiveWeight(g, j);
    var queued := SetQueue(AddRefs(s, j, 1), g, Put(s.queues[g], j));
    assert Stands(queued, path, a, n + 1);
    if a > 0 {
      assert Follows(t, path, a - 1);
      forall b: nat | b < a ensures Stands(queued, path, b, n) {
        assert Stands(s, path, b, n);
      }
      ScheduleUp(t, queued, path, a - 1, n);
    }
  }

  /** After n notifications of its leaf from empty queues. */
  ghost predicate Raised(t: Tree, s: State, path: seq<nat>, n: nat)
    requires Fits(t, s) && IsPath(t, path)
  {
    Even(s, path, n) && s.events[path[|path| - 1]] == n
  }

  lemma NotifyRaises(t: Tree, s: State, path: seq<nat>, n: nat)
    requires Fits(t, s) && IsPath(t, path) && Positive(t) && t.parent[path[0]].None? && Raised(t, s, path, n)
    ensures Raised(t, Notify(t, s, path[|path| - 1]), path, n + 1)
  {
    hide Stands, Schedule;
    var last := |path| - 1;
    var told := SetEvents(s, path[last], n + 1);
    assert Follows(t, path, last - 1);
    forall b: nat | b <= last - 1 ensures Stands(told, path, b, n) {
      StandsFrame(s, told, path, b, n);
    }
    ScheduleUp(t, told, path, last - 1, n);
  }

  lemma StandsFrame(s: State, r: State, path: seq<nat>, b: nat, n: nat)
    requires Stands(s, path, b, n) && |s.queues| == |r.queues| && r.queues[path[b]] == s.queues[path[b]]
    ensures Stands(r, path, b, n)
  {
  }

  /** The first group of a path takes off the next job. */
  lemma TakeFromPath(t: Tree, s: State, path: seq<nat>, n: nat)
    requires WellFormed(t, s) && Backed(t, s) && IsPath(t, path) && n > 0 && Raised(t, s, path, n)
    ensures t.IsGroup(path[0]) && HasWork(t, s, path[0]) && WeightedQueue.NextEntry(s.queues[path[0]]) == path[1]
    ensures var taken := TakeOff(t, s, path[0]);
            && taken.refs[path[1]] >= 0 && WellFormed(t, taken) && Backed(t, taken) && taken.events == s.events
            && Stands(taken, path, 0, n - 1)
            && SameFrom(s, taken, path[0] + 1) && SameBelow(s, taken, path[0])
            && (|path| > 2 ==> IsPath(t, path[1..]) && Raised(t, taken, path[1..], n))
  {
    hide WeightedQueue.Valid, HoldsChildren, CountIn, WeightedQueue.Dequeue, Occ, Load, Excess;
    Beyond(t, path);
    assert Stands(s, path, 0, n);
    OnlySteps(s.queues[path[0]], path[1], n);
    TakeOffEffect(t, s, path[0]);
    var taken := TakeOff(t, s, path[0]);
    assert Balance(t, s, path[1]) >= 0;
    if |path| > 2 {
      forall b: nat | b < |path[1..]| - 1 ensures Stands(taken, path[1..], b, n) {
        assert Stands(s, path, b + 1, n);
      }
    }
  }

  lemma ServeLeafOfPath(t: Tree, s: State, path: seq<nat>, n: nat)
    requires WellFormed(t, s) && Backed(t, s) && Positive(t)
    requires IsPath(t, path) && |path| == 2 && n > 0 && Raised(t, s, path, n)
    ensures t.IsGroup(path[0])
    ensures var r := Serve(t, s, path[0], 0, 0);
            Uneven(t, r, path, n) && SameBelow(s, r, path[0])
  {
    hide WeightedQueue.Valid, HoldsChildren, CountIn, WeightedQueue.Dequeue, TakeOff, Only, HasWork,
         WeightedQueue.NextEntry;
    Beyond(t, path);
    TakeFromPath(t, s, path, n);
    assert t.EffectiveWeight(path[0], path[1]) >= 1;
    var taken := TakeOff(t, s, path[0]);
    assert Serve(t, s, path[0], 0, 0) == ServeLeaf(t, taken, path[1], 0);
  }

  lemma PutBackOnPath(t: Tree, s: State, served: State, path: seq<nat>, n: nat)
    requires Fits(t, s) && WellFormed(t, served) && IsPath(t, path) && |path| > 2 && n > 0
    requires IsPath(t, path[1..]) && Uneven(t, served, path[1..], n)
    requires Stands(served, path, 0, n - 1) && SameBelow(s, served, path[0])
    ensures t.IsGroup(path[0])
    ensures var r := PutBack(t, served, path[0], path[1], served.queues[path[1]].total);
            Uneven(t, r, path, n) && SameBelow(s, r, path[0])
  {
    hide WeightedQueue.Valid, HoldsChildren, CountIn, Put, Occ, Load;
    Beyond(t, path);
    var g, j := path[0], path[1];
    assert Stands(served, path[1..], 0, Left(t, path[1..], n));
    OnlySteps(served.queues[g], j, n - 1);
    var r := PutBack(t, served, g, j, served.queues[j].total);
    UnevenFrame(t, served, r, path[1..], n);
  }

  /** Each group on the path loses the entry it serves and gets it back if the next one is left with its weight. */
  lemma {:induction false} ServePath(t: Tree, s: State, path: seq<nat>, n: nat)
    requires WellFormed(t, s) && Backed(t, s) && Positive(t) && IsPath(t, path) && n > 0 && Raised(t, s, path, n)
    ensures t.IsGroup(path[0])
    ensures var r := Serve(t, s, path[0], 0, 0);
            Uneven(t, r, path, n) && SameBelow(s, r, path[0])
    decreases |path|
  {
    hide WeightedQueue.Valid, HoldsChildren, Occ, Load, TakeOff, PutBack, Only, Left, HasWork, WeightedQueue.NextEntry,
         Balance, Excess, Raised, Uneven;
    Beyond(t, path);
    if |path| == 2 {
      ServeLeafOfPath(t, s, path, n);
    } else {
      var g, j := path[0], path[1];
      TakeFromPath(t, s, path, n);
      var taken := TakeOff(t, s, g);
      ServePath(t, taken, path[1..], n);
      ServeKeepsBalance(t, taken, j, 0, 0);
      PutBackOnPath(t, s, Serve(t, taken, j, 0, 0), path, n);
    }
  }

  // ---------------------------------------------------------------- a group in debt stays in debt

  /** Entries in all the queues. */
  ghost function Backlog(queues: seq<WeightedQueue.Queue<nat>>): nat {
    if queues == [] then 0 else Backlog(queues[..|queues| - 1]) + queues[|queues| - 1].total
  }

  lemma {:induction false} BacklogUpdate(queues: seq<WeightedQueue.Queue<nat>>, g: nat, q: WeightedQueue.Queue<nat>)
    requires g < |queues|
    ensures Backlog(queues[g := q]) == Backlog(queues) + q.total - queues[g].total
  {
    var n := |queues| - 1;
    if g == n {
      assert queues[g := q][..n] == queues[..n];
    } else {
      BacklogUpdate(queues[..n], g, q);
      assert queues[g := q][..n] == queues[..n][g := q];
    }
  }

  /** A service that raises no events adds nothing to any queue, and takes something if there was anything to serve. */
  ghost predicate Shrinks(t: Tree, s: State, r: State, g: nat)
    requires Fits(t, s) && Fits(t, r) && t.IsGroup(g)
  {
    && (forall h: nat :: h < |s.queues| ==> r.queues[h].total <= s.queues[h].total)
    && Backlog(r.queues) + (if s.queues[g].total > 0 then 1 else 0) <= Backlog(s.queues)
  }

  lemma {:induction false} ServeShrinks(t: Tree, s: State, g: nat, report: nat)
    requires WellFormed(t, s) && Positive(t) && Quick(t, report) && t.IsGroup(g)
    ensures Shrinks(t, s, Serve(t, s, g, 0, report), g)
    decreases |s.refs| - g
  {
    hide WeightedQueue.Valid, HoldsChildren, Occ, Load, Excess, Balance, TakeOff, PutBack;
    if s.queues[g].total > 0 {
      TakeOffEffect(t, s, g);
      var j, taken := WeightedQueue.NextEntry(s.queues[g]), TakeOff(t, s, g);
      QueueChanges(s, taken, g);
      if taken.refs[j] >= 0 {
        if t.IsLeaf(j) {
          assert report < OwnWeight(t, j);
          NotPutBack(t, ServeLeaf(t, taken, j, 0), g, j, report);
        } else {
          ServeShrinks(t, taken, j, report);
          ServeKeepsBalance(t, taken, j, 0, report);
          var served := Serve(t, taken, j, 0, report);
          PutBackAdds(t, served, g, j, served.queues[j].total);
          QueueChanges(served, PutBack(t, served, g, j, served.queues[j].total), g);
        }
      }
    }
  }

  lemma NotPutBack(t: Tree, s: State, g: nat, j: nat, backlog: nat)
    requires Fits(t, s) && t.IsGroup(g) && j < |s.refs| && backlog < t.EffectiveWeight(g, j)
    ensures PutBack(t, s, g, j, backlog) == s
  {
  }

  lemma PutBackAdds(t: Tree, s: State, g: nat, j: nat, backlog: nat)
    requires Fits(t, s) && t.IsGroup(g) && j < |s.refs|
    ensures var r := PutBack(t, s, g, j, backlog);
            && r.queues[g].total == s.queues[g].total + (if backlog < t.EffectiveWeight(g, j) then 0 else 1)
            && forall h: nat :: h < |s.queues| && h != g ==> r.queues[h] == s.queues[h]
  {
  }

  /** The backlog follows the one queue that changes. */
  lemma QueueChanges(s: State, r: State, g: nat)
    requires g < |s.queues| == |r.queues| && forall h: nat :: h < |s.queues| && h != g ==> r.queues[h] == s.queues[h]
    ensures Backlog(r.queues) == Backlog(s.queues) + r.queues[g].total - s.queues[g].total
  {
    assert r.queues == s.queues[g := r.queues[g]];
    BacklogUpdate(s.queues, g, r.queues[g]);
  }

  /** A child group with less than its weight is not put back, so a group in debt goes no better. */
  lemma {:induction false} ServeKeepsDebt(t: Tree, s: State, g: nat, c: nat, report: nat)
    requires WellFormed(t, s) && Positive(t) && Quick(t, report) && t.IsGroup(g)
    requires IsChildGroup(t, c) && s.queues[c].total < OwnWeight(t, c)
    ensures var r := Serve(t, s, g, 0, report);
            Excess(t, r, c) <= Excess(t, s, c) + if c == g then 1 else 0
    decreases |s.refs| - g
  {
    hide WeightedQueue.Valid, HoldsChildren, Occ, Load, Excess, Balance, TakeOff, PutBack, ServeLeaf, Backlog;
    if s.queues[g].total > 0 {
      TakeOffEffect(t, s, g);
      var j, taken := WeightedQueue.NextEntry(s.queues[g]), TakeOff(t, s, g);
      if taken.refs[j] >= 0 {
        if t.IsLeaf(j) {
          ServeLeafEffect(t, taken, j, 0);
          PutBackEffect(t, ServeLeaf(t, taken, j, 0), g, j, report);
        } else {
          ServeKeepsDebt(t, taken, j, c, report);
          ServeShrinks(t, taken, j, report);
          ServeKeepsBalance(t, taken, j, 0, report);
          var served := Serve(t, taken, j, 0, report);
          PutBackEffect(t, served, g, j, served.queues[j].total);
        }
      }
    }
  }

  /** A child group that holds more entries than it has places, and too few to be put back. */
  ghost predicate InDebt(t: Tree, s: State, c: nat)
    requires Fits(t, s)
  {
    IsChildGroup(t, c) && s.queues[c].total < OwnWeight(t, c) && Excess(t, s, c) < 0
  }

  lemma QuickReport(t: Tree)
    requires t.Rooted() && Positive(t)
    ensures Quick(t, 0)
  {
    forall j: nat | j < |t.parent| && t.IsLeaf(j) ensures 0 < OwnWeight(t, j) {
      assert t.IsGroup(t.parent[j].value);
    }
  }

  /** Services of the root until it has nothing left to serve. */
  lemma {:induction false} Drain(t: Tree, s: State, root: nat, c: nat) returns (ops: seq<Op>)
    requires WellFormed(t, s) && Positive(t) && InDebt(t, s, c)
    requires t.IsGroup(root) && root < |t.parent| && t.parent[root].None?
    ensures AllProper(t, ops)
    ensures WellFormed(t, Run(t, s, ops)) && InDebt(t, Run(t, s, ops), c) && Run(t, s, ops).queues[root].total == 0
    decreases Backlog(s.queues)
  {
    hide WeightedQueue.Valid, HoldsChildren, Occ, Load, Excess, Balance, Serve, Quick;
    if s.queues[root].total == 0 {
      ops := [];
    } else {
      QuickReport(t);
      var turn := Turn(root, 0, 0);
      var r := Serve(t, s, root, 0, 0);
      ServeKeepsBalance(t, s, root, 0, 0);
      ServeShrinks(t, s, root, 0);
      ServeKeepsDebt(t, s, root, c, 0);
      var rest := Drain(t, r, root, c);
      assert [turn][..0] == [];
      assert Run(t, s, [turn]) == r;
      RunAppend(t, s, [turn], rest);
      ops := [turn] + rest;
    }
  }

  /** Something stands in the queue of a group in debt, and below an empty root it is stranded. */
  lemma DebtStrands(t: Tree, s: State, c: nat)
    requires WellFormed(t, s) && InDebt(t, s, c) && s.queues[RootOf(t, c)].total == 0
    ensures Stranded(t, s)
  {
    hide WeightedQueue.Valid, HoldsChildren;
    TakeEffect(t, s, c);
    var j := WeightedQueue.NextEntry(s.queues[c]);
    assert RootOf(t, j) == RootOf(t, c);
  }

  // ---------------------------------------------------------------- the run that strands a job

  lemma {:induction false} RaiseTimes(t: Tree, path: seq<nat>, n: nat) returns (ops: seq<Op>)
    requires t.Rooted() && Positive(t) && IsPath(t, path) && t.parent[path[0]].None?
    ensures AllProper(t, ops) && Raised(t, Run(t, EmptyState(t), ops), path, n)
    ensures Sound(t, Run(t, EmptyState(t), ops))
  {
    hide Stands, Sound, Notify;
    var s := EmptyState(t);
    if n == 0 {
      ops := [];
      EmptyIsSound(t);
      forall b: nat | b < |path| - 1 ensures Stands(s, path, b, 0) {
        EmptyStands(t, path, b);
      }
    } else {
      var before := RaiseTimes(t, path, n - 1);
      var op := Raise(path[|path| - 1]);
      ops := before + [op];
      assert ops[..|ops| - 1] == before;
      NotifyRaises(t, Run(t, s, before), path, n - 1);
      RaiseKeepsSound(t, Run(t, s, before), path[|path| - 1]);
    }
  }

  lemma EmptyStands(t: Tree, path: seq<nat>, b: nat)
    requires t.Rooted() && IsPath(t, path) && b < |path| - 1
    ensures Stands(EmptyState(t), path, b, 0)
  {
    forall x: nat ensures CountIn(WeightedQueue.Empty<nat>(1, 1).data, x) == 0 {
      EmptyQueueHolds(x);
    }
    EmptyQueueHolds(0);
    hide WeightedQueue.Valid, CountIn;
  }

  /** The group around i weighs more than the backlog at which i is first put back. */
  ghost predicate Overweighs(t: Tree, i: nat)
    requires t.Rooted()
  {
    && IsChildGroup(t, i) && IsChildGroup(t, t.parent[i].value)
    && OwnWeight(t, t.parent[i].value) > LeastKept(t, i)
  }

  /** A group too heavy to be put back with the backlog that keeps the group below it: the path down through both. */
  lemma HeavyPath(t: Tree, i: nat) returns (way: seq<nat>, k: nat)
    requires t.Rooted() && Positive(t) && Peopled(t)
    requires Overweighs(t, i)
    ensures LeastKept(t, i) > 0 && IsPath(t, way) && t.parent[way[0]].None?
    ensures 0 < k < |way| - 1 && way[k] == t.parent[i].value && IsPath(t, way[k..]) && IsPath(t, way[k - 1..])
    ensures Left(t, way[k..], LeastKept(t, i)) == LeastKept(t, i)
    ensures Left(t, way[k - 1..], LeastKept(t, i)) == LeastKept(t, i) - 1
  {
    hide IsPath, Left, LeastKept, OwnWeight, Peopled;
    var g, n := t.parent[i].value, LeastKept(t, i);
    PositiveWeight(t, i);
    var rest := Descend(t, i, n);
    LeftAbove(t, g, rest, n);
    var down := [g] + rest;
    way, k := ToRoot(t, down);
    HeavyUpTo(t, way, k, down, n);
  }

  lemma PositiveWeight(t: Tree, i: nat)
    requires t.Rooted() && Positive(t) && IsChildGroup(t, i)
    ensures LeastKept(t, i) > 0
  {
    assert OwnWeight(t, i) >= 1;
  }

  lemma HeavyUpTo(t: Tree, way: seq<nat>, k: nat, down: seq<nat>, n: nat)
    requires t.Rooted() && IsPath(t, way) && IsPath(t, down) && n > 0
    requires k < |way| && way[k..] == down && t.parent[way[0]].None? && t.parent[down[0]].Some?
    requires n < OwnWeight(t, down[0]) && Left(t, down, n) == n
    ensures k > 0 && way[k] == down[0] && IsPath(t, way[k - 1..]) && Left(t, way[k - 1..], n) == n - 1
  {
    hide Left, OwnWeight, IsPath;
    assert way[k] == down[0];
    OnPath(t, way, k);
    SuffixBefore(way, k, down);
    LeftAbove(t, way[k - 1], down, n);
  }

  lemma OnPath(t: Tree, path: seq<nat>, k: nat)
    requires t.Rooted() && IsPath(t, path) && 0 < k < |path|
    ensures path[k] < |t.parent| && t.parent[path[k]] == Some(path[k - 1])
  {
    assert Follows(t, path, k - 1);
  }

  lemma SuffixBefore(way: seq<nat>, k: nat, down: seq<nat>)
    requires 0 < k <= |way| && way[k..] == down
    ensures way[k - 1..] == [way[k - 1]] + down
  {
  }

  /** After as many notifications as keep the lower group, one service of the root leaves the upper group in debt. */
  lemma TurnMakesDebt(t: Tree, s: State, way: seq<nat>, k: nat, n: nat)
    requires Sound(t, s) && Positive(t) && IsPath(t, way) && n > 0 && Raised(t, s, way, n)
    requires 0 < k < |way| - 1 && IsPath(t, way[k..]) && IsPath(t, way[k - 1..])
    requires IsChildGroup(t, way[k]) && n < OwnWeight(t, way[k])
    requires Left(t, way[k..], n) == n && Left(t, way[k - 1..], n) == n - 1
    ensures t.IsGroup(way[0]) && InDebt(t, Serve(t, s, way[0], 0, 0), way[k])
  {
    hide WeightedQueue.Valid, HoldsChildren, CountIn, Serve, Raised, Left, Backed, LeavesFed, Covered, Stands, IsPath,
         InDebt, Uneven;
    ServePath(t, s, way, n);
    var r := Serve(t, s, way[0], 0, 0);
    UnevenAt(t, r, way, n, k);
    UnevenAt(t, r, way, n, k - 1);
    OnPath(t, way, k);
    PlacesMissing(t, r, way, k, n);
  }

  /** A group with one entry more than it has places. */
  lemma PlacesMissing(t: Tree, s: State, way: seq<nat>, k: nat, n: nat)
    requires Fits(t, s) && 0 < k < |way| - 1 && n > 0 && Stands(s, way, k, n) && Stands(s, way, k - 1, n - 1)
    requires IsChildGroup(t, way[k]) && t.parent[way[k]] == Some(way[k - 1]) && n < OwnWeight(t, way[k])
    ensures InDebt(t, s, way[k])
  {
    OnlySteps(s.queues[way[k - 1]], way[k], n - 1);
    hide WeightedQueue.Valid, CountIn;
  }

  /** Notifications of one leaf, then services of one root, that leave a group in debt and its root empty. */
  lemma HeavyStrands(t: Tree, i: nat)
    requires t.Rooted() && Positive(t) && Peopled(t)
    requires Overweighs(t, i)
    ensures !AlwaysCovers(t) && !RunsCover(t) && !NeverStrands(t)
  {
    hide WellFormed, InDebt, Sound, Covered, Serve, Quick, LeastKept, OwnWeight, Positive, Left, Raised, RunsCover,
         AlwaysCovers, NeverStrands, Peopled, IsPath;
    var way, k := HeavyPath(t, i);
    var raises := RaiseTimes(t, way, LeastKept(t, i));
    var before := Run(t, EmptyState(t), raises);
    TurnMakesDebt(t, before, way, k, LeastKept(t, i));
    DebtFails(t, raises, way, k);
  }

  lemma DebtFails(t: Tree, raises: seq<Op>, way: seq<nat>, k: nat)
    requires t.Rooted() && Positive(t) && AllProper(t, raises) && Sound(t, Run(t, EmptyState(t), raises))
    requires IsPath(t, way) && k < |way| && t.IsGroup(way[0]) && t.parent[way[0]].None?
    requires InDebt(t, Serve(t, Run(t, EmptyState(t), raises), way[0], 0, 0), way[k])
    ensures !AlwaysCovers(t) && !RunsCover(t) && !NeverStrands(t)
  {
    hide WeightedQueue.Valid, HoldsChildren, Occ, Load, Excess, Balance, Serve, OwnWeight, Positive, NeverStrands,
         IsPath, Quick;
    QuickReport(t);
    var before, turn := Run(t, EmptyState(t), raises), Turn(way[0], 0, 0);
    var ops := raises + [turn];
    assert ops[..|ops| - 1] == raises;
    assert Step(t, before, turn) == Run(t, EmptyState(t), ops);
    assert !Covered(t, Run(t, EmptyState(t), ops));
    ServeKeepsBalance(t, before, way[0], 0, 0);
    DrainStrands(t, ops, way, k);
  }

  lemma DrainStrands(t: Tree, ops: seq<Op>, way: seq<nat>, k: nat)
    requires t.Rooted() && Positive(t) && AllProper(t, ops)
    requires IsPath(t, way) && k < |way| && t.IsGroup(way[0]) && t.parent[way[0]].None?
    requires WellFormed(t, Run(t, EmptyState(t), ops)) && InDebt(t, Run(t, EmptyState(t), ops), way[k])
    ensures !NeverStrands(t)
  {
    hide WellFormed, InDebt, Positive, Stranded, IsPath, Run;
    var s := EmptyState(t);
    var rest := Drain(t, Run(t, s, ops), way[0], way[k]);
    RunAppend(t, s, ops, rest);
    RootOnPath(t, way, k);
    DebtStrands(t, Run(t, s, ops + rest), way[k]);
  }

  lemma NestedCovers(t: Tree)
    requires t.Rooted() && Positive(t) && Nested(t)
    ensures AlwaysCovers(t) && RunsCover(t) && NeverStrands(t)
  {
    hide WeightedQueue.Valid, HoldsChildren, Occ, Load, Excess, Balance, Step, Nested, Positive;
    forall s: State, op: Op | Sound(t, s) && Proper(t, op) ensures Covered(t, Step(t, s, op)) {
      StepKeepsSound(t, s, op);
    }
    EmptyIsSound(t);
    forall ops: seq<Op> | AllProper(t, ops)
      ensures Covered(t, Run(t, EmptyState(t), ops)) && !Stranded(t, Run(t, EmptyState(t), ops))
    {
      var r := Run(t, EmptyState(t), ops);
      RunKeepsSound(t, EmptyState(t), ops);
      forall j: nat | j < |r.refs| && Occ(t, r, j) > 0 ensures r.queues[RootOf(t, j)].total > 0 {
        WorkReachesTheRoot(t, r, j);
      }
    }
  }

  /**
    Where every group has somebody below it, no run from empty queues strands a job exactly if the weights are nested,
    and exactly then every run, and every step from any sound state, keeps cover.
   */
  lemma NeverStrandsIffNested(t: Tree)
    requires t.Rooted() && Positive(t) && Peopled(t)
    ensures NeverStrands(t) <==> Nested(t)
    ensures RunsCover(t) <==> Nested(t)
    ensures AlwaysCovers(t) <==> Nested(t)
  {
    hide NeverStrands, RunsCover, AlwaysCovers, LeastKept, OwnWeight;
    if i: nat :| Overweighs(t, i) {
      HeavyStrands(t, i);
    } else {
      forall i: nat | IsChildGroup(t, i) && IsChildGroup(t, t.parent[i].value)
        ensures OwnWeight(t, t.parent[i].value) <= LeastKept(t, i)
      {
        assert !Overweighs(t, i);
      }
      NestedCovers(t);
    }
  }

  // ---------------------------------------------------------------- every event is delivered

  /** A service of this root that raises nothing. */
  ghost predicate IsService(op: Op, root: nat) {
    op.Turn? && op.root == root && op.raised == 0
  }

  lemma {:induction false} QueueWithinBacklog(queues: seq<WeightedQueue.Queue<nat>>, g: nat)
    requires g < |queues|
    ensures queues[g].total <= Backlog(queues)
  {
    if g < |queues| - 1 {
      QueueWithinBacklog(queues[..|queues| - 1], g);
    }
  }

  /** Each service lowers the backlog until the root is empty. */
  lemma {:induction false} ServicesWorkOff(t: Tree, s: State, root: nat, turns: seq<Op>)
    requires t.Rooted() && WellFormed(t, s) && Backed(t, s) && Positive(t) && AllProper(t, turns)
    requires t.IsGroup(root) && root < |t.parent| && forall i :: 0 <= i < |turns| ==> IsService(turns[i], root)
    ensures var r := Run(t, s, turns); r.queues[root].total == 0 || Backlog(r.queues) + |turns| <= Backlog(s.queues)
  {
    hide WeightedQueue.Valid, HoldsChildren, Balance, Excess, Serve, Quick;
    if turns != [] {
      var front, last := turns[..|turns| - 1], turns[|turns| - 1];
      var before := Run(t, s, front);
      ServicesWorkOff(t, s, root, front);
      RunKeepsWellFormed(t, s, front);
      assert IsService(last, root) && Proper(t, last);
      ServeShrinks(t, before, root, last.report);
    }
  }

  /** As many services as there are entries leave the root empty. */
  lemma ServicesEmptyTheRoot(t: Tree, s: State, root: nat, turns: seq<Op>)
    requires t.Rooted() && WellFormed(t, s) && Backed(t, s) && Positive(t) && AllProper(t, turns)
    requires t.IsGroup(root) && root < |t.parent| && forall i :: 0 <= i < |turns| ==> IsService(turns[i], root)
    requires |turns| >= Backlog(s.queues)
    ensures Run(t, s, turns).queues[root].total == 0
  {
    ServicesWorkOff(t, s, root, turns);
    QueueWithinBacklog(Run(t, s, turns).queues, root);
  }

  /** With nested weights an empty root means that no event is left below it. */
  lemma EmptyRootMeansNoEvents(t: Tree, ops: seq<Op>, x: nat)
    requires t.Rooted() && Positive(t) && Nested(t) && AllProper(t, ops) && x < |t.parent| && t.IsLeaf(x)
    requires var r := Run(t, EmptyState(t), ops); RootOf(t, x) < |r.queues| && r.queues[RootOf(t, x)].total == 0
    ensures Run(t, EmptyState(t), ops).events[x] == 0
  {
    hide WeightedQueue.Valid, HoldsChildren, Occ, Load, Run, Nested, Positive;
    PlacesAreEvents(t, ops, x);
    EmptyIsSound(t);
    RunKeepsSound(t, EmptyState(t), ops);
    if Occ(t, Run(t, EmptyState(t), ops), x) > 0 {
      WorkReachesTheRoot(t, Run(t, EmptyState(t), ops), x);
    }
  }

  /**
    With nested weights every event is delivered: after any run from empty queues, as many services of the root as
    there are entries, if they raise nothing, leave no leaf below it with an event.
   */
  lemma EventsAreDelivered(t: Tree, ops: seq<Op>, turns: seq<Op>, x: nat)
    requires t.Rooted() && Positive(t) && Nested(t) && AllProper(t, ops) && AllProper(t, turns)
    requires x < |t.parent| && t.IsLeaf(x) && t.IsGroup(RootOf(t, x))
    requires forall i :: 0 <= i < |turns| ==> IsService(turns[i], RootOf(t, x))
    requires |turns| >= Backlog(Run(t, EmptyState(t), ops).queues)
    ensures AllProper(t, ops + turns) && Run(t, EmptyState(t), ops + turns).events[x] == 0
  {
    hide WeightedQueue.Valid, HoldsChildren, Run, Nested, Positive, Proper, Backlog;
    var s := EmptyState(t);
    EmptyIsSound(t);
    RunAppend(t, s, ops, turns);
    RunKeepsWellFormed(t, s, ops);
    ServicesEmptyTheRoot(t, Run(t, s, ops), RootOf(t, x), turns);
    EmptyRootMeansNoEvents(t, ops + turns, x);
  }

  /** A group of weight 3 under the root, a group of weight 1 in it, and a leaf. */
  function Narrowing(): (t: Tree)
    ensures t.Rooted()
  {
    Tree([None, Some(0), Some(1), Some(2)], [1, 3, 1, 1], [Some(SCHED_WFQ), Some(SCHED_WFQ), Some(SCHED_WFQ), None])
  }

  lemma WorkCanBeStranded()
    ensures !NeverStrands(Narrowing())
  {
    var t := Narrowing();
    assert t.parent[1] == Some(0) && t.parent[2] == Some(1) && t.parent[3] == Some(2);
    assert IsChildGroup(t, 2) && IsChildGroup(t, 1) && OwnWeight(t, 1) == 3 && OwnWeight(t, 2) == 1;
    NeverStrandsIffNested(t);
  }
}
