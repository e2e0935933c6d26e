/**
  The O(1) weighted fair queue of `AAA_QueueJob`: index queues, one for each priority, over data queues, one
  for each priority and weight. Here as a value; QueueJobs.dfy has the class that updates it in place.

  A flow is the number of a data queue. It belongs to class `flow / maxWeight` and has weight
  `flow % maxWeight + 1`.
 */
module WeightedQueue {
  import opened Basics

  const MAX_NUM_PRIORITY: nat := 3
  const MAX_MAX_WEIGHT: nat := 3

  datatype Queue<T> = Queue(
    numPriority: nat,
    maxWeight: nat,
    index: seq<seq<nat>>,
    data: seq<seq<T>>,
    total: nat)

  /** The maximum weight is positive wherever there is a flow to ask about. */
  function ClassOf(maxWeight: nat, flow: nat): nat {
    if maxWeight > 0 then flow / maxWeight else 0
  }

  function WeightOf(maxWeight: nat, flow: nat): nat {
    if maxWeight > 0 then flow % maxWeight + 1 else 0
  }

  function ClassIndex(priority: nat): int {
    Min(priority, MAX_NUM_PRIORITY) - 1
  }

  /** Where an entry goes: out-of-range values are clamped to the largest the library allows. */
  function FlowIndex(maxWeight: nat, priority: nat, weight: nat): int {
    ClassIndex(priority) * maxWeight + Min(weight, MAX_MAX_WEIGHT) - 1
  }

  predicate InRange(numPriority: nat, maxWeight: nat, priority: nat, weight: nat) {
    1 <= priority <= numPriority && 1 <= weight <= maxWeight
  }

  function Occurrences(s: seq<nat>, flow: nat): nat {
    multiset(s)[flow]
  }

  function Entries<T>(data: seq<seq<T>>): nat {
    if data == [] then 0 else Entries(data[..|data| - 1]) + |data[|data| - 1]|
  }

  /** How often a flow must stand in the index queue of a class. */
  function Share<T>(q: Queue<T>, p: nat, flow: nat): nat {
    if flow < |q.data| && ClassOf(q.maxWeight, flow) == p then Min(|q.data[flow]|, WeightOf(q.maxWeight, flow)) else 0
  }

  predicate Shaped<T>(q: Queue<T>) {
    && q.maxWeight <= MAX_MAX_WEIGHT
    && q.numPriority <= MAX_NUM_PRIORITY
    && |q.index| == q.numPriority
    && |q.data| == q.numPriority * q.maxWeight
  }

  ghost predicate Valid<T>(q: Queue<T>) {
    && Shaped(q)
    && (forall p: nat, flow: nat :: p < |q.index| ==> Occurrences(q.index[p], flow) == Share(q, p, flow))
    && q.total == Entries(q.data)
  }

  // ---------------------------------------------------------------- operations

  function Empty<T>(numPriority: nat, maxWeight: nat): Queue<T> {
    Queue(numPriority, maxWeight, seq(numPriority, _ => []), seq(numPriority * maxWeight, _ => []), 0)
  }

  /**
    The data queue named by the clamped priority and weight exists, and so does the index queue if the flow goes
    into it. The original checks neither.
   */
  predicate Lands<T>(q: Queue<T>, priority: nat, weight: nat) {
    && 0 <= FlowIndex(q.maxWeight, priority, weight) < |q.data|
    && (|q.data[FlowIndex(q.maxWeight, priority, weight)]| < weight ==> 0 <= ClassIndex(priority) < |q.index|)
  }

  function Enqueue<T>(q: Queue<T>, x: T, priority: nat, weight: nat): Queue<T>
    requires Lands(q, priority, weight)
  {
    var p, flow := ClassIndex(priority), FlowIndex(q.maxWeight, priority, weight);
    q.(index := if |q.data[flow]| < weight then q.index[p := q.index[p] + [flow]] else q.index,
       data := q.data[flow := q.data[flow] + [x]],
       total := q.total + 1)
  }

  /** The best class with something in its index queue, or the number of classes. */
  function BestClass(index: seq<seq<nat>>): (p: nat)
    ensures p <= |index|
    ensures forall i :: 0 <= i < p ==> index[i] == []
    ensures p < |index| ==> index[p] != []
  {
    if index == [] then 0 else if index[0] != [] then 0 else 1 + BestClass(index[1..])
  }

  /** What Dequeue finds: the class, the flow at the head of its index queue, and an entry in that flow. */
  predicate Serves<T>(q: Queue<T>) {
    && Shaped(q)
    && BestClass(q.index) < |q.index|
    && q.index[BestClass(q.index)][0] < |q.data|
    && q.data[q.index[BestClass(q.index)][0]] != []
  }

  function NextFlow<T>(q: Queue<T>): nat
    requires Serves(q)
  {
    q.index[BestClass(q.index)][0]
  }

  function NextEntry<T>(q: Queue<T>): T
    requires Serves(q)
  {
    q.data[NextFlow(q)][0]
  }

  function Dequeue<T>(q: Queue<T>): Queue<T>
    requires Serves(q)
  {
    var p, flow := BestClass(q.index), NextFlow(q);
    var rest := q.data[flow][1..];
    q.(index := q.index[p := q.index[p][1..] + if |rest| >= WeightOf(q.maxWeight, flow) then [flow] else []],
       data := q.data[flow := rest],
       total := if q.total > 0 then q.total - 1 else 0)
  }

  function Without<T(==)>(s: seq<T>, x: T): seq<T> {
    if s == [] then [] else (if s[0] == x then [] else [s[0]]) + Without(s[1..], x)
  }

  /** The index queue keeps the first `n` occurrences of a flow. */
  function KeepFirst(s: seq<nat>, flow: nat, n: nat): seq<nat> {
    if s == [] then []
    else if s[0] != flow then [s[0]] + KeepFirst(s[1..], flow, n)
    else if n == 0 then KeepFirst(s[1..], flow, 0)
    else [flow] + KeepFirst(s[1..], flow, n - 1)
  }

  function RemoveFrom<T(==)>(q: Queue<T>, x: T, flow: nat): Queue<T>
    requires Shaped(q) && flow < |q.data| && ClassOf(q.maxWeight, flow) < |q.index|
  {
    var rest := Without(q.data[flow], x);
    if |rest| == |q.data[flow]| then q
    else
      var p := ClassOf(q.maxWeight, flow);
      q.(index := q.index[p := KeepFirst(q.index[p], flow, |rest|)],
         data := q.data[flow := rest],
         total := if q.total >= |q.data[flow]| - |rest| then q.total - (|q.data[flow]| - |rest|) else 0)
  }

  function RemoveUpTo<T(==)>(q: Queue<T>, x: T, flows: nat): (r: Queue<T>)
    requires Shaped(q) && flows <= |q.data|
    ensures Shaped(r) && r.numPriority == q.numPriority && r.maxWeight == q.maxWeight
  {
    if flows == 0 then q
    else
      ClassInRange(q.numPriority, q.maxWeight, flows - 1);
      RemoveFrom(RemoveUpTo(q, x, flows - 1), x, flows - 1)
  }

  function Remove<T(==)>(q: Queue<T>, x: T): Queue<T>
    requires Shaped(q)
  {
    RemoveUpTo(q, x, |q.data|)
  }

  function Flush<T>(q: Queue<T>): Queue<T> {
    Empty(q.numPriority, q.maxWeight)
  }

  // ---------------------------------------------------------------- index arithmetic

  /** Priorities and weights in range name a flow of that class and weight. */
  lemma FlowInRange(numPriority: nat, maxWeight: nat, priority: nat, weight: nat)
    requires maxWeight <= MAX_MAX_WEIGHT && numPriority <= MAX_NUM_PRIORITY
    requires InRange(numPriority, maxWeight, priority, weight)
    ensures 0 <= ClassIndex(priority) < numPriority
    ensures 0 <= FlowIndex(maxWeight, priority, weight) < numPriority * maxWeight
    ensures ClassOf(maxWeight, FlowIndex(maxWeight, priority, weight)) == ClassIndex(priority)
    ensures WeightOf(maxWeight, FlowIndex(maxWeight, priority, weight)) == weight
  {
    if maxWeight == 1 {
    } else if maxWeight == 2 {
    } else {
      assert maxWeight == 3;
    }
  }

  lemma ClassInRange(numPriority: nat, maxWeight: nat, flow: nat)
    requires maxWeight <= MAX_MAX_WEIGHT && flow < numPriority * maxWeight
    ensures maxWeight > 0 && ClassOf(maxWeight, flow) < numPriority
  {
    if maxWeight == 0 {
    } else if maxWeight == 1 {
    } else if maxWeight == 2 {
    } else {
      assert maxWeight == 3;
    }
  }

  // ---------------------------------------------------------------- the invariant

  lemma {:induction false} EntriesUpdate<T>(data: seq<seq<T>>, flow: nat, s: seq<T>)
    requires flow < |data|
    ensures Entries(data[flow := s]) == Entries(data) - |data[flow]| + |s|
  {
    var n := |data| - 1;
    if flow == n {
      assert data[flow := s][..n] == data[..n];
    } else {
      EntriesUpdate(data[..n], flow, s);
      assert data[flow := s][..n] == data[..n][flow := s];
    }
  }

  lemma {:induction false} NoEntries<T>(data: seq<seq<T>>)
    ensures Entries(data) == 0 <==> forall flow :: 0 <= flow < |data| ==> data[flow] == []
  {
    if data != [] {
      NoEntries(data[..|data| - 1]);
      assert forall flow :: 0 <= flow < |data| - 1 ==> data[flow] == data[..|data| - 1][flow];
    }
  }

  lemma EmptyIsValid<T>(numPriority: nat, maxWeight: nat)
    requires numPriority <= MAX_NUM_PRIORITY && maxWeight <= MAX_MAX_WEIGHT
    ensures Valid<T>(Empty(numPriority, maxWeight))
  {
    NoEntries(Empty<T>(numPriority, maxWeight).data);
  }

  lemma OccurrencesAppend(s: seq<nat>, flow: nat, g: nat)
    ensures Occurrences(s + [flow], g) == Occurrences(s, g) + if g == flow then 1 else 0
  {
  }

  /** A replaced data queue and the matching change of its own class's index queue keep every share. */
  lemma ReplaceFlow<T>(q: Queue<T>, r: Queue<T>, flow: nat)
    requires Valid(q) && flow < |q.data| && ClassOf(q.maxWeight, flow) < |q.index|
    requires r.numPriority == q.numPriority && r.maxWeight == q.maxWeight
    requires |r.index| == |q.index| && |r.data| == |q.data| && r.data == q.data[flow := r.data[flow]]
    requires r.index == q.index[ClassOf(q.maxWeight, flow) := r.index[ClassOf(q.maxWeight, flow)]]
    requires forall g: nat :: g != flow ==>
               Occurrences(r.index[ClassOf(q.maxWeight, flow)], g) == Occurrences(q.index[ClassOf(q.maxWeight, flow)], g)
    requires r.total == q.total - |q.data[flow]| + |r.data[flow]|
    ensures Valid(r) <==>
              Occurrences(r.index[ClassOf(q.maxWeight, flow)], flow) == Min(|r.data[flow]|, WeightOf(q.maxWeight, flow))
  {
    EntriesUpdate(q.data, flow, r.data[flow]);
    var c := ClassOf(q.maxWeight, flow);
    assert Share(r, c, flow) == Min(|r.data[flow]|, WeightOf(q.maxWeight, flow));
    forall p: nat, g: nat | p < |r.index| && g != flow
      ensures Occurrences(r.index[p], g) == Share(r, p, g)
    {
      assert Occurrences(q.index[p], g) == Share(q, p, g);
    }
    forall p: nat | p < |r.index| && p != c
      ensures Occurrences(r.index[p], flow) == Share(r, p, flow)
    {
      assert Occurrences(q.index[p], flow) == Share(q, p, flow);
    }
  }

  /**
    Wherever the entry lands, the invariant is kept exactly if the flow is queued just when its data queue is below
    the weight it really has, and then in its own class.
   */
  lemma EnqueueKeepsValid<T>(q: Queue<T>, x: T, priority: nat, weight: nat)
    requires Valid(q) && Lands(q, priority, weight)
    ensures var flow := FlowIndex(q.maxWeight, priority, weight);
            Valid(Enqueue(q, x, priority, weight)) <==>
              && (|q.data[flow]| < weight <==> |q.data[flow]| < WeightOf(q.maxWeight, flow))
              && (|q.data[flow]| < weight ==> ClassIndex(priority) == ClassOf(q.maxWeight, flow))
  {
    var p, flow := ClassIndex(priority), FlowIndex(q.maxWeight, priority, weight);
    var c, d := ClassOf(q.maxWeight, flow), |q.data[flow]|;
    var r := Enqueue(q, x, priority, weight);
    ClassInRange(q.numPriority, q.maxWeight, flow);
    assert Occurrences(q.index[c], flow) == Share(q, c, flow);
    if d < weight && p != c {
      QueuedElsewhere(q, r, p, flow);
    } else {
      forall g: nat ensures Occurrences(r.index[c], g) ==
                              Occurrences(q.index[c], g) + if g == flow && d < weight then 1 else 0 {
        OccurrencesAppend(q.index[c], flow, g);
      }
      ReplaceFlow(q, r, flow);
    }
  }

  /** In range nothing is clamped. */
  lemma EnqueueInRangeKeepsValid<T>(q: Queue<T>, x: T, priority: nat, weight: nat)
    requires Valid(q) && InRange(q.numPriority, q.maxWeight, priority, weight)
    ensures Lands(q, priority, weight) && Valid(Enqueue(q, x, priority, weight))
  {
    FlowInRange(q.numPriority, q.maxWeight, priority, weight);
    EnqueueKeepsValid(q, x, priority, weight);
    hide Valid, Enqueue;
  }

  /** A flow that stands in the index queue of another class breaks the invariant. */
  lemma QueuedElsewhere<T>(q: Queue<T>, r: Queue<T>, p: nat, flow: nat)
    requires p < |q.index| == |r.index| && flow < |r.data| && r.index[p] == q.index[p] + [flow]
    requires p != ClassOf(r.maxWeight, flow)
    ensures !Valid(r)
  {
    OccurrencesAppend(q.index[p], flow, flow);
    assert Share(r, p, flow) == 0;
  }

  /** In the caller's terms, for priorities that name a class and weights that are not zero. */
  lemma ClampedEnqueueKeepsValid<T>(q: Queue<T>, x: T, priority: nat, weight: nat)
    requires Valid(q) && 1 <= priority && ClassIndex(priority) < q.numPriority && 1 <= weight
    requires FlowIndex(q.maxWeight, priority, weight) < |q.data|
    ensures Lands(q, priority, weight)
    ensures var d := |q.data[FlowIndex(q.maxWeight, priority, weight)]|;
            Valid(Enqueue(q, x, priority, weight)) <==>
              || weight <= q.maxWeight
              || (if q.maxWeight == MAX_MAX_WEIGHT then !(q.maxWeight <= d < weight) else weight <= d)
  {
    ClampedFlow(q.maxWeight, priority, weight);
    ClassInRange(q.numPriority, q.maxWeight, FlowIndex(q.maxWeight, priority, weight));
    EnqueueKeepsValid(q, x, priority, weight);
  }

  /** A weight beyond the maximum of the queue, where that is below the library's, names a flow of a later class. */
  lemma ClampedFlow(maxWeight: nat, priority: nat, weight: nat)
    requires maxWeight <= MAX_MAX_WEIGHT && 1 <= priority && 1 <= weight
    ensures FlowIndex(maxWeight, priority, weight) >= 0
    ensures weight <= maxWeight || maxWeight == MAX_MAX_WEIGHT ==>
              && ClassOf(maxWeight, FlowIndex(maxWeight, priority, weight)) == ClassIndex(priority)
              && WeightOf(maxWeight, FlowIndex(maxWeight, priority, weight)) == Min(weight, maxWeight)
    ensures 0 < maxWeight < weight ==> WeightOf(maxWeight, FlowIndex(maxWeight, priority, weight)) < weight
    ensures 0 < maxWeight < weight && maxWeight < MAX_MAX_WEIGHT ==>
              ClassOf(maxWeight, FlowIndex(maxWeight, priority, weight)) > ClassIndex(priority)
  {
    if maxWeight == 0 {
    } else if maxWeight == 1 {
    } else if maxWeight == 2 {
    } else {
      assert maxWeight == 3;
    }
  }

  /** Two classes of weights up to 2: one entry of weight 3 goes into the data queue of the wrong class. */
  lemma ClampingCrossesClasses<T>(x: T)
    ensures var q := Empty<T>(2, 2);
            Valid(q) && Lands(q, 1, 3) && !Valid(Enqueue(q, x, 1, 3))
  {
    EmptyIsValid<T>(2, 2);
    ClampedEnqueueKeepsValid(Empty<T>(2, 2), x, 1, 3);
  }

  function PutTimes<T>(q: Queue<T>, x: T, weight: nat, n: nat): (r: Queue<T>)
    requires q.numPriority == 1 && q.maxWeight == 3 && |q.data| == 3 && |q.index| == 1 && weight >= 3
    ensures r.numPriority == 1 && r.maxWeight == 3 && |r.data| == 3 && |r.index| == 1
    ensures |r.data[2]| == |q.data[2]| + n
  {
    if n == 0 then q else Enqueue(PutTimes(q, x, weight, n - 1), x, 1, weight)
  }

  /** One class of weights up to 3: of entries of weight w > 3 into an empty queue, exactly the fourth breaks it. */
  lemma {:induction false} ClampingOverfills<T>(x: T, weight: nat, n: nat)
    requires weight > MAX_MAX_WEIGHT && n <= 4
    ensures Valid(PutTimes(Empty<T>(1, 3), x, weight, n)) <==> n < 4
  {
    if n == 0 {
      EmptyIsValid<T>(1, 3);
    } else {
      ClampingOverfills(x, weight, n - 1);
      ClampedEnqueueKeepsValid(PutTimes(Empty<T>(1, 3), x, weight, n - 1), x, 1, weight);
    }
  }

  /** A queue with entries always has one to serve: the dequeue error is unreachable. */
  lemma BackloggedServes<T>(q: Queue<T>)
    requires Valid(q)
    ensures Serves(q) <==> q.total > 0
    ensures Serves(q) ==> ClassOf(q.maxWeight, NextFlow(q)) == BestClass(q.index)
  {
    NoEntries(q.data);
    if q.total > 0 {
      var flow :| 0 <= flow < |q.data| && q.data[flow] != [];
      ClassInRange(q.numPriority, q.maxWeight, flow);
      var p := ClassOf(q.maxWeight, flow);
      assert Occurrences(q.index[p], flow) == Share(q, p, flow) > 0;
      var b := BestClass(q.index);
      assert b <= p;
      var next := q.index[b][0];
      assert Occurrences(q.index[b], next) == Share(q, b, next) > 0;
    }
  }

  /** The entry served comes from the best priority that has any entry at all. */
  lemma ServesBestPriority<T>(q: Queue<T>, flow: nat)
    requires Valid(q) && q.total > 0 && flow < |q.data| && q.data[flow] != []
    ensures Serves(q) && ClassOf(q.maxWeight, NextFlow(q)) <= ClassOf(q.maxWeight, flow)
  {
    BackloggedServes(q);
    ClassInRange(q.numPriority, q.maxWeight, flow);
    var p := ClassOf(q.maxWeight, flow);
    assert Occurrences(q.index[p], flow) == Share(q, p, flow) > 0;
  }

  lemma DequeueKeepsValid<T>(q: Queue<T>)
    requires Valid(q) && q.total > 0
    ensures Serves(q) && Valid(Dequeue(q)) && Dequeue(q).total == q.total - 1
  {
    BackloggedServes(q);
    var p, flow := BestClass(q.index), NextFlow(q);
    var r := Dequeue(q);
    assert q.index[p] == [flow] + q.index[p][1..];
    assert Occurrences(q.index[p], flow) == Share(q, p, flow);
    OccurrencesOfRotation(q.index[p], |r.data[flow]| >= WeightOf(q.maxWeight, flow));
    ReplaceFlow(q, r, flow);
  }

  lemma OccurrencesOfRotation(s: seq<nat>, again: bool)
    requires s != []
    ensures forall g: nat :: Occurrences(s[1..] + (if again then [s[0]] else []), g) ==
                             Occurrences(s, g) - if g == s[0] && !again then 1 else 0
  {
    assert s == [s[0]] + s[1..];
  }

  lemma {:induction false} KeepFirstOccurrences(s: seq<nat>, flow: nat, n: nat, g: nat)
    ensures Occurrences(KeepFirst(s, flow, n), g) ==
              if g == flow then Min(Occurrences(s, g), n) else Occurrences(s, g)
  {
    if s != [] {
      assert s == [s[0]] + s[1..];
      KeepFirstOccurrences(s[1..], flow, if s[0] == flow && n > 0 then n - 1 else n, g);
    }
  }

  lemma {:induction false} KeepFirstConcat(a: seq<nat>, b: seq<nat>, flow: nat, n: nat)
    ensures KeepFirst(a + b, flow, n) ==
            KeepFirst(a, flow, n)
            + KeepFirst(b, flow, if Occurrences(a, flow) < n then n - Occurrences(a, flow) else 0)
  {
    if a == [] {
      assert a + b == b;
    } else {
      var m := if a[0] == flow && n > 0 then n - 1 else n;
      assert (a + b)[1..] == a[1..] + b;
      KeepFirstConcat(a[1..], b, flow, m);
      OccurrencesFront(a, flow);
      hide Occurrences;
      var left := if Occurrences(a, flow) < n then n - Occurrences(a, flow) else 0;
      assert left == if Occurrences(a[1..], flow) < m then m - Occurrences(a[1..], flow) else 0;
      var first := if a[0] == flow && n == 0 then [] else [a[0]];
      assert KeepFirst(a, flow, n) == first + KeepFirst(a[1..], flow, m);
      assert KeepFirst(a + b, flow, n) == first + KeepFirst(a[1..] + b, flow, m);
      hide KeepFirst;
    }
  }

  lemma OccurrencesFront(a: seq<nat>, flow: nat)
    requires a != []
    ensures Occurrences(a, flow) == Occurrences(a[1..], flow) + if a[0] == flow then 1 else 0
  {
    assert a == [a[0]] + a[1..];
  }

  /** Of a flow the occurrences that come first stay, up to n, and everything else stays where it stood. */
  lemma FirstOccurrencesStay(a: seq<nat>, x: nat, b: seq<nat>, flow: nat, n: nat)
    ensures var seen := Occurrences(a, flow) + if x == flow then 1 else 0;
            KeepFirst(a + [x] + b, flow, n) ==
            KeepFirst(a, flow, n)
            + (if x == flow && Occurrences(a, flow) >= n then [] else [x])
            + KeepFirst(b, flow, if seen < n then n - seen else 0)
  {
    hide KeepFirst, Occurrences;
    KeepFirstConcat(a + [x], b, flow, n);
    KeepFirstConcat(a, [x], flow, n);
    OccurrencesAppend(a, x, flow);
    KeepFirstOne(x, flow, if Occurrences(a, flow) < n then n - Occurrences(a, flow) else 0);
  }

  lemma KeepFirstOne(x: nat, flow: nat, n: nat)
    ensures KeepFirst([x], flow, n) == if x == flow && n == 0 then [] else [x]
  {
    assert [x][1..] == [];
  }

  lemma {:induction false} WithoutIsShorter<T>(s: seq<T>, x: T)
    ensures |Without(s, x)| == |s| - multiset(s)[x]
    ensures forall y :: y in Without(s, x) <==> y in s && y != x
    ensures |Without(s, x)| == |s| ==> Without(s, x) == s
  {
    if s != [] {
      assert s == [s[0]] + s[1..];
      WithoutIsShorter(s[1..], x);
    }
  }

  lemma {:induction false} EntriesAtLeast<T>(data: seq<seq<T>>, flow: nat)
    requires flow < |data|
    ensures Entries(data) >= |data[flow]|
  {
    if flow < |data| - 1 {
      EntriesAtLeast(data[..|data| - 1], flow);
    }
  }

  lemma RemoveFromKeepsValid<T>(q: Queue<T>, x: T, flow: nat)
    requires Valid(q) && flow < |q.data|
    ensures ClassOf(q.maxWeight, flow) < |q.index| && Valid(RemoveFrom(q, x, flow))
    ensures RemoveFrom(q, x, flow).data == q.data[flow := Without(q.data[flow], x)]
  {
    ClassInRange(q.numPriority, q.maxWeight, flow);
    WithoutIsShorter(q.data[flow], x);
    EntriesAtLeast(q.data, flow);
    var p := ClassOf(q.maxWeight, flow);
    var rest := Without(q.data[flow], x);
    var r := RemoveFrom(q, x, flow);
    if |rest| < |q.data[flow]| {
      assert Occurrences(q.index[p], flow) == Share(q, p, flow);
      forall g: nat ensures Occurrences(r.index[p], g) ==
                              if g == flow then Min(Occurrences(q.index[p], g), |rest|) else Occurrences(q.index[p], g) {
        KeepFirstOccurrences(q.index[p], flow, |rest|, g);
      }
      ReplaceFlow(q, r, flow);
    }
  }

  lemma {:induction false} RemoveUpToKeepsValid<T>(q: Queue<T>, x: T, flows: nat)
    requires Valid(q) && flows <= |q.data|
    ensures Valid(RemoveUpTo(q, x, flows))
    ensures forall g :: 0 <= g < |q.data| ==>
              RemoveUpTo(q, x, flows).data[g] == if g < flows then Without(q.data[g], x) else q.data[g]
  {
    hide RemoveFrom, Without, Share, Entries;
    if flows > 0 {
      RemoveUpToKeepsValid(q, x, flows - 1);
      RemoveFromKeepsValid(RemoveUpTo(q, x, flows - 1), x, flows - 1);
    }
  }

  /** Remove keeps the invariant, drops every matching entry and keeps all others in their order. */
  lemma RemoveKeepsValid<T>(q: Queue<T>, x: T)
    requires Valid(q)
    ensures Valid(Remove(q, x)) && |Remove(q, x).data| == |q.data|
    ensures forall flow :: 0 <= flow < |q.data| ==> Remove(q, x).data[flow] == Without(q.data[flow], x)
  {
    RemoveUpToKeepsValid(q, x, |q.data|);
  }

  // ---------------------------------------------------------------- runs

  datatype Op<T> = Put(x: T, priority: nat, weight: nat) | Get

  /** In-range enqueues and dequeues; a dequeue of an empty queue does nothing. */
  predicate Proper<T>(q: Queue<T>, op: Op<T>) {
    op.Put? ==> InRange(q.numPriority, q.maxWeight, op.priority, op.weight)
  }

  function Step<T>(q: Queue<T>, op: Op<T>): (r: Queue<T>)
    requires Shaped(q) && Proper(q, op)
    ensures Shaped(r) && r.numPriority == q.numPriority && r.maxWeight == q.maxWeight
  {
    match op
    case Put(x, priority, weight) =>
      FlowInRange(q.numPriority, q.maxWeight, priority, weight);
      Enqueue(q, x, priority, weight)
    case Get => if Serves(q) then Dequeue(q) else q
  }

  predicate AllProper<T>(q: Queue<T>, ops: seq<Op<T>>) {
    forall i :: 0 <= i < |ops| ==> Proper(q, ops[i])
  }

  function Run<T>(q: Queue<T>, ops: seq<Op<T>>): (r: Queue<T>)
    requires Shaped(q) && AllProper(q, ops)
    ensures Shaped(r) && r.numPriority == q.numPriority && r.maxWeight == q.maxWeight
  {
    hide Step, Shaped;
    if ops == [] then q else Step(Run(q, ops[..|ops| - 1]), ops[|ops| - 1])
  }

  /** The flows of a class served during a run, in order. */
  function FlowsServed<T>(q: Queue<T>, ops: seq<Op<T>>, p: nat): seq<nat>
    requires Shaped(q) && AllProper(q, ops)
  {
    if ops == [] then []
    else
      var before := Run(q, ops[..|ops| - 1]);
      FlowsServed(q, ops[..|ops| - 1], p)
      + if ops[|ops| - 1].Get? && Serves(before) && BestClass(before.index) == p then [NextFlow(before)] else []
  }

  /** The entries of a flow served during a run, in order. */
  function EntriesServed<T>(q: Queue<T>, ops: seq<Op<T>>, flow: nat): seq<T>
    requires Shaped(q) && AllProper(q, ops)
  {
    if ops == [] then []
    else
      var before := Run(q, ops[..|ops| - 1]);
      EntriesServed(q, ops[..|ops| - 1], flow)
      + if ops[|ops| - 1].Get? && Serves(before) && NextFlow(before) == flow then [NextEntry(before)] else []
  }

  function EntriesPut<T>(maxWeight: nat, ops: seq<Op<T>>, flow: nat): seq<T> {
    if ops == [] then []
    else
      var op := ops[|ops| - 1];
      EntriesPut(maxWeight, ops[..|ops| - 1], flow)
      + if op.Put? && FlowIndex(maxWeight, op.priority, op.weight) == flow then [op.x] else []
  }

  lemma StepKeepsValid<T>(q: Queue<T>, op: Op<T>)
    requires Valid(q) && Proper(q, op)
    ensures Valid(Step(q, op))
  {
    hide Valid, Enqueue, Dequeue, Serves;
    if op.Put? {
      EnqueueInRangeKeepsValid(q, op.x, op.priority, op.weight);
    } else {
      BackloggedServes(q);
      if Serves(q) {
        DequeueKeepsValid(q);
      }
    }
  }

  lemma {:induction false} RunKeepsValid<T>(q: Queue<T>, ops: seq<Op<T>>)
    requires Valid(q) && AllProper(q, ops)
    ensures Valid(Run(q, ops))
  {
    if ops != [] {
      RunKeepsValid(q, ops[..|ops| - 1]);
      StepKeepsValid(Run(q, ops[..|ops| - 1]), ops[|ops| - 1]);
    }
  }

  /** A class serves its flows in the order of its index queue, which only grows at its end. */
  lemma {:induction false} IndexIsServedInOrder<T>(q: Queue<T>, ops: seq<Op<T>>, p: nat)
    requires Shaped(q) && AllProper(q, ops) && p < |q.index|
    ensures q.index[p] <= FlowsServed(q, ops, p) + Run(q, ops).index[p]
  {
    hide Step, Serves, NextFlow;
    if ops != [] {
      var front := ops[..|ops| - 1];
      IndexIsServedInOrder(q, front, p);
      IndexStep(Run(q, front), ops[|ops| - 1], p);
    }
  }

  lemma IndexStep<T>(q: Queue<T>, op: Op<T>, p: nat)
    requires Shaped(q) && Proper(q, op) && p < |q.index|
    ensures q.index[p] <=
            (if op.Get? && Serves(q) && BestClass(q.index) == p then [NextFlow(q)] else []) + Step(q, op).index[p]
  {
  }

  /** Weighted fairness: while a class works off the index queue it had, each flow gets exactly its share. */
  lemma WeightedFairness<T>(q: Queue<T>, ops: seq<Op<T>>, p: nat, flow: nat)
    requires Valid(q) && AllProper(q, ops) && p < q.numPriority
    requires flow < |q.data| && ClassOf(q.maxWeight, flow) == p
    requires |FlowsServed(q, ops, p)| >= |q.index[p]|
    ensures Occurrences(FlowsServed(q, ops, p)[..|q.index[p]|], flow) == Min(|q.data[flow]|, WeightOf(q.maxWeight, flow))
  {
    IndexIsServedInOrder(q, ops, p);
    assert FlowsServed(q, ops, p)[..|q.index[p]|] == q.index[p];
    assert Occurrences(q.index[p], flow) == Share(q, p, flow);
  }

  /** Within a flow entries leave in the order they came, and none is lost or duplicated. */
  lemma {:induction false} FlowsAreFifo<T>(q: Queue<T>, ops: seq<Op<T>>, flow: nat)
    requires Valid(q) && AllProper(q, ops) && flow < |q.data|
    ensures EntriesServed(q, ops, flow) + Run(q, ops).data[flow] == q.data[flow] + EntriesPut(q.maxWeight, ops, flow)
  {
    if ops == [] {
      assert q.data[flow] + [] == q.data[flow] && [] + q.data[flow] == q.data[flow];
    } else {
      FlowsAreFifo(q, ops[..|ops| - 1], flow);
      LastStepIsFifo(q, ops, flow);
    }
  }

  lemma LastStepIsFifo<T>(q: Queue<T>, ops: seq<Op<T>>, flow: nat)
    requires Shaped(q) && AllProper(q, ops) && flow < |q.data| && ops != []
    requires EntriesServed(q, ops[..|ops| - 1], flow) + Run(q, ops[..|ops| - 1]).data[flow] ==
             q.data[flow] + EntriesPut(q.maxWeight, ops[..|ops| - 1], flow)
    ensures EntriesServed(q, ops, flow) + Run(q, ops).data[flow] == q.data[flow] + EntriesPut(q.maxWeight, ops, flow)
  {
    hide Step, Serves, NextFlow, NextEntry, FlowIndex;
    var front, op := ops[..|ops| - 1], ops[|ops| - 1];
    var before := Run(q, front);
    var served := if op.Get? && Serves(before) && NextFlow(before) == flow then [NextEntry(before)] else [];
    var put := if op.Put? && FlowIndex(q.maxWeight, op.priority, op.weight) == flow then [op.x] else [];
    FlowStep(before, op, flow);
    assert Run(q, ops) == Step(before, op);
    assert EntriesServed(q, ops, flow) == EntriesServed(q, front, flow) + served;
    assert EntriesPut(q.maxWeight, ops, flow) == EntriesPut(q.maxWeight, front, flow) + put;
    Rejoin(EntriesServed(q, front, flow), before.data[flow], q.data[flow], EntriesPut(q.maxWeight, front, flow),
           served, Step(before, op).data[flow], put);
  }

  lemma Rejoin<T>(out: seq<T>, mid: seq<T>, start: seq<T>, put: seq<T>, served: seq<T>, rest: seq<T>, late: seq<T>)
    requires out + mid == start + put && served + rest == mid + late
    ensures (out + served) + rest == start + (put + late)
  {
    assert (out + served) + rest == out + (served + rest);
    assert out + (mid + late) == (out + mid) + late;
    assert (start + put) + late == start + (put + late);
  }

  lemma FlowStep<T>(q: Queue<T>, op: Op<T>, flow: nat)
    requires Shaped(q) && Proper(q, op) && flow < |q.data|
    ensures (if op.Get? && Serves(q) && NextFlow(q) == flow then [NextEntry(q)] else []) + Step(q, op).data[flow] ==
            q.data[flow] + if op.Put? && FlowIndex(q.maxWeight, op.priority, op.weight) == flow then [op.x] else []
  {
    if op.Put? {
      FlowInRange(q.numPriority, q.maxWeight, op.priority, op.weight);
    }
  }

  /** Each service of a flow hands out one of its entries. */
  lemma {:induction false} ServicesAreEntries<T>(q: Queue<T>, ops: seq<Op<T>>, flow: nat)
    requires Valid(q) && AllProper(q, ops) && flow < |q.data|
    ensures Occurrences(FlowsServed(q, ops, ClassOf(q.maxWeight, flow)), flow) == |EntriesServed(q, ops, flow)|
  {
    if ops != [] {
      var front := ops[..|ops| - 1];
      ServicesAreEntries(q, front, flow);
      RunKeepsValid(q, front);
      BackloggedServes(Run(q, front));
    }
  }
}
