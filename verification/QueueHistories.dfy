/**
  What becomes of the entries of a queue over runs in which entries are also removed, and where the entries of a
  caller stand: by priority and weight as they were given.
 */
module QueueHistories {
  import opened Basics
  import opened WeightedQueue

  // ---------------------------------------------------------------- removal keeps the order

  lemma {:induction false} WithoutConcat<T>(a: seq<T>, b: seq<T>, x: T)
    ensures Without(a + b, x) == Without(a, x) + Without(b, x)
  {
    if a == [] {
      assert a + b == b;
    } else {
      assert (a + b)[1..] == a[1..] + b;
      WithoutConcat(a[1..], b, x);
    }
  }

  lemma {:induction false} WithoutAbsent<T>(a: seq<T>, x: T)
    requires x !in a
    ensures Without(a, x) == a
  {
    if a != [] {
      WithoutAbsent(a[1..], x);
    }
  }

  /** A removed entry leaves the ones before and after it as they stood. */
  lemma RemoveKeepsOrder<T>(q: Queue<T>, x: T, flow: nat, a: seq<T>, b: seq<T>)
    requires Valid(q) && flow < |q.data| && x !in a && x !in b
    ensures flow < |Remove(q, x).data|
    ensures q.data[flow] == a + b ==> Remove(q, x).data[flow] == a + b
    ensures q.data[flow] == a + [x] + b ==> Remove(q, x).data[flow] == a + b
  {
    RemoveKeepsValid(q, x);
    hide *;
    WithoutBetween(a, b, x);
  }

  lemma WithoutBetween<T>(a: seq<T>, b: seq<T>, x: T)
    requires x !in a && x !in b
    ensures Without(a + b, x) == a + b && Without(a + [x] + b, x) == a + b
  {
    assert Without([x], x) == [] + Without([x][1..], x) == [];
    hide Without;
    WithoutAbsent(a, x);
    WithoutAbsent(b, x);
    WithoutConcat(a, b, x);
    WithoutConcat(a + [x], b, x);
    WithoutConcat(a, [x], x);
    assert a + [] == a;
  }

  // ---------------------------------------------------------------- runs with removals

  datatype Act<T> = Do(op: Op<T>) | Drop(x: T)

  predicate Allowed<T>(q: Queue<T>, acts: seq<Act<T>>) {
    forall i :: 0 <= i < |acts| && acts[i].Do? ==> Proper(q, acts[i].op)
  }

  function Acted<T(==)>(q: Queue<T>, act: Act<T>): (r: Queue<T>)
    requires Shaped(q) && (act.Do? ==> Proper(q, act.op))
    ensures Shaped(r) && r.numPriority == q.numPriority && r.maxWeight == q.maxWeight
  {
    match act
    case Do(op) => Step(q, op)
    case Drop(x) => Remove(q, x)
  }

  function Play<T(==)>(q: Queue<T>, acts: seq<Act<T>>): (r: Queue<T>)
    requires Shaped(q) && Allowed(q, acts)
    ensures Shaped(r) && r.numPriority == q.numPriority && r.maxWeight == q.maxWeight
  {
    hide Acted, Shaped;
    if acts == [] then q else Acted(Play(q, acts[..|acts| - 1]), acts[|acts| - 1])
  }

  lemma {:induction false} PlayKeepsValid<T>(q: Queue<T>, acts: seq<Act<T>>)
    requires Valid(q) && Allowed(q, acts)
    ensures Valid(Play(q, acts)) && |Play(q, acts).data| == |q.data|
  {
    hide Step, Remove;
    if acts != [] {
      var before := Play(q, acts[..|acts| - 1]);
      PlayKeepsValid(q, acts[..|acts| - 1]);
      match acts[|acts| - 1]
      case Do(op) => StepKeepsValid(before, op);
      case Drop(x) => RemoveKeepsValid(before, x);
    }
  }

  /** The entry of a flow a step hands out, if any. */
  function Out<T>(q: Queue<T>, act: Act<T>, flow: nat): seq<T> {
    if act.Do? && act.op.Get? && Serves(q) && NextFlow(q) == flow then [NextEntry(q)] else []
  }

  /** The entry a step adds to a flow, if any. */
  function In<T>(maxWeight: nat, act: Act<T>, flow: nat): seq<T> {
    if act.Do? && act.op.Put? && (act.op.priority - 1) * maxWeight + act.op.weight - 1 == flow then [act.op.x] else []
  }

  function HandedOut<T(==)>(q: Queue<T>, acts: seq<Act<T>>, flow: nat): seq<T>
    requires Shaped(q) && Allowed(q, acts)
  {
    if acts == [] then []
    else HandedOut(q, acts[..|acts| - 1], flow) + Out(Play(q, acts[..|acts| - 1]), acts[|acts| - 1], flow)
  }

  function HandedIn<T>(maxWeight: nat, acts: seq<Act<T>>, flow: nat): seq<T> {
    if acts == [] then []
    else HandedIn(maxWeight, acts[..|acts| - 1], flow) + In(maxWeight, acts[|acts| - 1], flow)
  }

  // ---------------------------------------------------------------- a ledger of one flow

  datatype Fate = Waiting | Served | Removed

  datatype Item<T> = Item(x: T, fate: Fate)

  /** All entries in the order they came, each with what became of it. */
  function Ledger<T(==)>(q: Queue<T>, acts: seq<Act<T>>, flow: nat): seq<Item<T>>
    requires Shaped(q) && Allowed(q, acts) && flow < |q.data|
  {
    if acts == [] then AllWaiting(q.data[flow])
    else Entered(Play(q, acts[..|acts| - 1]), acts[|acts| - 1], flow, Ledger(q, acts[..|acts| - 1], flow))
  }

  function Entered<T(==)>(q: Queue<T>, act: Act<T>, flow: nat, l: seq<Item<T>>): seq<Item<T>> {
    match act
    case Drop(x) => CrossOut(l, x)
    case Do(_) => (if Out(q, act, flow) != [] then ServeFirst(l) else l) + AllWaiting(In(q.maxWeight, act, flow))
  }

  function AllWaiting<T>(s: seq<T>): (l: seq<Item<T>>)
    ensures |l| == |s| && forall i :: 0 <= i < |s| ==> l[i] == Item(s[i], Waiting)
  {
    seq(|s|, i requires 0 <= i < |s| => Item(s[i], Waiting))
  }

  /** The oldest waiting entry is served. */
  function ServeFirst<T>(l: seq<Item<T>>): seq<Item<T>> {
    if l == [] then []
    else if l[0].fate == Waiting then [l[0].(fate := Served)] + l[1..]
    else [l[0]] + ServeFirst(l[1..])
  }

  /** Every waiting entry that equals x is removed. */
  function CrossOut<T(==)>(l: seq<Item<T>>, x: T): (r: seq<Item<T>>)
    ensures |r| == |l|
    ensures forall i :: 0 <= i < |l| ==> r[i] == if l[i] == Item(x, Waiting) then Item(x, Removed) else l[i]
  {
    seq(|l|, i requires 0 <= i < |l| => if l[i] == Item(x, Waiting) then Item(x, Removed) else l[i])
  }

  /** The entries with one fate, in order. */
  function Those<T>(l: seq<Item<T>>, fate: Fate): seq<T> {
    if l == [] then [] else (if l[0].fate == fate then [l[0].x] else []) + Those(l[1..], fate)
  }

  function Entries<T>(l: seq<Item<T>>): (s: seq<T>)
    ensures |s| == |l| && forall i :: 0 <= i < |l| ==> s[i] == l[i].x
  {
    seq(|l|, i requires 0 <= i < |l| => l[i].x)
  }

  /** Nothing served came after something that still waits. */
  ghost predicate OldestFirst<T>(l: seq<Item<T>>) {
    forall i, j :: 0 <= i < j < |l| && l[i].fate == Waiting ==> l[j].fate != Served
  }

  lemma {:induction false} ThoseConcat<T>(l: seq<Item<T>>, m: seq<Item<T>>, fate: Fate)
    ensures Those(l + m, fate) == Those(l, fate) + Those(m, fate)
  {
    if l == [] {
      assert l + m == m;
    } else {
      assert (l + m)[1..] == l[1..] + m;
      ThoseConcat(l[1..], m, fate);
      var first := if l[0].fate == fate then [l[0].x] else [];
      assert Those(l + m, fate) == first + Those(l[1..] + m, fate) && Those(l, fate) == first + Those(l[1..], fate);
      hide Those;
    }
  }

  lemma {:induction false} ThoseWaiting<T>(s: seq<T>)
    ensures Those(AllWaiting(s), Waiting) == s && Those(AllWaiting(s), Served) == []
  {
    if s != [] {
      assert AllWaiting(s)[1..] == AllWaiting(s[1..]);
      ThoseWaiting(s[1..]);
    }
  }

  lemma {:induction false} NoneServed<T>(l: seq<Item<T>>)
    requires forall i :: 0 <= i < |l| ==> l[i].fate != Served
    ensures Those(l, Served) == []
  {
    if l != [] {
      NoneServed(l[1..]);
    }
  }

  lemma {:induction false} ServingFirst<T>(l: seq<Item<T>>)
    requires OldestFirst(l) && Those(l, Waiting) != []
    ensures OldestFirst(ServeFirst(l)) && Entries(ServeFirst(l)) == Entries(l)
    ensures Those(ServeFirst(l), Waiting) == Those(l, Waiting)[1..]
    ensures Those(ServeFirst(l), Served) == Those(l, Served) + [Those(l, Waiting)[0]]
    ensures |ServeFirst(l)| == |l|
    ensures forall i :: 0 <= i < |l| && ServeFirst(l)[i].fate == Waiting ==> l[i].fate == Waiting
  {
    var r := ServeFirst(l);
    if l[0].fate == Waiting {
      assert r[1..] == l[1..];
      NoneServed(l[1..]);
    } else {
      ServingFirst(l[1..]);
      assert r[1..] == ServeFirst(l[1..]);
      assert forall i :: 0 <= i < |l| - 1 ==> Entries(l[1..])[i] == Entries(ServeFirst(l[1..]))[i];
    }
  }

  lemma {:induction false} CrossingOut<T>(l: seq<Item<T>>, x: T)
    ensures Those(CrossOut(l, x), Waiting) == Without(Those(l, Waiting), x)
    ensures Those(CrossOut(l, x), Served) == Those(l, Served)
  {
    if l != [] {
      assert CrossOut(l, x)[1..] == CrossOut(l[1..], x);
      CrossingOut(l[1..], x);
      WithoutConcat(if l[0].fate == Waiting then [l[0].x] else [], Those(l[1..], Waiting), x);
      assert Without([l[0].x], x) == if l[0].x == x then [] else [l[0].x];
    }
  }

  lemma DoStep<T>(q: Queue<T>, act: Act<T>, flow: nat, l: seq<Item<T>>)
    requires Valid(q) && act.Do? && Proper(q, act.op) && flow < |q.data|
    requires OldestFirst(l) && Those(l, Waiting) == q.data[flow]
    ensures var r := Entered(q, act, flow, l);
            && OldestFirst(r) && Entries(r) == Entries(l) + In(q.maxWeight, act, flow)
            && flow < |Acted(q, act).data| && Those(r, Waiting) == Acted(q, act).data[flow]
            && Those(r, Served) == Those(l, Served) + Out(q, act, flow)
  {
    FlowStep(q, act.op, flow);
    FlowNumber(q, act, flow);
    hide Valid, FlowIndex, Serves, NextFlow, NextEntry;
    var added := In(q.maxWeight, act, flow);
    var kept := if Out(q, act, flow) != [] then ServeFirst(l) else l;
    if Out(q, act, flow) != [] {
      assert q.data[flow] == Out(q, act, flow) + Step(q, act.op).data[flow];
      ServingFirst(l);
    }
    hide Those, ServeFirst, Out, In, Step;
    ThoseWaiting(added);
    ThoseConcat(kept, AllWaiting(added), Waiting);
    ThoseConcat(kept, AllWaiting(added), Served);
  }

  lemma FlowNumber<T>(q: Queue<T>, act: Act<T>, flow: nat)
    requires Valid(q) && act.Do? && Proper(q, act.op)
    ensures In(q.maxWeight, act, flow) ==
            if act.op.Put? && FlowIndex(q.maxWeight, act.op.priority, act.op.weight) == flow then [act.op.x] else []
  {
  }

  lemma LedgerStep<T>(q: Queue<T>, act: Act<T>, flow: nat, l: seq<Item<T>>)
    requires Valid(q) && (act.Do? ==> Proper(q, act.op)) && flow < |q.data|
    requires OldestFirst(l) && Those(l, Waiting) == q.data[flow]
    ensures var r := Entered(q, act, flow, l);
            && OldestFirst(r) && Entries(r) == Entries(l) + In(q.maxWeight, act, flow)
            && flow < |Acted(q, act).data| && Those(r, Waiting) == Acted(q, act).data[flow]
            && Those(r, Served) == Those(l, Served) + Out(q, act, flow)
  {
    hide Valid, Step;
    match act
    case Do(op) => DoStep(q, act, flow, l);
    case Drop(x) =>
      CrossingOut(l, x);
      RemoveKeepsValid(q, x);
      assert Entries(CrossOut(l, x)) == Entries(l) + [];
  }

  // ---------------------------------------------------------------- main results

  /**
    Over runs with removals, for every flow: what was put into it, in order, is what was served, removed and still
    waits; served and waiting entries keep their order, and nothing is served before an older entry that waits.
   */
  lemma {:induction false} HistoriesAreFifo<T>(q: Queue<T>, acts: seq<Act<T>>, flow: nat)
    requires Valid(q) && Allowed(q, acts) && flow < |q.data|
    ensures var l := Ledger(q, acts, flow);
            && OldestFirst(l) && Entries(l) == q.data[flow] + HandedIn(q.maxWeight, acts, flow)
            && |Play(q, acts).data| == |q.data|
            && Those(l, Waiting) == Play(q, acts).data[flow] && Those(l, Served) == HandedOut(q, acts, flow)
  {
    if acts == [] {
      ThoseWaiting(q.data[flow]);
      assert Entries(AllWaiting(q.data[flow])) == q.data[flow] + [];
    } else {
      var front, act := acts[..|acts| - 1], acts[|acts| - 1];
      HistoriesAreFifo(q, front, flow);
      PlayKeepsValid(q, front);
      PlayKeepsValid(q, acts);
      hide Valid, Acted, Play;
      LedgerStep(Play(q, front), act, flow, Ledger(q, front, flow));
    }
  }

  lemma {:induction false} RemovedWereDropped<T>(q: Queue<T>, acts: seq<Act<T>>, flow: nat, i: nat)
    requires Shaped(q) && Allowed(q, acts) && flow < |q.data|
    requires i < |Ledger(q, acts, flow)| && Ledger(q, acts, flow)[i].fate == Removed
    ensures Drop(Ledger(q, acts, flow)[i].x) in acts
  {
    if acts != [] {
      var front, act := acts[..|acts| - 1], acts[|acts| - 1];
      var before, l := Play(q, front), Ledger(q, front, flow);
      assert acts == front + [act];
      if i < |l| && l[i].fate == Removed {
        RemovedWereDropped(q, front, flow, i);
        RemovedStays(before, act, flow, l, i);
      } else {
        NewlyRemoved(before, act, flow, l, i);
      }
    }
  }

  lemma {:induction false} ServingChangesOne<T>(l: seq<Item<T>>, i: nat)
    ensures |ServeFirst(l)| == |l|
    ensures i < |l| ==> ServeFirst(l)[i].x == l[i].x && (ServeFirst(l)[i].fate == Removed <==> l[i].fate == Removed)
  {
    if l != [] && l[0].fate != Waiting {
      ServingChangesOne(l[1..], if i > 0 then i - 1 else 0);
    }
  }

  lemma RemovedStays<T>(q: Queue<T>, act: Act<T>, flow: nat, l: seq<Item<T>>, i: nat)
    requires i < |l| && l[i].fate == Removed
    ensures i < |Entered(q, act, flow, l)| && Entered(q, act, flow, l)[i].x == l[i].x
  {
    ServingChangesOne(l, i);
  }

  lemma NewlyRemoved<T>(q: Queue<T>, act: Act<T>, flow: nat, l: seq<Item<T>>, i: nat)
    requires i < |Entered(q, act, flow, l)| && Entered(q, act, flow, l)[i].fate == Removed
    requires i >= |l| || l[i].fate != Removed
    ensures act == Drop(Entered(q, act, flow, l)[i].x)
  {
    ServingChangesOne(l, i);
  }

  // ---------------------------------------------------------------- where a caller's entries stand

  /** The data queue of a priority and a weight, both counted from one. */
  function FlowOf(maxWeight: nat, priority: nat, weight: nat): int {
    (priority - 1) * maxWeight + weight - 1
  }

  lemma FlowIsIndex(numPriority: nat, maxWeight: nat, priority: nat, weight: nat)
    requires maxWeight <= 3 && numPriority <= 3 && 1 <= priority <= numPriority && 1 <= weight <= maxWeight
    ensures 0 <= FlowOf(maxWeight, priority, weight) < numPriority * maxWeight
    ensures FlowIndex(maxWeight, priority, weight) == FlowOf(maxWeight, priority, weight)
    ensures ClassOf(maxWeight, FlowOf(maxWeight, priority, weight)) == priority - 1
    ensures WeightOf(maxWeight, FlowOf(maxWeight, priority, weight)) == weight
  {
    FlowInRange(numPriority, maxWeight, priority, weight);
  }

  /** While a class works off the index queue it had, a backlog of some priority and weight is served by its weight. */
  lemma CallersGetTheirWeight<T>(q: Queue<T>, ops: seq<Op<T>>, priority: nat, weight: nat)
    requires Valid(q) && AllProper(q, ops) && 1 <= priority <= q.numPriority && 1 <= weight <= q.maxWeight
    requires |FlowsServed(q, ops, priority - 1)| >= |q.index[priority - 1]|
    ensures 0 <= FlowOf(q.maxWeight, priority, weight) < |q.data|
    ensures var flow := FlowOf(q.maxWeight, priority, weight);
            var backlog := |q.data[flow]|;
            Occurrences(FlowsServed(q, ops, priority - 1)[..|q.index[priority - 1]|], flow) ==
            if backlog < weight then backlog else weight
  {
    FlowIsIndex(q.numPriority, q.maxWeight, priority, weight);
    WeightedFairness(q, ops, priority - 1, FlowOf(q.maxWeight, priority, weight));
  }

  /** While something of a priority waits, nothing of a larger priority number is served. */
  lemma SmallerNumbersGoFirst<T>(q: Queue<T>, priority: nat, weight: nat, other: nat, otherWeight: nat)
    requires Valid(q) && 1 <= priority < other <= q.numPriority
    requires 1 <= weight <= q.maxWeight && 1 <= otherWeight <= q.maxWeight
    requires 0 <= FlowOf(q.maxWeight, priority, weight) < |q.data|
    requires q.data[FlowOf(q.maxWeight, priority, weight)] != []
    ensures Serves(q) && NextFlow(q) != FlowOf(q.maxWeight, other, otherWeight)
  {
    FlowIsIndex(q.numPriority, q.maxWeight, priority, weight);
    FlowIsIndex(q.numPriority, q.maxWeight, other, otherWeight);
    BackloggedServes(q);
    NoEntries(q.data);
    ServesBestPriority(q, FlowOf(q.maxWeight, priority, weight));
  }
}
