/** `AAA_QueueJob`: the weighted fair queue as the object that updates its queues in place. */
module QueueJobs {
  import opened Basics
  import opened WeightedQueue

  /**
    How Dequeue ends. The original returns 1, 0, -1, and 0 again after logging a bug; a blocking dequeue of an
    empty queue waits instead of returning.
   */
  datatype Outcome<T> = Served(entry: T) | NothingThere | Stopped | Waits | DequeueError

  class QueueJob<T(==)> {
    const numPriority: nat
    const maxWeight: nat
    const indexQueue: array<seq<nat>>
    const dataQueue: array<seq<T>>
    var total: nat
    var signaled: bool

    function View(): Queue<T>
      reads this, indexQueue, dataQueue
    {
      Queue(numPriority, maxWeight, indexQueue[..], dataQueue[..], total)
    }

    ghost predicate Valid()
      reads this, indexQueue, dataQueue
    {
      Separate() && WeightedQueue.Valid(View())
    }

    ghost predicate Separate() {
      indexQueue as object != dataQueue as object
    }

    constructor (numPriority: nat, maxWeight: nat)
      requires numPriority <= MAX_NUM_PRIORITY && maxWeight <= MAX_MAX_WEIGHT
      ensures Valid() && View() == Empty(numPriority, maxWeight) && !signaled
      ensures fresh(indexQueue) && fresh(dataQueue)
    {
      this.numPriority := numPriority;
      this.maxWeight := maxWeight;
      indexQueue := new seq<nat>[numPriority](_ => []);
      dataQueue := new seq<T>[numPriority * maxWeight](_ => []);
      total := 0;
      signaled := false;
      new;
      assert View() == Empty(numPriority, maxWeight);
      EmptyIsValid<T>(numPriority, maxWeight);
    }

    /** The checks the original constructor makes: too many priorities or too large a weight is an error. */
    static method Create(numPriority: nat, maxWeight: nat) returns (r: Option<QueueJob<T>>)
      ensures r.Some? <==> numPriority <= MAX_NUM_PRIORITY && maxWeight <= MAX_MAX_WEIGHT
      ensures r.Some? ==> fresh(r.value) && r.value.Valid() && r.value.View() == Empty(numPriority, maxWeight)
    {
      if numPriority > MAX_NUM_PRIORITY || maxWeight > MAX_MAX_WEIGHT {
        return None;
      }
      var q := new QueueJob(numPriority, maxWeight);
      r := Some(q);
    }

    /** The number of entries afterwards, or -1 when the queue was signaled to stop its waiting users. */
    method Enqueue(entry: T, blocking: bool, priority: nat, weight: nat) returns (r: int)
      requires Valid() && Lands(View(), priority, weight)
      modifies this`total, indexQueue, dataQueue
      ensures signaled && blocking ==> r == -1 && View() == old(View())
      ensures !(signaled && blocking) ==> r == total && View() == WeightedQueue.Enqueue(old(View()), entry, priority, weight)
    {
      if signaled && blocking {
        return -1;
      }
      var p := ClassIndex(priority);
      var flow := FlowIndex(maxWeight, priority, weight);
      if |dataQueue[flow]| < weight {
        indexQueue[p] := indexQueue[p] + [flow];
      }
      dataQueue[flow] := dataQueue[flow] + [entry];
      total := total + 1;
      return total;
    }

    /** Serves the flow at the head of a class's index queue, which re-enters it while it is backlogged. */
    method ServeClass(p: nat) returns (entry: T)
      requires Valid() && Serves(View()) && p == BestClass(indexQueue[..])
      modifies this`total, indexQueue, dataQueue
      ensures Valid() && View() == WeightedQueue.Dequeue(old(View())) && entry == NextEntry(old(View()))
    {
      ghost var before := View();
      BackloggedServes(before);
      DequeueKeepsValid(before);
      var flow := indexQueue[p][0];
      indexQueue[p] := indexQueue[p][1..];
      entry := dataQueue[flow][0];
      dataQueue[flow] := dataQueue[flow][1..];
      assert indexQueue[p] + [] == indexQueue[p];
      if |dataQueue[flow]| >= (flow % maxWeight) + 1 {
        indexQueue[p] := indexQueue[p] + [flow];
      }
      total := total - 1;
      assert indexQueue[..] == WeightedQueue.Dequeue(before).index;
      assert dataQueue[..] == WeightedQueue.Dequeue(before).data;
    }

    /** The error is left only for a queue that was signaled, is not blocking and is empty. */
    method Dequeue(blocking: bool) returns (r: Outcome<T>)
      requires Valid()
      modifies this`total, indexQueue, dataQueue
      ensures Valid()
      ensures r == if signaled && blocking then Stopped
                   else if old(total) == 0 then (if signaled then DequeueError else if blocking then Waits else NothingThere)
                   else (BackloggedServes(old(View())); Served(NextEntry(old(View()))))
      ensures !r.Served? ==> View() == old(View())
      ensures r.Served? ==> Serves(old(View())) && View() == WeightedQueue.Dequeue(old(View()))
    {
      if !signaled && total == 0 {
        if !blocking {
          return NothingThere;
        }
        return Waits;
      }
      if signaled && blocking {
        return Stopped;
      }
      BackloggedServes(View());
      var p := 0;
      while p < numPriority
        invariant p <= numPriority && View() == old(View())
        invariant forall i :: 0 <= i < p ==> indexQueue[i] == []
      {
        if indexQueue[p] != [] {
          FirstIsBest(indexQueue[..], p);
          HeadIsQueued(View(), p);
          var entry := ServeClass(p);
          return Served(entry);
        }
        p := p + 1;
      }
      return DequeueError;
    }

    /** Walks the list and erases every occurrence of the flow after the first `size`. */
    static method Adjusted(list: seq<nat>, flow: nat, size: nat) returns (iQueue: seq<nat>)
      ensures iQueue == KeepFirst(list, flow, size)
    {
      iQueue := list;
      var i, j := 0, 0;
      assert iQueue[..i] + KeepFirst(iQueue[i..], flow, size) == KeepFirst(list, flow, size);
      while i < |iQueue|
        invariant i <= |iQueue|
        invariant KeepFirst(list, flow, size) ==
                  iQueue[..i] + KeepFirst(iQueue[i..], flow, if j <= size then size - j else 0)
        decreases |iQueue| - i
      {
        hide KeepFirst;
        KeepFirstStep(iQueue, i, flow, if j <= size then size - j else 0);
        if iQueue[i] == flow {
          j := j + 1;
          if j > size {
            iQueue := iQueue[..i] + iQueue[i + 1..];
          } else {
            i := i + 1;
          }
        } else {
          i := i + 1;
        }
      }
      assert iQueue[..i] + [] == iQueue && iQueue[i..] == [];
    }

    /** Erases from an index queue what its data queue no longer backs. */
    method AdjustIndexQueue(p: nat, flow: nat)
      requires Separate() && p < indexQueue.Length && flow < dataQueue.Length
      modifies indexQueue
      ensures indexQueue[..] == old(indexQueue[..])[p := KeepFirst(old(indexQueue[p]), flow, |dataQueue[flow]|)]
    {
      indexQueue[p] := Adjusted(indexQueue[p], flow, |dataQueue[flow]|);
    }

    /** Removes the entry from one data queue, as one round of the two loops of Remove does. */
    method RemoveFromFlow(entry: T, p: nat, flow: nat) returns (n: nat)
      requires Valid() && flow < dataQueue.Length && p == ClassOf(maxWeight, flow) && p < indexQueue.Length
      modifies this`total, indexQueue, dataQueue
      ensures View() == RemoveFrom(old(View()), entry, flow) && Valid()
      ensures n == old(total) - total
    {
      ghost var before := View();
      RemoveFromKeepsValid(before, entry, flow);
      WithoutIsShorter(dataQueue[flow], entry);
      EntriesAtLeast(before.data, flow);
      var preSize := |dataQueue[flow]|;
      dataQueue[flow] := Without(dataQueue[flow], entry);
      var postSize := |dataQueue[flow]|;
      n := 0;
      if preSize != postSize {
        n := preSize - postSize;
        total := total - (preSize - postSize);
        AdjustIndexQueue(p, flow);
      } else {
        assert dataQueue[..] == before.data;
      }
      assert View() == RemoveFrom(before, entry, flow);
    }

    /** Removes every matching entry and returns how many there were. */
    method Remove(entry: T) returns (totalRemove: nat)
      requires Valid()
      modifies this`total, indexQueue, dataQueue
      ensures Valid() && View() == WeightedQueue.Remove(old(View()), entry)
      ensures totalRemove == old(total) - total
    {
      hide Share, Entries, RemoveFrom;
      totalRemove := 0;
      var i := 0;
      while i < numPriority
        invariant i <= numPriority && i * maxWeight <= dataQueue.Length && Valid()
        invariant View() == RemoveUpTo(old(View()), entry, i * maxWeight)
        invariant totalRemove == old(total) - total
      {
        ClassEnds(numPriority, maxWeight, i);
        var j := i * maxWeight;
        while j < (i + 1) * maxWeight
          invariant i * maxWeight <= j <= (i + 1) * maxWeight && Valid()
          invariant View() == RemoveUpTo(old(View()), entry, j)
          invariant totalRemove == old(total) - total
        {
          ClassIsRow(maxWeight, i, j);
          var n := RemoveFromFlow(entry, i, j);
          totalRemove := totalRemove + n;
          j := j + 1;
        }
        i := i + 1;
      }
    }

    method Flush()
      requires Valid()
      modifies this`total, indexQueue, dataQueue
      ensures Valid() && View() == WeightedQueue.Flush(old(View()))
    {
      var i := 0;
      while i < numPriority
        invariant i <= numPriority
        invariant forall k :: 0 <= k < i ==> indexQueue[k] == []
      {
        indexQueue[i] := [];
        i := i + 1;
      }
      i := 0;
      while i < numPriority * maxWeight
        invariant i <= numPriority * maxWeight
        invariant forall k :: 0 <= k < indexQueue.Length ==> indexQueue[k] == []
        invariant forall k :: 0 <= k < i ==> dataQueue[k] == []
      {
        dataQueue[i] := [];
        i := i + 1;
      }
      total := 0;
      assert View() == Empty(numPriority, maxWeight);
      EmptyIsValid<T>(numPriority, maxWeight);
    }

    method Signal()
      modifies this`signaled
      ensures signaled
    {
      signaled := true;
    }
  }

  lemma {:induction false} FirstIsBest(index: seq<seq<nat>>, p: nat)
    requires p < |index| && index[p] != [] && forall i :: 0 <= i < p ==> index[i] == []
    ensures BestClass(index) == p
  {
    var b := BestClass(index);
    assert b <= p;
  }

  lemma HeadIsQueued<T>(q: Queue<T>, p: nat)
    requires WeightedQueue.Valid(q) && p < |q.index| && q.index[p] != []
    ensures q.total > 0 && q.index[p][0] < |q.data| && q.data[q.index[p][0]] != []
  {
    var flow := q.index[p][0];
    assert Occurrences(q.index[p], flow) == Share(q, p, flow) > 0;
    EntriesAtLeast(q.data, flow);
  }

  /** One step of the walk: the element stays, or is erased once no more of the flow may stay. */
  lemma KeepFirstStep(s: seq<nat>, i: nat, flow: nat, n: nat)
    requires i < |s|
    ensures s[i] != flow ==>
              s[..i] + KeepFirst(s[i..], flow, n) == s[..i + 1] + KeepFirst(s[i + 1..], flow, n)
    ensures s[i] == flow && n > 0 ==>
              s[..i] + KeepFirst(s[i..], flow, n) == s[..i + 1] + KeepFirst(s[i + 1..], flow, n - 1)
    ensures var r := s[..i] + s[i + 1..];
            s[i] == flow && n == 0 ==> s[..i] + KeepFirst(s[i..], flow, n) == r[..i] + KeepFirst(r[i..], flow, n)
  {
    var rest := s[i + 1..];
    assert s[i..] == [s[i]] + rest && s[i..][1..] == rest && s[..i + 1] == s[..i] + [s[i]];
    assert (s[..i] + rest)[..i] == s[..i] && (s[..i] + rest)[i..] == rest;
  }

  lemma ClassEnds(numPriority: nat, maxWeight: nat, i: nat)
    requires maxWeight <= MAX_MAX_WEIGHT && i < numPriority
    ensures (i + 1) * maxWeight <= numPriority * maxWeight
  {
    if maxWeight <= 1 {
    } else if maxWeight == 2 {
    } else {
      assert maxWeight == 3;
    }
  }

  lemma ClassIsRow(maxWeight: nat, i: nat, j: nat)
    requires maxWeight <= MAX_MAX_WEIGHT && i * maxWeight <= j < (i + 1) * maxWeight
    ensures ClassOf(maxWeight, j) == i
  {
    if maxWeight <= 1 {
    } else if maxWeight == 2 {
    } else {
      assert maxWeight == 3;
    }
  }
}
