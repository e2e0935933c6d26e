/**
  The state-table engine every state machine of the library rests on (`AAA_StateTable`).

  A table is a list of rows. A row names a state, either one event or any event (a wildcard), the
  next state and an action. Rows are only ever added, and an add that finds an entry is refused.
 */
module StateTables {
  import opened Basics

  datatype Row<S, E, A> = Row(prev: S, event: Option<E>, next: S, action: Option<A>)

  // ---------------------------------------------------------------- what a lookup means

  /** The row a scan stops at: the first one for exactly this event. */
  ghost function FirstExact<S, E, A>(rows: seq<Row<S, E, A>>, st: S, ev: E): (r: Option<Row<S, E, A>>)
    ensures r.Some? ==> r.value in rows && r.value.prev == st && r.value.event == Some(ev)
    ensures r.None? ==> forall row <- rows :: !(row.prev == st && row.event == Some(ev))
  {
    if rows == [] then None
    else if rows[0].prev == st && rows[0].event == Some(ev) then Some(rows[0])
    else FirstExact(rows[1..], st, ev)
  }

  /** The row a scan falls back on: the last wildcard of the state. */
  ghost function LastWildcard<S, E, A>(rows: seq<Row<S, E, A>>, st: S): (r: Option<Row<S, E, A>>)
    ensures r.Some? ==> r.value in rows && r.value.prev == st && r.value.event.None?
    ensures r.None? ==> forall row <- rows :: !(row.prev == st && row.event.None?)
  {
    if rows == [] then None
    else
      var last := rows[|rows| - 1];
      if last.prev == st && last.event.None? then Some(last)
      else LastWildcard(rows[..|rows| - 1], st)
  }

  ghost function Lookup<S, E, A>(rows: seq<Row<S, E, A>>, st: S, ev: E): Option<Row<S, E, A>> {
    if FirstExact(rows, st, ev).Some? then FirstExact(rows, st, ev) else LastWildcard(rows, st)
  }

  /** When an add succeeds: an exact row needs its event to find nothing, a wildcard needs no wildcard. */
  ghost predicate Accepts<S, E, A>(rows: seq<Row<S, E, A>>, row: Row<S, E, A>) {
    match row.event
    case Some(ev) => Lookup(rows, row.prev, ev).None?
    case None => LastWildcard(rows, row.prev).None?
  }

  /** The tables that successful adds can build, in the order of the adds. */
  ghost predicate Built<S, E, A>(rows: seq<Row<S, E, A>>) {
    rows == [] || (Built(rows[..|rows| - 1]) && Accepts(rows[..|rows| - 1], rows[|rows| - 1]))
  }

  class StateTable<S(==), E(==), A> {
    var rows: seq<Row<S, E, A>>
    var initialState: Option<S>

    constructor ()
      ensures rows == [] && initialState == None
    {
      rows := [];
      initialState := None;
    }

    method SetInitialState(st: S)
      modifies this`initialState
      ensures initialState == Some(st)
    {
      initialState := Some(st);
    }

    method FindStateTableEntry(st: S, ev: E) returns (entry: Option<Row<S, E, A>>)
      ensures entry == Lookup(rows, st, ev)
    {
      entry := None;
      var i := 0;
      while i < |rows|
        invariant 0 <= i <= |rows|
        invariant FirstExact(rows, st, ev) == FirstExact(rows[i..], st, ev)
        invariant entry == LastWildcard(rows[..i], st)
      {
        var e := rows[i];
        assert rows[i..][1..] == rows[i + 1..];
        assert rows[..i + 1][..i] == rows[..i];
        if e.prev == st {
          if e.event == None {
            entry := Some(e);
          } else if e.event == Some(ev) {
            return Some(e);
          }
        }
        i := i + 1;
      }
      assert rows[..|rows|] == rows;
    }

    method FindWildcardEntry(st: S) returns (found: bool)
      ensures found <==> LastWildcard(rows, st).Some?
    {
      var i := 0;
      while i < |rows|
        invariant 0 <= i <= |rows|
        invariant forall row <- rows[..i] :: !(row.prev == st && row.event.None?)
      {
        if rows[i].prev == st && rows[i].event == None {
          return true;
        }
        i := i + 1;
      }
      return false;
    }

    /** Adds one row; false is the exception the original throws on a duplicate. */
    method Add(row: Row<S, E, A>) returns (ok: bool)
      modifies this`rows
      ensures ok <==> Accepts(old(rows), row)
      ensures rows == if ok then old(rows) + [row] else old(rows)
    {
      if row.event.Some? {
        var entry := FindStateTableEntry(row.prev, row.event.value);
        ok := entry.None?;
      } else {
        var found := FindWildcardEntry(row.prev);
        ok := !found;
      }
      if ok {
        rows := rows + [row];
      }
    }

    /** The constructor of a concrete table: its rows, added one after the other. */
    method AddAll(more: seq<Row<S, E, A>>) returns (ok: bool)
      requires rows == []
      modifies this`rows
      ensures ok <==> Built(more)
      ensures ok ==> rows == more
    {
      var i := 0;
      while i < |more|
        invariant 0 <= i <= |more|
        invariant rows == more[..i] && Built(more[..i])
      {
        assert more[..i + 1][..i] == more[..i];
        ok := Add(more[i]);
        if !ok {
          BuiltPrefix(more, i + 1);
          return;
        }
        i := i + 1;
      }
      assert more[..|more|] == more;
      return true;
    }
  }

  lemma {:induction false} BuiltPrefix<S, E, A>(rows: seq<Row<S, E, A>>, n: nat)
    requires n <= |rows|
    ensures Built(rows) ==> Built(rows[..n])
  {
    if n == |rows| {
      assert rows[..n] == rows;
    } else {
      BuiltPrefix(rows[..|rows| - 1], n);
      assert rows[..|rows| - 1][..n] == rows[..n];
    }
  }

  // ---------------------------------------------------------------- main results

  /** A table built by successful adds holds at most one row for each state and event, or wildcard. */
  lemma {:induction false} RowsAreUnique<S, E, A>(rows: seq<Row<S, E, A>>, i: nat, j: nat)
    requires Built(rows) && i < j < |rows|
    requires rows[i].prev == rows[j].prev
    ensures rows[i].event != rows[j].event
    ensures rows[i].event.Some?   // a state's wildcard closes it: nothing is added for the state after it
  {
    var front := rows[..|rows| - 1];
    if j < |rows| - 1 {
      RowsAreUnique(front, i, j);
    } else {
      assert front[i] in front;
    }
  }

  /** Lookup finds the state's row for the event if the table holds one, and otherwise its wildcard. */
  lemma LookupIsByKey<S, E, A>(rows: seq<Row<S, E, A>>, st: S, ev: E)
    requires Built(rows)
    ensures forall row <- rows :: row.prev == st && row.event == Some(ev) ==> Lookup(rows, st, ev) == Some(row)
    ensures (forall row <- rows :: !(row.prev == st && row.event == Some(ev))) ==>
              forall row <- rows :: row.prev == st && row.event.None? ==> Lookup(rows, st, ev) == Some(row)
    ensures Lookup(rows, st, ev).None? <==>
              forall row <- rows :: row.prev == st ==> row.event.Some? && row.event != Some(ev)
  {
    forall i, j | 0 <= i < |rows| && 0 <= j < |rows| && rows[i].prev == rows[j].prev && rows[i].event == rows[j].event
      ensures i == j
    {
      if i < j { RowsAreUnique(rows, i, j); } else if j < i { RowsAreUnique(rows, j, i); }
    }
  }

  /** A lookup does not depend on the order of the list. */
  lemma LookupIgnoresOrder<S, E, A>(rows: seq<Row<S, E, A>>, shuffled: seq<Row<S, E, A>>, st: S, ev: E)
    requires Built(rows)
    requires multiset(rows) == multiset(shuffled)
    ensures Lookup(shuffled, st, ev) == Lookup(rows, st, ev)
  {
    forall row ensures row in rows <==> row in shuffled {
      assert row in multiset(rows) <==> row in multiset(shuffled);
    }
    LookupIsByKey(rows, st, ev);
  }

  /** A later successful add never changes a lookup that already succeeded. */
  lemma AddsKeepLookups<S, E, A>(rows: seq<Row<S, E, A>>, row: Row<S, E, A>, st: S, ev: E)
    requires Built(rows) && Accepts(rows, row)
    requires Lookup(rows, st, ev).Some?
    ensures Built(rows + [row])
    ensures Lookup(rows + [row], st, ev) == Lookup(rows, st, ev)
  {
    assert (rows + [row])[..|rows|] == rows;
    LookupIsByKey(rows, st, ev);
    LookupIsByKey(rows + [row], st, ev);
    assert Lookup(rows, st, ev).value in rows + [row];
  }

  // ---------------------------------------------------------------- tables put together state by state

  /** What a buildable table is, without reference to the order of its construction. */
  lemma {:induction false} BuiltMeansUnique<S, E, A>(rows: seq<Row<S, E, A>>)
    ensures Built(rows) <==> forall i, j :: 0 <= i < j < |rows| && rows[i].prev == rows[j].prev ==>
                                              rows[i].event.Some? && rows[i].event != rows[j].event
  {
    if Built(rows) {
      forall i, j | 0 <= i < j < |rows| && rows[i].prev == rows[j].prev
        ensures rows[i].event.Some? && rows[i].event != rows[j].event
      {
        RowsAreUnique(rows, i, j);
      }
    }
    if rows != [] && forall i, j :: 0 <= i < j < |rows| && rows[i].prev == rows[j].prev ==>
                                      rows[i].event.Some? && rows[i].event != rows[j].event
    {
      var front := rows[..|rows| - 1];
      BuiltMeansUnique(front);
    }
  }

  ghost predicate DisjointStates<S, E, A>(a: seq<Row<S, E, A>>, b: seq<Row<S, E, A>>) {
    forall x <- a, y <- b :: x.prev != y.prev
  }

  lemma BuiltConcat<S, E, A>(a: seq<Row<S, E, A>>, b: seq<Row<S, E, A>>)
    requires Built(a) && Built(b) && DisjointStates(a, b)
    ensures Built(a + b)
  {
    BuiltMeansUnique(a);
    BuiltMeansUnique(b);
    forall i, j | 0 <= i < j < |a + b| && (a + b)[i].prev == (a + b)[j].prev
      ensures (a + b)[i].event.Some? && (a + b)[i].event != (a + b)[j].event
    {
      assert (a + b)[i] in a || (a + b)[i] in b;
      assert (a + b)[j] in a || (a + b)[j] in b;
    }
    BuiltMeansUnique(a + b);
  }
}
