/** When a state table, put together state by state, is a given transition function. */
module TableFunctions {
  import opened Basics
  import opened StateTables

  /** Where an event leads and what it does; None where the machine ignores it. */
  type Move<S, A> = Option<(S, Option<A>)>

  function Target<S, E, A>(row: Option<Row<S, E, A>>): Move<S, A> {
    if row.Some? then Some((row.value.next, row.value.action)) else None
  }

  /** The rows of one state in the order they are added; a wildcard comes last. */
  datatype Arms<S, E, A> =
    | On(event: E, next: S, action: Option<A>, rest: Arms)
    | Otherwise(next: S, action: Option<A>)
    | NoOther

  /** The rows of a table in the order they are added, state by state. */
  datatype Blocks<S, E, A> = Block(st: S, arms: Arms<S, E, A>, rest: Blocks) | Done

  function ArmRows<S, E, A>(st: S, arms: Arms<S, E, A>): seq<Row<S, E, A>> {
    match arms
    case On(ev, next, ac, rest) => [Row(st, Some(ev), next, ac)] + ArmRows(st, rest)
    case Otherwise(next, ac) => [Row(st, None, next, ac)]
    case NoOther => []
  }

  function BlockRows<S, E, A>(blocks: Blocks<S, E, A>): seq<Row<S, E, A>> {
    match blocks
    case Block(st, arms, rest) => ArmRows(st, arms) + BlockRows(rest)
    case Done => []
  }

  predicate Mentions<S, E(==), A>(arms: Arms<S, E, A>, ev: E) {
    match arms
    case On(e, _, _, rest) => e == ev || Mentions(rest, ev)
    case _ => false
  }

  predicate Distinct<S, E(==), A>(arms: Arms<S, E, A>) {
    match arms
    case On(e, _, _, rest) => !Mentions(rest, e) && Distinct(rest)
    case _ => true
  }

  predicate Covers<S(==), E, A>(blocks: Blocks<S, E, A>, st: S) {
    match blocks
    case Block(s, _, rest) => s == st || Covers(rest, st)
    case Done => false
  }

  predicate Buildable<S(==), E(==), A>(blocks: Blocks<S, E, A>) {
    match blocks
    case Block(st, arms, rest) => Distinct(arms) && !Covers(rest, st) && Buildable(rest)
    case Done => true
  }

  /** The first arm for an event decides. */
  function Find<S, E(==), A>(arms: Arms<S, E, A>, ev: E): Move<S, A> {
    match arms
    case On(e, next, ac, rest) => if e == ev then Some((next, ac)) else Find(rest, ev)
    case Otherwise(next, ac) => Some((next, ac))
    case NoOther => None
  }

  function FindIn<S(==), E(==), A>(blocks: Blocks<S, E, A>, st: S, ev: E): Move<S, A> {
    match blocks
    case Block(s, arms, rest) => if s == st then Find(arms, ev) else FindIn(rest, st, ev)
    case Done => None
  }

  lemma RowBefore<S, E, A>(first: Row<S, E, A>, more: seq<Row<S, E, A>>, ev: E)
    requires Built(more) && forall row <- more :: row.prev == first.prev && row.event != first.event
    requires first.event.Some?
    ensures Built([first] + more)
    ensures Lookup([first] + more, first.prev, ev) ==
            if first.event == Some(ev) then Some(first) else Lookup(more, first.prev, ev)
  {
    var rows := [first] + more;
    BuiltMeansUnique(more);
    forall i, j | 0 <= i < j < |rows| ensures rows[i].event.Some? && rows[i].event != rows[j].event {
      assert rows[j] == more[j - 1] && rows[j] in more;
      assert i > 0 ==> rows[i] == more[i - 1];
    }
    BuiltMeansUnique(rows);
    LookupIsByKey(rows, first.prev, ev);
    LookupIsByKey(more, first.prev, ev);
    assert rows[0] in rows && forall row <- more :: row in rows;
    assert forall row <- rows :: row == first || row in more;
  }

  lemma {:induction false} ArmRowsAgree<S, E, A>(st: S, arms: Arms<S, E, A>, ev: E)
    requires Distinct(arms)
    ensures var rows := ArmRows(st, arms);
            && Built(rows) && Target(Lookup(rows, st, ev)) == Find(arms, ev)
            && (forall row <- rows :: row.prev == st && (row.event.Some? ==> Mentions(arms, row.event.value)))
  {
    hide Built, Lookup;
    match arms
    case On(e, next, ac, rest) =>
      ArmRowsAgree(st, rest, ev);
      RowBefore(Row(st, Some(e), next, ac), ArmRows(st, rest), ev);
    case Otherwise(next, ac) =>
      OneRow(Row(st, None, next, ac), ev);
    case NoOther =>
      NoRows<S, E, A>(st, ev);
  }

  lemma OneRow<S, E, A>(row: Row<S, E, A>, ev: E)
    requires row.event.None?
    ensures Built([row]) && Lookup([row], row.prev, ev) == Some(row)
  {
    assert [row][..0] == [];
    LookupIsByKey([row], row.prev, ev);
    assert row in [row];
  }

  lemma NoRows<S, E, A>(st: S, ev: E)
    ensures Built<S, E, A>([]) && Lookup<S, E, A>([], st, ev) == None
  {
  }

  /** Lookups in two tables put together, of which at most one has the state. */
  lemma LookupConcat<S, E, A>(a: seq<Row<S, E, A>>, b: seq<Row<S, E, A>>, st: S, ev: E)
    requires Built(a) && Built(b) && DisjointStates(a, b)
    ensures Built(a + b)
    ensures (forall row <- a :: row.prev != st) ==> Lookup(a + b, st, ev) == Lookup(b, st, ev)
    ensures (forall row <- b :: row.prev != st) ==> Lookup(a + b, st, ev) == Lookup(a, st, ev)
  {
    BuiltConcat(a, b);
    LookupIsByKey(a + b, st, ev);
    LookupIsByKey(a, st, ev);
    LookupIsByKey(b, st, ev);
  }

  /** Such a table can be built, and looking an event up in its rows is finding its arm. */
  lemma {:induction false} LookupIsFind<S, E, A>(blocks: Blocks<S, E, A>, st: S, ev: E)
    requires Buildable(blocks)
    ensures var rows := BlockRows(blocks);
            && Built(rows) && Target(Lookup(rows, st, ev)) == FindIn(blocks, st, ev)
            && forall row <- rows :: Covers(blocks, row.prev)
  {
    match blocks
    case Block(s, arms, rest) =>
      ArmRowsAgree(s, arms, ev);
      LookupIsFind(rest, st, ev);
      LookupConcat(ArmRows(s, arms), BlockRows(rest), st, ev);
    case Done =>
  }
}
