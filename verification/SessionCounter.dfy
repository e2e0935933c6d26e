/** `DiameterSessionCounter`: the two-part counter that makes session ids unique. */
module SessionCounters {

  /** A half is reset when it reaches this value, so it counts modulo 2^32 - 1. */
  const LIMIT: nat := 0xffff_ffff

  const MODULUS: nat := LIMIT * LIMIT

  datatype Count = Count(high: nat, low: nat)

  predicate InRange(c: Count) {
    c.high < LIMIT && c.low < LIMIT
  }

  /** The number the two halves stand for. */
  function Value(c: Count): nat {
    c.high * LIMIT + c.low
  }

  /** One increment, half by half. */
  function Next(c: Count): Count {
    var low := if c.low + 1 == LIMIT then 0 else c.low + 1;
    var carried := if c.low + 1 == LIMIT then c.high + 1 else c.high;
    Count(if carried == LIMIT then 0 else carried, low)
  }

  predicate Less(c: Count, d: Count) {
    c.high < d.high || (c.high == d.high && c.low < d.low)
  }

  function Advanced(c: Count, n: nat): Count {
    if n == 0 then c else Next(Advanced(c, n - 1))
  }

  class SessionCounter {
    var high: nat
    var low: nat

    function View(): Count
      reads this
    {
      Count(high, low)
    }

    ghost predicate Valid()
      reads this
    {
      InRange(View())
    }

    constructor (c: Count)
      requires InRange(c)
      ensures Valid() && View() == c
    {
      high, low := c.high, c.low;
    }

    method Increment()
      requires Valid()
      modifies this
      ensures Valid() && Value(View()) == (Value(old(View())) + 1) % MODULUS
      ensures View() == Next(old(View()))
    {
      low := low + 1;
      if low == LIMIT {
        low := 0;
        high := high + 1;
      }
      if high == LIMIT {
        high := 0;
      }
      NextAddsOne(old(View()));
    }

    method LessThan(other: SessionCounter) returns (r: bool)
      requires Valid() && other.Valid()
      ensures r <==> Value(View()) < Value(other.View())
    {
      OrderIsByValue(View(), other.View());
      if high < other.high {
        return true;
      } else if high == other.high && low < other.low {
        return true;
      }
      return false;
    }
  }

  lemma NextAddsOne(c: Count)
    requires InRange(c)
    ensures InRange(Next(c)) && Value(Next(c)) == (Value(c) + 1) % MODULUS
  {
    if Value(c) + 1 < MODULUS {
      assert Value(Next(c)) == Value(c) + 1;
    } else {
      assert Value(c) + 1 == MODULUS && Value(Next(c)) == 0;
    }
  }

  /** Comparing the halves compares the numbers, and different halves are different numbers. */
  lemma OrderIsByValue(c: Count, d: Count)
    requires InRange(c) && InRange(d)
    ensures Less(c, d) <==> Value(c) < Value(d)
    ensures c == d <==> Value(c) == Value(d)
  {
  }

  /** n increments add n, modulo (2^32 - 1)^2. */
  lemma {:induction false} IncrementsAdd(c: Count, n: nat)
    requires InRange(c)
    ensures InRange(Advanced(c, n)) && Value(Advanced(c, n)) == (Value(c) + n) % MODULUS
  {
    if n > 0 {
      IncrementsAdd(c, n - 1);
      NextAddsOne(Advanced(c, n - 1));
      OneMore(Value(c) + n - 1);
    }
  }

  lemma OneMore(v: nat)
    ensures (v % MODULUS + 1) % MODULUS == (v + 1) % MODULUS
  {
    var q, r := v / MODULUS, v % MODULUS;
    if r + 1 < MODULUS {
      Remainder(v + 1, q, r + 1);
    } else {
      Remainder(v + 1, q + 1, 0);
    }
  }

  lemma Remainder(v: nat, q: nat, r: nat)
    requires v == q * MODULUS + r && r < MODULUS
    ensures v % MODULUS == r
  {
  }

  /** Any run of increments shorter than the modulus yields pairwise different counters. */
  lemma CountersAreDistinct(c: Count, i: nat, j: nat)
    requires InRange(c) && i < j < i + MODULUS
    ensures Advanced(c, i) != Advanced(c, j)
  {
    IncrementsAdd(c, i);
    IncrementsAdd(c, j);
    var v, w := Value(c) + i, Value(c) + j;
    if v % MODULUS == w % MODULUS {
      SameRemainder(v, w);
    }
  }

  lemma SameRemainder(v: nat, w: nat)
    requires v < w && v % MODULUS == w % MODULUS
    ensures w - v >= MODULUS
  {
    var p, q := v / MODULUS, w / MODULUS;
    assert w - v == (q - p) * MODULUS;
  }

  /** The counter comes round exactly after that many increments. */
  lemma CountersComeRound(c: Count)
    requires InRange(c)
    ensures Advanced(c, MODULUS) == c
  {
    IncrementsAdd(c, MODULUS);
    Remainder(Value(c) + MODULUS, 1, Value(c));
    OrderIsByValue(Advanced(c, MODULUS), c);
  }

  /** Increments change the low half alone until it reaches the limit; then the high half moves on by one. */
  lemma {:induction false} LowHalfFirst(c: Count, n: nat)
    requires c.high < 0xffff_ffff && c.low + n <= 0xffff_ffff && c.low < 0xffff_ffff
    ensures c.low + n < 0xffff_ffff ==> Advanced(c, n) == Count(c.high, c.low + n)
    ensures c.low + n == 0xffff_ffff ==> Advanced(c, n) == Count(if c.high + 1 == 0xffff_ffff then 0 else c.high + 1, 0)
  {
    if n > 0 {
      LowHalfFirst(c, n - 1);
    }
  }
}
