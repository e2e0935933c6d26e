/**
  The election of RFC 3588 section 5.6.4, as `DiameterPeerStateMachine::Elect` runs it.

  Host names are sequences of octets. An octet is any integer here, so nothing below depends on
  whether `char` is signed. The code pads the shorter name with 0x08.
 */
module Election {

  type Octets = seq<int>

  const PAD: int := 0x08

  datatype Verdict = Win | Lose | SameHost

  /** The name as the comparison reads it: its octets, then padding without end. */
  function At(host: Octets, i: nat): int {
    if i < |host| then host[i] else PAD
  }

  ghost predicate FirstDifference(a: Octets, b: Octets, i: nat) {
    At(a, i) != At(b, i) && forall j: nat :: j < i ==> At(a, j) == At(b, j)
  }

  /** `a` is lower than `b` when both names are padded without end. */
  ghost predicate Below(a: Octets, b: Octets) {
    exists i: nat :: FirstDifference(a, b, i) && At(a, i) < At(b, i)
  }

  ghost predicate SamePadded(a: Octets, b: Octets) {
    forall i: nat :: At(a, i) == At(b, i)
  }

  /** What the election must decide, stated on the endlessly padded names. */
  ghost function Outcome(local: Octets, peer: Octets): (v: Verdict)
  {
    if local == peer then SameHost
    else if Below(peer, local) then Win
    else Lose
  }

  function Padding(n: nat): (s: Octets)
    ensures |s| == n && forall i :: 0 <= i < n ==> s[i] == PAD
  {
    seq(n, _ => PAD)
  }

  /** The comparison loop over the two names after each was padded to the other's length. */
  method Elect(local: Octets, peer: Octets) returns (v: Verdict)
    ensures v == Outcome(local, peer)
  {
    var localHost, peerHost := local, peer;
    if |localHost| < |peerHost| {
      localHost := localHost + Padding(|peerHost| - |localHost|);
    } else if |localHost| > |peerHost| {
      peerHost := peerHost + Padding(|localHost| - |peerHost|);
    } else if localHost == peerHost {
      return SameHost;
    }
    assert forall i: nat :: i < |localHost| ==> localHost[i] == At(local, i) && peerHost[i] == At(peer, i);
    var i := 0;
    while i < |localHost|
      invariant 0 <= i <= |localHost|
      invariant forall j: nat :: j < i ==> At(local, j) == At(peer, j)
    {
      if localHost[i] == peerHost[i] {
        i := i + 1;
      } else if localHost[i] > peerHost[i] {
        assert FirstDifference(peer, local, i);
        return Win;
      } else {
        assert FirstDifference(local, peer, i);
        BelowIsAsymmetric(local, peer);
        return Lose;
      }
    }
    assert SamePadded(local, peer);
    return Lose;
  }

  lemma BelowIsAsymmetric(a: Octets, b: Octets)
    requires Below(a, b)
    ensures !Below(b, a)
  {
    var i: nat :| FirstDifference(a, b, i) && At(a, i) < At(b, i);
    assert forall j: nat | FirstDifference(b, a, j) :: j == i;
  }

  lemma BelowIsTransitive(a: Octets, b: Octets, c: Octets)
    requires Below(a, b) && Below(b, c)
    ensures Below(a, c)
  {
    var i: nat :| FirstDifference(a, b, i) && At(a, i) < At(b, i);
    var j: nat :| FirstDifference(b, c, j) && At(b, j) < At(c, j);
    var k: nat := if i < j then i else j;
    assert At(a, k) < At(c, k);
    assert FirstDifference(a, c, k);
  }

  /** Names that differ somewhere when padded are ordered one way or the other. */
  lemma BelowIsTotalOnPadded(a: Octets, b: Octets)
    ensures Below(a, b) || Below(b, a) <==> !SamePadded(a, b)
  {
    if !SamePadded(a, b) {
      var i: nat :| At(a, i) != At(b, i);
      var k := LeastDifference(a, b, i);
      assert FirstDifference(a, b, k) && FirstDifference(b, a, k);
    }
  }

  lemma {:induction false} LeastDifference(a: Octets, b: Octets, i: nat) returns (k: nat)
    requires At(a, i) != At(b, i)
    ensures FirstDifference(a, b, k)
  {
    if j: nat :| j < i && At(a, j) != At(b, j) {
      k := LeastDifference(a, b, j);
    } else {
      k := i;
    }
  }

  // ---------------------------------------------------------------- main results

  /** At most one of two peers wins, and one does exactly when the padded names differ. */
  lemma ExactlyOneWinner(a: Octets, b: Octets)
    ensures !(Outcome(a, b) == Win && Outcome(b, a) == Win)
    ensures Outcome(a, b) == Win || Outcome(b, a) == Win <==> !SamePadded(a, b)
    ensures Outcome(a, b) == SameHost <==> a == b
    ensures Outcome(a, b) == SameHost <==> Outcome(b, a) == SameHost
  {
    BelowIsTotalOnPadded(a, b);
    if Below(a, b) {
      BelowIsAsymmetric(a, b);
    }
    if a == b {
      assert SamePadded(a, b);
    }
  }

  /** Winning is a strict weak order over any number of hosts: transitive, and so is having no winner. */
  lemma WinningIsAStrictWeakOrder(a: Octets, b: Octets, c: Octets)
    ensures Outcome(a, a) != Win
    ensures Outcome(a, b) == Win && Outcome(b, c) == Win ==> Outcome(a, c) == Win
    ensures Outcome(a, b) != Win && Outcome(b, a) != Win && Outcome(b, c) != Win && Outcome(c, b) != Win
            ==> Outcome(a, c) != Win && Outcome(c, a) != Win
  {
    ExactlyOneWinner(a, b);
    ExactlyOneWinner(b, c);
    ExactlyOneWinner(a, c);
    if Outcome(a, b) == Win && Outcome(b, c) == Win {
      BelowIsTransitive(c, b, a);
      if a == c {
        BelowIsAsymmetric(c, b);
      }
    }
  }

  /**
    Where `a` is the higher name, in octets alone: where the names first differ, or where one has run out and what
    is left of the other first differs from the octet 8.
   */
  ghost predicate HigherAt(a: Octets, b: Octets, i: nat) {
    || (i < |a| && i < |b| && a[..i] == b[..i] && a[i] > b[i])
    || (|b| <= i < |a| && a[..|b|] == b && (forall j :: |b| <= j < i ==> a[j] == 8) && a[i] > 8)
    || (|a| <= i < |b| && b[..|a|] == a && (forall j :: |a| <= j < i ==> b[j] == 8) && b[i] < 8)
  }

  lemma HigherIsFirstDifference(a: Octets, b: Octets, i: nat)
    ensures HigherAt(a, b, i) <==> FirstDifference(a, b, i) && At(a, i) > At(b, i)
  {
    if HigherAt(a, b, i) {
      if i < |a| && i < |b| {
        assert forall j :: 0 <= j < i ==> a[j] == a[..i][j] && b[j] == b[..i][j];
      } else if i < |a| {
        assert forall j :: 0 <= j < |b| ==> a[j] == a[..|b|][j];
      } else {
        assert forall j :: 0 <= j < |a| ==> b[j] == b[..|a|][j];
      }
    }
    if FirstDifference(a, b, i) && At(a, i) > At(b, i) {
      if i < |a| && i < |b| {
        assert forall j: nat :: j < i ==> At(a, j) == a[..i][j] && At(b, j) == b[..i][j];
      } else if i < |a| {
        assert forall j: nat :: j < |b| ==> At(a, j) == a[..|b|][j] && At(b, j) == b[j];
        assert forall j: nat :: |b| <= j < i ==> At(a, j) == a[j] && At(b, j) == 8;
      } else {
        assert forall j: nat :: j < |a| ==> At(b, j) == b[..|a|][j] && At(a, j) == a[j];
        assert forall j: nat :: |a| <= j < i ==> At(b, j) == b[j] && At(a, j) == 8;
      }
    }
  }

  /** The higher name wins, for all names. */
  lemma HigherNameWins(a: Octets, b: Octets)
    ensures Outcome(a, b) == Win <==> exists i: nat :: HigherAt(a, b, i)
  {
    forall i: nat ensures HigherAt(a, b, i) <==> FirstDifference(b, a, i) && At(b, i) < At(a, i) {
      HigherIsFirstDifference(a, b, i);
    }
    hide HigherAt, FirstDifference, At;
    ghost var higher := exists i: nat :: HigherAt(a, b, i);
    assert higher <==> Below(b, a);
    ExactlyOneWinner(a, b);
    if a == b && Below(b, a) {
      BelowIsAsymmetric(b, a);
    }
  }

  /** Names that differ in an octet both have: the one with the larger octet wins, the other loses. */
  lemma LargerOctetWins(a: Octets, b: Octets, i: nat)
    requires i < |a| && i < |b| && a[..i] == b[..i] && a[i] > b[i]
    ensures Outcome(a, b) == Win && Outcome(b, a) == Lose
  {
    assert HigherAt(a, b, i);
    HigherNameWins(a, b);
    ExactlyOneWinner(a, b);
  }

  /** A name and a continuation of it: the longer one wins exactly if it goes on with an octet above 8. */
  lemma LongerNameWins(a: Octets, b: Octets)
    requires |b| < |a| && a[..|b|] == b && a[|b|] != 8
    ensures Outcome(a, b) == Win <==> a[|b|] > 8
    ensures Outcome(b, a) == Win <==> a[|b|] < 8
    ensures Outcome(a, b) != SameHost && Outcome(b, a) != SameHost
  {
    HigherNameWins(a, b);
    HigherNameWins(b, a);
    ExactlyOneWinner(a, b);
    if a[|b|] > 8 {
      assert HigherAt(a, b, |b|);
    } else {
      assert HigherAt(b, a, |b|);
    }
  }

  ghost predicate NoPadOctet(host: Octets) {
    PAD !in host
  }

  ghost function DifferentIndex(a: Octets, b: Octets): (i: nat)
    requires |a| == |b| && a != b
    ensures i < |a| && a[i] != b[i]
  {
    var i :| 0 <= i < |a| && a[i] != b[i];
    i
  }

  /** Names without the octet 0x08 always produce a winner unless they are equal. */
  lemma DistinctNamesElectSomeone(a: Octets, b: Octets)
    requires NoPadOctet(a) && NoPadOctet(b) && a != b
    ensures Outcome(a, b) == Win <==> Outcome(b, a) == Lose
    ensures Outcome(a, b) != SameHost && Outcome(b, a) != SameHost
  {
    var i: nat := if |a| < |b| then |a| else if |b| < |a| then |b| else DifferentIndex(a, b);
    assert At(a, i) != At(b, i);
    ExactlyOneWinner(a, b);
  }

  /** Without that premise two different hosts can both lose, and then nobody ends the election. */
  lemma PaddingCanLeaveNoWinner()
    ensures Outcome([65], [65, PAD]) == Lose && Outcome([65, PAD], [65]) == Lose
  {
    assert SamePadded([65], [65, PAD]);
    ExactlyOneWinner([65], [65, PAD]);
  }
}
