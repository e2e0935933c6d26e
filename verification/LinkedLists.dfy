/** Singly linked lists as next-maps: which finite sequences of nodes they spell out. */
module LinkedLists {
  import opened Basics

  type Links<T> = map<T, Option<T>>

  function Nth<T>(s: seq<T>, i: nat): Option<T> {
    if i < |s| then Some(s[i]) else None
  }

  /** Following the links from `head` meets exactly these nodes and then ends. */
  ghost predicate IsList<T>(links: Links<T>, head: Option<T>, s: seq<T>) {
    && head == Nth(s, 0)
    && forall i: nat :: i < |s| ==> s[i] in links && links[s[i]] == Nth(s, i + 1)
  }

  /** The links after the last node of a list is linked to n. */
  function Appended<T>(links: Links<T>, s: seq<T>, n: T): Links<T> {
    if s == [] then links else links[s[|s| - 1] := Some(n)]
  }

  /** The list s, then n and the list that hangs on n, which has no node in common with s. */
  ghost predicate Extends<T>(links: Links<T>, s: seq<T>, n: T, r: seq<T>) {
    s + [n] <= r && IsList(links, Some(n), r[|s|..]) && forall k: nat :: |s| <= k < |r| ==> r[k] !in s
  }

  /** From one head there is at most one list, and it never meets a node twice. */
  lemma {:induction false} ListIsUnique<T>(links: Links<T>, head: Option<T>, a: seq<T>, b: seq<T>)
    requires IsList(links, head, a) && IsList(links, head, b)
    ensures a == b
    decreases |a|
  {
    if a != [] && b != [] {
      assert IsList(links, Nth(a, 1), a[1..]) && IsList(links, Nth(b, 1), b[1..]);
      ListIsUnique(links, Nth(a, 1), a[1..], b[1..]);
      assert a == [a[0]] + a[1..] && b == [b[0]] + b[1..];
    }
  }

  lemma TailIsList<T>(links: Links<T>, head: Option<T>, s: seq<T>, i: nat)
    requires IsList(links, head, s) && i <= |s|
    ensures IsList(links, Nth(s, i), s[i..])
  {
  }

  lemma ListIsDistinct<T>(links: Links<T>, head: Option<T>, s: seq<T>)
    requires IsList(links, head, s)
    ensures forall i, j :: 0 <= i < j < |s| ==> s[i] != s[j]
  {
    forall i: nat, j: nat | i < j < |s| ensures s[i] != s[j] {
      TailIsList(links, head, s, i);
      TailIsList(links, head, s, j);
      if s[i] == s[j] {
        ListIsUnique(links, Nth(s, i), s[i..], s[j..]);
      }
    }
  }

  lemma ExtensionIsList<T>(links: Links<T>, s: seq<T>, n: T, r: seq<T>)
    requires IsList(links, Nth(s, 0), s) && Extends(links, s, n, r)
    ensures IsList(Appended(links, s, n), Nth(r, 0), r)
  {
    ListIsDistinct(links, Nth(s, 0), s);
    var after, tail := Appended(links, s, n), r[|s|..];
    forall i: nat | i < |r| ensures r[i] in after && after[r[i]] == Nth(r, i + 1) {
      if i < |s| {
        assert r[i] == (s + [n])[i] && Nth(r, i + 1) == Some((s + [n])[i + 1]);
        assert s[i] in links && links[s[i]] == Nth(s, i + 1);
      } else {
        assert tail[i - |s|] in links && links[tail[i - |s|]] == Nth(tail, i - |s| + 1);
      }
    }
  }

  lemma {:induction false} FollowsTheList<T>(links: Links<T>, s: seq<T>, n: T, r: seq<T>, i: nat)
    requires IsList(links, Nth(s, 0), s) && IsList(Appended(links, s, n), Nth(s + [n], 0), r) && i <= |s|
    ensures i < |r| && r[i] == (s + [n])[i]
  {
    ListIsDistinct(links, Nth(s, 0), s);
    if i > 0 {
      FollowsTheList(links, s, n, r, i - 1);
      assert s[i - 1] in links && links[s[i - 1]] == Nth(s, i);
      assert Appended(links, s, n)[r[i - 1]] == Nth(r, i);
    }
  }

  lemma ListIsExtension<T>(links: Links<T>, s: seq<T>, n: T, r: seq<T>)
    requires IsList(links, Nth(s, 0), s) && IsList(Appended(links, s, n), Nth(s + [n], 0), r)
    ensures Extends(links, s, n, r)
  {
    var after := Appended(links, s, n);
    ListIsDistinct(after, Nth(r, 0), r);
    forall i: nat | i <= |s| ensures i < |r| && r[i] == (s + [n])[i] {
      FollowsTheList(links, s, n, r, i);
    }
    FollowsTheList(links, s, n, r, |s|);
    forall k: nat | |s| <= k < |r| ensures r[k] !in s {
      assert forall i: nat :: i < |s| ==> r[i] == s[i];
    }
    TailIsList(after, Nth(r, 0), r, |s|);
    var tail := r[|s|..];
    forall i: nat | i < |tail| ensures tail[i] in links && links[tail[i]] == Nth(tail, i + 1) {
      assert after[tail[i]] == Nth(tail, i + 1);
    }
  }

  /**
    After an append the list from the head ends exactly if n starts a list that avoids the nodes before it, and then
    it is those nodes followed by that list.
   */
  lemma AppendExtends<T>(links: Links<T>, s: seq<T>, n: T, r: seq<T>)
    requires IsList(links, Nth(s, 0), s)
    ensures IsList(Appended(links, s, n), Nth(s + [n], 0), r) <==> Extends(links, s, n, r)
  {
    if IsList(Appended(links, s, n), Nth(s + [n], 0), r) {
      ListIsExtension(links, s, n, r);
    }
    if Extends(links, s, n, r) {
      ExtensionIsList(links, s, n, r);
    }
  }

  /** A node that is already in the list closes a cycle: no finite list is left. */
  lemma AppendedTwice<T>(links: Links<T>, s: seq<T>, n: T, r: seq<T>)
    requires IsList(links, Nth(s, 0), s) && n in s
    ensures !IsList(Appended(links, s, n), Nth(s, 0), r)
  {
    if IsList(Appended(links, s, n), Nth(s, 0), r) {
      AppendExtends(links, s, n, r);
    }
  }
}
