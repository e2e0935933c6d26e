/** The routing chain as a linked list of nodes, and the delivery nodes that hold pending requests. */
module RoutingChains {
  import opened Basics
  import opened LinkedLists
  import opened Routing

  datatype Verdict = Success | Failed | NextChain

  /**
    A delivery node looks answers up in its pending requests; a request node decides by a rule that is not part
    of this model. `deliver` and `process` say whether handling
    a message the node took succeeds.
   */
  datatype Kind =
    | Delivery(deliver: Found -> bool)
    | Request(lookup: Msg -> Verdict, process: Msg -> bool)

  /** A node as a value. */
  datatype Stage = Stage(kind: Kind, pending: Table)

  function LookupVerdict(st: Stage, m: Msg): Verdict {
    match st.kind
    case Delivery(_) => if m.hh in st.pending then Success else NextChain
    case Request(lookup, _) => lookup(m)
  }

  function Processed(st: Stage, m: Msg): Verdict
    requires LookupVerdict(st, m) == Success
  {
    var ok := match st.kind
              case Delivery(deliver) => deliver(Translated(st.pending, m))
              case Request(_, process) => process(m);
    if ok then Success else Failed
  }

  /** The first stage that does not defer, or their number. */
  function Decider(stages: seq<Stage>, m: Msg): (i: nat)
    ensures i <= |stages|
    ensures forall k :: 0 <= k < i ==> LookupVerdict(stages[k], m) == NextChain
    ensures i < |stages| ==> LookupVerdict(stages[i], m) != NextChain
  {
    if stages == [] then 0 else if LookupVerdict(stages[0], m) != NextChain then 0 else 1 + Decider(stages[1..], m)
  }

  function RouteVerdict(stages: seq<Stage>, m: Msg): Verdict {
    var i := Decider(stages, m);
    if stages == [] then Failed
    else if i == |stages| then NextChain
    else if LookupVerdict(stages[i], m) == Success then Processed(stages[i], m)
    else Failed
  }

  /** Only the stage that takes an answer changes: the request is no longer pending there. */
  function StagesAfter(stages: seq<Stage>, m: Msg): seq<Stage> {
    var i := Decider(stages, m);
    if i < |stages| && stages[i].kind.Delivery? then stages[i := stages[i].(pending := stages[i].pending - {m.hh})]
    else stages
  }

  function TablesOf(stages: seq<Stage>): seq<Table> {
    seq(|stages|, i requires 0 <= i < |stages| => stages[i].pending)
  }

  /** On a chain of delivery nodes routing is the answer step of the pending tables. */
  lemma RoutingAnswers(stages: seq<Stage>, m: Msg)
    requires forall i :: 0 <= i < |stages| ==> stages[i].kind.Delivery?
    ensures TablesOf(StagesAfter(stages, m)) == TablesAfter(TablesOf(stages), m)
    ensures RouteVerdict(stages, m) == Success || RouteVerdict(stages, m) == Failed <==>
              stages == [] || AnswerOf(TablesOf(stages), m).Some?
  {
    var i, h := Decider(stages, m), Holder(TablesOf(stages), m.hh);
    assert forall k :: 0 <= k < |stages| ==> (LookupVerdict(stages[k], m) != NextChain <==> m.hh in TablesOf(stages)[k]);
    assert i == h;
  }

  class Node {
    const kind: Kind
    var next: Node?
    var pending: Table

    constructor (kind: Kind)
      ensures this.kind == kind && next == null && pending == map[]
    {
      this.kind := kind;
      next := null;
      pending := map[];
    }

    function View(): Stage
      reads this
    {
      Stage(kind, pending)
    }

    method Add(localH2h: int, m: Msg, source: Option<PeerId>, dest: Option<PeerId>, now: int, lim: Limits)
      modifies this`pending
      ensures pending == Insert(old(pending), localH2h, Pending(m.hh, source, dest, now + lim.interval, 0, None))
    {
      if localH2h !in pending {
        pending := pending[localH2h := Pending(m.hh, source, dest, now + lim.interval, 0, None)];
      }
    }

    method StoreRequestMessage(h2hId: int, m: Msg) returns (stored: bool)
      modifies this`pending
      ensures pending == Store(old(pending), h2hId, m) && (stored <==> h2hId in pending)
    {
      stored := h2hId in pending;
      if stored {
        pending := pending[h2hId := pending[h2hId].(request := Some(m))];
      }
    }

    /** A delivery node takes an answer it knows: the request stops being pending and the id is restored. */
    method Lookup(m: Msg) returns (v: Verdict, found: Option<Found>)
      modifies this`pending
      ensures v == LookupVerdict(old(View()), m)
      ensures kind.Delivery? && v == Success ==>
                found == Some(Translated(old(pending), m)) && pending == old(pending) - {m.hh}
      ensures !(kind.Delivery? && v == Success) ==> found == None && pending == old(pending)
    {
      match kind
      case Delivery(_) =>
        if m.hh in pending {
          var r := pending[m.hh];
          pending := pending - {m.hh};
          return Success, Some(Found(m.(hh := r.origHH), r.request, r.source));
        }
        return NextChain, None;
      case Request(lookup, _) =>
        return lookup(m), None;
    }

    method Process(m: Msg, found: Option<Found>) returns (v: Verdict)
      requires kind.Delivery? ==> found.Some?
      ensures v == if (match kind case Delivery(deliver) => deliver(found.value) case Request(_, process) => process(m))
                   then Success else Failed
    {
      var ok := match kind case Delivery(deliver) => deliver(found.value) case Request(_, process) => process(m);
      v := if ok then Success else Failed;
    }

    /** Walks over all pending requests once; entries that match are resent or deleted. */
    method ReTransmitCheck(lim: Limits, pass: Pass)
      modifies this`pending
      ensures pending == PassTable(lim, pass, old(pending))
    {
      var ids := pending.Keys;
      ghost var done := {};
      while ids != {}
        invariant ids !! done && ids + done == old(pending).Keys
        invariant forall id <- ids :: id in pending && pending[id] == old(pending)[id]
        invariant forall id <- done :: id in pending <==> AfterPass(lim, pass, old(pending)[id]).Some?
        invariant forall id <- done :: id in pending ==> pending[id] == AfterPass(lim, pass, old(pending)[id]).value
        invariant pending.Keys <= ids + done
      {
        var id := Any(ids);
        ids, done := ids - {id}, done + {id};
        var r := pending[id];
        if Matches(pass, r) {
          if r.retx < lim.maxCount {
            pending := pending[id := r.(retx := r.retx + 1, expire := pass.now + lim.interval)];
          } else {
            pending := pending - {id};
          }
        }
      }
      assert done == old(pending).Keys;
      assert forall id :: id in pending <==> id in PassTable(lim, pass, old(pending));
      assert forall id <- pending :: pending[id] == PassTable(lim, pass, old(pending))[id];
    }
  }

  function At(nodes: seq<Node>, i: nat): Node? {
    if i < |nodes| then nodes[i] else null
  }

  function Maybe(n: Node?): Option<Node> {
    if n == null then None else Some(n)
  }

  /** Which node every one of these links to. */
  ghost function LinksOf(around: set<Node>): Links<Node>
    reads around
  {
    map k | k in around :: Maybe(k.next)
  }

  class RoutingChain {
    var head: Node?
    ghost var nodes: seq<Node>

    /** The list from the head is exactly `nodes`, without repetition, and ends. */
    ghost predicate Valid()
      reads this, nodes
    {
      && (forall i, j :: 0 <= i < j < |nodes| ==> nodes[i] != nodes[j])
      && head == At(nodes, 0)
      && forall i :: 0 <= i < |nodes| ==> nodes[i].next == At(nodes, i + 1)
    }

    ghost function View(): seq<Stage>
      reads this, nodes
    {
      seq(|nodes|, i requires 0 <= i < |nodes| reads this, nodes => nodes[i].View())
    }

    constructor ()
      ensures Valid() && nodes == []
    {
      head := null;
      nodes := [];
    }

    lemma NodesAreList(around: set<Node>)
      requires Valid() && forall k <- nodes :: k in around
      ensures IsList(LinksOf(around), Nth(nodes, 0), nodes) && Maybe(head) == Nth(nodes, 0)
    {
    }

    /** `nodes` is the only list the links spell out from the head. */
    lemma ListIsNodes(around: set<Node>, s: seq<Node>)
      requires IsList(LinksOf(around), Maybe(head), s) && nodes == s
      ensures Valid()
    {
      ListIsDistinct(LinksOf(around), Maybe(head), s);
      forall i: nat | i < |nodes| ensures nodes[i].next == At(nodes, i + 1) {
        assert LinksOf(around)[s[i]] == Nth(s, i + 1);
      }
    }

    /** The walk to the end of the list. */
    method Last() returns (prev: Node?)
      requires Valid()
      ensures prev == if nodes == [] then null else nodes[|nodes| - 1]
    {
      var next: Node? := head;
      prev := null;
      ghost var i := 0;
      while next != null
        invariant 0 <= i <= |nodes|
        invariant next == At(nodes, i)
        invariant prev == if i > 0 then nodes[i - 1] else null
        decreases |nodes| - i
      {
        prev := next;
        next := next.next;
        i := i + 1;
      }
    }

    /**
      Links the last node to n, whatever n is. The chain is a finite list again exactly if n starts a list that has
      no node in common with it, and is then that list appended. `around` are all nodes that can be met.
     */
    method Add(n: Node, ghost around: set<Node>)
      requires Valid() && n in around && forall k <- nodes :: k in around
      modifies this, nodes
      ensures LinksOf(around) == Appended(old(LinksOf(around)), old(nodes), n)
      ensures head == (old(nodes) + [n])[0]
      ensures forall k <- around :: k.View() == old(k.View())
      ensures forall r: seq<Node> ::
                IsList(LinksOf(around), Maybe(head), r) <==> Extends(old(LinksOf(around)), old(nodes), n, r)
      ensures Valid() <==> exists r: seq<Node> :: Extends(old(LinksOf(around)), old(nodes), n, r)
      ensures Valid() ==> Extends(old(LinksOf(around)), old(nodes), n, nodes)
    {
      hide Appended, Extends, IsList, LinksOf, Valid, Node.View;
      ghost var links, before := LinksOf(around), nodes;
      NodesAreList(around);
      Link(n, around);
      ListsAreExtensions(links, before, n);
      Settle(n, around, links);
      ListsAreExtensions(links, before, n);
    }

    /** Finds out which list the links spell out now, if they do. */
    ghost method Settle(n: Node, around: set<Node>, links: Links<Node>)
      requires !Valid()
      requires forall r: seq<Node> :: IsList(LinksOf(around), Maybe(head), r) <==> Extends(links, nodes, n, r)
      modifies this`nodes
      ensures LinksOf(around) == old(LinksOf(around))
      ensures forall k <- around :: k.View() == old(k.View())
      ensures Valid() <==> exists r: seq<Node> :: Extends(links, old(nodes), n, r)
      ensures Valid() ==> Extends(links, old(nodes), n, nodes)
    {
      hide Extends, IsList;
      if r: seq<Node> :| Extends(links, nodes, n, r) {
        nodes := r;
        ListIsNodes(around, r);
      }
    }

    /** The pointer that is written; the list is no longer the old one. */
    method Link(n: Node, ghost around: set<Node>)
      requires Valid() && n in around && forall k <- nodes :: k in around
      modifies this`head, nodes
      ensures nodes == old(nodes) && !Valid()
      ensures LinksOf(around) == Appended(old(LinksOf(around)), nodes, n)
      ensures head == (nodes + [n])[0] && Maybe(head) == Nth(nodes + [n], 0)
      ensures forall k <- around :: k.View() == old(k.View())
    {
      if head == null {
        head := n;
      } else {
        var prev := Last();
        prev.next := n;
      }
    }

    method Lookup(n: Node) returns (found: bool)
      requires Valid()
      ensures found <==> n in nodes
    {
      var next: Node? := head;
      ghost var i := 0;
      while next != null
        invariant 0 <= i <= |nodes|
        invariant next == At(nodes, i)
        invariant n !in nodes[..i]
        decreases |nodes| - i
      {
        if next == n {
          return true;
        }
        next := next.next;
        i := i + 1;
      }
      return false;
    }

    /** Unlinks the node; false when the chain does not have it. */
    method Remove(n: Node) returns (found: bool)
      requires Valid()
      modifies this, nodes
      ensures Valid()
      ensures found <==> n in old(nodes)
      ensures !found ==> nodes == old(nodes)
      ensures found ==> n !in nodes
      ensures found ==> exists i :: 0 <= i < |old(nodes)| && WithoutAt(old(nodes), nodes, n, i)
      ensures forall k <- old(nodes) :: k.View() == old(k.View())
    {
      var next: Node? := head;
      var prev: Node? := null;
      ghost var i := 0;
      while next != null
        invariant 0 <= i <= |nodes|
        invariant next == At(nodes, i)
        invariant prev == if i > 0 then nodes[i - 1] else null
        invariant n !in nodes[..i] && nodes == old(nodes) && Valid()
        invariant forall k <- old(nodes) :: k.View() == old(k.View())
        decreases |nodes| - i
      {
        if next == n {
          Unlink(n, prev, i);
          assert WithoutAt(old(nodes), nodes, n, i);
          return true;
        }
        prev := next;
        next := next.next;
        i := i + 1;
      }
      return false;
    }

    method Unlink(n: Node, prev: Node?, ghost i: nat)
      requires Valid() && i < |nodes| && nodes[i] == n && prev == if i > 0 then nodes[i - 1] else null
      modifies this, nodes
      ensures Valid() && nodes == old(nodes)[..i] + old(nodes)[i + 1..] && n !in nodes
      ensures forall k <- old(nodes) :: k.View() == old(k.View())
    {
      ghost var before, rest := nodes, nodes[..i] + nodes[i + 1..];
      WithoutOne(before, i);
      if prev != null {
        prev.next := n.next;
      } else if n.next != null {
        head := n.next;
      } else {
        head := null;
      }
      nodes := rest;
      forall k | 0 <= k < |rest|
        ensures rest[k].next == At(rest, k + 1)
      {
        if k + 1 < i {
          assert rest[k] == before[k] && rest[k + 1] == before[k + 1];
        } else if k + 1 > i {
          assert rest[k] == before[k + 1] && At(rest, k + 1) == At(before, k + 2);
        } else {
          assert At(rest, i) == At(before, i + 1);
        }
      }
    }

    /** Asks the nodes from n on; the first that does not defer decides. */
    method RouteFrom(n: Node, m: Msg, ghost i: nat) returns (v: Verdict)
      requires Valid() && i < |nodes| && nodes[i] == n
      requires forall k :: 0 <= k < i ==> LookupVerdict(nodes[k].View(), m) == NextChain
      modifies nodes
      ensures Valid() && nodes == old(nodes)
      ensures v == RouteVerdict(old(View()), m) && View() == StagesAfter(old(View()), m)
      decreases |nodes| - i
    {
      hide Translated, Decider;
      ghost var before := View();
      DeciderIs(before, m, i);
      var r, found := n.Lookup(m);
      assert nodes == old(nodes) && forall k :: 0 <= k < |nodes| ==> nodes[k].next == old(nodes[k].next);
      match r
      case Success =>
        v := n.Process(m, found);
        assert View() == StagesAfter(before, m);
      case NextChain =>
        assert View() == before;
        if n.next != null {
          v := RouteFrom(n.next, m, i + 1);
        } else {
          v := r;
        }
      case Failed =>
        v := r;
        assert View() == before;
    }

    method Route(m: Msg) returns (v: Verdict)
      requires Valid()
      modifies nodes
      ensures Valid() && nodes == old(nodes)
      ensures v == RouteVerdict(old(View()), m) && View() == StagesAfter(old(View()), m)
    {
      if head == null {
        return Failed;
      }
      v := RouteFrom(head, m, 0);
    }
  }

  lemma ListsAreExtensions(links: Links<Node>, s: seq<Node>, n: Node)
    requires IsList(links, Nth(s, 0), s)
    ensures forall r: seq<Node> :: IsList(Appended(links, s, n), Nth(s + [n], 0), r) <==> Extends(links, s, n, r)
  {
    hide Appended, Extends, IsList;
    forall r: seq<Node> ensures IsList(Appended(links, s, n), Nth(s + [n], 0), r) <==> Extends(links, s, n, r) {
      AppendExtends(links, s, n, r);
    }
  }

  lemma WithoutOne(s: seq<Node>, i: nat)
    requires i < |s|
    ensures var r := s[..i] + s[i + 1..];
            && |r| == |s| - 1
            && (forall k :: 0 <= k < i ==> r[k] == s[k])
            && (forall k :: i <= k < |r| ==> r[k] == s[k + 1])
    ensures var r := s[..i] + s[i + 1..];
            (forall j, k :: 0 <= j < k < |s| ==> s[j] != s[k]) ==>
              s[i] !in r && forall j, k :: 0 <= j < k < |r| ==> r[j] != r[k]
  {
    var r := s[..i] + s[i + 1..];
    assert forall k :: 0 <= k < |r| ==> r[k] == if k < i then s[k] else s[k + 1];
  }

  /** The list after is the list before without its i-th node, which is n. */
  ghost predicate WithoutAt(before: seq<Node>, after: seq<Node>, n: Node, i: nat)
    requires i < |before|
  {
    before[i] == n && after == before[..i] + before[i + 1..]
  }

  lemma DeciderIs(stages: seq<Stage>, m: Msg, i: nat)
    requires i < |stages| && forall k :: 0 <= k < i ==> LookupVerdict(stages[k], m) == NextChain
    ensures i <= Decider(stages, m)
    ensures LookupVerdict(stages[i], m) != NextChain ==> Decider(stages, m) == i
    ensures LookupVerdict(stages[i], m) == NextChain ==> Decider(stages, m) > i
  {
  }
}
