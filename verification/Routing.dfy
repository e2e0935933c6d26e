/**
  Hop-by-hop translation (RFC 3588 section 6.2.1): the pending-request tables of the delivery nodes, what an
  answer does to them, and what retransmission passes do.
 */
module Routing {
  import opened Basics

  type PeerId = nat

  datatype Msg = Msg(hh: int, body: nat)

  /** No source means that the request was generated locally. */
  datatype Pending = Pending(
    origHH: int,
    source: Option<PeerId>,
    dest: Option<PeerId>,
    expire: int,
    retx: nat,
    request: Option<Msg>)

  type Table = map<int, Pending>

  // ---------------------------------------------------------------- one table

  /** As std::map inserts: an entry already there stays. */
  function Insert(t: Table, id: int, p: Pending): Table {
    if id in t then t else t[id := p]
  }

  function Store(t: Table, id: int, m: Msg): Table {
    if id in t then t[id := t[id].(request := Some(m))] else t
  }

  /** An answer on its way out: its hop-by-hop id restored, with the stored request and the peer it goes to. */
  datatype Found = Found(msg: Msg, request: Option<Msg>, dest: Option<PeerId>)

  function Translated(t: Table, m: Msg): Found
    requires m.hh in t
  {
    Found(m.(hh := t[m.hh].origHH), t[m.hh].request, t[m.hh].source)
  }

  // ---------------------------------------------------------------- retransmission

  datatype Pass =
    | ByAge(current: int, now: int)
    | ByPeer(peer: PeerId, now: int)

  datatype Limits = Limits(maxCount: nat, interval: int)

  predicate Matches(pass: Pass, p: Pending) {
    match pass
    case ByAge(current, _) => p.expire < current
    case ByPeer(peer, _) => p.dest == Some(peer)
  }

  /** What one pass leaves of an entry: resent and counted, or deleted once the count is used up. */
  function AfterPass(lim: Limits, pass: Pass, p: Pending): Option<Pending> {
    if !Matches(pass, p) then Some(p)
    else if p.retx < lim.maxCount then Some(p.(retx := p.retx + 1, expire := pass.now + lim.interval))
    else None
  }

  function PassTable(lim: Limits, pass: Pass, t: Table): Table {
    map id | id in t && AfterPass(lim, pass, t[id]).Some? :: AfterPass(lim, pass, t[id]).value
  }

  function AfterPasses(lim: Limits, passes: seq<Pass>, p: Pending): Option<Pending> {
    if passes == [] then Some(p)
    else
      var q := AfterPass(lim, passes[0], p);
      if q.None? then None else AfterPasses(lim, passes[1..], q.value)
  }

  /** How many of the passes an entry lives to see match it. */
  function MatchesSeen(lim: Limits, passes: seq<Pass>, p: Pending): nat {
    if passes == [] then 0
    else
      var hit := if Matches(passes[0], p) then 1 else 0;
      var q := AfterPass(lim, passes[0], p);
      hit + if q.None? then 0 else MatchesSeen(lim, passes[1..], q.value)
  }

  function PassTables(lim: Limits, passes: seq<Pass>, t: Table): Table {
    if passes == [] then t else PassTables(lim, passes[1..], PassTable(lim, passes[0], t))
  }

  /** An unanswered entry is deleted by exactly the matching pass after its last resend, and counts until then. */
  lemma {:induction false} DeletedAfterLastResend(lim: Limits, passes: seq<Pass>, p: Pending)
    requires p.retx <= lim.maxCount
    ensures MatchesSeen(lim, passes, p) <= lim.maxCount - p.retx + 1
    ensures AfterPasses(lim, passes, p).None? <==> MatchesSeen(lim, passes, p) == lim.maxCount - p.retx + 1
    ensures AfterPasses(lim, passes, p).Some? ==>
              AfterPasses(lim, passes, p).value.retx == p.retx + MatchesSeen(lim, passes, p)
  {
    if passes != [] {
      var q := AfterPass(lim, passes[0], p);
      if q.Some? {
        DeletedAfterLastResend(lim, passes[1..], q.value);
      }
    }
  }

  /** Passes treat every entry of a table on its own. */
  lemma {:induction false} PassesAreIndependent(lim: Limits, passes: seq<Pass>, t: Table, id: int)
    ensures id in PassTables(lim, passes, t) <==> id in t && AfterPasses(lim, passes, t[id]).Some?
    ensures id in PassTables(lim, passes, t) ==> PassTables(lim, passes, t)[id] == AfterPasses(lim, passes, t[id]).value
  {
    if passes != [] {
      PassesAreIndependent(lim, passes[1..], PassTable(lim, passes[0], t), id);
    }
  }

  /** The passes that resend an entry, in order. */
  function Resends(lim: Limits, passes: seq<Pass>, p: Pending): seq<Pass> {
    if passes == [] then []
    else
      var q := AfterPass(lim, passes[0], p);
      if q.None? then []
      else (if q.value.retx > p.retx then [passes[0]] else []) + Resends(lim, passes[1..], q.value)
  }

  /** When an entry is next due: as it was issued, or an interval after it was last resent. */
  function DueAfter(lim: Limits, expire: int, resends: seq<Pass>): int
    decreases |resends|
  {
    if resends == [] then expire else DueAfter(lim, resends[0].now + lim.interval, resends[1..])
  }

  /** Each of these passes comes after the entry is due by the ones before. */
  predicate Spaced(lim: Limits, expire: int, resends: seq<Pass>)
    decreases |resends|
  {
    resends == [] ||
    (resends[0].ByAge? && resends[0].current > expire && Spaced(lim, resends[0].now + lim.interval, resends[1..]))
  }

  /** Passes by age resend an entry only when it is due, so an interval apart, and never more often than allowed. */
  lemma {:induction false} ResendsAreSpaced(lim: Limits, passes: seq<Pass>, p: Pending)
    requires p.retx <= lim.maxCount && forall i :: 0 <= i < |passes| ==> passes[i].ByAge?
    ensures var r := Resends(lim, passes, p);
            && |r| <= lim.maxCount - p.retx && Spaced(lim, p.expire, r)
    ensures AfterPasses(lim, passes, p).Some? ==>
              var r, q := Resends(lim, passes, p), AfterPasses(lim, passes, p).value;
              q == p.(retx := p.retx + |r|, expire := DueAfter(lim, p.expire, r))
  {
    if passes != [] {
      var q := AfterPass(lim, passes[0], p);
      if q.Some? {
        ResendsAreSpaced(lim, passes[1..], q.value);
        var rest := Resends(lim, passes[1..], q.value);
        assert ([passes[0]] + rest)[1..] == rest && [] + rest == rest;
      }
    }
  }

  /** A pass by age acts on an entry exactly if its date lies before the current one, and then resends or deletes. */
  lemma AgePassesActWhenDue(lim: Limits, passes: seq<Pass>, p: Pending, current: int, now: int)
    requires p.retx <= lim.maxCount && forall i :: 0 <= i < |passes| ==> passes[i].ByAge?
    requires AfterPasses(lim, passes, p).Some?
    ensures var r, q := Resends(lim, passes, p), AfterPasses(lim, passes, p).value;
            var due := DueAfter(lim, p.expire, r);
            AfterPass(lim, ByAge(current, now), q) ==
              if current <= due then Some(q)
              else if p.retx + |r| < lim.maxCount then Some(q.(retx := q.retx + 1, expire := now + lim.interval))
              else None
  {
    ResendsAreSpaced(lim, passes, p);
  }

  /** A pass for a peer resends or deletes what was sent to that peer, due or not, and leaves everything else. */
  lemma PeerPassesAreForThePeer(lim: Limits, peer: PeerId, now: int, t: Table, id: int)
    requires id in t
    ensures var r := PassTable(lim, ByPeer(peer, now), t);
            && (t[id].dest != Some(peer) ==> id in r && r[id] == t[id])
            && (t[id].dest == Some(peer) ==> (id in r <==> t[id].retx < lim.maxCount))
            && (t[id].dest == Some(peer) && id in r ==>
                  r[id] == t[id].(retx := t[id].retx + 1, expire := now + lim.interval))
  {
  }

  // ---------------------------------------------------------------- the delivery chain

  /** The first table that knows the id, or their number. */
  function Holder(tables: seq<Table>, id: int): (i: nat)
    ensures i <= |tables|
    ensures forall k :: 0 <= k < i ==> id !in tables[k]
    ensures i < |tables| ==> id in tables[i]
  {
    if tables == [] then 0 else if id in tables[0] then 0 else 1 + Holder(tables[1..], id)
  }

  function AnswerOf(tables: seq<Table>, m: Msg): Option<Found> {
    var i := Holder(tables, m.hh);
    if i < |tables| then Some(Translated(tables[i], m)) else None
  }

  function TablesAfter(tables: seq<Table>, m: Msg): seq<Table> {
    var i := Holder(tables, m.hh);
    if i < |tables| then tables[i := tables[i] - {m.hh}] else tables
  }

  /** A pending request as its requester sees it: who held it under which local id, and where it came from. */
  datatype Record = Record(node: nat, id: int, origHH: int, source: Option<PeerId>)

  /** The tables of the chain, and every request issued, answered and dropped so far. */
  datatype Net = Net(tables: seq<Table>, issued: multiset<Record>, answered: multiset<Record>, dropped: multiset<Record>)

  datatype Step =
    | Issue(node: nat, id: int, request: Msg, source: Option<PeerId>, dest: Option<PeerId>, expire: int)
    | Answer(m: Msg)
    | Resend(node: nat, pass: Pass)

  predicate Fresh(tables: seq<Table>, id: int) {
    forall k :: 0 <= k < |tables| ==> id !in tables[k]
  }

  /** Local ids are fresh across the chain when a request is issued. */
  predicate Allowed(net: Net, st: Step) {
    match st
    case Issue(node, id, _, _, _, _) => node < |net.tables| && Fresh(net.tables, id)
    case Answer(_) => true
    case Resend(node, _) => node < |net.tables|
  }

  function Dropping(lim: Limits, pass: Pass, node: nat, t: Table): set<Record> {
    set id | id in t && AfterPass(lim, pass, t[id]).None? :: Record(node, id, t[id].origHH, t[id].source)
  }

  /** The record of an answer is read off the answer that leaves, not off the table. */
  function Next(lim: Limits, net: Net, st: Step): Net
    requires Allowed(net, st)
  {
    match st
    case Issue(node, id, request, source, dest, expire) =>
      var p := Pending(request.hh, source, dest, expire, 0, None);
      net.(tables := net.tables[node := Store(Insert(net.tables[node], id, p), id, request)],
           issued := net.issued + multiset{Record(node, id, request.hh, source)})
    case Answer(m) =>
      var found := AnswerOf(net.tables, m);
      if found.None? then net
      else
        net.(tables := TablesAfter(net.tables, m),
             answered := net.answered
                         + multiset{Record(Holder(net.tables, m.hh), m.hh, found.value.msg.hh, found.value.dest)})
    case Resend(node, pass) =>
      net.(tables := net.tables[node := PassTable(lim, pass, net.tables[node])],
           dropped := net.dropped + multiset(Dropping(lim, pass, node, net.tables[node])))
  }

  function Start(nodes: nat): Net {
    Net(seq(nodes, _ => map[]), multiset{}, multiset{}, multiset{})
  }

  /** The chain after a run; a step that is not allowed does not happen. */
  function After(lim: Limits, nodes: nat, steps: seq<Step>): Net {
    if steps == [] then Start(nodes)
    else
      var net := After(lim, nodes, steps[..|steps| - 1]);
      if Allowed(net, steps[|steps| - 1]) then Next(lim, net, steps[|steps| - 1]) else net
  }

  // ---------------------------------------------------------------- what every step keeps

  predicate IsPending(tables: seq<Table>, r: Record) {
    && r.node < |tables| && r.id in tables[r.node]
    && tables[r.node][r.id].origHH == r.origHH && tables[r.node][r.id].source == r.source
  }

  /** Every request issued is answered, dropped or still pending, and only one of these. */
  ghost predicate Conserved(net: Net) {
    forall r: Record :: net.issued[r] == net.answered[r] + net.dropped[r] + if IsPending(net.tables, r) then 1 else 0
  }

  /** An id is pending in at most one node. */
  ghost predicate OneHolder(net: Net) {
    forall i: nat, j: nat, id: int ::
      i < |net.tables| && j < |net.tables| && id in net.tables[i] && id in net.tables[j] ==> i == j
  }

  lemma IssueKeeps(lim: Limits, net: Net, st: Step)
    requires Conserved(net) && OneHolder(net) && st.Issue? && Allowed(net, st)
    ensures Conserved(Next(lim, net, st)) && OneHolder(Next(lim, net, st))
  {
    var next := Next(lim, net, st);
    var mine := Record(st.node, st.id, st.request.hh, st.source);
    forall r: Record
      ensures IsPending(next.tables, r) <==> IsPending(net.tables, r) || r == mine
      ensures IsPending(net.tables, r) ==> r != mine
    {
    }
  }

  lemma AnswerKeeps(lim: Limits, net: Net, m: Msg)
    requires Conserved(net) && OneHolder(net)
    ensures Conserved(Next(lim, net, Answer(m))) && OneHolder(Next(lim, net, Answer(m)))
  {
    var next := Next(lim, net, Answer(m));
    var i := Holder(net.tables, m.hh);
    if i < |net.tables| {
      var gone := Record(i, m.hh, net.tables[i][m.hh].origHH, net.tables[i][m.hh].source);
      forall r: Record
        ensures IsPending(next.tables, r) <==> IsPending(net.tables, r) && r != gone
      {
      }
    }
  }

  lemma ResendKeeps(lim: Limits, net: Net, node: nat, pass: Pass)
    requires Conserved(net) && OneHolder(net) && node < |net.tables|
    ensures Conserved(Next(lim, net, Resend(node, pass))) && OneHolder(Next(lim, net, Resend(node, pass)))
  {
    var next := Next(lim, net, Resend(node, pass));
    var t := net.tables[node];
    forall r: Record
      ensures IsPending(net.tables, r) <==> IsPending(next.tables, r) || r in Dropping(lim, pass, node, t)
      ensures !(IsPending(next.tables, r) && r in Dropping(lim, pass, node, t))
    {
    }
  }

  lemma {:induction false} RunKeeps(lim: Limits, nodes: nat, steps: seq<Step>)
    ensures Conserved(After(lim, nodes, steps)) && OneHolder(After(lim, nodes, steps))
  {
    if steps != [] {
      var front, st := steps[..|steps| - 1], steps[|steps| - 1];
      RunKeeps(lim, nodes, front);
      var net := After(lim, nodes, front);
      if Allowed(net, st) {
        match st {
          case Issue(_, _, _, _, _, _) => IssueKeeps(lim, net, st);
          case Answer(m) => AnswerKeeps(lim, net, m);
          case Resend(node, pass) => ResendKeeps(lim, net, node, pass);
        }
      }
    }
  }

  // ---------------------------------------------------------------- main results

  /** No request is answered more often than it was issued under that id, with its original id and source. */
  lemma AnsweredAtMostOnce(lim: Limits, nodes: nat, steps: seq<Step>, r: Record)
    ensures After(lim, nodes, steps).answered[r] <= After(lim, nodes, steps).issued[r]
  {
    RunKeeps(lim, nodes, steps);
  }

  /**
    An answer is taken by the one node that holds its id, leaves with the original id and for the original
    source, and its id is then unknown to the whole chain.
   */
  lemma AnswerIsTranslated(lim: Limits, nodes: nat, steps: seq<Step>, node: nat, m: Msg)
    requires node < |After(lim, nodes, steps).tables|
    requires m.hh in After(lim, nodes, steps).tables[node]
    ensures var net := After(lim, nodes, steps);
            var p := net.tables[node][m.hh];
            && AnswerOf(net.tables, m) == Some(Found(m.(hh := p.origHH), p.request, p.source))
            && TablesAfter(net.tables, m) == net.tables[node := net.tables[node] - {m.hh}]
            && Fresh(TablesAfter(net.tables, m), m.hh)
  {
    RunKeeps(lim, nodes, steps);
    var tables := After(lim, nodes, steps).tables;
    assert Holder(tables, m.hh) == node;
  }

  /** An answer with an unknown id changes no table and goes nowhere. */
  lemma UnknownIdChangesNothing(lim: Limits, net: Net, m: Msg)
    requires Fresh(net.tables, m.hh)
    ensures AnswerOf(net.tables, m) == None && Next(lim, net, Answer(m)) == net
  {
  }

  /** The request a pending entry was issued for. */
  predicate IsFor(p: Pending, st: Step) {
    && st.Issue? && p.request == Some(st.request) && p.origHH == st.request.hh
    && p.source == st.source && p.dest == st.dest
  }

  /** Every pending entry holds the request it was issued for, with the id, source and destination of that issue. */
  lemma {:induction false} PendingWasIssued(lim: Limits, nodes: nat, steps: seq<Step>, node: nat, id: int)
    requires node < |After(lim, nodes, steps).tables| && id in After(lim, nodes, steps).tables[node]
    ensures exists st <- steps :: st.Issue? && st.node == node && st.id == id &&
                                  IsFor(After(lim, nodes, steps).tables[node][id], st)
  {
    if steps != [] {
      var front, last := steps[..|steps| - 1], steps[|steps| - 1];
      var before := After(lim, nodes, front);
      assert steps == front + [last];
      if Allowed(before, last) && last.Issue? && last.node == node && last.id == id {
        assert IsFor(After(lim, nodes, steps).tables[node][id], last);
      } else {
        EntriesStay(lim, before, last, node, id);
        PendingWasIssued(lim, nodes, front, node, id);
        var st :| st in front && st.Issue? && st.node == node && st.id == id && IsFor(before.tables[node][id], st);
        assert st in steps;
      }
    }
  }

  /** A step that does not issue an entry leaves it for the same request, if it leaves it. */
  lemma EntriesStay(lim: Limits, net: Net, st: Step, node: nat, id: int)
    requires !(Allowed(net, st) && st.Issue? && st.node == node && st.id == id)
    ensures var next := if Allowed(net, st) then Next(lim, net, st) else net;
            node < |next.tables| && id in next.tables[node] ==>
              && node < |net.tables| && id in net.tables[node]
              && forall i :: IsFor(net.tables[node][id], i) ==> IsFor(next.tables[node][id], i)
  {
  }

  /** An id that is taken keeps its entry. */
  lemma TakenIdsStay(t: Table, id: int, p: Pending)
    ensures id in t ==> Insert(t, id, p) == t
    ensures id !in t ==> Insert(t, id, p).Keys == t.Keys + {id} && Insert(t, id, p)[id] == p
    ensures forall k :: k in t ==> Insert(t, id, p)[k] == t[k]
  {
  }
}
