/**
  The hop-by-hop and end-to-end ids of a peer's own messages: ids of received requests are queued for the
  answers, ids of sent requests stay outstanding until their answer arrives.
 */
module MessageIds {
  import opened Basics

  datatype Header = Header(request: bool, hh: nat, ee: nat)

  datatype Ids = Ids(txHop: set<nat>, txEnd: set<nat>, rxHop: seq<nat>, rxEnd: seq<nat>)

  /** The header a message leaves with, given the ids the generators hand out for a request. */
  function Stamped(ids: Ids, request: bool, hopId: nat, endId: nat): Header {
    if request then Header(true, hopId, endId)
    else Header(false, if ids.rxHop == [] then 0 else ids.rxHop[0], if ids.rxEnd == [] then 0 else ids.rxEnd[0])
  }

  function AfterTx(ids: Ids, request: bool, hopId: nat, endId: nat): Ids {
    if request then ids.(txHop := ids.txHop + {hopId}, txEnd := ids.txEnd + {endId})
    else ids.(rxHop := if ids.rxHop == [] then [] else ids.rxHop[1..],
              rxEnd := if ids.rxEnd == [] then [] else ids.rxEnd[1..])
  }

  predicate Accepted(ids: Ids, h: Header) {
    h.request || (h.hh in ids.txHop && h.ee in ids.txEnd)
  }

  /** A hop id that matches is used up even when the end id does not match. */
  function AfterRx(ids: Ids, h: Header): Ids {
    if h.request then ids.(rxHop := ids.rxHop + [h.hh], rxEnd := ids.rxEnd + [h.ee])
    else if h.hh in ids.txHop then ids.(txHop := ids.txHop - {h.hh}, txEnd := ids.txEnd - {h.ee})
    else ids
  }

  class PeerMessageIds {
    var txHop: set<nat>
    var txEnd: set<nat>
    var rxHop: seq<nat>
    var rxEnd: seq<nat>

    function View(): Ids
      reads this
    {
      Ids(txHop, txEnd, rxHop, rxEnd)
    }

    constructor ()
      ensures View() == NOTHING
    {
      txHop, txEnd, rxHop, rxEnd := {}, {}, [], [];
    }

    method TxMessage(request: bool, hopId: nat, endId: nat) returns (h: Header)
      modifies this
      ensures h == Stamped(old(View()), request, hopId, endId)
      ensures View() == AfterTx(old(View()), request, hopId, endId)
    {
      if request {
        txHop := txHop + {hopId};
        txEnd := txEnd + {endId};
        return Header(true, hopId, endId);
      }
      var hh, ee := 0, 0;
      if rxHop != [] {
        hh := rxHop[0];
        rxHop := rxHop[1..];
      }
      if rxEnd != [] {
        ee := rxEnd[0];
        rxEnd := rxEnd[1..];
      }
      h := Header(false, hh, ee);
    }

    method RxMessage(h: Header) returns (accepted: bool)
      modifies this
      ensures accepted == Accepted(old(View()), h)
      ensures View() == AfterRx(old(View()), h)
    {
      if h.request {
        rxHop := rxHop + [h.hh];
        rxEnd := rxEnd + [h.ee];
        return true;
      }
      if h.hh in txHop {
        txHop := txHop - {h.hh};
        if h.ee in txEnd {
          txEnd := txEnd - {h.ee};
          return true;
        }
      }
      return false;
    }
  }

  const NOTHING: Ids := Ids({}, {}, [], [])

  // ---------------------------------------------------------------- runs

  datatype Step =
    | Tx(request: bool, hopId: nat, endId: nat)
    | Rx(header: Header)

  function Next(ids: Ids, st: Step): Ids {
    match st
    case Tx(request, hopId, endId) => AfterTx(ids, request, hopId, endId)
    case Rx(h) => AfterRx(ids, h)
  }

  function Run(steps: seq<Step>): Ids {
    if steps == [] then NOTHING else Next(Run(steps[..|steps| - 1]), steps[|steps| - 1])
  }

  /** The ids of the requests received, in order. */
  function Asked(steps: seq<Step>): seq<(nat, nat)> {
    if steps == [] then []
    else
      var st := steps[|steps| - 1];
      Asked(steps[..|steps| - 1]) + if st.Rx? && st.header.request then [(st.header.hh, st.header.ee)] else []
  }

  /** The ids of the answers sent while a request was queued, in order. */
  function Answered(steps: seq<Step>): seq<(nat, nat)> {
    if steps == [] then []
    else
      var before, st := Run(steps[..|steps| - 1]), steps[|steps| - 1];
      Answered(steps[..|steps| - 1])
      + if st.Tx? && !st.request && before.rxHop != [] then
          [(Stamped(before, false, 0, 0).hh, Stamped(before, false, 0, 0).ee)]
        else []
  }

  function Queued(ids: Ids): seq<(nat, nat)>
    requires |ids.rxHop| == |ids.rxEnd|
  {
    seq(|ids.rxHop|, i requires 0 <= i < |ids.rxHop| => (ids.rxHop[i], ids.rxEnd[i]))
  }

  /** The two queues stay in lockstep, and what was asked is what was answered followed by what is queued. */
  lemma {:induction false} QueuesInLockstep(steps: seq<Step>)
    ensures |Run(steps).rxHop| == |Run(steps).rxEnd|
    ensures Asked(steps) == Answered(steps) + Queued(Run(steps))
  {
    if steps != [] {
      var ids, st := Run(steps[..|steps| - 1]), steps[|steps| - 1];
      QueuesInLockstep(steps[..|steps| - 1]);
      LockstepStep(ids, st);
      hide Queued, Next;
      var asked := if st.Rx? && st.header.request then [(st.header.hh, st.header.ee)] else [];
      var answered := if st.Tx? && !st.request && ids.rxHop != [] then [(ids.rxHop[0], ids.rxEnd[0])] else [];
      Exchanged(Answered(steps[..|steps| - 1]), Queued(ids), asked, answered, Queued(Next(ids, st)));
    }
  }

  lemma Exchanged<T>(done: seq<T>, queue: seq<T>, more: seq<T>, less: seq<T>, after: seq<T>)
    requires queue + more == less + after
    ensures (done + queue) + more == (done + less) + after
  {
    assert (done + queue) + more == done + (queue + more);
  }

  lemma LockstepStep(ids: Ids, st: Step)
    requires |ids.rxHop| == |ids.rxEnd|
    ensures |Next(ids, st).rxHop| == |Next(ids, st).rxEnd|
    ensures Queued(ids) + (if st.Rx? && st.header.request then [(st.header.hh, st.header.ee)] else []) ==
            (if st.Tx? && !st.request && ids.rxHop != [] then [(ids.rxHop[0], ids.rxEnd[0])] else []) + Queued(Next(ids, st))
  {
  }

  /** The k-th answer carries both ids of the k-th request received. */
  lemma AnswersMatchRequests(steps: seq<Step>, k: nat)
    requires k < |Answered(steps)|
    ensures k < |Asked(steps)| && Answered(steps)[k] == Asked(steps)[k]
  {
    QueuesInLockstep(steps);
  }

  /**
    Among requests with different ids, the k-th answer carries the ids of the r-th request exactly if k is r: every
    request before it was answered first. An answer to a later request carries the ids of one that was skipped.
   */
  lemma AnswersInOrderOrStale(steps: seq<Step>, k: nat, r: nat)
    requires forall i, j :: 0 <= i < j < |Asked(steps)| ==> Asked(steps)[i] != Asked(steps)[j]
    requires k < |Answered(steps)| && r < |Asked(steps)|
    ensures Answered(steps)[k] == Asked(steps)[r] <==> k == r
  {
    AnswersMatchRequests(steps, k);
  }

  /** With nothing queued an answer leaves with the ids 0, whatever it answers. */
  lemma AnswersBeyondRequests(steps: seq<Step>, hopId: nat, endId: nat)
    ensures |Answered(steps)| <= |Asked(steps)|
    ensures |Answered(steps)| == |Asked(steps)| ==> Stamped(Run(steps), false, hopId, endId) == Header(false, 0, 0)
  {
    QueuesInLockstep(steps);
  }

  /** How often a hop id was given to a request sent. */
  function Issued(steps: seq<Step>, hop: nat): nat {
    if steps == [] then 0
    else
      var st := steps[|steps| - 1];
      Issued(steps[..|steps| - 1], hop) + if st.Tx? && st.request && st.hopId == hop then 1 else 0
  }

  /** How often an answer with a hop id was accepted. */
  function Accepts(steps: seq<Step>, hop: nat): nat {
    if steps == [] then 0
    else
      var st := steps[|steps| - 1];
      Accepts(steps[..|steps| - 1], hop)
      + if st.Rx? && !st.header.request && st.header.hh == hop && Accepted(Run(steps[..|steps| - 1]), st.header) then 1
        else 0
  }

  /** An answer is accepted at most once for every time its hop id was issued, and never while it is unknown. */
  lemma {:induction false} AcceptedAtMostOncePerIssue(steps: seq<Step>, hop: nat)
    ensures Accepts(steps, hop) + (if hop in Run(steps).txHop then 1 else 0) <= Issued(steps, hop)
  {
    if steps != [] {
      AcceptedAtMostOncePerIssue(steps[..|steps| - 1], hop);
    }
  }

  /** Whether the last that happened to a hop id was its issue, not an answer that carried it. */
  function HopOutstanding(steps: seq<Step>, hop: nat): bool {
    if steps == [] then false
    else
      match steps[|steps| - 1]
      case Tx(request, hopId, _) => (request && hopId == hop) || HopOutstanding(steps[..|steps| - 1], hop)
      case Rx(h) => HopOutstanding(steps[..|steps| - 1], hop) && (h.request || h.hh != hop)
  }

  /** Likewise for an end id; an answer uses it up only with an outstanding hop id. */
  function EndOutstanding(steps: seq<Step>, end: nat): bool {
    if steps == [] then false
    else
      var front := steps[..|steps| - 1];
      match steps[|steps| - 1]
      case Tx(request, _, endId) => (request && endId == end) || EndOutstanding(front, end)
      case Rx(h) => EndOutstanding(front, end) && (h.request || h.ee != end || !HopOutstanding(front, h.hh))
  }

  lemma {:induction false} OutstandingIds(steps: seq<Step>, hop: nat, end: nat)
    ensures hop in Run(steps).txHop <==> HopOutstanding(steps, hop)
    ensures end in Run(steps).txEnd <==> EndOutstanding(steps, end)
  {
    if steps != [] {
      OutstandingIds(steps[..|steps| - 1], hop, end);
      if steps[|steps| - 1].Rx? {
        OutstandingIds(steps[..|steps| - 1], steps[|steps| - 1].header.hh, end);
      }
    }
  }

  /** An answer is accepted exactly if both its ids are outstanding; a request always is. */
  lemma AcceptedIffOutstanding(steps: seq<Step>, h: Header)
    ensures Accepted(Run(steps), h) <==> h.request || (HopOutstanding(steps, h.hh) && EndOutstanding(steps, h.ee))
  {
    OutstandingIds(steps, h.hh, h.ee);
  }
}
