/**
  The message ids of the two-peer exchange: every peer keeps its id queues while the exchange runs, and an answer
  is accepted whenever it arrives.
 */
module AgreementIds {
  import opened Basics
  import opened PeerTable
  import opened PeerModel
  import opened PeerAgreement
  import MessageIds

  /** The hop-by-hop and end-to-end ids each side's generators hand out for its request. */
  datatype Fresh = Fresh(left: (nat, nat), right: (nat, nat)) {
    function Of(x: Side): (nat, nat) {
      if x == Left then left else right
    }
  }

  /** The id queues of both sides, and the ids the last answer left with. */
  datatype Books = Books(left: MessageIds.Ids, right: MessageIds.Ids, answer: (nat, nat)) {
    function At(x: Side): MessageIds.Ids {
      if x == Left then left else right
    }

    function With(x: Side, ids: MessageIds.Ids): Books {
      if x == Left then this.(left := ids) else this.(right := ids)
    }
  }

  const NO_BOOKS: Books := Books(MessageIds.NOTHING, MessageIds.NOTHING, (0, 0))

  predicate IsRequest(m: Sent) {
    m.kind == CER || m.kind == DWR || m.kind == DPR
  }

  function Send(b: Books, f: Fresh, x: Side, m: Sent): Books {
    var ids := MessageIds.AfterTx(b.At(x), IsRequest(m), f.Of(x).0, f.Of(x).1);
    var h := MessageIds.Stamped(b.At(x), IsRequest(m), f.Of(x).0, f.Of(x).1);
    b.With(x, ids).(answer := if IsRequest(m) then b.answer else (h.hh, h.ee))
  }

  function SendAll(b: Books, f: Fresh, x: Side, sent: seq<Sent>): Books {
    if sent == [] then b else Send(SendAll(b, f, x, sent[..|sent| - 1]), f, x, sent[|sent| - 1])
  }

  /** The header a message in flight carries. */
  function HeaderOf(b: Books, f: Fresh, pk: Packet): MessageIds.Header
    requires pk.Carried?
  {
    var ids := f.Of(Opposite(pk.to));
    if IsRequest(pk.msg) then MessageIds.Header(true, ids.0, ids.1)
    else MessageIds.Header(false, b.answer.0, b.answer.1)
  }

  function Receive(b: Books, f: Fresh, pk: Packet): Books {
    if pk.Carried? then b.With(pk.to, MessageIds.AfterRx(b.At(pk.to), HeaderOf(b, f, pk))) else b
  }

  /** What a step of the exchange does to the queues. */
  ghost function Track(h: Hosts, f: Fresh, sys: System, b: Books, st: Step): Books {
    match st
    case Deliver(pk) => Receive(b, f, pk)
    case Lose(pk) => b
    case Serve(x) => SendAll(b, f, x, Since(Next(h, sys, st).At(x).outbox, |sys.At(x).outbox|))
  }

  ghost function Trace(h: Hosts, f: Fresh, steps: seq<Step>): Books {
    if steps == [] then NO_BOOKS
    else
      var front := steps[..|steps| - 1];
      Track(h, f, After(h, front), Trace(h, f, front), steps[|steps| - 1])
  }

  // ---------------------------------------------------------------- the invariant

  /** Where the exchange stands: both states, and whether the loser's CER and its answer are on the wire. */
  datatype Stage = Stage(winner: State, loser: State, cer: bool, cea: bool) {
    /** The loser's CER was delivered and its answer has not been sent. */
    predicate Owed() {
      !Connecting(loser) && !cer && winner != R_OPEN
    }

    /** The loser's CER was sent and its answer has not been delivered. */
    predicate Outstanding() {
      !Connecting(loser) && (winner == R_OPEN ==> cea)
    }
  }

  function StageOf(sc: Script, sys: System): Stage {
    Stage(sys.At(sc.winner).state, sys.At(sc.Loser()).state,
          CerFrom(sc, sc.Loser()) in sys.wire, CeaPacket(sc) in sys.wire)
  }

  predicate Kept(f: Fresh, sc: Script, at: Stage, b: Books) {
    var a := f.Of(sc.Loser());
    && b.At(sc.winner).rxHop == (if at.Owed() then [a.0] else [])
    && b.At(sc.winner).rxEnd == (if at.Owed() then [a.1] else [])
    && (at.Outstanding() ==> a.0 in b.At(sc.Loser()).txHop && a.1 in b.At(sc.Loser()).txEnd)
    && (at.cea ==> b.answer == a)
  }

  /** The states and the wire of winner and loser bound what can be in flight. */
  lemma InFlight(h: Hosts, sc: Script, sys: System)
    requires sc.Proper() && Agree(h, sc, sys)
    ensures var w, l := sys.At(sc.winner).state, sys.At(sc.Loser()).state;
            && sys.wire[CerFrom(sc, sc.Loser())] <= 1 && sys.wire[CeaPacket(sc)] <= 1
            && (CerFrom(sc, sc.Loser()) in sys.wire ==> !Connecting(l) && w != R_OPEN)
            && (CeaPacket(sc) in sys.wire ==> !Connecting(l) && w == R_OPEN)
            && (w == WAIT_RETURNS ==> !Connecting(l) && CerFrom(sc, sc.Loser()) !in sys.wire)
            && (Connecting(l) ==> w != R_OPEN)
  {
    hide SideFits, OnWire;
  }

  /** What is received: the loser's CER is owed an answer from then on, and an answer settles it. */
  lemma ReceivingKeeps(f: Fresh, sc: Script, at: Stage, b: Books, pk: Packet)
    requires sc.Proper() && OnWire(sc, pk) && Kept(f, sc, at, b)
    requires pk == CerFrom(sc, sc.Loser()) ==> at.cer && !Connecting(at.loser) && at.winner != R_OPEN
    requires pk == CeaPacket(sc) ==> at.cea && at.winner == R_OPEN
    ensures Kept(f, sc, at.(cer := at.cer && pk != CerFrom(sc, sc.Loser()), cea := at.cea && pk != CeaPacket(sc)),
                 Receive(b, f, pk))
  {
  }

  lemma DeliveryKeeps(h: Hosts, f: Fresh, sc: Script, sys: System, b: Books, pk: Packet)
    requires sc.Proper() && Agree(h, sc, sys) && pk in sys.wire && Kept(f, sc, StageOf(sc, sys), b)
    ensures Kept(f, sc, StageOf(sc, Next(h, sys, Deliver(pk))), Track(h, f, sys, b, Deliver(pk)))
  {
    hide Kept, Receive, Next, TallyOf, SideFits, Legal;
    InFlight(h, sc, sys);
    assert OnWire(sc, pk);
    hide OnWire;
    DeliveryMoves(h, sys, pk);
    ReceivingKeeps(f, sc, StageOf(sc, sys), b, pk);
  }

  /** A delivery takes one packet off the wire and leaves the states as they are. */
  lemma DeliveryMoves(h: Hosts, sys: System, pk: Packet)
    requires pk in sys.wire
    ensures var next := Next(h, sys, Deliver(pk));
            && next.wire == sys.wire - multiset{pk}
            && next.left.state == sys.left.state && next.right.state == sys.right.state
  {
    hide Heard;
  }

  lemma LossKeeps(h: Hosts, f: Fresh, sc: Script, sys: System, b: Books, pk: Packet)
    requires sc.Proper() && Agree(h, sc, sys) && pk in sys.wire && Losable(sys, pk) && Kept(f, sc, StageOf(sc, sys), b)
    ensures Kept(f, sc, StageOf(sc, Next(h, sys, Lose(pk))), b)
  {
    LosablePackets(h, sc, sys, pk);
    InFlight(h, sc, sys);
    hide Agree, Losable;
  }

  lemma Sends(h: Hosts, f: Fresh, sys: System, b: Books, x: Side, sent: seq<Sent>)
    requires Says(sys, Next(h, sys, Serve(x)), x, sent) && |sent| <= 1
    ensures Track(h, f, sys, b, Serve(x)) == if sent == [] then b else Send(b, f, x, sent[0])
  {
    hide Next, Send;
    assert Since(Next(h, sys, Serve(x)).At(x).outbox, |sys.At(x).outbox|) == sent;
    assert sent != [] ==> sent[..0] == [] && SendAll(b, f, x, sent[..0]) == b;
  }

  /** The winner's requests and its answer, and the loser's request. */
  lemma SendingKeeps(f: Fresh, sc: Script, at: Stage, b: Books)
    requires sc.Proper() && Kept(f, sc, at, b)
    ensures Kept(f, sc, at, Send(b, f, sc.winner, sc.Cer(sc.winner)))
    ensures at.winner == WAIT_RETURNS && at.Owed() ==>
              Kept(f, sc, at.(winner := R_OPEN, cea := true), Send(b, f, sc.winner, sc.cea))
    ensures Connecting(at.loser) && !at.cea ==>
              forall st :: !Connecting(st) ==>
                Kept(f, sc, at.(loser := st, cer := true), Send(b, f, sc.Loser(), sc.Cer(sc.Loser())))
  {
  }

  /** Moves that send nothing and leave it open what was delivered. */
  lemma MovingKeeps(f: Fresh, sc: Script, at: Stage, b: Books, w: State, l: State)
    requires Kept(f, sc, at, b) && (w == R_OPEN <==> at.winner == R_OPEN) && (Connecting(l) <==> Connecting(at.loser))
    ensures Kept(f, sc, at.(winner := w, loser := l), b)
  {
  }

  lemma WinnerKeeps(h: Hosts, f: Fresh, sc: Script, sys: System, b: Books)
    requires sys.At(sc.winner).queue != [] && Turning(h, sc, sys, sc.winner, sys.At(sc.winner).queue[0])
    requires Kept(f, sc, StageOf(sc, sys), b)
    ensures Kept(f, sc, StageOf(sc, Next(h, sys, Serve(sc.winner))), Track(h, f, sys, b, Serve(sc.winner)))
  {
    hide Next, Track, SideFits, OnWire, Compatible, ScriptOf, Kept, Send, TallyOf, Legal;
    var e, at, next := sys.At(sc.winner).queue[0], StageOf(sc, sys), Next(h, sys, Serve(sc.winner));
    InFlight(h, sc, sys);
    WinnerHead(h, sc, sys);
    WinnerTurn(h, sc, sys);
    Sends(h, f, sys, b, sc.winner, WinnerSays(sc, e));
    hide Says;
    SendingKeeps(f, sc, at, b);
    var w := next.At(sc.winner).state;
    assert StageOf(sc, next) == at.(winner := w, cea := e == WIN || at.cea);
    if e == AckEvent(sc.winner) {
      MovingKeeps(f, sc, at, Send(b, f, sc.winner, sc.Cer(sc.winner)), w, at.loser);
    } else if e != WIN {
      MovingKeeps(f, sc, at, b, w, at.loser);
    }
  }

  lemma LoserKeeps(h: Hosts, f: Fresh, sc: Script, sys: System, b: Books)
    requires sys.At(sc.Loser()).queue != [] && Turning(h, sc, sys, sc.Loser(), sys.At(sc.Loser()).queue[0])
    requires Kept(f, sc, StageOf(sc, sys), b)
    ensures Kept(f, sc, StageOf(sc, Next(h, sys, Serve(sc.Loser()))), Track(h, f, sys, b, Serve(sc.Loser())))
  {
    hide Next, Track, SideFits, OnWire, Compatible, ScriptOf, Kept, Send, TallyOf, Legal;
    var e, at, next := sys.At(sc.Loser()).queue[0], StageOf(sc, sys), Next(h, sys, Serve(sc.Loser()));
    InFlight(h, sc, sys);
    LoserHead(h, sc, sys);
    LoserTurn(h, sc, sys);
    Sends(h, f, sys, b, sc.Loser(), LoserSays(sc, e));
    hide Says;
    SendingKeeps(f, sc, at, b);
    var l := next.At(sc.Loser()).state;
    assert StageOf(sc, next) == at.(loser := l, cer := e == AckEvent(sc.Loser()) || at.cer);
    if e != AckEvent(sc.Loser()) {
      MovingKeeps(f, sc, at, b, at.winner, l);
    }
  }

  lemma {:induction false} RunKeepsBooks(h: Hosts, f: Fresh, steps: seq<Step>)
    requires Compatible(h) && IsRun(h, steps)
    ensures Kept(f, ScriptOf(h), StageOf(ScriptOf(h), After(h, steps)), Trace(h, f, steps))
  {
    hide Agree, Compatible, ScriptOf, Next, Begin, Losable, Kept, Track;
    var sc := ScriptOf(h);
    ScriptIsProper(h);
    if steps == [] {
      BeginKeeps(h, f, sc);
    } else {
      var front := steps[..|steps| - 1];
      var sys, b := After(h, front), Trace(h, f, front);
      RunKeepsBooks(h, f, front);
      RunAgrees(h, front);
      match steps[|steps| - 1]
      case Deliver(pk) => DeliveryKeeps(h, f, sc, sys, b, pk);
      case Lose(pk) => LostUntracked(h, f, sys, b, pk); LossKeeps(h, f, sc, sys, b, pk);
      case Serve(x) =>
        if x == sc.winner {
          WinnerKeeps(h, f, sc, sys, b);
        } else {
          LoserKeeps(h, f, sc, sys, b);
        }
    }
  }

  lemma LostUntracked(h: Hosts, f: Fresh, sys: System, b: Books, pk: Packet)
    ensures Track(h, f, sys, b, Lose(pk)) == b
  {
  }

  lemma BeginKeeps(h: Hosts, f: Fresh, sc: Script)
    requires sc.Proper()
    ensures Kept(f, sc, StageOf(sc, Begin(h)), NO_BOOKS)
  {
    hide PeerInvariants.Run;
    Started(h.left);
    Started(h.right);
  }

  /** In every reachable state an answer in flight carries ids its receiver has outstanding. */
  lemma AnswersAreAccepted(h: Hosts, f: Fresh, steps: seq<Step>, pk: Packet)
    requires Compatible(h) && IsRun(h, steps)
    requires pk in After(h, steps).wire && pk.Carried? && !IsRequest(pk.msg)
    ensures var b := Trace(h, f, steps);
            && HeaderOf(b, f, pk) == MessageIds.Header(false, f.Of(pk.to).0, f.Of(pk.to).1)
            && MessageIds.Accepted(b.At(pk.to), HeaderOf(b, f, pk))
  {
    hide Compatible, ScriptOf, After, Trace, IsRun;
    ScriptIsProper(h);
    RunAgrees(h, steps);
    RunKeepsBooks(h, f, steps);
    InFlight(h, ScriptOf(h), After(h, steps));
    assert OnWire(ScriptOf(h), pk);
    hide Agree, TallyOf;
  }

  // ---------------------------------------------------------------- the ids nobody answers

  predicate HeardWinner(sc: Script, steps: seq<Step>) {
    Deliver(CerFrom(sc, sc.winner)) in steps
  }

  /** The winner's CER is still to be sent or delivered. */
  predicate Ahead(sc: Script, sys: System) {
    Connecting(sys.At(sc.winner).state) || CerFrom(sc, sc.winner) in sys.wire
  }

  /** The loser has the ids of the winner's CER queued exactly since that CER arrived, and it arrives at most once. */
  predicate Stale(f: Fresh, sc: Script, ahead: bool, b: Books, heard: bool) {
    && b.At(sc.Loser()).rxHop == (if heard then [f.Of(sc.winner).0] else [])
    && b.At(sc.Loser()).rxEnd == (if heard then [f.Of(sc.winner).1] else [])
    && !(ahead && heard)
  }

  lemma WinnersCerInFlight(h: Hosts, sc: Script, sys: System)
    requires sc.Proper() && Agree(h, sc, sys)
    ensures sys.wire[CerFrom(sc, sc.winner)] <= 1
    ensures CerFrom(sc, sc.winner) in sys.wire ==> !Connecting(sys.At(sc.winner).state)
  {
    hide SideFits, OnWire;
  }

  lemma ReceivingKeepsStale(f: Fresh, sc: Script, ahead: bool, b: Books, heard: bool, pk: Packet)
    requires sc.Proper() && OnWire(sc, pk) && Stale(f, sc, ahead, b, heard)
    requires pk == CerFrom(sc, sc.winner) ==> ahead
    ensures pk == CerFrom(sc, sc.winner) ==> Stale(f, sc, false, Receive(b, f, pk), true)
    ensures pk != CerFrom(sc, sc.winner) ==> Stale(f, sc, ahead, Receive(b, f, pk), heard)
  {
  }

  lemma DeliveryKeepsStale(h: Hosts, f: Fresh, sc: Script, sys: System, b: Books, heard: bool, pk: Packet)
    requires sc.Proper() && Agree(h, sc, sys) && pk in sys.wire && Stale(f, sc, Ahead(sc, sys), b, heard)
    ensures Stale(f, sc, Ahead(sc, Next(h, sys, Deliver(pk))), Track(h, f, sys, b, Deliver(pk)),
                  heard || pk == CerFrom(sc, sc.winner))
  {
    hide Stale, Receive, Next, TallyOf, SideFits, Legal;
    WinnersCerInFlight(h, sc, sys);
    assert OnWire(sc, pk);
    hide OnWire;
    DeliveryMoves(h, sys, pk);
    ReceivingKeepsStale(f, sc, Ahead(sc, sys), b, heard, pk);
  }

  /** The winner's messages leave the loser's queues alone, and so does the loser's request. */
  lemma SendingKeepsStale(f: Fresh, sc: Script, ahead: bool, b: Books, heard: bool)
    requires sc.Proper() && Stale(f, sc, ahead, b, heard)
    ensures forall m :: Stale(f, sc, ahead, Send(b, f, sc.winner, m), heard)
    ensures Stale(f, sc, ahead, Send(b, f, sc.Loser(), sc.Cer(sc.Loser())), heard)
    ensures Stale(f, sc, false, b, heard)
  {
  }

  lemma ServiceKeepsStale(h: Hosts, f: Fresh, sc: Script, sys: System, b: Books, heard: bool, x: Side)
    requires sys.At(x).queue != [] && Turning(h, sc, sys, x, sys.At(x).queue[0])
    requires Stale(f, sc, Ahead(sc, sys), b, heard)
    ensures Stale(f, sc, Ahead(sc, Next(h, sys, Serve(x))), Track(h, f, sys, b, Serve(x)), heard)
  {
    hide Next, Track, SideFits, OnWire, Compatible, ScriptOf, TallyOf, Legal, Stale, Send;
    var e, ahead := sys.At(x).queue[0], Ahead(sc, sys);
    SendingKeepsStale(f, sc, ahead, b, heard);
    if x == sc.winner {
      WinnerHead(h, sc, sys);
      WinnerTurn(h, sc, sys);
      Sends(h, f, sys, b, x, WinnerSays(sc, e));
    } else {
      LoserTurn(h, sc, sys);
      Sends(h, f, sys, b, x, LoserSays(sc, e));
    }
    hide Says;
    SendingKeepsStale(f, sc, ahead, Track(h, f, sys, b, Serve(x)), heard);
  }

  lemma {:induction false} RunKeepsStale(h: Hosts, f: Fresh, steps: seq<Step>)
    requires Compatible(h) && IsRun(h, steps)
    ensures Stale(f, ScriptOf(h), Ahead(ScriptOf(h), After(h, steps)), Trace(h, f, steps),
                  HeardWinner(ScriptOf(h), steps))
  {
    hide Agree, Compatible, ScriptOf, Next, Begin, Losable, Stale, Track;
    var sc := ScriptOf(h);
    ScriptIsProper(h);
    if steps == [] {
      BeginIsStale(h, f, sc);
    } else {
      var front, st := steps[..|steps| - 1], steps[|steps| - 1];
      var sys, b := After(h, front), Trace(h, f, front);
      RunKeepsStale(h, f, front);
      RunAgrees(h, front);
      assert steps == front + [st];
      match st
      case Deliver(pk) => DeliveryKeepsStale(h, f, sc, sys, b, HeardWinner(sc, front), pk);
      case Lose(pk) =>
        LostUntracked(h, f, sys, b, pk);
        LossKeepsStale(h, f, sc, sys, b, HeardWinner(sc, front), pk);
      case Serve(x) => ServiceKeepsStale(h, f, sc, sys, b, HeardWinner(sc, front), x);
    }
  }

  lemma LossKeepsStale(h: Hosts, f: Fresh, sc: Script, sys: System, b: Books, heard: bool, pk: Packet)
    requires pk in sys.wire && Stale(f, sc, Ahead(sc, sys), b, heard)
    ensures Stale(f, sc, Ahead(sc, Next(h, sys, Lose(pk))), b, heard)
  {
  }

  lemma BeginIsStale(h: Hosts, f: Fresh, sc: Script)
    requires sc.Proper()
    ensures Stale(f, sc, Ahead(sc, Begin(h)), NO_BOOKS, HeardWinner(sc, []))
  {
    hide PeerInvariants.Run;
    Started(h.left);
    Started(h.right);
  }

  /**
    The loser never answers the winner's CER. From the moment that CER arrives, the next answer the loser would send
    carries the CER's ids, whatever request it answers; before that it would carry the ids of no request.
   */
  lemma LoserOwesAnAnswer(h: Hosts, f: Fresh, steps: seq<Step>, hopId: nat, endId: nat)
    requires Compatible(h) && IsRun(h, steps)
    ensures var l := Opposite(WinnerOf(h));
            var arrived := Deliver(CerFrom(ScriptOf(h), WinnerOf(h))) in steps;
            MessageIds.Stamped(Trace(h, f, steps).At(l), false, hopId, endId) ==
              if arrived then MessageIds.Header(false, f.Of(WinnerOf(h)).0, f.Of(WinnerOf(h)).1)
              else MessageIds.Header(false, 0, 0)
  {
    RunKeepsStale(h, f, steps);
    WinnerOfScript(h);
    hide Compatible, ScriptOf, After, Trace, IsRun;
  }
}
