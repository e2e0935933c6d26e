/**
  Two peers that connect to each other at the same time (RFC 3588 section 5.6.4).

  Both peers are the machines of PeerModel. What they send and what they close travels on a wire that may
  deliver in any order; a delivered packet becomes an event in the receiver's own queue, which is served in
  order. The peers take turns in any order, so every interleaving is a run.
 */
module PeerAgreement {
  import opened Basics
  import opened AvpContainers
  import opened Capabilities
  import opened CapabilityTheorems
  import opened PeerTable
  import opened PeerModel
  import opened PeerInvariants
  import Election

  datatype Side = Left | Right

  function Opposite(x: Side): Side {
    if x == Left then Right else Left
  }

  /** The connection a side initiates; both ends use the same token. */
  function Conn(x: Side): Io {
    if x == Left then Io(0) else Io(1)
  }

  /** A connect that succeeded, a message in flight, or the news that the other end closed a connection. */
  datatype Packet = Ack(to: Side) | Carried(to: Side, msg: Sent) | Gone(to: Side, io: Io)

  datatype System = System(left: Peer, right: Peer, wire: multiset<Packet>) {
    function At(x: Side): Peer {
      if x == Left then left else right
    }

    function With(x: Side, p: Peer): System {
      if x == Left then this.(left := p) else this.(right := p)
    }
  }

  datatype Hosts = Hosts(left: Settings, right: Settings) {
    function Of(x: Side): Settings {
      if x == Left then left else right
    }
  }

  /** The names differ and have no pad octet, and each side accepts the other's capabilities. */
  ghost predicate Compatible(h: Hosts) {
    && h.left.local.identity != h.right.local.identity
    && Election.NoPadOctet(h.left.local.identity) && Election.NoPadOctet(h.right.local.identity)
    && (forall x: Side :: Accepts(h.Of(x).local, h.Of(x).tls, h.Of(Opposite(x)).local, h.Of(Opposite(x)).tls))
  }

  // ---------------------------------------------------------------- steps

  function CommandOf(kind: MsgKind): Command {
    match kind
    case CER | CEA => CapabilitiesExchange
    case DWR | DWA => DeviceWatchdog
    case DPR | DPA => DisconnectPeer
    case ONBEHALF => Other
  }

  /** A CER on the other side's connection is the acceptor's news; everything else goes to the classifier. */
  function Heard(p: Peer, pk: Packet): Option<EventParam> {
    match pk
    case Ack(to) => Some(EventParam(I_RCV_CONN_ACK, None, Some(Conn(to))))
    case Gone(to, io) => Some(EventParam(if io == Conn(to) then I_PEER_DISC else R_PEER_DISC, None, None))
    case Carried(to, m) =>
      if m.kind == CER && m.io == Some(Conn(Opposite(to))) then
        Some(EventParam(R_CONN_CER, Some(Msg(m.acl, m.resultCode)), m.io))
      else
        Classify(p, CommandOf(m.kind), m.kind in {CER, DWR, DPR}, true, Msg(m.acl, m.resultCode))
  }

  /** What a side puts on the wire: the messages it sent, and the news of the connections it closed. */
  function Emitted(x: Side, sent: seq<Sent>, closed: seq<Io>): seq<Packet> {
    seq(|sent|, i requires 0 <= i < |sent| => Carried(Opposite(x), sent[i]))
    + seq(|closed|, i requires 0 <= i < |closed| => Gone(Opposite(x), closed[i]))
  }

  function Since<T>(s: seq<T>, n: nat): seq<T> {
    if n <= |s| then s[n..] else []
  }

  datatype Step = Deliver(pk: Packet) | Lose(pk: Packet) | Serve(side: Side)

  /** News of a closed connection may be lost, and so may what was sent on it before it was closed. */
  predicate Losable(sys: System, pk: Packet) {
    pk.Gone? || (pk.Carried? && pk.msg.io.Some? && pk.msg.io.value in sys.At(Opposite(pk.to)).closed)
  }

  predicate Enabled(sys: System, st: Step) {
    match st
    case Deliver(pk) => pk in sys.wire
    case Lose(pk) => pk in sys.wire && Losable(sys, pk)
    case Serve(x) => sys.At(x).queue != []
  }

  ghost function Next(h: Hosts, sys: System, st: Step): System {
    match st
    case Deliver(pk) =>
      var rest := sys.(wire := sys.wire - multiset{pk});
      var e := Heard(sys.At(pk.to), pk);
      if e.None? then rest else rest.With(pk.to, Take(h.Of(pk.to), sys.At(pk.to), Raise(e.value)))
    case Lose(pk) => sys.(wire := sys.wire - multiset{pk})
    case Serve(x) =>
      var p := sys.At(x);
      var q := Take(h.Of(x), p, Turn);
      sys.With(x, q).(wire := sys.wire + multiset(Emitted(x, Since(q.outbox, |p.outbox|), Since(q.closed, |p.closed|))))
  }

  /** Both peers were started and their connects will succeed. */
  ghost function Begin(h: Hosts): System {
    System(Run(h.left, NEW_PEER, [StartRequest, Turn]), Run(h.right, NEW_PEER, [StartRequest, Turn]),
           multiset{Ack(Left), Ack(Right)})
  }

  ghost function After(h: Hosts, steps: seq<Step>): System {
    if steps == [] then Begin(h) else Next(h, After(h, steps[..|steps| - 1]), steps[|steps| - 1])
  }

  ghost predicate IsRun(h: Hosts, steps: seq<Step>) {
    steps == [] || (IsRun(h, steps[..|steps| - 1]) && Enabled(After(h, steps[..|steps| - 1]), steps[|steps| - 1]))
  }

  // ---------------------------------------------------------------- one event at one peer

  const WIN: EventParam := EventParam(WIN_ELECTION, None, None)

  predicate Ready(p: Peer) {
    p.running && p.held.None?
  }

  predicate Slots(p: Peer, st: State, initiator: Option<Io>, responder: Option<Io>) {
    p.state == st && p.initiator == initiator && p.responder == responder
  }

  /** q is p after its first event, having sent and closed these and raised those events. */
  predicate Serves(p: Peer, q: Peer, sent: seq<Sent>, closed: seq<Io>, raised: seq<EventParam>)
    requires p.queue != []
  {
    && Ready(q)
    && q.outbox == p.outbox + sent
    && q.closed == p.closed + closed
    && q.queue == p.queue[1..] + raised
  }

  ghost function Elected(s: Settings, host: seq<int>): seq<EventParam> {
    if Election.Outcome(s.local.identity, host) == Election.Win then [WIN] else []
  }

  lemma ServeAck(s: Settings, p: Peer, io: Io, cer: Sent)
    requires Ready(p) && p.queue != [] && p.queue[0] == EventParam(I_RCV_CONN_ACK, None, Some(io))
    requires p.initiator.None? && cer == Sent(CER, Some(io), CeAvps(s.local, s.tls), 0)
    requires p.state == WAIT_CONN_ACK_ELECT ==>
               Election.Outcome(s.local.identity, p.caps.host) != Election.SameHost
    ensures var q := PeerModel.Serve(s, p);
            && (p.state == WAIT_CONN_ACK ==> Slots(q, WAIT_I_CEA, Some(io), p.responder) && Serves(p, q, [cer], [], []))
            && (p.state == WAIT_CONN_ACK_ELECT ==> Slots(q, WAIT_RETURNS, Some(io), p.responder) && q.caps == p.caps &&
                                                   Serves(p, q, [cer], [], Elected(s, p.caps.host)))
  {
    hide Decode, Validate;
  }

  predicate Carries(s: Settings, e: EventParam, cap: PeerCapabilities) {
    cap == Decode(AclOf(e)) && Validate(s.local, s.tls, cap) == AAA_SUCCESS
  }

  lemma AcceptWhenValid(s: Settings, p: Peer, e: EventParam, cap: PeerCapabilities)
    requires Carries(s, e, cap)
    ensures Accept(s, p, e) == TakeResponder(p).(caps := cap)
    ensures AcceptElect(s, p, e) == PeerModel.Elect(s, TakeResponder(p).(caps := cap))
  {
  }

  /** A CER on a new connection is for the accepting actions. */
  lemma CerIsAccepted(s: Settings, p: Peer, e: EventParam)
    requires p.running && p.queue != [] && p.queue[0] == e && e.event == R_CONN_CER
    ensures var m := p.(queue := p.queue[1..], held := e.io);
            && (p.state == WAIT_CONN_ACK ==>
                  PeerModel.Serve(s, p) == CloseHeld(Accept(s, m.(state := WAIT_CONN_ACK_ELECT), e)))
            && (p.state == WAIT_I_CEA ==>
                  PeerModel.Serve(s, p) == CloseHeld(AcceptElect(s, m.(state := WAIT_RETURNS), e)))
  {
    hide Accept, AcceptElect, CloseHeld;
  }

  lemma KeepsForElection(p: Peer, e: EventParam, cap: PeerCapabilities)
    requires Ready(p) && p.queue != [] && e.io.Some? && p.responder.None?
    ensures var m := p.(queue := p.queue[1..], held := e.io, state := WAIT_CONN_ACK_ELECT);
            var q := CloseHeld(TakeResponder(m).(caps := cap));
            Slots(q, WAIT_CONN_ACK_ELECT, p.initiator, e.io) && q.caps == cap && Serves(p, q, [], [], [])
  {
  }

  lemma ElectsAtOnce(s: Settings, p: Peer, e: EventParam, cap: PeerCapabilities)
    requires Ready(p) && p.queue != [] && e.io.Some? && p.responder.None?
    requires Election.Outcome(s.local.identity, cap.host) != Election.SameHost
    ensures var m := p.(queue := p.queue[1..], held := e.io, state := WAIT_RETURNS);
            var q := CloseHeld(PeerModel.Elect(s, TakeResponder(m).(caps := cap)));
            Slots(q, WAIT_RETURNS, p.initiator, e.io) && q.caps == cap && Serves(p, q, [], [], Elected(s, cap.host))
  {
  }

  /** A valid CER while the connect is pending is kept for the election. */
  lemma ServeEarlyCER(s: Settings, p: Peer, e: EventParam, cap: PeerCapabilities)
    requires Ready(p) && p.queue != [] && p.queue[0] == e && e.event == R_CONN_CER && e.io.Some?
    requires Carries(s, e, cap)
    requires p.responder.None? && p.state == WAIT_CONN_ACK
    ensures var q := PeerModel.Serve(s, p);
            Slots(q, WAIT_CONN_ACK_ELECT, p.initiator, e.io) && q.caps == cap && Serves(p, q, [], [], [])
  {
    CerIsAccepted(s, p, e);
    AcceptWhenValid(s, p.(queue := p.queue[1..], held := e.io, state := WAIT_CONN_ACK_ELECT), e, cap);
    KeepsForElection(p, e, cap);
    hide *;
  }

  /** A valid CER after the own CER went out starts the election. */
  lemma ServeElectingCER(s: Settings, p: Peer, e: EventParam, cap: PeerCapabilities)
    requires Ready(p) && p.queue != [] && p.queue[0] == e && e.event == R_CONN_CER && e.io.Some?
    requires Carries(s, e, cap)
    requires p.responder.None? && p.state == WAIT_I_CEA
    requires Election.Outcome(s.local.identity, cap.host) != Election.SameHost
    ensures var q := PeerModel.Serve(s, p);
            Slots(q, WAIT_RETURNS, p.initiator, e.io) && q.caps == cap && Serves(p, q, [], [], Elected(s, cap.host))
  {
    CerIsAccepted(s, p, e);
    AcceptWhenValid(s, p.(queue := p.queue[1..], held := e.io, state := WAIT_RETURNS), e, cap);
    ElectsAtOnce(s, p, e, cap);
    hide *;
  }

  lemma ServeLateCER(s: Settings, p: Peer, io: Io)
    requires Ready(p) && p.queue != [] && p.queue[0].event == R_CONN_CER && p.queue[0].io == Some(io)
    requires p.state == I_OPEN
    ensures var q := PeerModel.Serve(s, p);
            Slots(q, I_OPEN, p.initiator, p.responder) && Serves(p, q, [], [io], [])
  {
    hide Decode, Validate;
  }

  lemma ServeWin(s: Settings, p: Peer, cea: Sent)
    requires Ready(p) && p.queue != [] && p.queue[0] == WIN && p.state == WAIT_RETURNS
    requires cea == Sent(CEA, p.responder, CeAvps(s.local, s.tls) + ResultAvps(AAA_SUCCESS), AAA_SUCCESS)
    ensures var q := PeerModel.Serve(s, p);
            Slots(q, R_OPEN, None, p.responder) && Serves(p, q, [cea], Opt(p.initiator), [])
  {
    hide Decode, Validate;
  }

  lemma ServeCEA(s: Settings, p: Peer, acl: seq<Avp>)
    requires Ready(p) && p.queue != [] && p.queue[0] == EventParam(I_RCV_CEA, Some(Msg(acl, AAA_SUCCESS)), None)
    requires p.state == WAIT_I_CEA || p.state == WAIT_RETURNS
    requires p.state == WAIT_I_CEA ==> p.responder.None?
    ensures var q := PeerModel.Serve(s, p);
            Slots(q, I_OPEN, p.initiator, None) && Serves(p, q, [], Opt(p.responder), [])
  {
    hide Decode, Validate;
  }

  lemma ServeGone(s: Settings, p: Peer)
    requires Ready(p) && p.queue != []
    ensures var q := PeerModel.Serve(s, p);
            && (p.queue[0] == EventParam(I_PEER_DISC, None, None) && p.state == R_OPEN ==>
                  Slots(q, R_OPEN, p.initiator, p.responder) && Serves(p, q, [], [], []))
            && (p.queue[0] == EventParam(R_PEER_DISC, None, None) ==>
                  && (p.state in {WAIT_I_CEA, I_OPEN} ==>
                        Slots(q, p.state, p.initiator, p.responder) && Serves(p, q, [], [], []))
                  && (p.state == WAIT_RETURNS ==>
                        Slots(q, WAIT_I_CEA, p.initiator, None) && Serves(p, q, [], Opt(p.responder), [])))
  {
    hide Decode, Validate;
  }

  // ---------------------------------------------------------------- what is still to come

  /** What the two peers say in this exchange, with the winner of the election. */
  datatype Script = Script(winner: Side, cerLeft: Sent, cerRight: Sent, cea: Sent) {
    function Cer(x: Side): Sent {
      if x == Left then cerLeft else cerRight
    }

    function Loser(): Side {
      Opposite(winner)
    }

    predicate Proper() {
      && (forall x: Side :: Cer(x) == Sent(CER, Some(Conn(x)), Cer(x).acl, 0))
      && cea == Sent(CEA, Some(Conn(Loser())), cea.acl, AAA_SUCCESS)
    }
  }

  ghost function WinnerOf(h: Hosts): Side {
    if Election.Outcome(h.left.local.identity, h.right.local.identity) == Election.Win then Left else Right
  }

  ghost function ScriptOf(h: Hosts): Script {
    var winner := WinnerOf(h);
    Script(winner,
           Sent(CER, Some(Conn(Left)), CeAvps(h.left.local, h.left.tls), 0),
           Sent(CER, Some(Conn(Right)), CeAvps(h.right.local, h.right.tls), 0),
           Sent(CEA, Some(Conn(Opposite(winner))),
                CeAvps(h.Of(winner).local, h.Of(winner).tls) + ResultAvps(AAA_SUCCESS), AAA_SUCCESS))
  }

  // The six packets and seven events of the exchange.

  function AckTo(x: Side): Packet { Ack(x) }

  function CerFrom(sc: Script, x: Side): Packet { Carried(Opposite(x), sc.Cer(x)) }

  function CeaPacket(sc: Script): Packet { Carried(sc.Loser(), sc.cea) }

  /** Only the winner's connection is ever closed. */
  function GoneTo(sc: Script, x: Side): Packet { Gone(x, Conn(sc.winner)) }

  function AckEvent(x: Side): EventParam { EventParam(I_RCV_CONN_ACK, None, Some(Conn(x))) }

  function CerEvent(sc: Script, x: Side): EventParam {
    EventParam(R_CONN_CER, Some(Msg(sc.Cer(x).acl, 0)), Some(Conn(x)))
  }

  function CeaEvent(sc: Script): EventParam { EventParam(I_RCV_CEA, Some(Msg(sc.cea.acl, AAA_SUCCESS)), None) }

  function GoneEvent(sc: Script, x: Side): EventParam {
    EventParam(if x == sc.winner then I_PEER_DISC else R_PEER_DISC, None, None)
  }

  function Count(q: seq<EventParam>, e: EventParam): nat {
    multiset(q)[e]
  }

  /** How often each thing is still to be served, whether on the wire or already queued. */
  datatype Tally = Tally(ackW: nat, ackL: nat, cerW: nat, cerL: nat, win: nat, cea: nat, goneW: nat, goneL: nat)

  function TallyOf(sc: Script, sys: System): Tally {
    Due(sc, sys.wire, sys.At(sc.winner).queue, sys.At(sc.Loser()).queue)
  }

  /** The tally of a wire and the queues of winner and loser. */
  function Due(sc: Script, wire: multiset<Packet>, qw: seq<EventParam>, ql: seq<EventParam>): Tally {
    var w, l := sc.winner, sc.Loser();
    Tally(wire[AckTo(w)] + Count(qw, AckEvent(w)),
          wire[AckTo(l)] + Count(ql, AckEvent(l)),
          wire[CerFrom(sc, w)] + Count(ql, CerEvent(sc, w)),
          wire[CerFrom(sc, l)] + Count(qw, CerEvent(sc, l)),
          Count(qw, WIN),
          wire[CeaPacket(sc)] + Count(ql, CeaEvent(sc)),
          wire[GoneTo(sc, w)] + Count(qw, GoneEvent(sc, w)),
          wire[GoneTo(sc, l)] + Count(ql, GoneEvent(sc, l)))
  }

  predicate Expected(sc: Script, x: Side, e: EventParam) {
    || e == AckEvent(x)
    || e == CerEvent(sc, Opposite(x))
    || e == GoneEvent(sc, x)
    || e == if x == sc.winner then WIN else CeaEvent(sc)
  }

  predicate OnWire(sc: Script, pk: Packet) {
    || pk == AckTo(pk.to) || pk == CerFrom(sc, Opposite(pk.to)) || pk == GoneTo(sc, pk.to) || pk == CeaPacket(sc)
  }

  predicate Connecting(st: State) {
    st == WAIT_CONN_ACK || st == WAIT_CONN_ACK_ELECT
  }

  /** The states of winner and loser together with what is still to come: the heart of the protocol. */
  predicate Legal(w: State, l: State, n: Tally) {
    && (w == WAIT_CONN_ACK || w == WAIT_CONN_ACK_ELECT || w == WAIT_I_CEA || w == WAIT_RETURNS || w == R_OPEN)
    && (l == WAIT_CONN_ACK || l == WAIT_CONN_ACK_ELECT || l == WAIT_I_CEA || l == WAIT_RETURNS || l == I_OPEN)
    && n.ackW == (if Connecting(w) then 1 else 0)
    && n.ackL == (if Connecting(l) then 1 else 0)
    && n.cerL == (if !Connecting(l) && (w == WAIT_CONN_ACK || w == WAIT_I_CEA) then 1 else 0)
    && (Connecting(l) ==> (w == WAIT_CONN_ACK || w == WAIT_I_CEA))
    && (Connecting(w) ==> (l == WAIT_CONN_ACK || l == WAIT_I_CEA))
    && n.cerW <= 1
    && (Connecting(w) || (l == WAIT_CONN_ACK_ELECT || l == WAIT_RETURNS) ==> n.cerW == 0)
    && ((w == WAIT_I_CEA || w == WAIT_RETURNS) && (l == WAIT_CONN_ACK || l == WAIT_I_CEA) ==> n.cerW == 1)
    && n.win == (if w == WAIT_RETURNS then 1 else 0)
    && (l == I_OPEN ==> w == R_OPEN)
    && n.cea == (if w == R_OPEN && (l == WAIT_I_CEA || l == WAIT_RETURNS) then 1 else 0)
    && (w != R_OPEN ==> n.goneW == 0 && n.goneL == 0)
  }

  predicate SlotsFit(p: Peer, own: Io, others: Io) {
    match p.state
    case WAIT_CONN_ACK => p.initiator == None && p.responder == None
    case WAIT_CONN_ACK_ELECT => p.initiator == None && p.responder == Some(others)
    case WAIT_I_CEA | I_OPEN => p.initiator == Some(own) && p.responder == None
    case WAIT_RETURNS => p.initiator == Some(own) && p.responder == Some(others)
    case R_OPEN => p.initiator == None && p.responder == Some(others)
    case _ => false
  }

  /** What holds of one side alone. */
  predicate SideFits(h: Hosts, sc: Script, x: Side, p: Peer) {
    && Ready(p)
    && SlotsFit(p, Conn(x), Conn(Opposite(x)))
    && (p.state in {WAIT_CONN_ACK_ELECT, WAIT_RETURNS} ==> p.caps.host == h.Of(Opposite(x)).local.identity)
    && (forall e <- p.queue :: Expected(sc, x, e))
    && Conn(sc.Loser()) !in p.closed
    && (x == sc.winner && p.closed != [] ==> p.state == R_OPEN)
  }

  ghost predicate Agree(h: Hosts, sc: Script, sys: System) {
    && SideFits(h, sc, Left, sys.left)
    && SideFits(h, sc, Right, sys.right)
    && (forall pk <- sys.wire :: OnWire(sc, pk))
    && Legal(sys.At(sc.winner).state, sys.At(sc.Loser()).state, TallyOf(sc, sys))
  }

  // ---------------------------------------------------------------- how far the exchange still has to go

  function WinnerDistance(st: State): int {
    match st
    case WAIT_CONN_ACK => 7
    case WAIT_CONN_ACK_ELECT => 10
    case WAIT_I_CEA => 2
    case WAIT_RETURNS => 4
    case _ => 0
  }

  function LoserDistance(st: State): int {
    match st
    case WAIT_CONN_ACK => 5
    case WAIT_CONN_ACK_ELECT => 7
    case WAIT_RETURNS => 2
    case _ => 0
  }

  function Distance(w: State, l: State, n: Tally): int {
    WinnerDistance(w) + LoserDistance(l)
    + n.ackW + n.ackL + 4 * (n.cerW + n.cerL) + n.win + n.cea + n.goneW + n.goneL
  }

  /** An upper bound of the steps still possible; every step lowers it. */
  function Remaining(sc: Script, sys: System): int {
    Distance(sys.At(sc.winner).state, sys.At(sc.Loser()).state, TallyOf(sc, sys)) + |sys.wire|
  }

  // ---------------------------------------------------------------- deliveries

  function EventFor(sc: Script, pk: Packet): EventParam {
    match pk
    case Ack(x) => AckEvent(x)
    case Gone(x, io) => GoneEvent(sc, x)
    case Carried(x, m) => if m.kind == CER then CerEvent(sc, Opposite(x)) else CeaEvent(sc)
  }

  lemma HeardAsExpected(sc: Script, sys: System, pk: Packet)
    requires sc.Proper() && pk in sys.wire && OnWire(sc, pk)
    requires Legal(sys.At(sc.winner).state, sys.At(sc.Loser()).state, TallyOf(sc, sys))
    ensures Heard(sys.At(pk.to), pk) == Some(EventFor(sc, pk))
    ensures Expected(sc, pk.to, EventFor(sc, pk))
  {
    if pk == CeaPacket(sc) {
      assert TallyOf(sc, sys).cea > 0;
    }
  }

  lemma CountAppend(q: seq<EventParam>, e: EventParam)
    ensures forall f :: Count(q + [e], f) == Count(q, f) + if f == e then 1 else 0
  {
  }

  /** Moving a packet from the wire into its receiver's queue changes no tally. */
  lemma DeliveryToWinner(sc: Script, wire: multiset<Packet>, qw: seq<EventParam>, ql: seq<EventParam>, pk: Packet)
    requires sc.Proper() && pk in wire && OnWire(sc, pk) && pk.to == sc.winner
    ensures Due(sc, wire - multiset{pk}, qw + [EventFor(sc, pk)], ql) == Due(sc, wire, qw, ql)
  {
    CountAppend(qw, EventFor(sc, pk));
  }

  lemma DeliveryToLoser(sc: Script, wire: multiset<Packet>, qw: seq<EventParam>, ql: seq<EventParam>, pk: Packet)
    requires sc.Proper() && pk in wire && OnWire(sc, pk) && pk.to == sc.Loser()
    ensures Due(sc, wire - multiset{pk}, qw, ql + [EventFor(sc, pk)]) == Due(sc, wire, qw, ql)
  {
    CountAppend(ql, EventFor(sc, pk));
  }

  /** The invariant of a system whose tally and states are the ones of an agreeing system. */
  lemma SameTallyAgrees(h: Hosts, sc: Script, sys: System, next: System, x: Side, q: Peer, e: EventParam)
    requires Agree(h, sc, sys) && Expected(sc, x, e)
    requires q == sys.At(x).(queue := sys.At(x).queue + [e]) && next == sys.With(x, q).(wire := next.wire)
    requires next.wire <= sys.wire && TallyOf(sc, next) == TallyOf(sc, sys)
    ensures Agree(h, sc, next)
  {
    hide Legal, TallyOf;
    assert SideFits(h, sc, x, q);
    assert forall pk <- next.wire :: pk in sys.wire;
  }

  lemma DeliverStep(h: Hosts, sc: Script, sys: System, pk: Packet)
    requires sc.Proper() && Agree(h, sc, sys) && pk in sys.wire
    ensures Agree(h, sc, Next(h, sys, Deliver(pk)))
    ensures Remaining(sc, Next(h, sys, Deliver(pk))) < Remaining(sc, sys)
  {
    hide Legal, Due, Expected, OnWire;
    var e := EventFor(sc, pk);
    var next := Next(h, sys, Deliver(pk));
    assert OnWire(sc, pk);
    HeardAsExpected(sc, sys, pk);
    var q := Take(h.Of(pk.to), sys.At(pk.to), Raise(e));
    assert q == sys.At(pk.to).(queue := sys.At(pk.to).queue + [e]);
    if pk.to == sc.winner {
      DeliveryToWinner(sc, sys.wire, sys.At(sc.winner).queue, sys.At(sc.Loser()).queue, pk);
    } else {
      DeliveryToLoser(sc, sys.wire, sys.At(sc.winner).queue, sys.At(sc.Loser()).queue, pk);
    }
    SameTallyAgrees(h, sc, sys, next, pk.to, q, e);
  }

  lemma LossOnWire(sc: Script, wire: multiset<Packet>, qw: seq<EventParam>, ql: seq<EventParam>, pk: Packet)
    requires sc.Proper() && pk in wire
    ensures var n, m := Due(sc, wire, qw, ql), Due(sc, wire - multiset{pk}, qw, ql);
            && (pk == GoneTo(sc, sc.winner) ==> n.goneW > 0 && m == n.(goneW := n.goneW - 1))
            && (pk == GoneTo(sc, sc.Loser()) ==> n.goneL > 0 && m == n.(goneL := n.goneL - 1))
            && (pk == CerFrom(sc, sc.winner) ==> n.cerW > 0 && m == n.(cerW := n.cerW - 1))
  {
  }

  lemma LosablePackets(h: Hosts, sc: Script, sys: System, pk: Packet)
    requires sc.Proper() && Agree(h, sc, sys) && pk in sys.wire && Losable(sys, pk)
    ensures || pk == GoneTo(sc, sc.winner) || pk == GoneTo(sc, sc.Loser())
            || (pk == CerFrom(sc, sc.winner) && sys.At(sc.winner).state == R_OPEN)
  {
    hide Legal, Due, Expected;
    assert OnWire(sc, pk);
  }

  lemma LoseStep(h: Hosts, sc: Script, sys: System, pk: Packet)
    requires sc.Proper() && Agree(h, sc, sys) && pk in sys.wire && Losable(sys, pk)
    ensures Agree(h, sc, Next(h, sys, Lose(pk)))
    ensures Remaining(sc, Next(h, sys, Lose(pk))) < Remaining(sc, sys)
  {
    hide Due, SideFits, OnWire, Losable, Legal, Distance;
    LosablePackets(h, sc, sys, pk);
    LossIsAllowed(sc, sys.At(sc.winner).state, sys.At(sc.Loser()).state, sys.wire, sys.At(sc.winner).queue,
                  sys.At(sc.Loser()).queue, pk);
    assert forall k <- sys.wire - multiset{pk} :: k in sys.wire;
  }

  lemma LossIsAllowed(sc: Script, w: State, l: State, wire: multiset<Packet>, qw: seq<EventParam>,
                      ql: seq<EventParam>, pk: Packet)
    requires sc.Proper() && pk in wire && Legal(w, l, Due(sc, wire, qw, ql))
    requires pk == GoneTo(sc, sc.winner) || pk == GoneTo(sc, sc.Loser()) || (pk == CerFrom(sc, sc.winner) && w == R_OPEN)
    ensures var n, m := Due(sc, wire, qw, ql), Due(sc, wire - multiset{pk}, qw, ql);
            Legal(w, l, m) && Distance(w, l, m) < Distance(w, l, n)
  {
    hide Due, Legal, Distance;
    LossOnWire(sc, wire, qw, ql, pk);
    LossIsLegal(w, l, Due(sc, wire, qw, ql));
  }

  lemma LossIsLegal(w: State, l: State, n: Tally)
    requires Legal(w, l, n)
    ensures n.goneW > 0 ==>
              Legal(w, l, n.(goneW := n.goneW - 1)) && Distance(w, l, n.(goneW := n.goneW - 1)) < Distance(w, l, n)
    ensures n.goneL > 0 ==>
              Legal(w, l, n.(goneL := n.goneL - 1)) && Distance(w, l, n.(goneL := n.goneL - 1)) < Distance(w, l, n)
    ensures n.cerW > 0 && w == R_OPEN ==>
              Legal(w, l, n.(cerW := n.cerW - 1)) && Distance(w, l, n.(cerW := n.cerW - 1)) < Distance(w, l, n)
  {
  }

  // ---------------------------------------------------------------- turns

  lemma EmittedPackets(x: Side, m: Sent, io: Io)
    ensures multiset(Emitted(x, [], [])) == multiset{}
    ensures multiset(Emitted(x, [m], [])) == multiset{Carried(Opposite(x), m)}
    ensures multiset(Emitted(x, [], [io])) == multiset{Gone(Opposite(x), io)}
    ensures multiset(Emitted(x, [m], [io])) == multiset{Carried(Opposite(x), m), Gone(Opposite(x), io)}
  {
    assert Emitted(x, [], []) == [];
    assert Emitted(x, [m], []) == [Carried(Opposite(x), m)];
    assert Emitted(x, [], [io]) == [Gone(Opposite(x), io)];
    assert Emitted(x, [m], [io]) == [Carried(Opposite(x), m), Gone(Opposite(x), io)];
  }

  lemma CountServed(q: seq<EventParam>, raised: seq<EventParam>)
    requires q != []
    ensures forall f :: Count(q[1..] + raised, f) == Count(q, f) - Count([q[0]], f) + Count(raised, f)
  {
    assert q == [q[0]] + q[1..];
  }

  predicate Balanced(m: Tally, n: Tally, minus: Tally, plus: Tally) {
    && m.ackW == n.ackW - minus.ackW + plus.ackW
    && m.ackL == n.ackL - minus.ackL + plus.ackL
    && m.cerW == n.cerW - minus.cerW + plus.cerW
    && m.cerL == n.cerL - minus.cerL + plus.cerL
    && m.win == n.win - minus.win + plus.win
    && m.cea == n.cea - minus.cea + plus.cea
    && m.goneW == n.goneW - minus.goneW + plus.goneW
    && m.goneL == n.goneL - minus.goneL + plus.goneL
  }

  lemma WinnerTurnTally(sc: Script, wire: multiset<Packet>, qw: seq<EventParam>, ql: seq<EventParam>,
                        emitted: multiset<Packet>, raised: seq<EventParam>)
    requires qw != []
    ensures Balanced(Due(sc, wire + emitted, qw[1..] + raised, ql), Due(sc, wire, qw, ql),
                     Due(sc, multiset{}, [qw[0]], []), Due(sc, emitted, raised, []))
  {
    CountServed(qw, raised);
  }

  lemma LoserTurnTally(sc: Script, wire: multiset<Packet>, qw: seq<EventParam>, ql: seq<EventParam>,
                       emitted: multiset<Packet>)
    requires ql != []
    ensures Balanced(Due(sc, wire + emitted, qw, ql[1..]), Due(sc, wire, qw, ql),
                     Due(sc, multiset{}, [], [ql[0]]), Due(sc, emitted, [], []))
  {
    CountServed(ql, []);
    assert ql[1..] + [] == ql[1..];
  }

  const NOTHING: Tally := Tally(0, 0, 0, 0, 0, 0, 0, 0)

  lemma WinnerEvents(sc: Script)
    requires sc.Proper()
    ensures Due(sc, multiset{}, [AckEvent(sc.winner)], []) == NOTHING.(ackW := 1)
    ensures Due(sc, multiset{}, [CerEvent(sc, sc.Loser())], []) == NOTHING.(cerL := 1)
    ensures Due(sc, multiset{}, [WIN], []) == NOTHING.(win := 1)
    ensures Due(sc, multiset{}, [GoneEvent(sc, sc.winner)], []) == NOTHING.(goneW := 1)
  {
  }

  lemma LoserEvents(sc: Script)
    requires sc.Proper()
    ensures Due(sc, multiset{}, [], [AckEvent(sc.Loser())]) == NOTHING.(ackL := 1)
    ensures Due(sc, multiset{}, [], [CerEvent(sc, sc.winner)]) == NOTHING.(cerW := 1)
    ensures Due(sc, multiset{}, [], [CeaEvent(sc)]) == NOTHING.(cea := 1)
    ensures Due(sc, multiset{}, [], [GoneEvent(sc, sc.Loser())]) == NOTHING.(goneL := 1)
  {
  }

  lemma Emissions(sc: Script)
    requires sc.Proper()
    ensures Due(sc, multiset{}, [], []) == NOTHING
    ensures Due(sc, multiset{CerFrom(sc, sc.winner)}, [], []) == NOTHING.(cerW := 1)
    ensures Due(sc, multiset{CerFrom(sc, sc.Loser())}, [], []) == NOTHING.(cerL := 1)
    ensures Due(sc, multiset{CerFrom(sc, sc.winner)}, [WIN], []) == NOTHING.(cerW := 1, win := 1)
    ensures Due(sc, multiset{}, [WIN], []) == NOTHING.(win := 1)
    ensures Due(sc, multiset{CeaPacket(sc), GoneTo(sc, sc.Loser())}, [], []) == NOTHING.(cea := 1, goneL := 1)
    ensures Due(sc, multiset{GoneTo(sc, sc.winner)}, [], []) == NOTHING.(goneW := 1)
  {
  }

  /** A turn takes the first event off the queue and puts what it sends and closes on the wire. */
  lemma TurnEffect(h: Hosts, sys: System, x: Side, q: Peer, sent: seq<Sent>, closed: seq<Io>, raised: seq<EventParam>)
    requires sys.At(x).queue != [] && q == PeerModel.Serve(h.Of(x), sys.At(x))
    requires Serves(sys.At(x), q, sent, closed, raised)
    ensures Next(h, sys, Serve(x)) == sys.With(x, q).(wire := sys.wire + multiset(Emitted(x, sent, closed)))
  {
    var p := sys.At(x);
    assert Since(q.outbox, |p.outbox|) == sent && Since(q.closed, |p.closed|) == closed;
  }

  // What a turn leaves behind, in terms of the tally.

  /** What a side sent in its turn. */
  predicate Says(sys: System, next: System, x: Side, sent: seq<Sent>) {
    next.At(x).outbox == sys.At(x).outbox + sent
  }

  ghost predicate TurnTo(h: Hosts, sc: Script, sys: System, next: System, x: Side, emitted: multiset<Packet>,
                         raised: seq<EventParam>)
  {
    && sys.At(x).queue != []
    && next == sys.With(x, next.At(x)).(wire := sys.wire + emitted)
    && next.At(x).queue == sys.At(x).queue[1..] + raised
    && SideFits(h, sc, x, next.At(x))
    && (forall pk <- emitted :: OnWire(sc, pk))
  }

  /** What the winner's turns do, from state to state, to the tally, sending so many packets. */
  predicate WinnerMoves(a: State, b: State, n: Tally, m: Tally, packets: nat) {
    match (a, b)
    case (WAIT_CONN_ACK, WAIT_I_CEA) =>
      n.ackW > 0 && m == n.(ackW := n.ackW - 1, cerW := n.cerW + 1) && packets == 1
    case (WAIT_CONN_ACK_ELECT, WAIT_RETURNS) =>
      n.ackW > 0 && m == n.(ackW := n.ackW - 1, cerW := n.cerW + 1, win := n.win + 1) && packets == 1
    case (WAIT_CONN_ACK, WAIT_CONN_ACK_ELECT) => n.cerL > 0 && m == n.(cerL := n.cerL - 1) && packets == 0
    case (WAIT_I_CEA, WAIT_RETURNS) => n.cerL > 0 && m == n.(cerL := n.cerL - 1, win := n.win + 1) && packets == 0
    case (WAIT_RETURNS, R_OPEN) =>
      n.win > 0 && m == n.(win := n.win - 1, cea := n.cea + 1, goneL := n.goneL + 1) && packets == 2
    case (R_OPEN, R_OPEN) => n.goneW > 0 && m == n.(goneW := n.goneW - 1) && packets == 0
    case _ => false
  }

  predicate LoserMoves(a: State, b: State, n: Tally, m: Tally, packets: nat) {
    match (a, b)
    case (WAIT_CONN_ACK, WAIT_I_CEA) =>
      n.ackL > 0 && m == n.(ackL := n.ackL - 1, cerL := n.cerL + 1) && packets == 1
    case (WAIT_CONN_ACK_ELECT, WAIT_RETURNS) =>
      n.ackL > 0 && m == n.(ackL := n.ackL - 1, cerL := n.cerL + 1) && packets == 1
    case (WAIT_CONN_ACK, WAIT_CONN_ACK_ELECT) => n.cerW > 0 && m == n.(cerW := n.cerW - 1) && packets == 0
    case (WAIT_I_CEA, WAIT_RETURNS) => n.cerW > 0 && m == n.(cerW := n.cerW - 1) && packets == 0
    case (WAIT_I_CEA, I_OPEN) => n.cea > 0 && m == n.(cea := n.cea - 1) && packets == 0
    case (WAIT_RETURNS, I_OPEN) => n.cea > 0 && m == n.(cea := n.cea - 1, goneW := n.goneW + 1) && packets == 1
    case (WAIT_RETURNS, WAIT_I_CEA) =>
      n.goneL > 0 && m == n.(goneL := n.goneL - 1, goneW := n.goneW + 1) && packets == 1
    case (I_OPEN, I_OPEN) =>
      || (n.cerW > 0 && m == n.(cerW := n.cerW - 1, goneW := n.goneW + 1) && packets == 1)
      || (n.goneL > 0 && m == n.(goneL := n.goneL - 1) && packets == 0)
    case (WAIT_I_CEA, WAIT_I_CEA) => n.goneL > 0 && m == n.(goneL := n.goneL - 1) && packets == 0
    case _ => false
  }

  lemma WinnerConnects(l: State, n: Tally)
    ensures Legal(WAIT_CONN_ACK, l, n) ==> n.ackW == 1 && Legal(WAIT_I_CEA, l, n.(ackW := n.ackW - 1, cerW := n.cerW + 1))
    ensures Legal(WAIT_CONN_ACK_ELECT, l, n) ==>
              n.ackW == 1 && Legal(WAIT_RETURNS, l, n.(ackW := n.ackW - 1, cerW := n.cerW + 1, win := n.win + 1))
  {
  }

  lemma WinnerHearsCER(l: State, n: Tally)
    requires n.cerL > 0
    ensures Legal(WAIT_CONN_ACK, l, n) ==> Legal(WAIT_CONN_ACK_ELECT, l, n.(cerL := n.cerL - 1))
    ensures Legal(WAIT_I_CEA, l, n) ==> Legal(WAIT_RETURNS, l, n.(cerL := n.cerL - 1, win := n.win + 1))
  {
  }

  lemma WinnerOpens(l: State, n: Tally)
    ensures Legal(WAIT_RETURNS, l, n) ==>
              n.win == 1 && Legal(R_OPEN, l, n.(win := n.win - 1, cea := n.cea + 1, goneL := n.goneL + 1))
    ensures Legal(R_OPEN, l, n) && n.goneW > 0 ==> Legal(R_OPEN, l, n.(goneW := n.goneW - 1))
  {
  }

  lemma LoserConnects(w: State, n: Tally)
    ensures Legal(w, WAIT_CONN_ACK, n) ==> n.ackL == 1 && Legal(w, WAIT_I_CEA, n.(ackL := n.ackL - 1, cerL := n.cerL + 1))
    ensures Legal(w, WAIT_CONN_ACK_ELECT, n) ==>
              n.ackL == 1 && Legal(w, WAIT_RETURNS, n.(ackL := n.ackL - 1, cerL := n.cerL + 1))
  {
  }

  lemma LoserHearsCER(w: State, n: Tally)
    requires n.cerW > 0
    ensures Legal(w, WAIT_CONN_ACK, n) ==> Legal(w, WAIT_CONN_ACK_ELECT, n.(cerW := n.cerW - 1))
    ensures Legal(w, WAIT_I_CEA, n) ==> Legal(w, WAIT_RETURNS, n.(cerW := n.cerW - 1))
    ensures Legal(w, I_OPEN, n) ==> Legal(w, I_OPEN, n.(cerW := n.cerW - 1, goneW := n.goneW + 1))
  {
  }

  lemma LoserOpens(w: State, n: Tally)
    requires n.cea > 0
    ensures Legal(w, WAIT_I_CEA, n) ==> Legal(w, I_OPEN, n.(cea := n.cea - 1))
    ensures Legal(w, WAIT_RETURNS, n) ==> Legal(w, I_OPEN, n.(cea := n.cea - 1, goneW := n.goneW + 1))
  {
  }

  lemma LoserHearsGone(w: State, n: Tally)
    requires n.goneL > 0
    ensures Legal(w, WAIT_I_CEA, n) ==> Legal(w, WAIT_I_CEA, n.(goneL := n.goneL - 1))
    ensures Legal(w, I_OPEN, n) ==> Legal(w, I_OPEN, n.(goneL := n.goneL - 1))
    ensures Legal(w, WAIT_RETURNS, n) ==> Legal(w, WAIT_I_CEA, n.(goneL := n.goneL - 1, goneW := n.goneW + 1))
  {
  }

  lemma WinnerMoveIsLegal(a: State, b: State, l: State, n: Tally, m: Tally, packets: nat)
    requires Legal(a, l, n) && WinnerMoves(a, b, n, m, packets)
    ensures Legal(b, l, m)
  {
    hide Legal;
    WinnerConnects(l, n);
    if n.cerL > 0 {
      WinnerHearsCER(l, n);
    }
    WinnerOpens(l, n);
  }

  lemma LoserMoveWhileConnecting(w: State, a: State, b: State, n: Tally, m: Tally, packets: nat)
    requires Legal(w, a, n) && LoserMoves(a, b, n, m, packets) && Connecting(a)
    ensures Legal(w, b, m)
  {
    hide Legal;
    if b == WAIT_CONN_ACK_ELECT {
      LoserHearsCER(w, n);
      assert m == n.(cerW := n.cerW - 1);
    } else {
      LoserConnects(w, n);
      assert m == n.(ackL := n.ackL - 1, cerL := n.cerL + 1);
    }
  }

  lemma LoserMoveWhileWaiting(w: State, b: State, n: Tally, m: Tally, packets: nat)
    requires Legal(w, WAIT_I_CEA, n) && LoserMoves(WAIT_I_CEA, b, n, m, packets)
    ensures Legal(w, b, m)
  {
    hide Legal;
    if b == WAIT_RETURNS {
      LoserHearsCER(w, n);
    } else if b == I_OPEN {
      LoserOpens(w, n);
    } else {
      LoserHearsGone(w, n);
    }
  }

  lemma LoserMoveAfterElection(w: State, b: State, n: Tally, m: Tally, packets: nat)
    requires Legal(w, WAIT_RETURNS, n) && LoserMoves(WAIT_RETURNS, b, n, m, packets)
    ensures Legal(w, b, m)
  {
    hide Legal;
    if b == I_OPEN {
      LoserOpens(w, n);
    } else {
      LoserHearsGone(w, n);
    }
  }

  lemma LoserMoveWhileOpen(w: State, b: State, n: Tally, m: Tally, packets: nat)
    requires Legal(w, I_OPEN, n) && LoserMoves(I_OPEN, b, n, m, packets)
    ensures Legal(w, b, m)
  {
    hide Legal;
    if n.cerW > 0 {
      LoserHearsCER(w, n);
    }
    if n.goneL > 0 {
      LoserHearsGone(w, n);
    }
  }

  lemma LoserMoveIsLegal(w: State, a: State, b: State, n: Tally, m: Tally, packets: nat)
    requires Legal(w, a, n) && LoserMoves(a, b, n, m, packets)
    ensures Legal(w, b, m)
  {
    LoserMoveStarts(w, a, n);
    hide Legal, LoserMoves;
    if Connecting(a) {
      LoserMoveWhileConnecting(w, a, b, n, m, packets);
    } else if a == WAIT_I_CEA {
      LoserMoveWhileWaiting(w, b, n, m, packets);
    } else if a == WAIT_RETURNS {
      LoserMoveAfterElection(w, b, n, m, packets);
    } else {
      LoserMoveWhileOpen(w, b, n, m, packets);
    }
  }

  lemma LoserMoveStarts(w: State, a: State, n: Tally)
    requires Legal(w, a, n)
    ensures Connecting(a) || a == WAIT_I_CEA || a == WAIT_RETURNS || a == I_OPEN
  {
  }

  /** Every move brings the end closer, even counting the packets it sends. */
  lemma MovesShortenTheWay(a: State, b: State, o: State, n: Tally, m: Tally, packets: nat)
    ensures WinnerMoves(a, b, n, m, packets) ==> Distance(b, o, m) + packets < Distance(a, o, n)
    ensures LoserMoves(a, b, n, m, packets) ==> Distance(o, b, m) + packets < Distance(o, a, n)
  {
  }

  ghost predicate Advances(h: Hosts, sc: Script, sys: System, next: System) {
    Agree(h, sc, next) && Remaining(sc, next) < Remaining(sc, sys)
  }

  lemma WinnerTurnAdvances(h: Hosts, sc: Script, sys: System, next: System, emitted: multiset<Packet>,
                           raised: seq<EventParam>)
    requires Agree(h, sc, sys) && TurnTo(h, sc, sys, next, sc.winner, emitted, raised)
    requires WinnerMoves(sys.At(sc.winner).state, next.At(sc.winner).state, TallyOf(sc, sys), TallyOf(sc, next), |emitted|)
    ensures Advances(h, sc, sys, next)
  {
    hide TallyOf, Legal, Distance, SideFits, OnWire, WinnerMoves;
    var a, b, l := sys.At(sc.winner).state, next.At(sc.winner).state, sys.At(sc.Loser()).state;
    WinnerMoveIsLegal(a, b, l, TallyOf(sc, sys), TallyOf(sc, next), |emitted|);
    MovesShortenTheWay(a, b, l, TallyOf(sc, sys), TallyOf(sc, next), |emitted|);
    assert forall pk <- next.wire :: pk in sys.wire || pk in emitted;
  }

  lemma LoserTurnAdvances(h: Hosts, sc: Script, sys: System, next: System, emitted: multiset<Packet>)
    requires Agree(h, sc, sys) && TurnTo(h, sc, sys, next, sc.Loser(), emitted, [])
    requires LoserMoves(sys.At(sc.Loser()).state, next.At(sc.Loser()).state, TallyOf(sc, sys), TallyOf(sc, next), |emitted|)
    ensures Advances(h, sc, sys, next)
  {
    hide TallyOf, Legal, Distance, SideFits, OnWire, LoserMoves;
    var a, b, w := sys.At(sc.Loser()).state, next.At(sc.Loser()).state, sys.At(sc.winner).state;
    LoserMoveIsLegal(w, a, b, TallyOf(sc, sys), TallyOf(sc, next), |emitted|);
    MovesShortenTheWay(a, b, w, TallyOf(sc, sys), TallyOf(sc, next), |emitted|);
    assert forall pk <- next.wire :: pk in sys.wire || pk in emitted;
  }

  // ---------------------------------------------------------------- each event's turn

  /** Which events can be at the head of the winner's queue, and in which states. */
  lemma WinnerHead(h: Hosts, sc: Script, sys: System)
    requires sc.Proper() && Agree(h, sc, sys) && sys.At(sc.winner).queue != []
    ensures var e, st, n := sys.At(sc.winner).queue[0], sys.At(sc.winner).state, TallyOf(sc, sys);
            && (e == AckEvent(sc.winner) || e == CerEvent(sc, sc.Loser()) || e == WIN || e == GoneEvent(sc, sc.winner))
            && (e == AckEvent(sc.winner) ==> Connecting(st) && n.ackW > 0)
            && (e == CerEvent(sc, sc.Loser()) ==> (st == WAIT_CONN_ACK || st == WAIT_I_CEA) && n.cerL > 0)
            && (e == WIN ==> st == WAIT_RETURNS && n.win > 0)
            && (e == GoneEvent(sc, sc.winner) ==> st == R_OPEN && n.goneW > 0)
  {
    assert Expected(sc, sc.winner, sys.At(sc.winner).queue[0]);
  }

  lemma LoserHead(h: Hosts, sc: Script, sys: System)
    requires sc.Proper() && Agree(h, sc, sys) && sys.At(sc.Loser()).queue != []
    ensures var e, st, n := sys.At(sc.Loser()).queue[0], sys.At(sc.Loser()).state, TallyOf(sc, sys);
            && (e == AckEvent(sc.Loser()) || e == CerEvent(sc, sc.winner) || e == CeaEvent(sc) ||
                e == GoneEvent(sc, sc.Loser()))
            && (e == AckEvent(sc.Loser()) ==> Connecting(st) && n.ackL > 0)
            && (e == CerEvent(sc, sc.winner) ==> (st == WAIT_CONN_ACK || st == WAIT_I_CEA || st == I_OPEN) && n.cerW > 0)
            && (e == CeaEvent(sc) ==> (st == WAIT_I_CEA || st == WAIT_RETURNS) && n.cea > 0)
            && (e == GoneEvent(sc, sc.Loser()) ==> (st == WAIT_I_CEA || st == WAIT_RETURNS || st == I_OPEN) && n.goneL > 0)
  {
    assert Expected(sc, sc.Loser(), sys.At(sc.Loser()).queue[0]);
  }

  /** A side of two compatible hosts is about to serve this event. */
  ghost predicate Turning(h: Hosts, sc: Script, sys: System, x: Side, e: EventParam) {
    && Compatible(h) && sc == ScriptOf(h) && sc.Proper()
    && Agree(h, sc, sys)
    && sys.At(x).queue != [] && sys.At(x).queue[0] == e
  }

  lemma HostsElect(h: Hosts)
    requires Compatible(h)
    ensures var w := WinnerOf(h);
            var a, b := h.Of(w).local.identity, h.Of(Opposite(w)).local.identity;
            Election.Outcome(a, b) == Election.Win && Election.Outcome(b, a) == Election.Lose
  {
    Election.DistinctNamesElectSomeone(h.left.local.identity, h.right.local.identity);
    Election.DistinctNamesElectSomeone(h.right.local.identity, h.left.local.identity);
  }

  /** What a side learns from the other's CER: its capabilities, which it accepts. */
  lemma CerCarries(h: Hosts, sc: Script, x: Side)
    requires Compatible(h) && sc == ScriptOf(h)
    ensures Carries(h.Of(x), CerEvent(sc, Opposite(x)), CapabilitiesOf(h.Of(Opposite(x)).local, h.Of(Opposite(x)).tls))
  {
    hide Decode, Validate, CeAvps;
    var o := h.Of(Opposite(x));
    RoundTrip(o.local, o.tls, []);
    assert CeAvps(o.local, o.tls) + [] == CeAvps(o.local, o.tls);
    assert Accepts(h.Of(x).local, h.Of(x).tls, o.local, o.tls);
  }

  /** The tally after a winner's turn, from what the served event and the emissions stand for. */
  lemma WinnerTallyAfter(h: Hosts, sc: Script, sys: System, next: System, emitted: multiset<Packet>,
                         raised: seq<EventParam>)
    requires TurnTo(h, sc, sys, next, sc.winner, emitted, raised)
    ensures Balanced(TallyOf(sc, next), TallyOf(sc, sys),
                     Due(sc, multiset{}, [sys.At(sc.winner).queue[0]], []), Due(sc, emitted, raised, []))
  {
    hide Due, SideFits, OnWire;
    WinnerTurnTally(sc, sys.wire, sys.At(sc.winner).queue, sys.At(sc.Loser()).queue, emitted, raised);
  }

  lemma LoserTallyAfter(h: Hosts, sc: Script, sys: System, next: System, emitted: multiset<Packet>)
    requires TurnTo(h, sc, sys, next, sc.Loser(), emitted, [])
    ensures Balanced(TallyOf(sc, next), TallyOf(sc, sys),
                     Due(sc, multiset{}, [], [sys.At(sc.Loser()).queue[0]]), Due(sc, emitted, [], []))
  {
    hide Due, SideFits, OnWire;
    LoserTurnTally(sc, sys.wire, sys.At(sc.winner).queue, sys.At(sc.Loser()).queue, emitted);
    assert next.At(sc.Loser()).queue == sys.At(sc.Loser()).queue[1..];
  }

  /** A side still fits after an event, and its turn is that event. */
  lemma TurnFits(h: Hosts, sc: Script, sys: System, x: Side, q: Peer, sent: seq<Sent>, closed: seq<Io>,
                 raised: seq<EventParam>)
    requires Agree(h, sc, sys) && sys.At(x).queue != [] && q == PeerModel.Serve(h.Of(x), sys.At(x))
    requires Serves(sys.At(x), q, sent, closed, raised)
    requires SlotsFit(q, Conn(x), Conn(Opposite(x)))
    requires q.state == WAIT_CONN_ACK_ELECT || q.state == WAIT_RETURNS ==> q.caps.host == h.Of(Opposite(x)).local.identity
    requires forall e <- raised :: Expected(sc, x, e)
    requires forall io <- closed :: io == Conn(sc.winner)
    requires x == sc.winner && (closed != [] || sys.At(x).state == R_OPEN) ==> q.state == R_OPEN
    requires forall m <- sent :: OnWire(sc, Carried(Opposite(x), m))
    ensures Next(h, sys, Serve(x)).At(x) == q && Says(sys, Next(h, sys, Serve(x)), x, sent)
    ensures TurnTo(h, sc, sys, Next(h, sys, Serve(x)), x, multiset(Emitted(x, sent, closed)), raised)
  {
    hide Due, Legal, React, PeerModel.Serve, Next, Expected, SlotsFit;
    TurnEffect(h, sys, x, q, sent, closed, raised);
    EmissionsOnWire(sc, x, sent, closed);
    assert forall e <- sys.At(x).queue[1..] :: e in sys.At(x).queue;
  }

  lemma EmissionsOnWire(sc: Script, x: Side, sent: seq<Sent>, closed: seq<Io>)
    requires forall io <- closed :: io == Conn(sc.winner)
    requires forall m <- sent :: OnWire(sc, Carried(Opposite(x), m))
    ensures forall pk <- multiset(Emitted(x, sent, closed)) :: OnWire(sc, pk)
  {
    forall pk <- Emitted(x, sent, closed)
      ensures OnWire(sc, pk)
    {
      var i :| 0 <= i < |Emitted(x, sent, closed)| && Emitted(x, sent, closed)[i] == pk;
      if i < |sent| {
        assert pk == Carried(Opposite(x), sent[i]);
      } else {
        assert pk == Gone(Opposite(x), closed[i - |sent|]) && closed[i - |sent|] in closed;
        assert pk == GoneTo(sc, Opposite(x));
      }
    }
  }

  lemma CerSent(h: Hosts, sc: Script, x: Side)
    requires sc == ScriptOf(h)
    ensures sc.Cer(x) == Sent(CER, Some(Conn(x)), CeAvps(h.Of(x).local, h.Of(x).tls), 0)
  {
    hide CeAvps;
  }

  lemma WinnerAckTurn(h: Hosts, sc: Script, sys: System, raised: seq<EventParam>)
    requires Turning(h, sc, sys, sc.winner, AckEvent(sc.winner)) && Connecting(sys.At(sc.winner).state)
    requires raised == if sys.At(sc.winner).state == WAIT_CONN_ACK then [] else [WIN]
    ensures var next := Next(h, sys, Serve(sc.winner));
            && Says(sys, next, sc.winner, [sc.Cer(sc.winner)])
            && TurnTo(h, sc, sys, next, sc.winner, multiset{CerFrom(sc, sc.winner)}, raised)
            && next.At(sc.winner).state ==
                 if sys.At(sc.winner).state == WAIT_CONN_ACK then WAIT_I_CEA else WAIT_RETURNS
  {
    hide Due, Legal, React, PeerModel.Serve, CeAvps, ResultAvps, Election.NoPadOctet, Election.Outcome, Accepts, Next,
         TurnTo, Serves;
    var w := sc.winner;
    WinnerServesAck(h, sc, sys, raised);
    hide Compatible, WinnerOf, ScriptOf;
    EmittedPackets(w, sc.Cer(w), Conn(w));
    TurnFits(h, sc, sys, w, PeerModel.Serve(h.Of(w), sys.At(w)), [sc.Cer(w)], [], raised);
  }

  lemma WinnerServesAck(h: Hosts, sc: Script, sys: System, raised: seq<EventParam>)
    requires Turning(h, sc, sys, sc.winner, AckEvent(sc.winner)) && Connecting(sys.At(sc.winner).state)
    requires raised == if sys.At(sc.winner).state == WAIT_CONN_ACK then [] else [WIN]
    ensures var p := sys.At(sc.winner);
            var q := PeerModel.Serve(h.Of(sc.winner), p);
            && Serves(p, q, [sc.Cer(sc.winner)], [], raised)
            && (if p.state == WAIT_CONN_ACK then q.state == WAIT_I_CEA
                else q.state == WAIT_RETURNS && q.caps.host == h.Of(sc.Loser()).local.identity)
            && SlotsFit(q, Conn(sc.winner), Conn(sc.Loser()))
  {
    hide Due, Legal, React, PeerModel.Serve, CeAvps, ResultAvps, Election.NoPadOctet, Election.Outcome, Accepts, Serves;
    var w := sc.winner;
    HostsElect(h);
    CerSent(h, sc, w);
    WinnerOfScript(h);
    hide Compatible, WinnerOf, ScriptOf;
    ServeAck(h.Of(w), sys.At(w), Conn(w), sc.Cer(w));
  }

  lemma WinnerCerTurn(h: Hosts, sc: Script, sys: System, raised: seq<EventParam>)
    requires Turning(h, sc, sys, sc.winner, CerEvent(sc, sc.Loser()))
    requires sys.At(sc.winner).state == WAIT_CONN_ACK || sys.At(sc.winner).state == WAIT_I_CEA
    requires raised == if sys.At(sc.winner).state == WAIT_CONN_ACK then [] else [WIN]
    ensures var next := Next(h, sys, Serve(sc.winner));
            && Says(sys, next, sc.winner, [])
            && TurnTo(h, sc, sys, next, sc.winner, multiset{}, raised)
            && next.At(sc.winner).state ==
                 if sys.At(sc.winner).state == WAIT_CONN_ACK then WAIT_CONN_ACK_ELECT else WAIT_RETURNS
  {
    hide Due, Legal, React, PeerModel.Serve, CeAvps, ResultAvps, Election.NoPadOctet, Election.Outcome, Accepts, Next,
         TurnTo, Carries, Serves;
    var w := sc.winner;
    HostsElect(h);
    ServesCer(h, sc, sys, w, raised);
    hide Compatible, WinnerOf, ScriptOf;
    EmittedPackets(w, sc.Cer(w), Conn(w));
    TurnFits(h, sc, sys, w, PeerModel.Serve(h.Of(w), sys.At(w)), [], [], raised);
  }

  /** A side that is still connecting or waiting takes the other's CER, and raises the win if it wins. */
  lemma ServesCer(h: Hosts, sc: Script, sys: System, x: Side, raised: seq<EventParam>)
    requires Turning(h, sc, sys, x, CerEvent(sc, Opposite(x)))
    requires sys.At(x).state == WAIT_CONN_ACK || sys.At(x).state == WAIT_I_CEA
    requires Election.Outcome(h.Of(x).local.identity, h.Of(Opposite(x)).local.identity) ==
             if x == sc.winner then Election.Win else Election.Lose
    requires raised == if sys.At(x).state == WAIT_I_CEA && x == sc.winner then [WIN] else []
    ensures var p, q := sys.At(x), PeerModel.Serve(h.Of(x), sys.At(x));
            && Serves(p, q, [], [], raised)
            && q.state == (if p.state == WAIT_CONN_ACK then WAIT_CONN_ACK_ELECT else WAIT_RETURNS)
            && q.caps.host == h.Of(Opposite(x)).local.identity
            && SlotsFit(q, Conn(x), Conn(Opposite(x)))
  {
    hide Due, Legal, React, PeerModel.Serve, CeAvps, ResultAvps, Election.NoPadOctet, Election.Outcome, Accepts, Carries;
    var p, o := sys.At(x), h.Of(Opposite(x));
    CerCarries(h, sc, x);
    hide Compatible, ScriptOf, WinnerOf;
    if p.state == WAIT_CONN_ACK {
      ServeEarlyCER(h.Of(x), p, CerEvent(sc, Opposite(x)), CapabilitiesOf(o.local, o.tls));
    } else {
      ServeElectingCER(h.Of(x), p, CerEvent(sc, Opposite(x)), CapabilitiesOf(o.local, o.tls));
    }
  }

  lemma WinnerWinTurn(h: Hosts, sc: Script, sys: System)
    requires Turning(h, sc, sys, sc.winner, WIN) && sys.At(sc.winner).state == WAIT_RETURNS
    ensures var next := Next(h, sys, Serve(sc.winner));
            && Says(sys, next, sc.winner, [sc.cea])
            && TurnTo(h, sc, sys, next, sc.winner, multiset{CeaPacket(sc), GoneTo(sc, sc.Loser())}, [])
            && next.At(sc.winner).state == R_OPEN
  {
    hide Due, Legal, React, PeerModel.Serve, CeAvps, ResultAvps, Election.NoPadOctet, Election.Outcome, Accepts, Next,
         TurnTo;
    var w := sc.winner;
    ServeWin(h.Of(w), sys.At(w), sc.cea);
    EmittedPackets(w, sc.cea, Conn(w));
    TurnFits(h, sc, sys, w, PeerModel.Serve(h.Of(w), sys.At(w)), [sc.cea], [Conn(w)], []);
  }

  lemma WinnerGoneTurn(h: Hosts, sc: Script, sys: System)
    requires Turning(h, sc, sys, sc.winner, GoneEvent(sc, sc.winner)) && sys.At(sc.winner).state == R_OPEN
    ensures var next := Next(h, sys, Serve(sc.winner));
            && Says(sys, next, sc.winner, [])
            && TurnTo(h, sc, sys, next, sc.winner, multiset{}, []) && next.At(sc.winner).state == R_OPEN
  {
    hide Due, Legal, React, PeerModel.Serve, CeAvps, ResultAvps, Election.NoPadOctet, Election.Outcome, Accepts, Next,
         TurnTo;
    var w := sc.winner;
    ServeGone(h.Of(w), sys.At(w));
    EmittedPackets(w, sc.cea, Conn(w));
    TurnFits(h, sc, sys, w, PeerModel.Serve(h.Of(w), sys.At(w)), [], [], []);
  }

  lemma LoserAckTurn(h: Hosts, sc: Script, sys: System)
    requires Turning(h, sc, sys, sc.Loser(), AckEvent(sc.Loser())) && Connecting(sys.At(sc.Loser()).state)
    ensures var next := Next(h, sys, Serve(sc.Loser()));
            && Says(sys, next, sc.Loser(), [sc.Cer(sc.Loser())])
            && TurnTo(h, sc, sys, next, sc.Loser(), multiset{CerFrom(sc, sc.Loser())}, [])
            && next.At(sc.Loser()).state ==
                 if sys.At(sc.Loser()).state == WAIT_CONN_ACK then WAIT_I_CEA else WAIT_RETURNS
  {
    hide Due, Legal, React, PeerModel.Serve, CeAvps, ResultAvps, Election.NoPadOctet, Election.Outcome, Accepts, Next,
         TurnTo;
    var l := sc.Loser();
    HostsElect(h);
    CerSent(h, sc, l);
    WinnerOfScript(h);
    hide Compatible, WinnerOf, ScriptOf;
    ServeAck(h.Of(l), sys.At(l), Conn(l), sc.Cer(l));
    EmittedPackets(l, sc.Cer(l), Conn(l));
    TurnFits(h, sc, sys, l, PeerModel.Serve(h.Of(l), sys.At(l)), [sc.Cer(l)], [], []);
  }

  lemma LoserCerTurn(h: Hosts, sc: Script, sys: System)
    requires Turning(h, sc, sys, sc.Loser(), CerEvent(sc, sc.winner))
    requires sys.At(sc.Loser()).state == WAIT_CONN_ACK || sys.At(sc.Loser()).state == WAIT_I_CEA
    ensures var next := Next(h, sys, Serve(sc.Loser()));
            && Says(sys, next, sc.Loser(), [])
            && TurnTo(h, sc, sys, next, sc.Loser(), multiset{}, [])
            && next.At(sc.Loser()).state ==
                 if sys.At(sc.Loser()).state == WAIT_CONN_ACK then WAIT_CONN_ACK_ELECT else WAIT_RETURNS
  {
    hide Due, Legal, React, PeerModel.Serve, CeAvps, ResultAvps, Election.NoPadOctet, Election.Outcome, Accepts, Next,
         TurnTo, Carries, Serves;
    var l := sc.Loser();
    HostsElect(h);
    ServesCer(h, sc, sys, l, []);
    hide Compatible, WinnerOf, ScriptOf;
    EmittedPackets(l, sc.Cer(l), Conn(l));
    TurnFits(h, sc, sys, l, PeerModel.Serve(h.Of(l), sys.At(l)), [], [], []);
  }

  lemma LoserLateCerTurn(h: Hosts, sc: Script, sys: System)
    requires Turning(h, sc, sys, sc.Loser(), CerEvent(sc, sc.winner)) && sys.At(sc.Loser()).state == I_OPEN
    ensures var next := Next(h, sys, Serve(sc.Loser()));
            && Says(sys, next, sc.Loser(), [])
            && TurnTo(h, sc, sys, next, sc.Loser(), multiset{GoneTo(sc, sc.winner)}, [])
            && next.At(sc.Loser()).state == I_OPEN
  {
    hide Due, Legal, React, PeerModel.Serve, CeAvps, ResultAvps, Election.NoPadOctet, Election.Outcome, Accepts, Next,
         TurnTo;
    var l := sc.Loser();
    ServeLateCER(h.Of(l), sys.At(l), Conn(sc.winner));
    EmittedPackets(l, sc.Cer(l), Conn(sc.winner));
    TurnFits(h, sc, sys, l, PeerModel.Serve(h.Of(l), sys.At(l)), [], [Conn(sc.winner)], []);
  }

  lemma LoserCeaTurn(h: Hosts, sc: Script, sys: System)
    requires Turning(h, sc, sys, sc.Loser(), CeaEvent(sc))
    requires sys.At(sc.Loser()).state == WAIT_I_CEA || sys.At(sc.Loser()).state == WAIT_RETURNS
    ensures var next := Next(h, sys, Serve(sc.Loser()));
            && Says(sys, next, sc.Loser(), [])
            && TurnTo(h, sc, sys, next, sc.Loser(),
                      if sys.At(sc.Loser()).state == WAIT_I_CEA then multiset{} else multiset{GoneTo(sc, sc.winner)}, [])
            && next.At(sc.Loser()).state == I_OPEN
  {
    hide Due, Legal, React, PeerModel.Serve, CeAvps, ResultAvps, Election.NoPadOctet, Election.Outcome, Accepts, Next,
         TurnTo;
    var l := sc.Loser();
    var p := sys.At(l);
    ServeCEA(h.Of(l), p, sc.cea.acl);
    EmittedPackets(l, sc.Cer(l), Conn(sc.winner));
    TurnFits(h, sc, sys, l, PeerModel.Serve(h.Of(l), p), [], Opt(p.responder), []);
  }

  lemma LoserGoneTurn(h: Hosts, sc: Script, sys: System)
    requires Turning(h, sc, sys, sc.Loser(), GoneEvent(sc, sc.Loser()))
    requires sys.At(sc.Loser()).state in {WAIT_I_CEA, WAIT_RETURNS, I_OPEN}
    ensures var next := Next(h, sys, Serve(sc.Loser()));
            var st := sys.At(sc.Loser()).state;
            && Says(sys, next, sc.Loser(), [])
            && TurnTo(h, sc, sys, next, sc.Loser(),
                      if st == WAIT_RETURNS then multiset{GoneTo(sc, sc.winner)} else multiset{}, [])
            && next.At(sc.Loser()).state == if st == WAIT_RETURNS then WAIT_I_CEA else st
  {
    hide Due, Legal, React, PeerModel.Serve, CeAvps, ResultAvps, Election.NoPadOctet, Election.Outcome, Accepts, Next,
         TurnTo;
    var l := sc.Loser();
    var p := sys.At(l);
    ServeGone(h.Of(l), p);
    EmittedPackets(l, sc.Cer(l), Conn(sc.winner));
    TurnFits(h, sc, sys, l, PeerModel.Serve(h.Of(l), p), [], if p.state == WAIT_RETURNS then [Conn(sc.winner)] else [], []);
  }

  // ---------------------------------------------------------------- every step

  // What the event at the head of a queue makes its side say, put on the wire and raise.

  function WinnerSays(sc: Script, e: EventParam): seq<Sent> {
    if e == AckEvent(sc.winner) then [sc.Cer(sc.winner)] else if e == WIN then [sc.cea] else []
  }

  function WinnerEmits(sc: Script, e: EventParam): multiset<Packet> {
    if e == AckEvent(sc.winner) then multiset{CerFrom(sc, sc.winner)}
    else if e == WIN then multiset{CeaPacket(sc), GoneTo(sc, sc.Loser())} else multiset{}
  }

  function WinnerRaises(sc: Script, e: EventParam, st: State): seq<EventParam> {
    if (e == AckEvent(sc.winner) && st == WAIT_CONN_ACK_ELECT) || (e == CerEvent(sc, sc.Loser()) && st == WAIT_I_CEA)
    then [WIN] else []
  }

  function WinnerGoesTo(sc: Script, e: EventParam, st: State): State {
    if e == AckEvent(sc.winner) then (if st == WAIT_CONN_ACK then WAIT_I_CEA else WAIT_RETURNS)
    else if e == CerEvent(sc, sc.Loser()) then (if st == WAIT_CONN_ACK then WAIT_CONN_ACK_ELECT else WAIT_RETURNS)
    else R_OPEN
  }

  function LoserSays(sc: Script, e: EventParam): seq<Sent> {
    if e == AckEvent(sc.Loser()) then [sc.Cer(sc.Loser())] else []
  }

  function LoserEmits(sc: Script, e: EventParam, st: State): multiset<Packet> {
    if e == AckEvent(sc.Loser()) then multiset{CerFrom(sc, sc.Loser())}
    else if st == WAIT_RETURNS || (e == CerEvent(sc, sc.winner) && st == I_OPEN) then multiset{GoneTo(sc, sc.winner)}
    else multiset{}
  }

  function LoserGoesTo(sc: Script, e: EventParam, st: State): State {
    if e == AckEvent(sc.Loser()) then (if st == WAIT_CONN_ACK then WAIT_I_CEA else WAIT_RETURNS)
    else if e == CerEvent(sc, sc.winner) then
      (if st == I_OPEN then I_OPEN else if st == WAIT_CONN_ACK then WAIT_CONN_ACK_ELECT else WAIT_RETURNS)
    else if e == CeaEvent(sc) then I_OPEN
    else if st == WAIT_RETURNS then WAIT_I_CEA else st
  }

  lemma WinnerTurn(h: Hosts, sc: Script, sys: System)
    requires sys.At(sc.winner).queue != [] && Turning(h, sc, sys, sc.winner, sys.At(sc.winner).queue[0])
    ensures var e, st, next := sys.At(sc.winner).queue[0], sys.At(sc.winner).state, Next(h, sys, Serve(sc.winner));
            && Says(sys, next, sc.winner, WinnerSays(sc, e))
            && TurnTo(h, sc, sys, next, sc.winner, WinnerEmits(sc, e), WinnerRaises(sc, e, st))
            && next.At(sc.winner).state == WinnerGoesTo(sc, e, st)
  {
    hide Due, Legal, Next, SideFits, OnWire, ScriptOf, Compatible, TurnTo, Says;
    var e, st := sys.At(sc.winner).queue[0], sys.At(sc.winner).state;
    WinnerHead(h, sc, sys);
    WinnerEvents(sc);
    if e == AckEvent(sc.winner) {
      WinnerAckTurn(h, sc, sys, WinnerRaises(sc, e, st));
    } else if e == CerEvent(sc, sc.Loser()) {
      WinnerCerTurn(h, sc, sys, WinnerRaises(sc, e, st));
    } else if e == WIN {
      WinnerWinTurn(h, sc, sys);
    } else {
      WinnerGoneTurn(h, sc, sys);
    }
  }

  lemma LoserTurn(h: Hosts, sc: Script, sys: System)
    requires sys.At(sc.Loser()).queue != [] && Turning(h, sc, sys, sc.Loser(), sys.At(sc.Loser()).queue[0])
    ensures var e, st, next := sys.At(sc.Loser()).queue[0], sys.At(sc.Loser()).state, Next(h, sys, Serve(sc.Loser()));
            && Says(sys, next, sc.Loser(), LoserSays(sc, e))
            && TurnTo(h, sc, sys, next, sc.Loser(), LoserEmits(sc, e, st), [])
            && next.At(sc.Loser()).state == LoserGoesTo(sc, e, st)
  {
    hide Due, Legal, Next, SideFits, OnWire, ScriptOf, Compatible, TurnTo, Says;
    var e, st := sys.At(sc.Loser()).queue[0], sys.At(sc.Loser()).state;
    LoserHead(h, sc, sys);
    if e == AckEvent(sc.Loser()) {
      LoserAckTurn(h, sc, sys);
    } else if e == CerEvent(sc, sc.winner) {
      if st == I_OPEN {
        LoserLateCerTurn(h, sc, sys);
      } else {
        LoserCerTurn(h, sc, sys);
      }
    } else if e == CeaEvent(sc) {
      LoserCeaTurn(h, sc, sys);
    } else {
      LoserGoneTurn(h, sc, sys);
    }
  }

  lemma WinnerStep(h: Hosts, sc: Script, sys: System)
    requires sys.At(sc.winner).queue != [] && Turning(h, sc, sys, sc.winner, sys.At(sc.winner).queue[0])
    ensures Advances(h, sc, sys, Next(h, sys, Serve(sc.winner)))
  {
    hide Due, Legal, Advances, Next, SideFits, OnWire, ScriptOf, Compatible, TurnTo, Says;
    var n, next := TallyOf(sc, sys), Next(h, sys, Serve(sc.winner));
    var e, st := sys.At(sc.winner).queue[0], sys.At(sc.winner).state;
    var emitted, raised := WinnerEmits(sc, e), WinnerRaises(sc, e, st);
    WinnerHead(h, sc, sys);
    WinnerEvents(sc);
    Emissions(sc);
    WinnerTurn(h, sc, sys);
    WinnerTallyAfter(h, sc, sys, next, emitted, raised);
    assert WinnerMoves(st, next.At(sc.winner).state, n, TallyOf(sc, next), |emitted|);
    WinnerTurnAdvances(h, sc, sys, next, emitted, raised);
  }

  lemma LoserStep(h: Hosts, sc: Script, sys: System)
    requires sys.At(sc.Loser()).queue != [] && Turning(h, sc, sys, sc.Loser(), sys.At(sc.Loser()).queue[0])
    ensures Advances(h, sc, sys, Next(h, sys, Serve(sc.Loser())))
  {
    hide Due, Legal, Advances, Next, SideFits, OnWire, ScriptOf, Compatible, TurnTo, Says;
    var n, next := TallyOf(sc, sys), Next(h, sys, Serve(sc.Loser()));
    var e, st := sys.At(sc.Loser()).queue[0], sys.At(sc.Loser()).state;
    var emitted := LoserEmits(sc, e, st);
    LoserHead(h, sc, sys);
    LoserEvents(sc);
    Emissions(sc);
    LoserTurn(h, sc, sys);
    LoserTallyAfter(h, sc, sys, next, emitted);
    assert LoserMoves(st, next.At(sc.Loser()).state, n, TallyOf(sc, next), |emitted|);
    LoserTurnAdvances(h, sc, sys, next, emitted);
  }

  lemma StepAdvances(h: Hosts, sc: Script, sys: System, st: Step)
    requires Compatible(h) && sc == ScriptOf(h) && sc.Proper() && Agree(h, sc, sys) && Enabled(sys, st)
    ensures Advances(h, sc, sys, Next(h, sys, st))
  {
    hide Agree, Remaining, Compatible, ScriptOf, Losable, Next;
    match st
    case Deliver(pk) => DeliverStep(h, sc, sys, pk);
    case Lose(pk) => LoseStep(h, sc, sys, pk);
    case Serve(x) =>
      if x == sc.winner {
        WinnerStep(h, sc, sys);
      } else {
        LoserStep(h, sc, sys);
      }
  }

  lemma Started(s: Settings)
    ensures var p := Run(s, NEW_PEER, [StartRequest, Turn]);
            Ready(p) && Slots(p, WAIT_CONN_ACK, None, None) && p.queue == [] && p.closed == []
  {
    var inputs := [StartRequest, Turn];
    assert inputs[..1] == [StartRequest] && inputs[..1][..0] == [];
    var q := Start(NEW_PEER);
    assert Run(s, NEW_PEER, inputs[..1]) == q;
    assert q.queue == [EventParam(START, None, None)];
  }

  lemma BeginAgrees(h: Hosts, sc: Script)
    requires sc.Proper()
    ensures Agree(h, sc, Begin(h)) && Remaining(sc, Begin(h)) == 16
  {
    hide Run;
    Started(h.left);
    Started(h.right);
    assert Due(sc, Begin(h).wire, [], []) == NOTHING.(ackW := 1, ackL := 1);
  }

  lemma ScriptIsProper(h: Hosts)
    ensures ScriptOf(h).Proper()
  {
    hide CeAvps;
  }

  lemma {:induction false} RunAgrees(h: Hosts, steps: seq<Step>)
    requires Compatible(h) && IsRun(h, steps)
    ensures Agree(h, ScriptOf(h), After(h, steps))
    ensures |steps| + Remaining(ScriptOf(h), After(h, steps)) <= 16
  {
    hide Agree, Remaining, Compatible, ScriptOf, Next, Begin, Enabled;
    ScriptIsProper(h);
    if steps == [] {
      BeginAgrees(h, ScriptOf(h));
    } else {
      var front := steps[..|steps| - 1];
      RunAgrees(h, front);
      StepAdvances(h, ScriptOf(h), After(h, front), steps[|steps| - 1]);
    }
  }

  // ---------------------------------------------------------------- main results

  /** In every reachable state an open side is open on the connection the election loser initiated. */
  lemma NeverOpenApart(h: Hosts, steps: seq<Step>, x: Side)
    requires Compatible(h) && IsRun(h, steps)
    ensures var p := After(h, steps).At(x);
            IsOpen(p.state) ==>
              && OpenIo(p) == Some(Conn(Opposite(WinnerOf(h))))
              && p.state == (if x == WinnerOf(h) then R_OPEN else I_OPEN)
  {
    hide Due, Compatible, IsRun, After, CeAvps;
    RunAgrees(h, steps);
  }

  /** Nothing is left to come but news of closed connections. */
  predicate Settled(sys: System) {
    && (forall pk <- sys.wire :: pk.Gone?)
    && (forall x: Side, e :: e in sys.At(x).queue ==> e.event == I_PEER_DISC || e.event == R_PEER_DISC)
  }

  /** Once everything is delivered and served, both sides are open on the loser's connection. */
  lemma SettledMeansOpen(h: Hosts, steps: seq<Step>)
    requires Compatible(h) && IsRun(h, steps) && Settled(After(h, steps))
    ensures var w, l := After(h, steps).At(WinnerOf(h)), After(h, steps).At(Opposite(WinnerOf(h)));
            && Slots(w, R_OPEN, None, Some(Conn(Opposite(WinnerOf(h)))))
            && Slots(l, I_OPEN, Some(Conn(Opposite(WinnerOf(h)))), None)
  {
    hide Compatible, IsRun, After, CeAvps, ScriptOf;
    var sys, sc := After(h, steps), ScriptOf(h);
    RunAgrees(h, steps);
    ScriptIsProper(h);
    SettledTally(sc, sys);
    assert sc.winner == WinnerOf(h) by { WinnerOfScript(h); }
  }

  /**
    The connection to the host with the higher name survives: it is open as the one that accepted, the other host as
    the one that initiated, and once everything is delivered and served both are open.
   */
  lemma HigherNameAccepts(h: Hosts, steps: seq<Step>, x: Side, i: nat)
    requires Compatible(h) && IsRun(h, steps)
    requires Election.HigherAt(h.Of(x).local.identity, h.Of(Opposite(x)).local.identity, i)
    ensures var p, q := After(h, steps).At(x), After(h, steps).At(Opposite(x));
            && (p.state in {I_OPEN, R_OPEN} ==> p.state == R_OPEN && p.responder == Some(Conn(Opposite(x))))
            && (q.state in {I_OPEN, R_OPEN} ==> q.state == I_OPEN && q.initiator == Some(Conn(Opposite(x))))
            && (Settled(After(h, steps)) ==> p.state == R_OPEN && q.state == I_OPEN)
  {
    assert WinnerOf(h) == x by {
      Election.HigherNameWins(h.Of(x).local.identity, h.Of(Opposite(x)).local.identity);
      Election.ExactlyOneWinner(h.Of(x).local.identity, h.Of(Opposite(x)).local.identity);
    }
    NeverOpenApart(h, steps, x);
    NeverOpenApart(h, steps, Opposite(x));
    hide Compatible, IsRun, After, CeAvps, Settled, WinnerOf;
    if Settled(After(h, steps)) {
      SettledMeansOpen(h, steps);
    }
  }

  lemma WinnerOfScript(h: Hosts)
    ensures ScriptOf(h).winner == WinnerOf(h)
  {
    hide CeAvps;
  }

  lemma SettledTally(sc: Script, sys: System)
    requires sc.Proper() && Settled(sys)
    ensures var n := TallyOf(sc, sys); n == NOTHING.(goneW := n.goneW, goneL := n.goneL)
  {
    assert AckTo(sc.winner) !in sys.wire && AckTo(sc.Loser()) !in sys.wire && CeaPacket(sc) !in sys.wire;
    assert CerFrom(sc, sc.winner) !in sys.wire && CerFrom(sc, sc.Loser()) !in sys.wire;
  }

  /** No interleaving goes on for more than 16 steps, so every run settles. */
  lemma RunsAreShort(h: Hosts, steps: seq<Step>)
    requires Compatible(h) && IsRun(h, steps)
    ensures |steps| <= 16
  {
    hide Compatible, IsRun, After, CeAvps, ScriptOf, Agree;
    RunAgrees(h, steps);
    RemainingIsNatural(ScriptOf(h), After(h, steps));
  }

  lemma RemainingIsNatural(sc: Script, sys: System)
    ensures Remaining(sc, sys) >= 0
  {
    hide Due;
  }
}
