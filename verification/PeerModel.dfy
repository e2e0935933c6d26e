/**
  What one peer state machine does with its events: the effect of every action of the peer table on the
  connection slots, timers, capabilities, event queue and sent messages.

  A connection is a token. At any time it sits in the initiator slot, the responder slot, the event being
  served, a queued event, or among the closed ones.
 */
module PeerModel {
  import opened Basics
  import opened AvpContainers
  import opened Capabilities
  import opened Timers
  import opened PeerTable
  import Election

  datatype Io = Io(id: nat)

  datatype DisconnectCause = REBOOTING | BUSY | DONTWANTTOTALK

  /** A received message, as far as the machine looks at it; resultCode 0 means none is present. */
  datatype Msg = Msg(acl: seq<Avp>, resultCode: nat)

  datatype EventParam = EventParam(event: Event, msg: Option<Msg>, io: Option<Io>)

  /** The messages of the machine itself, and whatever it is asked to send. */
  datatype MsgKind = CER | CEA | DWR | DWA | DPR | DPA | ONBEHALF

  datatype Sent = Sent(kind: MsgKind, io: Option<Io>, acl: seq<Avp>, resultCode: nat)

  datatype Settings = Settings(local: LocalConfig, tls: bool, watchdogTimeout: int,
                               reconnectMax: nat, reconnectInterval: nat)

  datatype Peer = Peer(
    running: bool,
    state: State,
    initiator: Option<Io>,
    responder: Option<Io>,
    held: Option<Io>,                 // the connection still owned by the event being served
    timers: map<int, Timer<Event>>,
    caps: PeerCapabilities,
    queue: seq<EventParam>,
    closed: seq<Io>,
    outbox: seq<Sent>,
    sentAt: seq<nat>,                 // per sent message, how many connections had been closed before it
    attempts: nat,                    // reconnect attempts so far
    connects: nat,                    // connection attempts asked of the transport
    cause: DisconnectCause)

  // Timer types are the event codes; CONNECT_TIMEOUT is also cancelled as if it were a type.
  const TIMEOUT_TIMER: int := 2
  const RETRY_TIMER: int := 3
  const WATCHDOG_TIMER: int := 26
  const CONNECT_TIMEOUT: int := 30

  /** The peer as its constructor leaves it: started, closed, nothing armed. */
  const NEW_PEER: Peer :=
    Peer(true, CLOSED, None, None, None, map[], NO_CAPABILITIES, [], [], [], [], 0, 0, DONTWANTTOTALK)

  predicate CarriesMessage(ev: Event) {
    ev in {R_CONN_CER, R_RCV_CEA, I_RCV_CEA, R_RCV_MESSAGE, I_RCV_MESSAGE, R_RCV_DWR, I_RCV_DWR, R_RCV_DWA, I_RCV_DWA,
           R_RCV_DPR, I_RCV_DPR, R_RCV_CER, I_RCV_CER, R_RCV_DPA, I_RCV_DPA}
  }

  predicate CarriesConnection(ev: Event) {
    ev == R_CONN_CER || ev == I_RCV_CONN_ACK
  }

  /** Every producer attaches exactly what the event's actions read. */
  predicate WellFormed(e: EventParam) {
    (e.msg.Some? <==> CarriesMessage(e.event)) && (e.io.Some? <==> CarriesConnection(e.event))
  }

  predicate IsSuccess(resultCode: nat) {
    2000 <= resultCode < 3000
  }

  function Opt(io: Option<Io>): seq<Io> {
    if io.Some? then [io.value] else []
  }

  // ---------------------------------------------------------------- building blocks

  function Arm(p: Peer, timerType: int, ev: Event, sec: int): Peer {
    p.(timers := p.timers[timerType := Timer(ev, sec)])
  }

  function Disarm(p: Peer, timerType: int): Peer {
    p.(timers := p.timers - {timerType})
  }

  /** The four types Cleanup cancels. */
  function DisarmAll(p: Peer): Peer {
    p.(timers := p.timers - {RETRY_TIMER, TIMEOUT_TIMER, WATCHDOG_TIMER, CONNECT_TIMEOUT})
  }

  lemma DisarmEach(p: Peer)
    ensures Disarm(Disarm(Disarm(Disarm(p, RETRY_TIMER), TIMEOUT_TIMER), WATCHDOG_TIMER), CONNECT_TIMEOUT) == DisarmAll(p)
  {
    assert p.timers - {RETRY_TIMER} - {TIMEOUT_TIMER} - {WATCHDOG_TIMER} - {CONNECT_TIMEOUT} ==
           p.timers - {RETRY_TIMER, TIMEOUT_TIMER, WATCHDOG_TIMER, CONNECT_TIMEOUT};
  }

  function CloseInitiator(p: Peer): Peer {
    p.(initiator := None, closed := p.closed + Opt(p.initiator))
  }

  function CloseResponder(p: Peer): Peer {
    p.(responder := None, closed := p.closed + Opt(p.responder))
  }

  function CloseHeld(p: Peer): Peer {
    p.(held := None, closed := p.closed + Opt(p.held))
  }

  /** The event's connection moves into a slot; what the slot held is destroyed. */
  function TakeInitiator(p: Peer): Peer {
    p.(initiator := p.held, held := None, closed := p.closed + Opt(p.initiator))
  }

  function TakeResponder(p: Peer): Peer {
    p.(responder := p.held, held := None, closed := p.closed + Opt(p.responder))
  }

  function CloseConnections(p: Peer, keepInitiator: bool): Peer {
    CloseHeld(if keepInitiator then CloseResponder(p) else CloseInitiator(CloseResponder(p)))
  }

  function Cleanup(p: Peer, keepInitiator: bool): Peer {
    CloseConnections(DisarmAll(p), keepInitiator).(caps := NO_CAPABILITIES, state := CLOSED, running := true)
  }

  function DoReConnect(s: Settings, p: Peer): Peer {
    if p.attempts < s.reconnectMax then
      if s.reconnectInterval > 0 then
        Arm(p.(attempts := p.attempts + 1), RETRY_TIMER, CONN_RETRY, s.reconnectInterval)
      else p
    else p.(attempts := 0)
  }

  function StartWatchdog(s: Settings, p: Peer): Peer {
    Arm(Disarm(p, TIMEOUT_TIMER), WATCHDOG_TIMER, WATCHDOG, s.watchdogTimeout)
  }

  function StartTimeout(p: Peer): Peer {
    Arm(p, TIMEOUT_TIMER, TIMEOUT, CONNECT_TIMEOUT)
  }

  function Post(p: Peer, kind: MsgKind, io: Option<Io>, acl: seq<Avp>, resultCode: nat): Peer {
    p.(outbox := p.outbox + [Sent(kind, io, acl, resultCode)], sentAt := p.sentAt + [|p.closed|])
  }

  /** What a CEA carries after the capabilities; the text of the error message is not modelled. */
  function ResultAvps(rcode: nat): seq<Avp> {
    [Avp(ResultCode, [U32(rcode)])] + if IsSuccess(rcode) then [] else [Avp(ErrorMessage, [Octets([])])]
  }

  function SendCER(s: Settings, p: Peer): Peer {
    Post(p, CER, p.initiator, CeAvps(s.local, s.tls), 0)
  }

  /** The connection an answer goes out on is picked by the state already entered. */
  function OpenIo(p: Peer): Option<Io> {
    if p.state == I_OPEN then p.initiator else p.responder
  }

  function SendCEA(s: Settings, p: Peer, rcode: nat): Peer {
    Post(p, CEA, OpenIo(p), CeAvps(s.local, s.tls) + ResultAvps(rcode), rcode)
  }

  predicate IsOpen(st: State) {
    st == I_OPEN || st == R_OPEN
  }

  /** A message sent on behalf of others goes out at once on the open connection, or is discarded. */
  function Send(p: Peer, acl: seq<Avp>): Peer {
    if p.running && IsOpen(p.state) then Post(p, ONBEHALF, OpenIo(p), acl, 0) else p
  }

  function Notify(p: Peer, e: EventParam): Peer {
    if p.running then p.(queue := p.queue + [e]) else p.(closed := p.closed + Opt(e.io))
  }

  function Start(p: Peer): Peer {
    var q := Notify(p, EventParam(START, None, None));
    q.(connects := q.connects + 1)
  }

  /** The election: a win is queued as an event, the same host name gives the attempt up. */
  ghost function Elect(s: Settings, p: Peer): Peer {
    match Election.Outcome(s.local.identity, p.caps.host)
    case SameHost => Cleanup(p, false)
    case Win => Notify(p, EventParam(WIN_ELECTION, None, None))
    case Lose => p
  }

  function AclOf(e: EventParam): seq<Avp> {
    if e.msg.Some? then e.msg.value.acl else []
  }

  function ResultOf(e: EventParam): nat {
    if e.msg.Some? then e.msg.value.resultCode else 0
  }

  function Learn(p: Peer, e: EventParam): Peer {
    p.(caps := Decode(AclOf(e)))
  }

  function Verdict(s: Settings, p: Peer): nat {
    Validate(s.local, s.tls, p.caps)
  }

  // ---------------------------------------------------------------- the actions

  /** The end of an accepted or refused connection attempt. */
  function Admit(s: Settings, p: Peer, rcode: nat): Peer {
    if rcode != AAA_SUCCESS then Cleanup(p, false) else Disarm(StartWatchdog(s, p), RETRY_TIMER)
  }

  function AcceptSendCEA(s: Settings, p: Peer, e: EventParam): Peer {
    var q := Learn(TakeResponder(p), e);
    var rcode := Verdict(s, q);
    Admit(s, SendCEA(s, q, rcode), rcode)
  }

  function KeepIfValid(p: Peer, rcode: nat): Peer {
    if rcode != AAA_SUCCESS then Cleanup(p, false) else p
  }

  function Accept(s: Settings, p: Peer, e: EventParam): Peer {
    var q := Learn(TakeResponder(p), e);
    KeepIfValid(q, Verdict(s, q))
  }

  /** On a rejected peer this resets to CLOSED and keeps the initiator. */
  ghost function ElectIfValid(s: Settings, p: Peer, rcode: nat): Peer {
    if rcode != AAA_SUCCESS then Cleanup(p, true) else Elect(s, p)
  }

  ghost function AcceptElect(s: Settings, p: Peer, e: EventParam): Peer {
    var q := Learn(TakeResponder(p), e);
    ElectIfValid(s, q, Verdict(s, q))
  }

  function OnCEA(s: Settings, p: Peer, e: EventParam): Peer {
    if IsSuccess(ResultOf(e)) then StartWatchdog(s, Disarm(Learn(p, e), RETRY_TIMER)) else Cleanup(p, false)
  }

  /** In the original the slot is overwritten even by an event without a connection; the slot is kept here. */
  function KeepOrTakeResponder(p: Peer): Peer {
    if p.held.Some? then TakeResponder(p) else p
  }

  function Renegotiate(s: Settings, p: Peer, e: EventParam): Peer {
    var q := Learn(p, e);
    SendCEA(s, q, Verdict(s, q))
  }

  function DisconnectInitiatorOpen(s: Settings, p: Peer, e: EventParam): Peer {
    if IsSuccess(ResultOf(e)) then CloseResponder(StartWatchdog(s, Learn(p, e))) else Cleanup(p, false)
  }

  function Leave(p: Peer, io: Option<Io>): Peer {
    Post(StartTimeout(Disarm(p, WATCHDOG_TIMER)), DPR, io, [], 0)
  }

  function OnDPA(s: Settings, p: Peer): Peer {
    var q := Cleanup(p, false);
    if p.cause == REBOOTING then DoReConnect(s, q) else q
  }

  ghost function Apply(s: Settings, p: Peer, ac: Action, e: EventParam): Peer {
    match ac
    case ISendConnReq => StartTimeout(p)
    case RAcceptSendCEA => AcceptSendCEA(s, p, e)
    case ISendCER => SendCER(s, TakeInitiator(p))
    case ConnNack => DoReConnect(s, Cleanup(p, false))
    case DoCleanup => Cleanup(p, false)
    case Retry => Start(Disarm(p, RETRY_TIMER))
    case RAccept => Accept(s, p, e)
    case ReportError => Cleanup(p, false)
    case ProcessCEA => OnCEA(s, p, e)
    case RAcceptElect => AcceptElect(s, p, e)
    case DoDisconnect => DoReConnect(s, Cleanup(p, false))
    case DisconnectDPA => OnDPA(s, p)
    case ISendCERElect => Elect(s, SendCER(s, TakeInitiator(p)))
    case RSendCEA => StartWatchdog(s, SendCEA(s, KeepOrTakeResponder(p), AAA_SUCCESS))
    case RSendCEAOpen => Renegotiate(s, p, e)
    case RDisconnectResp => CloseResponder(p)
    case RDisconnectIOpen => DisconnectInitiatorOpen(s, p, e)
    case RReject => CloseHeld(p)
    case IDisconnectSendCEA => StartWatchdog(s, SendCEA(s, CloseInitiator(p), AAA_SUCCESS))
    case RSendMessage => p     // asynchronous sending is compiled out
    case ISendMessage => p
    case Process => p          // hands the message to the router
    case ProcessDWRSendDWA => Post(p, DWA, OpenIo(p), [], AAA_SUCCESS)
    case ProcessDWA => if IsSuccess(ResultOf(e)) then p else Cleanup(p, false)
    case ISendDPR => Leave(p, p.initiator)
    case RSendDPR => Leave(p, p.responder)
    case ISendDPADisconnect => Cleanup(Post(p, DPA, p.initiator, [], AAA_SUCCESS), false)
    case RSendDPADisconnect => Cleanup(Post(p, DPA, p.responder, [], AAA_SUCCESS), false)
    case ISendCEA => Renegotiate(s, p, e)
    case SendWatchdog => Post(p, DWR, OpenIo(p), [], 0)
  }

  /** The state changes first, then the action runs and may reset it. */
  ghost function React(s: Settings, p: Peer, e: EventParam): Peer {
    if !p.running then p
    else
      match Transition(p.state, e.event)
      case None => p
      case Some((next, ac)) =>
        var q := p.(state := next);
        if ac.Some? then Apply(s, q, ac.value, e) else q
  }

  /** One event from the queue; whatever connection it still owns afterwards is destroyed with it. */
  ghost function Serve(s: Settings, p: Peer): Peer
    requires p.queue != []
  {
    CloseHeld(React(s, p.(queue := p.queue[1..], held := p.queue[0].io), p.queue[0]))
  }

  // ---------------------------------------------------------------- classifying received messages

  datatype Command = CapabilitiesExchange | DeviceWatchdog | DisconnectPeer | Other

  function InitiatorEvent(command: Command, request: bool): Event
    requires command != Other
  {
    match command
    case CapabilitiesExchange => if request then I_RCV_CER else I_RCV_CEA
    case DeviceWatchdog => if request then I_RCV_DWR else I_RCV_DWA
    case DisconnectPeer => if request then I_RCV_DPR else I_RCV_DPA
  }

  function ResponderEvent(command: Command, request: bool): Event
    requires command != Other
  {
    match command
    case CapabilitiesExchange => if request then R_RCV_CER else R_RCV_CEA
    case DeviceWatchdog => if request then R_RCV_DWR else R_RCV_DWA
    case DisconnectPeer => if request then R_RCV_DPR else R_RCV_DPA
  }

  /** The event a received message becomes, if any, given the state it arrives in. */
  function Classify(p: Peer, command: Command, request: bool, idsAccepted: bool, msg: Msg): (r: Option<EventParam>)
    ensures r.Some? ==> WellFormed(r.value)
  {
    if p.state == WAIT_I_CEA && (command != CapabilitiesExchange || request) then
      Some(EventParam(I_RCV_NON_CEA, None, None))
    else if command == Other then
      if p.state == I_OPEN then Some(EventParam(I_RCV_MESSAGE, Some(msg), None))
      else if p.state == R_OPEN then Some(EventParam(R_RCV_MESSAGE, Some(msg), None))
      else None
    else if !idsAccepted && !request then None
    else
      match p.state
      case I_OPEN => Some(EventParam(InitiatorEvent(command, request), Some(msg), None))
      case R_OPEN => Some(EventParam(ResponderEvent(command, request), Some(msg), None))
      case CLOSING =>
        Some(EventParam(if p.initiator.Some? then InitiatorEvent(command, request) else ResponderEvent(command, request),
                        Some(msg), None))
      case WAIT_RETURNS | WAIT_I_CEA =>
        if command == CapabilitiesExchange && !request then Some(EventParam(I_RCV_CEA, Some(msg), None)) else None
      case _ => None
  }
}
