/**
  The peer state table of RFC 3588 section 5.6, row by row as `DiameterPeerStateTable` adds it, and the
  transition function it amounts to.
 */
module PeerTable {
  import opened Basics
  import opened StateTables
  import opened TableFunctions

  datatype State = CLOSED | WAIT_CONN_ACK | WAIT_I_CEA | WAIT_CONN_ACK_ELECT | WAIT_RETURNS | I_OPEN | R_OPEN | CLOSING

  datatype Event =
    | START | STOP | TIMEOUT | CONN_RETRY | R_CONN_CER | I_RCV_CONN_ACK | I_RCV_CONN_NACK
    | R_RCV_CEA | I_RCV_CEA | I_PEER_DISC | R_PEER_DISC | I_RCV_NON_CEA | WIN_ELECTION
    | SEND_MESSAGE | R_RCV_MESSAGE | I_RCV_MESSAGE
    | R_RCV_DWR | I_RCV_DWR | R_RCV_DWA | I_RCV_DWA | R_RCV_DPR | I_RCV_DPR
    | R_RCV_CER | I_RCV_CER | R_RCV_DPA | I_RCV_DPA | WATCHDOG

  datatype Action =
    | ISendConnReq | RAcceptSendCEA | ISendCER | ConnNack | DoCleanup | Retry | RAccept | ReportError
    | ProcessCEA | RAcceptElect | DoDisconnect | DisconnectDPA | ISendCERElect | RSendCEA | RSendCEAOpen
    | RDisconnectResp | RDisconnectIOpen | RReject | IDisconnectSendCEA | RSendMessage | Process
    | ProcessDWRSendDWA | ProcessDWA | ISendDPR | RSendDPR | ISendDPADisconnect | RSendDPADisconnect
    | ISendMessage | ISendCEA | SendWatchdog

  type PeerRow = Row<State, Event, Action>

  type PeerArms = Arms<State, Event, Action>

  // The rows of each state, in the order of the constructor.

  function ClosedArms(): PeerArms {
    On(START, WAIT_CONN_ACK, Some(ISendConnReq),
    On(R_CONN_CER, R_OPEN, Some(RAcceptSendCEA),
    On(CONN_RETRY, CLOSED, Some(Retry),
    Otherwise(CLOSED, Some(DoCleanup)))))
  }

  function WaitConnAckArms(): PeerArms {
    On(I_RCV_CONN_ACK, WAIT_I_CEA, Some(ISendCER),
    On(I_RCV_CONN_NACK, CLOSED, Some(ConnNack),
    On(R_CONN_CER, WAIT_CONN_ACK_ELECT, Some(RAccept),
    On(TIMEOUT, CLOSED, Some(ReportError),
    On(STOP, CLOSED, Some(ReportError),
    NoOther)))))
  }

  function WaitICeaArms(): PeerArms {
    On(I_RCV_CEA, I_OPEN, Some(ProcessCEA),
    On(R_CONN_CER, WAIT_RETURNS, Some(RAcceptElect),
    On(I_PEER_DISC, CLOSED, Some(DoDisconnect),
    On(I_RCV_NON_CEA, CLOSED, Some(ReportError),
    On(TIMEOUT, CLOSED, Some(ReportError),
    On(STOP, CLOSED, Some(ReportError),
    NoOther))))))
  }

  function WaitConnAckElectArms(): PeerArms {
    On(I_RCV_CONN_ACK, WAIT_RETURNS, Some(ISendCERElect),
    On(I_RCV_CONN_NACK, R_OPEN, Some(RSendCEA),
    On(R_PEER_DISC, WAIT_CONN_ACK, Some(RDisconnectResp),
    On(R_CONN_CER, WAIT_CONN_ACK_ELECT, Some(RReject),
    On(TIMEOUT, CLOSED, Some(ReportError),
    NoOther)))))
  }

  function WaitReturnsArms(): PeerArms {
    On(WIN_ELECTION, R_OPEN, Some(IDisconnectSendCEA),
    On(I_PEER_DISC, R_OPEN, Some(IDisconnectSendCEA),
    On(I_RCV_CEA, I_OPEN, Some(RDisconnectIOpen),
    On(R_PEER_DISC, WAIT_I_CEA, Some(RDisconnectResp),
    On(R_CONN_CER, WAIT_RETURNS, Some(RReject),
    On(TIMEOUT, CLOSED, Some(ReportError),
    NoOther))))))
  }

  function ROpenArms(): PeerArms {
    On(SEND_MESSAGE, R_OPEN, Some(RSendMessage),
    On(R_RCV_MESSAGE, R_OPEN, Some(Process),
    On(R_RCV_DWR, R_OPEN, Some(ProcessDWRSendDWA),
    On(R_RCV_DWA, R_OPEN, Some(ProcessDWA),
    On(R_CONN_CER, R_OPEN, Some(RReject),
    On(STOP, CLOSING, Some(RSendDPR),
    On(R_RCV_DPR, CLOSED, Some(RSendDPADisconnect),
    On(R_PEER_DISC, CLOSED, Some(DoDisconnect),
    On(R_RCV_CER, R_OPEN, Some(RSendCEAOpen),
    On(R_RCV_CEA, R_OPEN, Some(ProcessCEA),
    On(WATCHDOG, R_OPEN, Some(SendWatchdog),
    NoOther)))))))))))
  }

  function IOpenArms(): PeerArms {
    On(SEND_MESSAGE, I_OPEN, Some(ISendMessage),
    On(I_RCV_MESSAGE, I_OPEN, Some(Process),
    On(I_RCV_DWR, I_OPEN, Some(ProcessDWRSendDWA),
    On(I_RCV_DWA, I_OPEN, Some(ProcessDWA),
    On(R_CONN_CER, I_OPEN, Some(RReject),
    On(STOP, CLOSING, Some(ISendDPR),
    On(I_RCV_DPR, CLOSED, Some(ISendDPADisconnect),
    On(I_PEER_DISC, CLOSED, Some(DoDisconnect),
    On(I_RCV_CER, I_OPEN, Some(ISendCEA),
    On(I_RCV_CEA, I_OPEN, Some(ProcessCEA),
    On(WATCHDOG, I_OPEN, Some(SendWatchdog),
    NoOther)))))))))))
  }

  function ClosingArms(): PeerArms {
    On(I_RCV_DPA, CLOSED, Some(DisconnectDPA),
    On(R_RCV_DPA, CLOSED, Some(DisconnectDPA),
    On(TIMEOUT, CLOSED, Some(ReportError),
    On(I_PEER_DISC, CLOSED, Some(DoDisconnect),
    On(R_PEER_DISC, CLOSED, Some(DoDisconnect),
    Otherwise(CLOSING, None))))))
  }

  /** The table in the order of the constructor. */
  function Table(): Blocks<State, Event, Action> {
    Block(CLOSED, ClosedArms(),
    Block(WAIT_CONN_ACK, WaitConnAckArms(),
    Block(WAIT_I_CEA, WaitICeaArms(),
    Block(WAIT_CONN_ACK_ELECT, WaitConnAckElectArms(),
    Block(WAIT_RETURNS, WaitReturnsArms(),
    Block(R_OPEN, ROpenArms(),
    Block(I_OPEN, IOpenArms(),
    Block(CLOSING, ClosingArms(),
    Done))))))))
  }

  function Rows(): seq<PeerRow> {
    BlockRows(Table())
  }

  // ---------------------------------------------------------------- the table as a function

  type PeerMove = Move<State, Action>

  function FromClosed(ev: Event): PeerMove {
    match ev
    case START => Some((WAIT_CONN_ACK, Some(ISendConnReq)))
    case R_CONN_CER => Some((R_OPEN, Some(RAcceptSendCEA)))
    case CONN_RETRY => Some((CLOSED, Some(Retry)))
    case _ => Some((CLOSED, Some(DoCleanup)))
  }

  function FromWaitConnAck(ev: Event): PeerMove {
    match ev
    case I_RCV_CONN_ACK => Some((WAIT_I_CEA, Some(ISendCER)))
    case I_RCV_CONN_NACK => Some((CLOSED, Some(ConnNack)))
    case R_CONN_CER => Some((WAIT_CONN_ACK_ELECT, Some(RAccept)))
    case TIMEOUT => Some((CLOSED, Some(ReportError)))
    case STOP => Some((CLOSED, Some(ReportError)))
    case _ => None
  }

  function FromWaitICea(ev: Event): PeerMove {
    match ev
    case I_RCV_CEA => Some((I_OPEN, Some(ProcessCEA)))
    case R_CONN_CER => Some((WAIT_RETURNS, Some(RAcceptElect)))
    case I_PEER_DISC => Some((CLOSED, Some(DoDisconnect)))
    case I_RCV_NON_CEA => Some((CLOSED, Some(ReportError)))
    case TIMEOUT => Some((CLOSED, Some(ReportError)))
    case STOP => Some((CLOSED, Some(ReportError)))
    case _ => None
  }

  function FromWaitConnAckElect(ev: Event): PeerMove {
    match ev
    case I_RCV_CONN_ACK => Some((WAIT_RETURNS, Some(ISendCERElect)))
    case I_RCV_CONN_NACK => Some((R_OPEN, Some(RSendCEA)))
    case R_PEER_DISC => Some((WAIT_CONN_ACK, Some(RDisconnectResp)))
    case R_CONN_CER => Some((WAIT_CONN_ACK_ELECT, Some(RReject)))
    case TIMEOUT => Some((CLOSED, Some(ReportError)))
    case _ => None
  }

  function FromWaitReturns(ev: Event): PeerMove {
    match ev
    case WIN_ELECTION => Some((R_OPEN, Some(IDisconnectSendCEA)))
    case I_PEER_DISC => Some((R_OPEN, Some(IDisconnectSendCEA)))
    case I_RCV_CEA => Some((I_OPEN, Some(RDisconnectIOpen)))
    case R_PEER_DISC => Some((WAIT_I_CEA, Some(RDisconnectResp)))
    case R_CONN_CER => Some((WAIT_RETURNS, Some(RReject)))
    case TIMEOUT => Some((CLOSED, Some(ReportError)))
    case _ => None
  }

  function FromROpen(ev: Event): PeerMove {
    match ev
    case SEND_MESSAGE => Some((R_OPEN, Some(RSendMessage)))
    case R_RCV_MESSAGE => Some((R_OPEN, Some(Process)))
    case R_RCV_DWR => Some((R_OPEN, Some(ProcessDWRSendDWA)))
    case R_RCV_DWA => Some((R_OPEN, Some(ProcessDWA)))
    case R_CONN_CER => Some((R_OPEN, Some(RReject)))
    case STOP => Some((CLOSING, Some(RSendDPR)))
    case R_RCV_DPR => Some((CLOSED, Some(RSendDPADisconnect)))
    case R_PEER_DISC => Some((CLOSED, Some(DoDisconnect)))
    case R_RCV_CER => Some((R_OPEN, Some(RSendCEAOpen)))
    case R_RCV_CEA => Some((R_OPEN, Some(ProcessCEA)))
    case WATCHDOG => Some((R_OPEN, Some(SendWatchdog)))
    case _ => None
  }

  function FromIOpen(ev: Event): PeerMove {
    match ev
    case SEND_MESSAGE => Some((I_OPEN, Some(ISendMessage)))
    case I_RCV_MESSAGE => Some((I_OPEN, Some(Process)))
    case I_RCV_DWR => Some((I_OPEN, Some(ProcessDWRSendDWA)))
    case I_RCV_DWA => Some((I_OPEN, Some(ProcessDWA)))
    case R_CONN_CER => Some((I_OPEN, Some(RReject)))
    case STOP => Some((CLOSING, Some(ISendDPR)))
    case I_RCV_DPR => Some((CLOSED, Some(ISendDPADisconnect)))
    case I_PEER_DISC => Some((CLOSED, Some(DoDisconnect)))
    case I_RCV_CER => Some((I_OPEN, Some(ISendCEA)))
    case I_RCV_CEA => Some((I_OPEN, Some(ProcessCEA)))
    case WATCHDOG => Some((I_OPEN, Some(SendWatchdog)))
    case _ => None
  }

  function FromClosing(ev: Event): PeerMove {
    match ev
    case I_RCV_DPA => Some((CLOSED, Some(DisconnectDPA)))
    case R_RCV_DPA => Some((CLOSED, Some(DisconnectDPA)))
    case TIMEOUT => Some((CLOSED, Some(ReportError)))
    case I_PEER_DISC => Some((CLOSED, Some(DoDisconnect)))
    case R_PEER_DISC => Some((CLOSED, Some(DoDisconnect)))
    case _ => Some((CLOSING, None))
  }

  /** Where an event leads from a state and what it does; None where the machine ignores it. */
  function Transition(st: State, ev: Event): PeerMove {
    match st
    case CLOSED => FromClosed(ev)
    case WAIT_CONN_ACK => FromWaitConnAck(ev)
    case WAIT_I_CEA => FromWaitICea(ev)
    case WAIT_CONN_ACK_ELECT => FromWaitConnAckElect(ev)
    case WAIT_RETURNS => FromWaitReturns(ev)
    case R_OPEN => FromROpen(ev)
    case I_OPEN => FromIOpen(ev)
    case CLOSING => FromClosing(ev)
  }

  // ---------------------------------------------------------------- the rows agree with the function

  lemma ClosedAgrees(ev: Event)
    ensures Find(ClosedArms(), ev) == FromClosed(ev) && Distinct(ClosedArms())
  {
  }

  lemma WaitConnAckAgrees(ev: Event)
    ensures Find(WaitConnAckArms(), ev) == FromWaitConnAck(ev) && Distinct(WaitConnAckArms())
  {
  }

  lemma WaitICeaAgrees(ev: Event)
    ensures Find(WaitICeaArms(), ev) == FromWaitICea(ev) && Distinct(WaitICeaArms())
  {
  }

  lemma WaitConnAckElectAgrees(ev: Event)
    ensures Find(WaitConnAckElectArms(), ev) == FromWaitConnAckElect(ev) && Distinct(WaitConnAckElectArms())
  {
  }

  lemma WaitReturnsAgrees(ev: Event)
    ensures Find(WaitReturnsArms(), ev) == FromWaitReturns(ev) && Distinct(WaitReturnsArms())
  {
  }

  lemma ROpenAgrees(ev: Event)
    ensures Find(ROpenArms(), ev) == FromROpen(ev) && Distinct(ROpenArms())
  {
  }

  lemma IOpenAgrees(ev: Event)
    ensures Find(IOpenArms(), ev) == FromIOpen(ev) && Distinct(IOpenArms())
  {
  }

  lemma ClosingAgrees(ev: Event)
    ensures Find(ClosingArms(), ev) == FromClosing(ev) && Distinct(ClosingArms())
  {
  }

  lemma TableAgrees(st: State, ev: Event)
    ensures FindIn(Table(), st, ev) == Transition(st, ev)
  {
    hide Find, ClosedArms, FromClosed, WaitConnAckArms, FromWaitConnAck, WaitICeaArms, FromWaitICea,
         WaitConnAckElectArms, FromWaitConnAckElect, WaitReturnsArms, FromWaitReturns, ROpenArms, FromROpen, IOpenArms,
         FromIOpen, ClosingArms, FromClosing;
    match st
    case CLOSED => ClosedAgrees(ev);
    case WAIT_CONN_ACK => WaitConnAckAgrees(ev);
    case WAIT_I_CEA => WaitICeaAgrees(ev);
    case WAIT_CONN_ACK_ELECT => WaitConnAckElectAgrees(ev);
    case WAIT_RETURNS => WaitReturnsAgrees(ev);
    case R_OPEN => ROpenAgrees(ev);
    case I_OPEN => IOpenAgrees(ev);
    case CLOSING => ClosingAgrees(ev);
  }

  lemma TableIsBuildable()
    ensures Buildable(Table())
  {
    hide Distinct, ClosedArms, WaitConnAckArms, WaitICeaArms, WaitConnAckElectArms, WaitReturnsArms, ROpenArms,
         IOpenArms, ClosingArms;
    ClosedAgrees(STOP);
    WaitConnAckAgrees(STOP);
    WaitICeaAgrees(STOP);
    WaitConnAckElectAgrees(STOP);
    WaitReturnsAgrees(STOP);
    ROpenAgrees(STOP);
    IOpenAgrees(STOP);
    ClosingAgrees(STOP);
  }

  /** The constructor never meets a duplicate, and looking an event up in the list is the transition function. */
  lemma LookupIsTransition(st: State, ev: Event)
    ensures Built(Rows())
    ensures Target(Lookup(Rows(), st, ev)) == Transition(st, ev)
  {
    TableIsBuildable();
    TableAgrees(st, ev);
    hide Table, Transition;
    LookupIsFind(Table(), st, ev);
  }
}
