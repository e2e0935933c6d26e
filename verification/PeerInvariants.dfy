/** What every event keeps: connection ownership, timers, conservation of connections. */
module PeerInvariants {
  import opened Basics
  import opened AvpContainers
  import opened Capabilities
  import opened Timers
  import opened PeerTable
  import opened PeerModel
  import Election

  // ---------------------------------------------------------------- the invariant

  /** Which connections each state holds. CLOSED may keep an initiator left over from a rejected election. */
  predicate Owns(p: Peer) {
    match p.state
    case CLOSED => p.responder.None?
    case WAIT_CONN_ACK => p.responder.None?
    case WAIT_I_CEA => p.initiator.Some? && p.responder.None?
    case WAIT_CONN_ACK_ELECT => p.responder.Some?
    case WAIT_RETURNS => p.initiator.Some? && p.responder.Some?
    case I_OPEN => p.initiator.Some? && p.responder.None?
    case R_OPEN => p.responder.Some?
    case CLOSING => p.initiator.Some? || p.responder.Some?
  }

  predicate IsTransient(st: State) {
    st in {WAIT_CONN_ACK, WAIT_I_CEA, WAIT_CONN_ACK_ELECT, WAIT_RETURNS, CLOSING}
  }

  /** TIMEOUT is armed exactly in the transient states, WATCHDOG exactly in the open ones. */
  predicate TimersFit(s: Settings, p: Peer) {
    && (TIMEOUT_TIMER in p.timers <==> IsTransient(p.state))
    && (WATCHDOG_TIMER in p.timers <==> IsOpen(p.state))
    && p.timers.Keys <= {TIMEOUT_TIMER, WATCHDOG_TIMER, RETRY_TIMER}
    && (TIMEOUT_TIMER in p.timers ==> p.timers[TIMEOUT_TIMER] == Timer(TIMEOUT, 30))
    && (WATCHDOG_TIMER in p.timers ==> p.timers[WATCHDOG_TIMER] == Timer(WATCHDOG, s.watchdogTimeout))
    && (RETRY_TIMER in p.timers ==> p.timers[RETRY_TIMER] == Timer(CONN_RETRY, s.reconnectInterval))
  }

  /** Every message so far went out on a connection the machine held. */
  predicate SentOnConnections(p: Peer) {
    forall m <- p.outbox :: m.io.Some?
  }

  predicate QueueFits(p: Peer) {
    forall e <- p.queue :: WellFormed(e)
  }

  predicate Inv(s: Settings, p: Peer) {
    && p.running
    && p.held.None?
    && Owns(p)
    && TimersFit(s, p)
    && SentOnConnections(p)
    && QueueFits(p)
    && p.attempts <= s.reconnectMax
  }

  /** The invariant while an event is being served: everything but the held connection. */
  predicate MidInv(s: Settings, p: Peer) {
    Inv(s, p.(held := None))
  }

  // ---------------------------------------------------------------- one event keeps it

  /** The part of the invariant that does not depend on the state. */
  predicate Base(s: Settings, p: Peer) {
    && p.running
    && p.timers.Keys <= {TIMEOUT_TIMER, WATCHDOG_TIMER, RETRY_TIMER}
    && (TIMEOUT_TIMER in p.timers ==> p.timers[TIMEOUT_TIMER] == Timer(TIMEOUT, 30))
    && (WATCHDOG_TIMER in p.timers ==> p.timers[WATCHDOG_TIMER] == Timer(WATCHDOG, s.watchdogTimeout))
    && (RETRY_TIMER in p.timers ==> p.timers[RETRY_TIMER] == Timer(CONN_RETRY, s.reconnectInterval))
    && SentOnConnections(p)
    && QueueFits(p)
    && p.attempts <= s.reconnectMax
  }

  lemma CleanupKeeps(s: Settings, p: Peer, keepInitiator: bool)
    requires Base(s, p)
    ensures MidInv(s, Cleanup(p, keepInitiator)) && Cleanup(p, keepInitiator).state == CLOSED
  {
    var q := Cleanup(p, keepInitiator);
    assert q.timers.Keys == p.timers.Keys - {RETRY_TIMER, TIMEOUT_TIMER, WATCHDOG_TIMER, CONNECT_TIMEOUT};
  }

  lemma ReConnectKeeps(s: Settings, p: Peer)
    requires MidInv(s, p) && p.state == CLOSED
    ensures MidInv(s, DoReConnect(s, p))
  {
  }

  lemma CleanupAndReConnect(s: Settings, p: Peer)
    requires Base(s, p)
    ensures MidInv(s, Cleanup(p, false)) && MidInv(s, DoReConnect(s, Cleanup(p, false)))
  {
    CleanupKeeps(s, p, false);
    ReConnectKeeps(s, Cleanup(p, false));
  }

  lemma WatchdogKeeps(s: Settings, p: Peer)
    requires Base(s, p)
    ensures Base(s, StartWatchdog(s, p))
    ensures WATCHDOG_TIMER in StartWatchdog(s, p).timers && TIMEOUT_TIMER !in StartWatchdog(s, p).timers
  {
  }

  lemma ElectKeeps(s: Settings, p: Peer)
    requires MidInv(s, p)
    ensures MidInv(s, Elect(s, p))
  {
    CleanupKeeps(s, p, false);
  }

  /** The state the table entered, before its action runs: the timers and slots still fit the previous one. */
  predicate Entered(s: Settings, p: Peer, prev: State) {
    MidInv(s, p.(state := prev))
  }

  // Each of the next lemmas is about one action, from just what it needs.

  lemma AdmitKeeps(s: Settings, p: Peer, rcode: nat)
    requires Base(s, p) && p.state == R_OPEN && p.responder.Some?
    ensures MidInv(s, Admit(s, p, rcode))
  {
    CleanupKeeps(s, p, false);
    WatchdogKeeps(s, p);
  }

  lemma AcceptSendCEAKeeps(s: Settings, p: Peer, e: EventParam)
    requires Base(s, p) && p.state == R_OPEN && p.held.Some?
    ensures MidInv(s, AcceptSendCEA(s, p, e))
  {
    var q := Learn(TakeResponder(p), e);
    AdmitKeeps(s, SendCEA(s, q, Verdict(s, q)), Verdict(s, q));
  }

  lemma OnCEAKeeps(s: Settings, p: Peer, e: EventParam)
    requires Base(s, p) && IsOpen(p.state) && Owns(p)
    ensures MidInv(s, OnCEA(s, p, e))
  {
    CleanupKeeps(s, p, false);
    WatchdogKeeps(s, Disarm(Learn(p, e), RETRY_TIMER));
  }

  lemma DisconnectInitiatorOpenKeeps(s: Settings, p: Peer, e: EventParam)
    requires Base(s, p) && p.state == I_OPEN && p.initiator.Some?
    ensures MidInv(s, DisconnectInitiatorOpen(s, p, e))
  {
    CleanupKeeps(s, p, false);
    WatchdogKeeps(s, Learn(p, e));
  }

  lemma SendCEAKeeps(s: Settings, p: Peer)
    requires Base(s, p) && p.state == R_OPEN && p.responder.Some?
    ensures MidInv(s, StartWatchdog(s, SendCEA(s, p, AAA_SUCCESS)))
  {
    WatchdogKeeps(s, SendCEA(s, p, AAA_SUCCESS));
  }

  lemma ValidKeeps(s: Settings, p: Peer, rcode: nat)
    requires MidInv(s, p)
    ensures MidInv(s, KeepIfValid(p, rcode)) && MidInv(s, ElectIfValid(s, p, rcode))
  {
    CleanupKeeps(s, p, false);
    CleanupKeeps(s, p, true);
    ElectKeeps(s, p);
  }

  lemma TakeResponderKeeps(s: Settings, p: Peer, prev: State, e: EventParam)
    requires Entered(s, p, prev) && p.held.Some?
    requires (prev == WAIT_CONN_ACK && p.state == WAIT_CONN_ACK_ELECT) || (prev == WAIT_I_CEA && p.state == WAIT_RETURNS)
    ensures MidInv(s, Learn(TakeResponder(p), e))
  {
  }

  lemma SendCERElectKeeps(s: Settings, p: Peer)
    requires MidInv(s, p.(state := WAIT_CONN_ACK_ELECT)) && p.state == WAIT_RETURNS && p.held.Some?
    ensures MidInv(s, Elect(s, SendCER(s, TakeInitiator(p))))
  {
    ElectKeeps(s, SendCER(s, TakeInitiator(p)));
  }

  lemma LeaveKeeps(s: Settings, p: Peer, io: Option<Io>)
    requires Base(s, p) && p.state == CLOSING && io.Some? && (io == p.initiator || io == p.responder)
    ensures MidInv(s, Leave(p, io))
  {
  }

  lemma AnswerDPRKeeps(s: Settings, p: Peer, io: Option<Io>)
    requires Base(s, p) && io.Some?
    ensures MidInv(s, Cleanup(Post(p, DPA, io, [], AAA_SUCCESS), false))
  {
    CleanupKeeps(s, Post(p, DPA, io, [], AAA_SUCCESS), false);
  }

  /** Between which states, and on which events, the table runs each action. */
  predicate Leads(prev: State, next: State, ac: Action, ev: Event) {
    match ac
    case ISendConnReq => prev == CLOSED && next == WAIT_CONN_ACK && !CarriesConnection(ev)
    case RAcceptSendCEA => prev == CLOSED && next == R_OPEN && ev == R_CONN_CER
    case ISendCER => prev == WAIT_CONN_ACK && next == WAIT_I_CEA && ev == I_RCV_CONN_ACK
    case RAccept => prev == WAIT_CONN_ACK && next == WAIT_CONN_ACK_ELECT && ev == R_CONN_CER
    case RAcceptElect => prev == WAIT_I_CEA && next == WAIT_RETURNS && ev == R_CONN_CER
    case ISendCERElect => prev == WAIT_CONN_ACK_ELECT && next == WAIT_RETURNS && ev == I_RCV_CONN_ACK
    case ProcessCEA => ((IsOpen(prev) && next == prev) || (prev == WAIT_I_CEA && next == I_OPEN)) && CarriesMessage(ev)
    case RSendCEA => prev == WAIT_CONN_ACK_ELECT && next == R_OPEN && !CarriesConnection(ev)
    case IDisconnectSendCEA => prev == WAIT_RETURNS && next == R_OPEN && !CarriesConnection(ev)
    case RDisconnectIOpen => prev == WAIT_RETURNS && next == I_OPEN && CarriesMessage(ev)
    case RDisconnectResp =>
      (prev == WAIT_RETURNS && next == WAIT_I_CEA) || (prev == WAIT_CONN_ACK_ELECT && next == WAIT_CONN_ACK)
    case RSendCEAOpen | ISendCEA => IsOpen(prev) && next == prev && CarriesMessage(ev)
    case ProcessDWA => IsOpen(prev) && next == prev && CarriesMessage(ev)
    case ProcessDWRSendDWA | SendWatchdog | RSendMessage | ISendMessage | Process => IsOpen(prev) && next == prev
    case ISendDPR => prev == I_OPEN && next == CLOSING
    case RSendDPR => prev == R_OPEN && next == CLOSING
    case ISendDPADisconnect => prev == I_OPEN && next == CLOSED
    case RSendDPADisconnect => prev == R_OPEN && next == CLOSED
    case RReject | Retry => next == prev
    case ConnNack | DoCleanup | ReportError | DoDisconnect | DisconnectDPA => next == CLOSED
  }

  lemma ClosedLeads(next: State, ac: Action, ev: Event)
    requires FromClosed(ev) == Some((next, Some(ac)))
    ensures Leads(CLOSED, next, ac, ev)
  {
  }

  lemma WaitConnAckLeads(next: State, ac: Action, ev: Event)
    requires FromWaitConnAck(ev) == Some((next, Some(ac)))
    ensures Leads(WAIT_CONN_ACK, next, ac, ev)
  {
  }

  lemma WaitICeaLeads(next: State, ac: Action, ev: Event)
    requires FromWaitICea(ev) == Some((next, Some(ac)))
    ensures Leads(WAIT_I_CEA, next, ac, ev)
  {
  }

  lemma WaitConnAckElectLeads(next: State, ac: Action, ev: Event)
    requires FromWaitConnAckElect(ev) == Some((next, Some(ac)))
    ensures Leads(WAIT_CONN_ACK_ELECT, next, ac, ev)
  {
  }

  lemma WaitReturnsLeads(next: State, ac: Action, ev: Event)
    requires FromWaitReturns(ev) == Some((next, Some(ac)))
    ensures Leads(WAIT_RETURNS, next, ac, ev)
  {
  }

  lemma ROpenLeads(next: State, ac: Action, ev: Event)
    requires FromROpen(ev) == Some((next, Some(ac)))
    ensures Leads(R_OPEN, next, ac, ev)
  {
  }

  lemma IOpenLeads(next: State, ac: Action, ev: Event)
    requires FromIOpen(ev) == Some((next, Some(ac)))
    ensures Leads(I_OPEN, next, ac, ev)
  {
  }

  lemma ClosingLeads(next: State, ac: Action, ev: Event)
    requires FromClosing(ev) == Some((next, Some(ac)))
    ensures Leads(CLOSING, next, ac, ev)
  {
  }

  lemma TableLeads(prev: State, next: State, ac: Action, ev: Event)
    requires Transition(prev, ev) == Some((next, Some(ac)))
    ensures Leads(prev, next, ac, ev)
  {
    hide Leads;
    match prev
    case CLOSED => ClosedLeads(next, ac, ev);
    case WAIT_CONN_ACK => WaitConnAckLeads(next, ac, ev);
    case WAIT_I_CEA => WaitICeaLeads(next, ac, ev);
    case WAIT_CONN_ACK_ELECT => WaitConnAckElectLeads(next, ac, ev);
    case WAIT_RETURNS => WaitReturnsLeads(next, ac, ev);
    case R_OPEN => ROpenLeads(next, ac, ev);
    case I_OPEN => IOpenLeads(next, ac, ev);
    case CLOSING => ClosingLeads(next, ac, ev);
  }

  lemma OpeningKeeps(s: Settings, p: Peer, prev: State, ac: Action, e: EventParam)
    requires Entered(s, p, prev) && WellFormed(e) && p.held == e.io
    requires Leads(prev, p.state, ac, e.event)
    requires ac in {RAcceptSendCEA, ProcessCEA, RSendCEA, RDisconnectIOpen, IDisconnectSendCEA}
    ensures MidInv(s, Apply(s, p, ac, e))
  {
    hide Decode, Validate, CeAvps, ResultAvps, Election.Outcome;
    match ac
    case RAcceptSendCEA => AcceptSendCEAKeeps(s, p, e);
    case ProcessCEA => OnCEAKeeps(s, p, e);
    case RSendCEA => SendCEAKeeps(s, KeepOrTakeResponder(p));
    case RDisconnectIOpen => DisconnectInitiatorOpenKeeps(s, p, e);
    case IDisconnectSendCEA => SendCEAKeeps(s, CloseInitiator(p));
  }

  lemma ElectingKeeps(s: Settings, p: Peer, prev: State, ac: Action, e: EventParam)
    requires Entered(s, p, prev) && WellFormed(e) && p.held == e.io
    requires Leads(prev, p.state, ac, e.event)
    requires ac in {ISendCER, RAccept, RAcceptElect, ISendCERElect}
    ensures MidInv(s, Apply(s, p, ac, e))
  {
    hide Decode, Validate, CeAvps, ResultAvps, Election.Outcome;
    match ac
    case ISendCER =>
    case RAccept =>
      TakeResponderKeeps(s, p, prev, e);
      ValidKeeps(s, Learn(TakeResponder(p), e), Verdict(s, Learn(TakeResponder(p), e)));
    case RAcceptElect =>
      TakeResponderKeeps(s, p, prev, e);
      ValidKeeps(s, Learn(TakeResponder(p), e), Verdict(s, Learn(TakeResponder(p), e)));
    case ISendCERElect => SendCERElectKeeps(s, p);
  }

  lemma EnteredBase(s: Settings, p: Peer, prev: State)
    requires Entered(s, p, prev)
    ensures Base(s, p)
  {
  }

  lemma ClosingKeeps(s: Settings, p: Peer, prev: State, ac: Action, e: EventParam)
    requires Entered(s, p, prev) && WellFormed(e) && p.held == e.io
    requires Leads(prev, p.state, ac, e.event)
    requires ac in {ConnNack, DoCleanup, ReportError, DoDisconnect, DisconnectDPA}
    ensures MidInv(s, Apply(s, p, ac, e))
  {
    EnteredBase(s, p, prev);
    hide Leads, Entered, WellFormed;
    CleanupAndReConnect(s, p);
  }

  lemma LeavingKeeps(s: Settings, p: Peer, prev: State, ac: Action, e: EventParam)
    requires Entered(s, p, prev) && WellFormed(e) && p.held == e.io
    requires Leads(prev, p.state, ac, e.event)
    requires ac in {ISendDPADisconnect, RSendDPADisconnect, ISendDPR, RSendDPR}
    ensures MidInv(s, Apply(s, p, ac, e))
  {
    hide Decode, Validate, CeAvps, ResultAvps, Election.Outcome, Cleanup, Leave, Post;
    match ac
    case ISendDPADisconnect => AnswerDPRKeeps(s, p, p.initiator);
    case RSendDPADisconnect => AnswerDPRKeeps(s, p, p.responder);
    case ISendDPR => LeaveKeeps(s, p, p.initiator);
    case RSendDPR => LeaveKeeps(s, p, p.responder);
  }

  lemma StayingKeeps(s: Settings, p: Peer, prev: State, ac: Action, e: EventParam)
    requires Entered(s, p, prev) && WellFormed(e) && p.held == e.io
    requires Leads(prev, p.state, ac, e.event)
    requires ac in {ISendConnReq, Retry, RDisconnectResp, RReject, RSendMessage, ISendMessage, Process}
    ensures MidInv(s, Apply(s, p, ac, e))
  {
    hide Decode, Validate, CeAvps, ResultAvps, Election.Outcome, StartTimeout;
    match ac
    case ISendConnReq => ConnectingKeeps(s, p);
    case Retry => RetryKeeps(s, p);
    case _ =>
  }

  lemma ConnectingKeeps(s: Settings, p: Peer)
    requires MidInv(s, p.(state := CLOSED)) && p.state == WAIT_CONN_ACK
    ensures MidInv(s, StartTimeout(p))
  {
  }

  lemma RetryKeeps(s: Settings, p: Peer)
    requires MidInv(s, p)
    ensures MidInv(s, Start(Disarm(p, RETRY_TIMER)))
  {
  }

  lemma AnsweringKeeps(s: Settings, p: Peer, prev: State, ac: Action, e: EventParam)
    requires Entered(s, p, prev) && WellFormed(e) && p.held == e.io
    requires Leads(prev, p.state, ac, e.event)
    requires ac in {RSendCEAOpen, ProcessDWRSendDWA, ISendCEA, SendWatchdog, ProcessDWA}
    ensures MidInv(s, Apply(s, p, ac, e))
  {
    hide Decode, Validate, CeAvps, ResultAvps, Election.Outcome;
    assert p.state == prev && IsOpen(prev);
    assert p.(state := prev) == p;
    RenegotiateKeeps(s, p, e);
    PostWhileOpenKeeps(s, p, Sent(DWA, OpenIo(p), [], AAA_SUCCESS));
    PostWhileOpenKeeps(s, p, Sent(DWR, OpenIo(p), [], 0));
    CleanupKeeps(s, p, false);
  }

  lemma RenegotiateKeeps(s: Settings, p: Peer, e: EventParam)
    requires MidInv(s, p) && IsOpen(p.state)
    ensures MidInv(s, Renegotiate(s, p, e))
  {
    var q := Learn(p, e);
    var rcode := Verdict(s, q);
    PostWhileOpenKeeps(s, q, Sent(CEA, OpenIo(q), CeAvps(s.local, s.tls) + ResultAvps(rcode), rcode));
  }

  lemma PostWhileOpenKeeps(s: Settings, p: Peer, m: Sent)
    requires MidInv(s, p) && IsOpen(p.state) && m.io == OpenIo(p)
    ensures MidInv(s, Post(p, m.kind, m.io, m.acl, m.resultCode))
  {
  }

  /** What an action takes for granted: the payload it reads and the connection it sends on. */
  predicate CanRun(p: Peer, ac: Action, e: EventParam) {
    match ac
    case RAcceptSendCEA => e.msg.Some? && p.held.Some? && p.state == R_OPEN
    case ISendCER | ISendCERElect => p.held.Some?
    case RAccept | RAcceptElect | ProcessCEA | RDisconnectIOpen | ProcessDWA => e.msg.Some?
    case RSendCEA | IDisconnectSendCEA => p.responder.Some? && p.state == R_OPEN
    case RSendCEAOpen | ISendCEA => e.msg.Some? && OpenIo(p).Some?
    case ProcessDWRSendDWA | SendWatchdog => OpenIo(p).Some?
    case ISendDPR | ISendDPADisconnect => p.initiator.Some?
    case RSendDPR | RSendDPADisconnect => p.responder.Some?
    case _ => true
  }

  /** In every reachable state each action finds its payload, and each send finds its connection. */
  lemma ActionsFindTheirConnections(s: Settings, p: Peer, prev: State, ac: Action, e: EventParam)
    requires Entered(s, p, prev) && WellFormed(e) && p.held == e.io
    requires Transition(prev, e.event) == Some((p.state, Some(ac)))
    ensures CanRun(p, ac, e)
  {
    TableLeads(prev, p.state, ac, e.event);
    hide Transition;
  }

  lemma ApplyKeeps(s: Settings, p: Peer, prev: State, ac: Action, e: EventParam)
    requires Entered(s, p, prev) && WellFormed(e) && p.held == e.io
    requires Leads(prev, p.state, ac, e.event)
    ensures MidInv(s, Apply(s, p, ac, e))
  {
    hide Leads, MidInv, Apply, Entered;
    match ac
    case RAcceptSendCEA | ProcessCEA | RSendCEA | RDisconnectIOpen | IDisconnectSendCEA =>
      OpeningKeeps(s, p, prev, ac, e);
    case ISendCER | RAccept | RAcceptElect | ISendCERElect => ElectingKeeps(s, p, prev, ac, e);
    case ConnNack | DoCleanup | ReportError | DoDisconnect | DisconnectDPA => ClosingKeeps(s, p, prev, ac, e);
    case ISendDPADisconnect | RSendDPADisconnect | ISendDPR | RSendDPR => LeavingKeeps(s, p, prev, ac, e);
    case RSendCEAOpen | ProcessDWRSendDWA | ISendCEA | SendWatchdog | ProcessDWA => AnsweringKeeps(s, p, prev, ac, e);
    case _ => StayingKeeps(s, p, prev, ac, e);
  }

  lemma ReactKeepsInv(s: Settings, p: Peer, e: EventParam)
    requires MidInv(s, p) && WellFormed(e) && p.held == e.io
    ensures MidInv(s, React(s, p, e))
  {
    match Transition(p.state, e.event)
    case None =>
    case Some((next, None)) => ClosingStays(p.state, next, e.event);
    case Some((next, Some(ac))) =>
      TableLeads(p.state, next, ac, e.event);
      hide Transition, Leads, Apply;
      var q := p.(state := next);
      assert q.(state := p.state) == p;
      ApplyKeeps(s, q, p.state, ac, e);
  }

  lemma ClosingStays(prev: State, next: State, ev: Event)
    requires Transition(prev, ev) == Some((next, None))
    ensures next == prev
  {
  }

  lemma TakenFits(s: Settings, p: Peer)
    requires Inv(s, p) && p.queue != []
    ensures MidInv(s, p.(queue := p.queue[1..], held := p.queue[0].io)) && WellFormed(p.queue[0])
  {
    assert p.queue[0] in p.queue;
  }

  lemma ServeKeepsInv(s: Settings, p: Peer)
    requires Inv(s, p) && p.queue != []
    ensures Inv(s, Serve(s, p))
  {
    TakenFits(s, p);
    ReactKeepsInv(s, p.(queue := p.queue[1..], held := p.queue[0].io), p.queue[0]);
    hide React;
  }

  // ---------------------------------------------------------------- conservation of connections

  function One(slot: Option<Io>, io: Io): nat {
    if slot == Some(io) then 1 else 0
  }

  function Queued(queue: seq<EventParam>, io: Io): nat {
    if queue == [] then 0 else One(queue[0].io, io) + Queued(queue[1..], io)
  }

  /** In how many places the machine keeps a connection: slots, the event being served, queue, closed ones. */
  function Owners(p: Peer, io: Io): nat {
    One(p.initiator, io) + One(p.responder, io) + One(p.held, io) + Queued(p.queue, io) + multiset(p.closed)[io]
  }

  /** From p to q no owner of the connection is lost or added, and the queue only grows at its end. */
  predicate Keeps(p: Peer, q: Peer, io: Io) {
    Owners(q, io) == Owners(p, io) && p.queue <= q.queue
  }

  lemma {:induction false} QueuedAppend(queue: seq<EventParam>, e: EventParam, io: Io)
    ensures Queued(queue + [e], io) == Queued(queue, io) + One(e.io, io)
  {
    if queue != [] {
      assert (queue + [e])[1..] == queue[1..] + [e];
      QueuedAppend(queue[1..], e, io);
    }
  }

  lemma NotifyAdds(p: Peer, e: EventParam, io: Io)
    ensures Owners(Notify(p, e), io) == Owners(p, io) + One(e.io, io)
    ensures p.queue <= Notify(p, e).queue
  {
    QueuedAppend(p.queue, e, io);
  }

  lemma SlotsKeep(p: Peer, io: Io)
    ensures Keeps(p, CloseInitiator(p), io) && Keeps(p, CloseResponder(p), io) && Keeps(p, CloseHeld(p), io)
    ensures Keeps(p, TakeInitiator(p), io) && Keeps(p, TakeResponder(p), io)
  {
    ClosingAdds(p.closed, p.initiator, io);
    ClosingAdds(p.closed, p.responder, io);
    ClosingAdds(p.closed, p.held, io);
  }

  lemma ClosingAdds(closed: seq<Io>, slot: Option<Io>, io: Io)
    ensures multiset(closed + Opt(slot))[io] == multiset(closed)[io] + One(slot, io)
  {
  }

  lemma CleanupConserves(p: Peer, keepInitiator: bool, io: Io)
    ensures Keeps(p, Cleanup(p, keepInitiator), io)
  {
    hide Queued;
    var q := DisarmAll(p);
    SlotsKeep(q, io);
    SlotsKeep(CloseResponder(q), io);
    SlotsKeep(CloseInitiator(CloseResponder(q)), io);
  }

  lemma ElectConserves(s: Settings, p: Peer, io: Io)
    ensures Keeps(p, Elect(s, p), io)
  {
    CleanupConserves(p, false, io);
    NotifyAdds(p, EventParam(WIN_ELECTION, None, None), io);
  }

  lemma LearnConserves(p: Peer, e: EventParam, io: Io)
    ensures Keeps(p, Learn(TakeResponder(p), e), io)
  {
    SlotsKeep(p, io);
  }

  lemma AcceptSendCEAConserves(s: Settings, p: Peer, e: EventParam, io: Io)
    ensures Keeps(p, AcceptSendCEA(s, p, e), io)
  {
    LearnConserves(p, e, io);
    var q := Learn(TakeResponder(p), e);
    EndsConserve(s, SendCEA(s, q, Verdict(s, q)), Verdict(s, q), io);
  }

  lemma AcceptConserves(s: Settings, p: Peer, e: EventParam, io: Io)
    ensures Keeps(p, Accept(s, p, e), io)
    ensures Keeps(p, AcceptElect(s, p, e), io)
  {
    LearnConserves(p, e, io);
    EndsConserve(s, Learn(TakeResponder(p), e), Verdict(s, Learn(TakeResponder(p), e)), io);
  }

  lemma EndsConserve(s: Settings, p: Peer, rcode: nat, io: Io)
    ensures Keeps(p, Admit(s, p, rcode), io)
    ensures Keeps(p, KeepIfValid(p, rcode), io)
    ensures Keeps(p, ElectIfValid(s, p, rcode), io)
  {
    CleanupConserves(p, false, io);
    CleanupConserves(p, true, io);
    ElectConserves(s, p, io);
  }

  lemma InitiatingConserves(s: Settings, p: Peer, ac: Action, e: EventParam, io: Io)
    requires ac in {ISendCER, ISendCERElect, RDisconnectResp}
    ensures Keeps(p, Apply(s, p, ac, e), io)
  {
    SlotsKeep(p, io);
    ElectConserves(s, SendCER(s, TakeInitiator(p)), io);
  }

  lemma OpeningConserves(s: Settings, p: Peer, io: Io)
    ensures Keeps(p, StartWatchdog(s, SendCEA(s, KeepOrTakeResponder(p), AAA_SUCCESS)), io)
    ensures Keeps(p, StartWatchdog(s, SendCEA(s, CloseInitiator(p), AAA_SUCCESS)), io)
  {
    SlotsKeep(p, io);
  }

  lemma OnCEAConserves(s: Settings, p: Peer, e: EventParam, io: Io)
    ensures Keeps(p, OnCEA(s, p, e), io)
  {
    CleanupConserves(p, false, io);
  }

  lemma DisconnectInitiatorOpenConserves(s: Settings, p: Peer, e: EventParam, io: Io)
    ensures Keeps(p, DisconnectInitiatorOpen(s, p, e), io)
  {
    CleanupConserves(p, false, io);
    SlotsKeep(StartWatchdog(s, Learn(p, e)), io);
  }

  lemma ClosingConserves(s: Settings, p: Peer, io: Io)
    ensures Keeps(p, Cleanup(p, false), io)
    ensures Keeps(p, DoReConnect(s, Cleanup(p, false)), io)
    ensures Keeps(p, OnDPA(s, p), io)
  {
    CleanupConserves(p, false, io);
  }

  lemma AnswerDPRConserves(p: Peer, slot: Option<Io>, io: Io)
    ensures Keeps(p, Cleanup(Post(p, DPA, slot, [], AAA_SUCCESS), false), io)
  {
    CleanupConserves(Post(p, DPA, slot, [], AAA_SUCCESS), false, io);
  }

  /** No action loses or duplicates a connection, or touches the events already queued. */
  lemma ApplyConserves(s: Settings, p: Peer, ac: Action, e: EventParam, io: Io)
    ensures Keeps(p, Apply(s, p, ac, e), io)
  {
    hide Decode, Validate, CeAvps, ResultAvps, Election.Outcome, Queued, Cleanup;
    hide AcceptSendCEA, Accept, AcceptElect, OnCEA, DisconnectInitiatorOpen, DoReConnect, OnDPA, CloseResponder;
    hide CloseHeld;
    match ac
    case RAcceptSendCEA => AcceptSendCEAConserves(s, p, e, io);
    case RAccept | RAcceptElect => AcceptConserves(s, p, e, io);
    case Retry => NotifyAdds(Disarm(p, RETRY_TIMER), EventParam(START, None, None), io);
    case ISendCER | ISendCERElect | RDisconnectResp => InitiatingConserves(s, p, ac, e, io);
    case RSendCEA | IDisconnectSendCEA => OpeningConserves(s, p, io);
    case ProcessCEA => OnCEAConserves(s, p, e, io);
    case RDisconnectIOpen => DisconnectInitiatorOpenConserves(s, p, e, io);
    case DoCleanup | ReportError | ProcessDWA => CleanupConserves(p, false, io);
    case ConnNack | DoDisconnect | DisconnectDPA => ClosingConserves(s, p, io);
    case ISendDPADisconnect => AnswerDPRConserves(p, p.initiator, io);
    case RSendDPADisconnect => AnswerDPRConserves(p, p.responder, io);
    case RReject => SlotsKeep(p, io);
    case _ =>
  }

  /** Serving an event keeps the owners of every connection and the order of the events still queued. */
  lemma ServeConserves(s: Settings, p: Peer, io: Io)
    requires p.queue != [] && p.held.None?
    ensures Owners(Serve(s, p), io) == Owners(p, io)
    ensures p.queue[1..] <= Serve(s, p).queue
  {
    var e := p.queue[0];
    var q := p.(queue := p.queue[1..], held := e.io);
    assert Owners(q, io) == Owners(p, io);
    if q.running {
      match Transition(q.state, e.event)
      case Some((next, Some(ac))) => ApplyConserves(s, q.(state := next), ac, e, io);
      case _ =>
    }
    SlotsKeep(React(s, q, e), io);
  }

  // ---------------------------------------------------------------- whole runs

  /** What reaches a peer from outside: producers raising events, requests, and its turn to serve one. */
  datatype Input =
    | Raise(e: EventParam)
    | StopRequest(cause: DisconnectCause)
    | StartRequest
    | SendRequest(acl: seq<Avp>)
    | Turn

  ghost function Take(s: Settings, p: Peer, i: Input): Peer {
    match i
    case Raise(e) => Notify(p, e)
    case StopRequest(cause) => Notify(p.(cause := cause), EventParam(STOP, None, None))
    case StartRequest => Start(p)
    case SendRequest(acl) => Send(p, acl)
    case Turn => if p.queue == [] then p else Serve(s, p)
  }

  ghost function Run(s: Settings, p: Peer, inputs: seq<Input>): Peer {
    if inputs == [] then p else Take(s, Run(s, p, inputs[..|inputs| - 1]), inputs[|inputs| - 1])
  }

  predicate WellFormedInputs(inputs: seq<Input>) {
    forall i <- inputs :: i.Raise? ==> WellFormed(i.e)
  }

  function Deliveries(inputs: seq<Input>, io: Io): nat {
    if inputs == [] then 0
    else
      var last := inputs[|inputs| - 1];
      Deliveries(inputs[..|inputs| - 1], io) + if last.Raise? then One(last.e.io, io) else 0
  }

  lemma TakeKeepsInv(s: Settings, p: Peer, i: Input)
    requires Inv(s, p) && (i.Raise? ==> WellFormed(i.e))
    ensures Inv(s, Take(s, p, i))
  {
    match i
    case Turn =>
      if p.queue != [] {
        ServeKeepsInv(s, p);
      }
    case SendRequest(acl) =>
      if IsOpen(p.state) {
        PostWhileOpenKeeps(s, p, Sent(ONBEHALF, OpenIo(p), acl, 0));
      }
    case _ =>
  }

  /** Connection ownership, timers and live sends hold in every reachable state. */
  lemma {:induction false} RunKeepsInv(s: Settings, inputs: seq<Input>)
    requires WellFormedInputs(inputs)
    ensures Inv(s, Run(s, NEW_PEER, inputs))
  {
    if inputs != [] {
      var front := inputs[..|inputs| - 1];
      RunKeepsInv(s, front);
      TakeKeepsInv(s, Run(s, NEW_PEER, front), inputs[|inputs| - 1]);
    }
  }

  /** A connection has as many owners as it was delivered times: none is leaked, none is closed twice. */
  lemma {:induction false} RunConserves(s: Settings, inputs: seq<Input>, io: Io)
    requires WellFormedInputs(inputs)
    ensures Owners(Run(s, NEW_PEER, inputs), io) == Deliveries(inputs, io)
  {
    if inputs != [] {
      var front := inputs[..|inputs| - 1];
      RunConserves(s, front, io);
      RunKeepsInv(s, front);
      TakeConserves(s, Run(s, NEW_PEER, front), inputs[|inputs| - 1], io);
    }
  }

  lemma TakeConserves(s: Settings, p: Peer, i: Input, io: Io)
    requires p.running && p.held.None?
    ensures Owners(Take(s, p, i), io) == Owners(p, io) + if i.Raise? then One(i.e.io, io) else 0
  {
    match i
    case Raise(e) => NotifyAdds(p, e, io);
    case StopRequest(cause) => NotifyAdds(p.(cause := cause), EventParam(STOP, None, None), io);
    case StartRequest => NotifyAdds(p, EventParam(START, None, None), io);
    case SendRequest(acl) =>
    case Turn =>
      if p.queue != [] {
        ServeConserves(s, p, io);
      }
  }

  /** When no connection is delivered twice, a connection in a slot is not closed, and the slots differ. */
  lemma SlotsAreLive(s: Settings, inputs: seq<Input>)
    requires WellFormedInputs(inputs)
    requires forall io :: Deliveries(inputs, io) <= 1
    ensures var p := Run(s, NEW_PEER, inputs);
            && (p.initiator.Some? ==> p.initiator.value !in p.closed)
            && (p.responder.Some? ==> p.responder.value !in p.closed)
            && (p.initiator.Some? && p.responder.Some? ==> p.initiator != p.responder)
  {
    var p := Run(s, NEW_PEER, inputs);
    if p.initiator.Some? {
      RunConserves(s, inputs, p.initiator.value);
    }
    if p.responder.Some? {
      RunConserves(s, inputs, p.responder.value);
    }
  }

  /** In every reachable open state the connection a send picks is present and was not closed. */
  lemma SendsFindAnOpenConnection(s: Settings, inputs: seq<Input>)
    requires WellFormedInputs(inputs)
    requires forall io :: Deliveries(inputs, io) <= 1
    ensures var p := Run(s, NEW_PEER, inputs);
            p.running && (IsOpen(p.state) ==> OpenIo(p).Some? && OpenIo(p).value !in p.closed)
  {
    hide Run;
    RunKeepsInv(s, inputs);
    SlotsAreLive(s, inputs);
  }

  // ---------------------------------------------------------------- the order of events

  const STOP_EVENT: EventParam := EventParam(STOP, None, None)
  const START_EVENT: EventParam := EventParam(START, None, None)
  const WIN_EVENT: EventParam := EventParam(WIN_ELECTION, None, None)

  ghost function ServedBy(p: Peer, i: Input): seq<EventParam> {
    if i.Turn? && p.queue != [] then [p.queue[0]] else []
  }

  /** The events an input raises, from outside or by the action of the event it serves. */
  ghost function RaisedBy(s: Settings, p: Peer, i: Input): seq<EventParam> {
    match i
    case Raise(e) => [e]
    case StopRequest(_) => [STOP_EVENT]
    case StartRequest => [START_EVENT]
    case SendRequest(_) => []
    case Turn => if p.queue == [] then [] else TurnRaises(s, p)
  }

  /** A served event raises at most one more: a retry starts again, an election that is won says so. */
  ghost function TurnRaises(s: Settings, p: Peer): seq<EventParam>
    requires p.queue != []
  {
    var e := p.queue[0];
    match Transition(p.state, e.event)
    case Some((_, Some(Retry))) => [START_EVENT]
    case Some((_, Some(RAcceptElect))) =>
      var caps := Decode(AclOf(e));
      if Validate(s.local, s.tls, caps) == AAA_SUCCESS then Won(s, caps) else []
    case Some((_, Some(ISendCERElect))) => Won(s, p.caps)
    case _ => []
  }

  ghost function Won(s: Settings, caps: PeerCapabilities): seq<EventParam> {
    if Election.Outcome(s.local.identity, caps.host) == Election.Win then [WIN_EVENT] else []
  }

  ghost function ServedIn(s: Settings, inputs: seq<Input>): seq<EventParam> {
    if inputs == [] then []
    else
      var front := inputs[..|inputs| - 1];
      ServedIn(s, front) + ServedBy(Run(s, NEW_PEER, front), inputs[|inputs| - 1])
  }

  ghost function RaisedIn(s: Settings, inputs: seq<Input>): seq<EventParam> {
    if inputs == [] then []
    else
      var front := inputs[..|inputs| - 1];
      RaisedIn(s, front) + RaisedBy(s, Run(s, NEW_PEER, front), inputs[|inputs| - 1])
  }

  lemma ElectRaises(s: Settings, p: Peer)
    requires p.running
    ensures Elect(s, p).queue == p.queue + Won(s, p.caps)
  {
    hide Election.Outcome;
  }

  lemma ApplyRaises(s: Settings, p: Peer, ac: Action, e: EventParam)
    requires p.running
    ensures Apply(s, p, ac, e).queue ==
            p.queue + match ac
                      case Retry => [START_EVENT]
                      case RAcceptElect =>
                        var caps := Decode(AclOf(e));
                        if Validate(s.local, s.tls, caps) == AAA_SUCCESS then Won(s, caps) else []
                      case ISendCERElect => Won(s, p.caps)
                      case _ => []
  {
    hide Decode, Validate, CeAvps, ResultAvps, Election.Outcome, Won, Elect;
    match ac
    case RAcceptElect => ElectRaises(s, Learn(TakeResponder(p), e));
    case ISendCERElect => ElectRaises(s, SendCER(s, TakeInitiator(p)));
    case _ =>
  }

  lemma ServeRaises(s: Settings, p: Peer)
    requires p.running && p.queue != []
    ensures Serve(s, p).queue == p.queue[1..] + TurnRaises(s, p)
  {
    hide Apply, Decode, Validate, Won;
    var e := p.queue[0];
    var q := p.(queue := p.queue[1..], held := e.io);
    match Transition(p.state, e.event)
    case Some((next, Some(ac))) => ApplyRaises(s, q.(state := next), ac, e);
    case _ =>
  }

  lemma TakeKeepsOrder(s: Settings, p: Peer, i: Input)
    requires p.running
    ensures ServedBy(p, i) + Take(s, p, i).queue == p.queue + RaisedBy(s, p, i)
  {
    hide Serve, TurnRaises;
    match i
    case Turn =>
      if p.queue != [] {
        ServeRaises(s, p);
        assert [p.queue[0]] + (p.queue[1..] + TurnRaises(s, p)) == p.queue + TurnRaises(s, p);
      }
    case _ =>
  }

  /** Over every run the events served, followed by those queued, are the events raised, in the order raised. */
  lemma {:induction false} EventsAreServedInOrder(s: Settings, inputs: seq<Input>)
    requires WellFormedInputs(inputs)
    ensures ServedIn(s, inputs) + Run(s, NEW_PEER, inputs).queue == RaisedIn(s, inputs)
  {
    hide Take, Inv, ServedBy, RaisedBy;
    if inputs != [] {
      var front, i := inputs[..|inputs| - 1], inputs[|inputs| - 1];
      var p := Run(s, NEW_PEER, front);
      EventsAreServedInOrder(s, front);
      RunKeepsRunning(s, front);
      TakeKeepsOrder(s, p, i);
      assert (ServedIn(s, front) + ServedBy(p, i)) + Take(s, p, i).queue ==
             ServedIn(s, front) + (ServedBy(p, i) + Take(s, p, i).queue);
      assert ServedIn(s, front) + (p.queue + RaisedBy(s, p, i)) == (ServedIn(s, front) + p.queue) + RaisedBy(s, p, i);
    }
  }

  lemma RunKeepsRunning(s: Settings, inputs: seq<Input>)
    requires WellFormedInputs(inputs)
    ensures Run(s, NEW_PEER, inputs).running
  {
    RunKeepsInv(s, inputs);
    hide Run;
  }

  /** No transient state can be stuck: its timeout is armed, and serving a timeout always closes it. */
  lemma TimeoutsEndTransientStates(s: Settings, p: Peer, e: EventParam)
    requires Inv(s, p) && IsTransient(p.state)
    ensures TIMEOUT_TIMER in p.timers && p.timers[TIMEOUT_TIMER].event == TIMEOUT
    ensures e.event == TIMEOUT ==> React(s, p, e).state == CLOSED
    ensures e.event == TIMEOUT ==> React(s, p, e).initiator == None && React(s, p, e).responder == None
  {
  }
}
