/** What a peer answers and where that leads: the messages each event sends, and the codes in them. */
module PeerAnswers {
  import opened Basics
  import opened AvpContainers
  import opened Capabilities
  import opened CapabilityTheorems
  import opened Timers
  import opened PeerTable
  import opened PeerModel
  import Election
  import PeerInvariants
  import PeerAgreement

  // ---------------------------------------------------------------- the codes of an answer

  /** An answer to a capabilities exchange: this side's capabilities, then the code, with a text if it is an error. */
  ghost predicate IsCea(s: Settings, m: Sent, io: Option<Io>) {
    && m.kind == CEA && m.io == io
    && Decode(m.acl) == CapabilitiesOf(s.local, s.tls)
    && ValuesOf(m.acl, ResultCode) == [U32(m.resultCode)]
    && (ValuesOf(m.acl, ErrorMessage) == [] <==> 2000 <= m.resultCode < 3000)
  }

  lemma PostedIsCea(s: Settings, io: Option<Io>, code: nat)
    ensures IsCea(s, Cea(s, io, code), io)
  {
    ResultsAreNoCapabilities(code);
    hide Decode, CeAvps, ValuesOf, CapabilitiesOf, ResultAvps, IsCeName;
    RoundTrip(s.local, s.tls, ResultAvps(code));
    CodeIsFound(s.local, s.tls, code);
  }

  lemma ResultsAreNoCapabilities(code: nat)
    ensures forall c <- ResultAvps(code) :: !IsCeName(c.name)
  {
  }

  lemma CodeIsFound(cfg: LocalConfig, tls: bool, code: nat)
    ensures var acl := CeAvps(cfg, tls) + ResultAvps(code);
            && ValuesOf(acl, ResultCode) == [U32(code)]
            && (ValuesOf(acl, ErrorMessage) == [] <==> 2000 <= code < 3000)
  {
    var acl := CeAvps(cfg, tls);
    CeHasNoResult(cfg, tls);
    hide CeAvps;
    SearchConcat(acl, ResultAvps(code), ResultCode);
    SearchConcat(acl, ResultAvps(code), ErrorMessage);
    SearchMissing(acl, ResultCode);
    SearchMissing(acl, ErrorMessage);
  }

  lemma CeHasNoResult(cfg: LocalConfig, tls: bool)
    ensures forall c <- CeAvps(cfg, tls) :: c.name != ResultCode && c.name != ErrorMessage
  {
    ContainersHaveNoResult(cfg);
    ScalarsHaveNoResult(cfg, tls);
    hide Container, ScalarAvps;
  }

  lemma ContainersHaveNoResult(cfg: LocalConfig)
    ensures forall c <- Container(SupportedVendorId, U32s(cfg.supportedVendors)) :: IsCeName(c.name)
    ensures forall c <- Container(AuthAppId, U32s(cfg.authApps)) :: IsCeName(c.name)
    ensures forall c <- Container(AcctAppId, U32s(cfg.acctApps)) :: IsCeName(c.name)
    ensures forall c <- Container(VendorAppId, RowGroups(cfg.vendorSpecific)) :: IsCeName(c.name)
  {
  }

  lemma ScalarsHaveNoResult(cfg: LocalConfig, tls: bool)
    ensures forall c <- ScalarAvps(cfg, tls) :: IsCeName(c.name)
  {
    hide Addresses, HostIps, TlsId;
  }

  /** What a peer heard in a CER or CEA and what this side compares with. */
  ghost predicate Common(s: Settings, acl: seq<Avp>) {
    Meet(OfferedIds(Decode(acl)), LocalIds(s.local))
  }

  ghost predicate Secure(s: Settings, acl: seq<Avp>) {
    Decode(acl).inbandSecurityId == if s.tls then 1 else 0
  }

  /** The code is 5010 without a common application, else 5017 without common security, else 2001. */
  ghost predicate HasCodeFor(s: Settings, m: Sent, acl: seq<Avp>) {
    && (m.resultCode == 5010 <==> !Common(s, acl))
    && (m.resultCode == 5017 <==> Common(s, acl) && !Secure(s, acl))
    && (m.resultCode == 2001 <==> Common(s, acl) && Secure(s, acl))
  }

  lemma CodeOfVerdict(s: Settings, acl: seq<Avp>)
    ensures var code := Validate(s.local, s.tls, Decode(acl));
            && (code == 5010 <==> !Common(s, acl))
            && (code == 5017 <==> Common(s, acl) && !Secure(s, acl))
            && (code == 2001 <==> Common(s, acl) && Secure(s, acl))
  {
    ValidateMeaning(s.local, s.tls, Decode(acl));
    hide Decode, OfferedIds, LocalIds, Meet, CommonApplication;
  }

  /** The first event of a peer. */
  predicate Heads(p: Peer, e: EventParam) {
    p.running && p.held.None? && p.queue != [] && p.queue[0] == e
  }

  /** From p to q exactly one message was sent. */
  predicate SendsOne(p: Peer, q: Peer, m: Sent) {
    q.outbox == p.outbox + [m]
  }

  /** The answer of this code. */
  function Cea(s: Settings, io: Option<Io>, code: nat): Sent {
    Sent(CEA, io, CeAvps(s.local, s.tls) + ResultAvps(code), code)
  }

  lemma AcceptingServes(s: Settings, p: Peer, e: EventParam)
    requires p.state == CLOSED && Heads(p, e) && e.event == R_CONN_CER
    ensures PeerModel.Serve(s, p) ==
            CloseHeld(AcceptSendCEA(s, p.(queue := p.queue[1..], held := e.io, state := R_OPEN), e))
  {
    hide AcceptSendCEA, CloseHeld;
  }

  lemma AcceptingEnds(s: Settings, p: Peer, cap: PeerCapabilities, io: Io, code: nat)
    requires p.held == Some(io) && p.state == R_OPEN
    ensures var q := CloseHeld(Admit(s, SendCEA(s, TakeResponder(p).(caps := cap), code), code));
            && SendsOne(p, q, Cea(s, Some(io), code))
            && (code == 2001 ==> q.state == R_OPEN && q.responder == Some(io) && q.caps == cap)
            && (code != 2001 ==> q.state == CLOSED && q.responder == None && q.initiator == None && io in q.closed)
  {
    hide CeAvps, ResultAvps;
  }

  /**
    A CER that opens a connection to a closed peer is answered on that connection, exactly once. The peer is open
    afterwards exactly if the code is 2001; otherwise the connection is closed.
   */
  lemma CerIsAnswered(s: Settings, p: Peer, e: EventParam, acl: seq<Avp>, io: Io)
    requires p.state == CLOSED && Heads(p, e) && e.event == R_CONN_CER && e.msg.Some? && e.msg.value.acl == acl
    requires e.io == Some(io)
    ensures var q := PeerModel.Serve(s, p);
            |q.outbox| > |p.outbox|
    ensures var q := PeerModel.Serve(s, p);
            var m := q.outbox[|p.outbox|];
            && SendsOne(p, q, m) && IsCea(s, m, Some(io)) && HasCodeFor(s, m, acl)
            && (m.resultCode == 2001 <==> q.state == R_OPEN && q.responder == Some(io) && q.caps == Decode(acl))
            && (m.resultCode != 2001 <==> q.state == CLOSED && q.responder == None && q.initiator == None)
            && (m.resultCode != 2001 ==> io in q.closed)
  {
    var code := Validate(s.local, s.tls, Decode(acl));
    CeaHasCode(s, Some(io), acl);
    AcceptingServes(s, p, e);
    AcceptingEnds(s, p.(queue := p.queue[1..], held := e.io, state := R_OPEN), Decode(acl), io, code);
    hide Decode, Validate, IsCea, HasCodeFor, Cea, CloseHeld, Admit, SendCEA, PeerModel.Serve;
  }

  lemma CeaHasCode(s: Settings, io: Option<Io>, acl: seq<Avp>)
    ensures var m := Cea(s, io, Validate(s.local, s.tls, Decode(acl)));
            IsCea(s, m, io) && HasCodeFor(s, m, acl)
  {
    CodeOfVerdict(s, acl);
    PostedIsCea(s, io, Validate(s.local, s.tls, Decode(acl)));
    hide Decode, Validate, CeAvps, ResultAvps, IsCea, Common, Secure;
  }

  lemma JudgingEnds(p: Peer, cap: PeerCapabilities, io: Io, code: nat)
    requires p.held == Some(io) && p.state == WAIT_CONN_ACK_ELECT
    ensures var q := CloseHeld(KeepIfValid(TakeResponder(p).(caps := cap), code));
            && q.outbox == p.outbox && q.queue == p.queue
            && (code == 2001 ==> q.state == WAIT_CONN_ACK_ELECT && q.responder == Some(io) && q.caps == cap
                                 && q.initiator == p.initiator)
            && (code != 2001 ==> q.state == CLOSED && q.responder == None && q.initiator == None && io in q.closed)
  {
  }

  /** A CER while the own connect is pending waits for the election exactly if it deserves the code 2001. */
  lemma EarlyCerIsJudged(s: Settings, p: Peer, e: EventParam, acl: seq<Avp>, io: Io)
    requires p.state == WAIT_CONN_ACK && Heads(p, e) && e.event == R_CONN_CER && e.msg.Some? && e.msg.value.acl == acl
    requires e.io == Some(io)
    ensures var q := PeerModel.Serve(s, p);
            && q.outbox == p.outbox && q.queue == p.queue[1..]
            && (Common(s, acl) && Secure(s, acl) ==>
                  && q.state == WAIT_CONN_ACK_ELECT && q.responder == Some(io) && q.caps == Decode(acl)
                  && q.initiator == p.initiator)
            && (!(Common(s, acl) && Secure(s, acl)) ==>
                  q.state == CLOSED && q.responder == None && q.initiator == None && io in q.closed)
  {
    CodeOfVerdict(s, acl);
    PeerAgreement.CerIsAccepted(s, p, e);
    JudgingEnds(p.(queue := p.queue[1..], held := e.io, state := WAIT_CONN_ACK_ELECT), Decode(acl), io,
                Validate(s.local, s.tls, Decode(acl)));
    hide Decode, Validate, Common, Secure, CloseHeld, KeepIfValid, PeerModel.Serve;
  }

  lemma ElectingEnds(s: Settings, p: Peer, cap: PeerCapabilities, io: Io, code: nat)
    requires p.running && p.held == Some(io) && p.state == WAIT_RETURNS
    ensures var q := CloseHeld(ElectIfValid(s, TakeResponder(p).(caps := cap), code));
            var outcome := Election.Outcome(s.local.identity, cap.host);
            && q.outbox == p.outbox
            && (code == 2001 && outcome != Election.SameHost ==>
                  && q.state == WAIT_RETURNS && q.initiator == p.initiator && q.responder == Some(io) && q.caps == cap
                  && q.queue == p.queue + if outcome == Election.Win then [EventParam(WIN_ELECTION, None, None)] else [])
            && (code == 2001 && outcome == Election.SameHost ==>
                  && q.state == CLOSED && q.initiator == None && q.responder == None && io in q.closed
                  && q.queue == p.queue)
            && (code != 2001 ==>
                  && q.state == CLOSED && q.initiator == p.initiator && q.responder == None && io in q.closed
                  && q.queue == p.queue)
  {
    hide Election.Outcome;
  }

  /**
    A CER after the own went out: one that does not deserve 2001 resets the peer and leaves the own connection; the
    own name gives both up; otherwise the peer wins exactly if its name is the higher one.
   */
  lemma LateCerIsJudged(s: Settings, p: Peer, e: EventParam, acl: seq<Avp>, io: Io)
    requires p.state == WAIT_I_CEA && Heads(p, e) && e.event == R_CONN_CER && e.msg.Some? && e.msg.value.acl == acl
    requires e.io == Some(io)
    ensures var q := PeerModel.Serve(s, p);
            var own, host := s.local.identity, Decode(acl).host;
            && q.outbox == p.outbox
            && (!(Common(s, acl) && Secure(s, acl)) ==>
                  && q.state == CLOSED && q.initiator == p.initiator && q.responder == None && io in q.closed
                  && q.queue == p.queue[1..])
            && (Common(s, acl) && Secure(s, acl) && own == host ==>
                  && q.state == CLOSED && q.initiator == None && q.responder == None && io in q.closed
                  && q.queue == p.queue[1..])
            && (Common(s, acl) && Secure(s, acl) && own != host ==>
                  && q.state == WAIT_RETURNS && q.initiator == p.initiator && q.responder == Some(io)
                  && q.caps == Decode(acl)
                  && ((exists i :: Election.HigherAt(own, host, i)) ==>
                        q.queue == p.queue[1..] + [EventParam(WIN_ELECTION, None, None)])
                  && (!(exists i :: Election.HigherAt(own, host, i)) ==> q.queue == p.queue[1..]))
  {
    CodeOfVerdict(s, acl);
    PeerAgreement.CerIsAccepted(s, p, e);
    Election.HigherNameWins(s.local.identity, Decode(acl).host);
    Election.ExactlyOneWinner(s.local.identity, Decode(acl).host);
    ElectingEnds(s, p.(queue := p.queue[1..], held := e.io, state := WAIT_RETURNS), Decode(acl), io,
                 Validate(s.local, s.tls, Decode(acl)));
    hide Decode, Validate, Common, Secure, CloseHeld, ElectIfValid, PeerModel.Serve, Election.Outcome,
         Election.HigherAt;
  }

  lemma RenegotiatingServes(s: Settings, p: Peer, e: EventParam)
    requires Heads(p, e) && e.io.None?
    requires (p.state == I_OPEN && e.event == I_RCV_CER) || (p.state == R_OPEN && e.event == R_RCV_CER)
    ensures PeerModel.Serve(s, p) == CloseHeld(Renegotiate(s, p.(queue := p.queue[1..]), e))
  {
    hide Renegotiate, CloseHeld;
    assert p.(queue := p.queue[1..], held := None, state := p.state) == p.(queue := p.queue[1..]);
  }

  lemma RenegotiatingEnds(s: Settings, p: Peer, cap: PeerCapabilities, code: nat)
    requires p.held.None? && IsOpen(p.state)
    ensures var q := CloseHeld(SendCEA(s, p.(caps := cap), code));
            && SendsOne(p, q, Cea(s, if p.state == I_OPEN then p.initiator else p.responder, code))
            && q == p.(caps := cap, outbox := q.outbox, sentAt := q.sentAt)
  {
    hide CeAvps, ResultAvps;
    assert p.closed + [] == p.closed;
  }

  /** A CER over an open connection is answered on it with the code of the new verdict; the peer stays as it was. */
  lemma OpenCerIsAnswered(s: Settings, p: Peer, e: EventParam, acl: seq<Avp>)
    requires Heads(p, e) && e.msg.Some? && e.msg.value.acl == acl && e.io.None?
    requires (p.state == I_OPEN && e.event == I_RCV_CER) || (p.state == R_OPEN && e.event == R_RCV_CER)
    ensures |PeerModel.Serve(s, p).outbox| > |p.outbox|
    ensures var q := PeerModel.Serve(s, p);
            var m := q.outbox[|p.outbox|];
            && SendsOne(p, q, m) && IsCea(s, m, if p.state == I_OPEN then p.initiator else p.responder)
            && HasCodeFor(s, m, acl)
            && q == p.(queue := p.queue[1..], caps := Decode(acl), outbox := q.outbox, sentAt := q.sentAt)
  {
    CeaHasCode(s, if p.state == I_OPEN then p.initiator else p.responder, acl);
    RenegotiatingServes(s, p, e);
    RenegotiatingEnds(s, p.(queue := p.queue[1..]), Decode(acl), Validate(s.local, s.tls, Decode(acl)));
    hide Decode, Validate, IsCea, HasCodeFor, Cea, CloseHeld, SendCEA, PeerModel.Serve;
  }

  // ---------------------------------------------------------------- what a received message leads to

  /** A peer with nothing queued receives a message and serves the event it becomes, if any. */
  ghost function Received(s: Settings, p: Peer, command: Command, request: bool, idsAccepted: bool, msg: Msg): Peer {
    match Classify(p, command, request, idsAccepted, msg)
    case None => p
    case Some(e) => if p.running then PeerModel.Serve(s, Notify(p, e)) else Notify(p, e)
  }

  predicate Resting(p: Peer) {
    p.running && p.held.None? && p.queue == []
  }

  /** The connection an open peer uses. */
  function InUse(p: Peer): Option<Io> {
    if p.state == I_OPEN then p.initiator else p.responder
  }

  /** From p to q everything was given up: closed, no timer of its own armed, both connections closed. */
  predicate GivesUp(p: Peer, q: Peer) {
    && q.running && q.state == CLOSED && q.initiator == None && q.responder == None && q.held == None && q.queue == []
    && q.timers.Keys !! {TIMEOUT_TIMER, WATCHDOG_TIMER, RETRY_TIMER} && q.caps == NO_CAPABILITIES
    && q.closed == p.closed + Opt(p.responder) + Opt(p.initiator)
  }

  /** The event taken at once: state change and action, without any other event between. */
  lemma TakenAtOnce(s: Settings, p: Peer, e: EventParam)
    requires Resting(p) && e.io.None? && Transition(p.state, e.event).Some?
    requires Transition(p.state, e.event).value.1.Some?
    ensures PeerModel.Serve(s, Notify(p, e)) ==
            CloseHeld(Apply(s, p.(state := Transition(p.state, e.event).value.0),
                            Transition(p.state, e.event).value.1.value, e))
  {
    hide Transition, Apply, CloseHeld;
    assert ([] + [e])[1..] == p.queue;
    assert p.(queue := p.queue + [e]).(queue := [], held := None) == p;
  }

  /** A message that becomes an event for which the table has this row. */
  lemma ReceivedAtOnce(s: Settings, p: Peer, command: Command, request: bool, idsAccepted: bool, msg: Msg,
                       e: EventParam, next: State, ac: Action)
    requires Resting(p) && Classify(p, command, request, idsAccepted, msg) == Some(e) && e.io.None?
    requires Transition(p.state, e.event) == Some((next, Some(ac)))
    ensures Received(s, p, command, request, idsAccepted, msg) == CloseHeld(Apply(s, p.(state := next), ac, e))
  {
    hide Classify, Transition, Apply, CloseHeld, PeerModel.Serve;
    TakenAtOnce(s, p, e);
  }

  /** What the actions of an answered exchange do. */
  lemma CeaActions(s: Settings, p: Peer, e: EventParam)
    ensures Apply(s, p, ProcessCEA, e) == OnCEA(s, p, e)
    ensures Apply(s, p, RDisconnectIOpen, e) == DisconnectInitiatorOpen(s, p, e)
  {
    hide OnCEA, DisconnectInitiatorOpen, OnDPA, Cleanup, Post, Leave, OpenIo, StartWatchdog, SendCEA, CloseInitiator,
         KeepOrTakeResponder, DoReConnect, Start, Disarm, StartTimeout, Elect, SendCER, TakeInitiator, Renegotiate,
         AcceptSendCEA, Accept, AcceptElect, CloseResponder, CloseHeld;
  }

  /** What the actions that answer late or ask do. */
  lemma AnswerActions(s: Settings, p: Peer, e: EventParam)
    ensures Apply(s, p, IDisconnectSendCEA, e) == StartWatchdog(s, SendCEA(s, CloseInitiator(p), AAA_SUCCESS))
    ensures Apply(s, p, SendWatchdog, e) == Post(p, DWR, OpenIo(p), [], 0)
  {
    hide OnCEA, DisconnectInitiatorOpen, OnDPA, Cleanup, Post, Leave, OpenIo, StartWatchdog, SendCEA, CloseInitiator,
         KeepOrTakeResponder, DoReConnect, Start, Disarm, StartTimeout, Elect, SendCER, TakeInitiator, Renegotiate,
         AcceptSendCEA, Accept, AcceptElect, CloseResponder, CloseHeld;
  }

  /** What the actions around a disconnect answer do. */
  lemma DpaActions(s: Settings, p: Peer, e: EventParam)
    ensures Apply(s, p, DisconnectDPA, e) == OnDPA(s, p)
    ensures Apply(s, p, ISendDPADisconnect, e) == Cleanup(Post(p, DPA, p.initiator, [], AAA_SUCCESS), false)
    ensures Apply(s, p, RSendDPADisconnect, e) == Cleanup(Post(p, DPA, p.responder, [], AAA_SUCCESS), false)
  {
    hide OnCEA, DisconnectInitiatorOpen, OnDPA, Cleanup, Post, Leave, OpenIo, StartWatchdog, SendCEA, CloseInitiator,
         KeepOrTakeResponder, DoReConnect, Start, Disarm, StartTimeout, Elect, SendCER, TakeInitiator, Renegotiate,
         AcceptSendCEA, Accept, AcceptElect, CloseResponder, CloseHeld;
  }

  /** What the action of a lost connection does. */
  lemma LossActions(s: Settings, p: Peer, e: EventParam)
    ensures Apply(s, p, DoDisconnect, e) == DoReConnect(s, Cleanup(p, false))
  {
    hide OnCEA, DisconnectInitiatorOpen, OnDPA, Cleanup, Post, Leave, OpenIo, StartWatchdog, SendCEA, CloseInitiator,
         KeepOrTakeResponder, DoReConnect, Start, Disarm, StartTimeout, Elect, SendCER, TakeInitiator, Renegotiate,
         AcceptSendCEA, Accept, AcceptElect, CloseResponder, CloseHeld;
  }

  /** What the actions of a stop do. */
  lemma DprActions(s: Settings, p: Peer, e: EventParam)
    ensures Apply(s, p, ISendDPR, e) == Leave(p, p.initiator)
    ensures Apply(s, p, RSendDPR, e) == Leave(p, p.responder)
  {
    hide OnCEA, DisconnectInitiatorOpen, OnDPA, Cleanup, Post, Leave, OpenIo, StartWatchdog, SendCEA, CloseInitiator,
         KeepOrTakeResponder, DoReConnect, Start, Disarm, StartTimeout, Elect, SendCER, TakeInitiator, Renegotiate,
         AcceptSendCEA, Accept, AcceptElect, CloseResponder, CloseHeld;
  }

  lemma PassedOver(s: Settings, p: Peer, e: EventParam)
    requires Resting(p) && e.io.None? && Transition(p.state, e.event).None?
    ensures PeerModel.Serve(s, Notify(p, e)) == p
  {
    hide Transition, Apply;
    assert ([] + [e])[1..] == p.queue;
    assert p.(queue := p.queue + [e]).(queue := [], held := None) == p;
    assert p.closed + [] == p.closed;
  }

  lemma CleanupGivesUp(p: Peer)
    requires Resting(p)
    ensures GivesUp(p, CloseHeld(Cleanup(p, false)))
    ensures CloseHeld(Cleanup(p, false)).outbox == p.outbox
  {
    assert p.closed + Opt(p.responder) + Opt(p.initiator) + [] == p.closed + Opt(p.responder) + Opt(p.initiator);
  }

  lemma WatchdogBecomes(p: Peer, idsAccepted: bool, msg: Msg)
    requires Resting(p) && p.state in {I_OPEN, R_OPEN}
    ensures var e := EventParam(if p.state == I_OPEN then I_RCV_DWR else R_RCV_DWR, Some(msg), None);
            && Classify(p, DeviceWatchdog, true, idsAccepted, msg) == Some(e)
            && Transition(p.state, e.event) == Some((p.state, Some(ProcessDWRSendDWA)))
    ensures var e := EventParam(if p.state == I_OPEN then I_RCV_DWA else R_RCV_DWA, Some(msg), None);
            && Classify(p, DeviceWatchdog, false, true, msg) == Some(e)
            && Transition(p.state, e.event) == Some((p.state, Some(ProcessDWA)))
  {
  }

  /** A watchdog request over an open connection is answered on it with 2001, and nothing else changes. */
  lemma WatchdogsAreAnswered(s: Settings, p: Peer, idsAccepted: bool, msg: Msg)
    requires Resting(p) && p.state in {I_OPEN, R_OPEN}
    ensures var q := Received(s, p, DeviceWatchdog, true, idsAccepted, msg);
            SendsOne(p, q, Sent(DWA, InUse(p), [], 2001)) && q == p.(outbox := q.outbox, sentAt := q.sentAt)
  {
    var e := EventParam(if p.state == I_OPEN then I_RCV_DWR else R_RCV_DWR, Some(msg), None);
    WatchdogBecomes(p, idsAccepted, msg);
    hide Classify, Transition, Received;
    ReceivedAtOnce(s, p, DeviceWatchdog, true, idsAccepted, msg, e, p.state, ProcessDWRSendDWA);
    assert p.closed + [] == p.closed;
  }

  lemma DisconnectBecomes(p: Peer, idsAccepted: bool, msg: Msg)
    requires Resting(p) && p.state in {I_OPEN, R_OPEN}
    ensures var e := EventParam(if p.state == I_OPEN then I_RCV_DPR else R_RCV_DPR, Some(msg), None);
            && Classify(p, DisconnectPeer, true, idsAccepted, msg) == Some(e)
            && Transition(p.state, e.event) ==
                 Some((CLOSED, Some(if p.state == I_OPEN then ISendDPADisconnect else RSendDPADisconnect)))
  {
  }

  lemma DisconnectServes(s: Settings, p: Peer, idsAccepted: bool, msg: Msg)
    requires Resting(p) && p.state in {I_OPEN, R_OPEN}
    ensures Received(s, p, DisconnectPeer, true, idsAccepted, msg) ==
            CloseHeld(Cleanup(Post(p.(state := CLOSED), DPA, InUse(p), [], 2001), false))
  {
    var e := EventParam(if p.state == I_OPEN then I_RCV_DPR else R_RCV_DPR, Some(msg), None);
    DisconnectBecomes(p, idsAccepted, msg);
    DpaActions(s, p.(state := CLOSED), e);
    hide *;
    ReceivedAtOnce(s, p, DisconnectPeer, true, idsAccepted, msg, e, CLOSED,
                   if p.state == I_OPEN then ISendDPADisconnect else RSendDPADisconnect);
  }

  /** A disconnect request over an open connection is answered on it with 2001; then everything is given up. */
  lemma DisconnectsAreAnswered(s: Settings, p: Peer, idsAccepted: bool, msg: Msg)
    requires Resting(p) && p.state in {I_OPEN, R_OPEN}
    ensures var q := Received(s, p, DisconnectPeer, true, idsAccepted, msg);
            SendsOne(p, q, Sent(DPA, InUse(p), [], 2001)) && GivesUp(p, q)
  {
    DisconnectServes(s, p, idsAccepted, msg);
    CleanupGivesUp(Post(p.(state := CLOSED), DPA, InUse(p), [], 2001));
    hide Received, Cleanup, CloseHeld;
  }

  lemma NegotiationBecomes(p: Peer, idsAccepted: bool, msg: Msg)
    requires Resting(p) && p.state in {I_OPEN, R_OPEN}
    ensures Classify(p, CapabilitiesExchange, true, idsAccepted, msg) ==
            Some(EventParam(if p.state == I_OPEN then I_RCV_CER else R_RCV_CER, Some(msg), None))
  {
  }

  /** A CER over an open connection is answered on it as its capabilities deserve. */
  lemma NegotiationsAreAnswered(s: Settings, p: Peer, idsAccepted: bool, msg: Msg)
    requires Resting(p) && p.state in {I_OPEN, R_OPEN}
    ensures |Received(s, p, CapabilitiesExchange, true, idsAccepted, msg).outbox| > |p.outbox|
    ensures var q := Received(s, p, CapabilitiesExchange, true, idsAccepted, msg);
            var m := q.outbox[|p.outbox|];
            && SendsOne(p, q, m) && IsCea(s, m, InUse(p)) && HasCodeFor(s, m, msg.acl)
            && q == p.(caps := Decode(msg.acl), outbox := q.outbox, sentAt := q.sentAt)
  {
    var e := EventParam(if p.state == I_OPEN then I_RCV_CER else R_RCV_CER, Some(msg), None);
    NegotiationBecomes(p, idsAccepted, msg);
    assert ([] + [e])[1..] == p.queue;
    hide PeerModel.Serve, IsCea, HasCodeFor, Decode, Classify;
    OpenCerIsAnswered(s, Notify(p, e), e, msg.acl);
  }

  lemma WatchdogAnswerServes(s: Settings, p: Peer, msg: Msg)
    requires Resting(p) && p.state in {I_OPEN, R_OPEN}
    ensures Received(s, p, DeviceWatchdog, false, true, msg) ==
            CloseHeld(if 2000 <= msg.resultCode < 3000 then p else Cleanup(p, false))
  {
    var e := EventParam(if p.state == I_OPEN then I_RCV_DWA else R_RCV_DWA, Some(msg), None);
    WatchdogBecomes(p, true, msg);
    hide Received, Cleanup, CloseHeld, Classify, Transition;
    ReceivedAtOnce(s, p, DeviceWatchdog, false, true, msg, e, p.state, ProcessDWA);
    assert p.(state := p.state) == p;
  }

  /** A watchdog answer changes nothing if it reports success; otherwise everything is given up. */
  lemma FailedWatchdogsGiveUp(s: Settings, p: Peer, msg: Msg)
    requires Resting(p) && p.state in {I_OPEN, R_OPEN}
    ensures var q := Received(s, p, DeviceWatchdog, false, true, msg);
            && (2000 <= msg.resultCode < 3000 ==> q == p)
            && (!(2000 <= msg.resultCode < 3000) ==> GivesUp(p, q) && q.outbox == p.outbox)
  {
    WatchdogAnswerServes(s, p, msg);
    CleanupGivesUp(p);
    hide Received, Cleanup;
    assert p.closed + [] == p.closed;
  }

  lemma CeaBecomes(p: Peer, msg: Msg)
    requires Resting(p) && p.state in {WAIT_I_CEA, I_OPEN, R_OPEN}
    ensures var e := EventParam(if p.state == R_OPEN then R_RCV_CEA else I_RCV_CEA, Some(msg), None);
            && Classify(p, CapabilitiesExchange, false, true, msg) == Some(e)
            && Transition(p.state, e.event) == Some((if p.state == R_OPEN then R_OPEN else I_OPEN, Some(ProcessCEA)))
  {
  }

  lemma CeaEffect(s: Settings, p: Peer, e: EventParam)
    requires e.msg.Some?
    ensures OnCEA(s, p, e) ==
            if 2000 <= e.msg.value.resultCode < 3000
            then StartWatchdog(s, Disarm(p.(caps := Decode(e.msg.value.acl)), RETRY_TIMER)) else Cleanup(p, false)
  {
  }

  lemma CeaServes(s: Settings, p: Peer, msg: Msg)
    requires Resting(p) && p.state in {WAIT_I_CEA, I_OPEN, R_OPEN}
    ensures var m := if p.state == WAIT_I_CEA then p.(state := I_OPEN) else p;
            Received(s, p, CapabilitiesExchange, false, true, msg) ==
            CloseHeld(if 2000 <= msg.resultCode < 3000
                      then StartWatchdog(s, Disarm(m.(caps := Decode(msg.acl)), RETRY_TIMER)) else Cleanup(m, false))
  {
    var e := EventParam(if p.state == R_OPEN then R_RCV_CEA else I_RCV_CEA, Some(msg), None);
    var next := if p.state == R_OPEN then R_OPEN else I_OPEN;
    CeaBecomes(p, msg);
    CeaEffect(s, p.(state := next), e);
    CeaActions(s, p.(state := next), e);
    hide *;
    ReceivedAtOnce(s, p, CapabilitiesExchange, false, true, msg, e, next, ProcessCEA);
    assert p.(state := p.state) == p;
  }

  /**
    An accepted CEA opens a peer that waits for it, and keeps an open one open, exactly if it reports success; the
    capabilities it carries are learned and the watchdog is armed. Otherwise everything is given up.
   */
  lemma SuccessfulCeaOpens(s: Settings, p: Peer, msg: Msg)
    requires Resting(p) && p.state in {WAIT_I_CEA, I_OPEN, R_OPEN}
    ensures var q := Received(s, p, CapabilitiesExchange, false, true, msg);
            && q.outbox == p.outbox
            && (2000 <= msg.resultCode < 3000 ==>
                  && q.state == (if p.state == R_OPEN then R_OPEN else I_OPEN)
                  && q.initiator == p.initiator && q.responder == p.responder && q.closed == p.closed
                  && q.caps == Decode(msg.acl) && WATCHDOG_TIMER in q.timers
                  && q.timers[WATCHDOG_TIMER] == Timer(WATCHDOG, s.watchdogTimeout)
                  && TIMEOUT_TIMER !in q.timers && RETRY_TIMER !in q.timers)
            && (!(2000 <= msg.resultCode < 3000) ==> GivesUp(p, q))
  {
    CeaServes(s, p, msg);
    CleanupGivesUp(if p.state == WAIT_I_CEA then p.(state := I_OPEN) else p);
    hide Received, Cleanup, Decode;
    assert p.closed + [] == p.closed;
  }

  /** An answer with ids that are not outstanding, a message the state has no use for, or one for the router. */
  predicate Unexpected(st: State, command: Command, request: bool, idsAccepted: bool) {
    match st
    case I_OPEN | R_OPEN => command == Other || (!request && (!idsAccepted || command == DisconnectPeer))
    case CLOSING => request || !idsAccepted || command != DisconnectPeer
    case WAIT_RETURNS => request || !idsAccepted || command != CapabilitiesExchange
    case WAIT_I_CEA => !request && !idsAccepted && command == CapabilitiesExchange
    case _ => true
  }

  /** Such messages leave the machine as it is. */
  lemma UnexpectedMessagesDoNothing(s: Settings, p: Peer, command: Command, request: bool, idsAccepted: bool, msg: Msg)
    requires Resting(p) && Unexpected(p.state, command, request, idsAccepted)
    ensures Received(s, p, command, request, idsAccepted, msg) == p
  {
    var c := Classify(p, command, request, idsAccepted, msg);
    UnexpectedIsIgnored(p, command, request, idsAccepted, msg);
    hide Classify, Apply, PeerModel.Serve;
    if c.Some? {
      if Transition(p.state, c.value.event).None? {
        PassedOver(s, p, c.value);
      } else if Transition(p.state, c.value.event).value.1.None? {
        OnlyMoves(s, p, c.value);
      } else {
        TakenAtOnce(s, p, c.value);
        assert Apply(s, p, Process, c.value) == p by { ProcessingDoesNothing(s, p, c.value); }
        assert p.closed + [] == p.closed;
      }
    }
  }

  lemma ProcessingDoesNothing(s: Settings, p: Peer, e: EventParam)
    ensures Apply(s, p, Process, e) == p
  {
  }

  lemma OnlyMoves(s: Settings, p: Peer, e: EventParam)
    requires Resting(p) && e.io.None? && Transition(p.state, e.event) == Some((p.state, None))
    ensures PeerModel.Serve(s, Notify(p, e)) == p
  {
    hide Transition, Apply;
    assert ([] + [e])[1..] == p.queue;
    assert p.(queue := p.queue + [e]).(queue := [], held := None, state := p.state) == p;
    assert p.closed + [] == p.closed;
  }

  lemma UnexpectedIsIgnored(p: Peer, command: Command, request: bool, idsAccepted: bool, msg: Msg)
    requires Resting(p) && Unexpected(p.state, command, request, idsAccepted)
    ensures var c := Classify(p, command, request, idsAccepted, msg);
            c.Some? ==>
              && c.value.io.None?
              && Transition(p.state, c.value.event) in {None, Some((p.state, None)), Some((p.state, Some(Process)))}
  {
  }

  lemma DpaBecomes(p: Peer, msg: Msg)
    requires Resting(p) && p.state == CLOSING
    ensures var e := EventParam(if p.initiator.Some? then I_RCV_DPA else R_RCV_DPA, Some(msg), None);
            && Classify(p, DisconnectPeer, false, true, msg) == Some(e)
            && Transition(p.state, e.event) == Some((CLOSED, Some(DisconnectDPA)))
  {
  }

  lemma DpaServes(s: Settings, p: Peer, msg: Msg)
    requires Resting(p) && p.state == CLOSING
    ensures Received(s, p, DisconnectPeer, false, true, msg) == CloseHeld(OnDPA(s, p.(state := CLOSED)))
  {
    var e := EventParam(if p.initiator.Some? then I_RCV_DPA else R_RCV_DPA, Some(msg), None);
    DpaBecomes(p, msg);
    DpaActions(s, p.(state := CLOSED), e);
    hide *;
    ReceivedAtOnce(s, p, DisconnectPeer, false, true, msg, e, CLOSED, DisconnectDPA);
  }

  lemma RetriesAfterDpa(s: Settings, p: Peer)
    requires Resting(p)
    ensures var q, c := CloseHeld(OnDPA(s, p.(state := CLOSED))), CloseHeld(Cleanup(p.(state := CLOSED), false));
            && q == c.(timers := q.timers, attempts := q.attempts) && q.timers - {RETRY_TIMER} == c.timers
            && (RETRY_TIMER in q.timers <==>
                  p.cause == REBOOTING && p.attempts < s.reconnectMax && s.reconnectInterval > 0)
  {
  }

  /** While closing, the answer to the own disconnect request gives everything up; a rebooting peer is tried again. */
  lemma DpaEndsClosing(s: Settings, p: Peer, msg: Msg)
    requires Resting(p) && p.state == CLOSING
    ensures var q := Received(s, p, DisconnectPeer, false, true, msg);
            && q.outbox == p.outbox && GivesUp(p, q.(timers := q.timers - {RETRY_TIMER}))
            && (RETRY_TIMER in q.timers <==>
                  p.cause == REBOOTING && p.attempts < s.reconnectMax && s.reconnectInterval > 0)
  {
    DpaServes(s, p, msg);
    CleanupGivesUp(p.(state := CLOSED));
    hide Received, Classify;
    RetriesAfterDpa(s, p);
  }

  lemma NonCeaServes(s: Settings, p: Peer, command: Command, request: bool, idsAccepted: bool, msg: Msg)
    requires Resting(p) && p.state == WAIT_I_CEA && (request || command != CapabilitiesExchange)
    ensures Received(s, p, command, request, idsAccepted, msg) == CloseHeld(Cleanup(p.(state := CLOSED), false))
  {
    assert Transition(WAIT_I_CEA, I_RCV_NON_CEA) == Some((CLOSED, Some(ReportError)));
    hide Received, Cleanup, CloseHeld, Transition;
    var e := EventParam(I_RCV_NON_CEA, None, None);
    ReceivedAtOnce(s, p, command, request, idsAccepted, msg, e, CLOSED, ReportError);
  }

  /** Anything but a CEA makes a peer that waits for one give up. */
  lemma OnlyCeaIsWaitedFor(s: Settings, p: Peer, command: Command, request: bool, idsAccepted: bool, msg: Msg)
    requires Resting(p) && p.state == WAIT_I_CEA && (request || command != CapabilitiesExchange)
    ensures var q := Received(s, p, command, request, idsAccepted, msg);
            GivesUp(p, q) && q.outbox == p.outbox
  {
    NonCeaServes(s, p, command, request, idsAccepted, msg);
    CleanupGivesUp(p.(state := CLOSED));
    hide Received, Cleanup, CloseHeld;
  }

  lemma LateCeaBecomes(p: Peer, msg: Msg)
    requires p.state == WAIT_RETURNS
    ensures Classify(p, CapabilitiesExchange, false, true, msg) == Some(EventParam(I_RCV_CEA, Some(msg), None))
    ensures Transition(WAIT_RETURNS, I_RCV_CEA) == Some((I_OPEN, Some(RDisconnectIOpen)))
  {
  }

  lemma LateCeaEffect(s: Settings, p: Peer, msg: Msg)
    ensures DisconnectInitiatorOpen(s, p, EventParam(I_RCV_CEA, Some(msg), None)) ==
            if 2000 <= msg.resultCode < 3000 then CloseResponder(StartWatchdog(s, p.(caps := Decode(msg.acl))))
            else Cleanup(p, false)
  {
  }

  lemma LateCeaAtOnce(s: Settings, p: Peer, msg: Msg)
    requires Resting(p) && p.state == WAIT_RETURNS
    ensures Received(s, p, CapabilitiesExchange, false, true, msg) ==
            CloseHeld(DisconnectInitiatorOpen(s, p.(state := I_OPEN), EventParam(I_RCV_CEA, Some(msg), None)))
  {
    LateCeaBecomes(p, msg);
    CeaActions(s, p.(state := I_OPEN), EventParam(I_RCV_CEA, Some(msg), None));
    hide *;
    ReceivedAtOnce(s, p, CapabilitiesExchange, false, true, msg, EventParam(I_RCV_CEA, Some(msg), None), I_OPEN,
                   RDisconnectIOpen);
  }

  lemma LateCeaServes(s: Settings, p: Peer, msg: Msg)
    requires Resting(p) && p.state == WAIT_RETURNS
    ensures Received(s, p, CapabilitiesExchange, false, true, msg) ==
            CloseHeld(if 2000 <= msg.resultCode < 3000
                      then CloseResponder(StartWatchdog(s, p.(state := I_OPEN, caps := Decode(msg.acl))))
                      else Cleanup(p.(state := I_OPEN), false))
  {
    LateCeaAtOnce(s, p, msg);
    LateCeaEffect(s, p.(state := I_OPEN), msg);
    hide *;
  }

  /** A CEA during the election settles it: the own connection opens and the accepted one is closed. */
  lemma LosersOpen(s: Settings, p: Peer, msg: Msg)
    requires Resting(p) && p.state == WAIT_RETURNS
    ensures var q := Received(s, p, CapabilitiesExchange, false, true, msg);
            && q.outbox == p.outbox
            && (2000 <= msg.resultCode < 3000 ==>
                  && q.state == I_OPEN && q.initiator == p.initiator && q.responder == None
                  && q.closed == p.closed + Opt(p.responder) && q.caps == Decode(msg.acl))
            && (!(2000 <= msg.resultCode < 3000) ==> GivesUp(p, q))
  {
    LateCeaServes(s, p, msg);
    CleanupGivesUp(p.(state := I_OPEN));
    hide Received, Cleanup, Decode;
    assert p.closed + Opt(p.responder) + [] == p.closed + Opt(p.responder);
  }

  // ---------------------------------------------------------------- what a peer sends of its own accord

  /** What a peer serves an event into when nothing else is queued. */
  ghost function Taken(s: Settings, p: Peer, ev: Event): Peer
    requires p.running
  {
    PeerModel.Serve(s, Notify(p, EventParam(ev, None, None)))
  }

  lemma WinBecomes(ev: Event)
    requires ev == WIN_ELECTION || ev == I_PEER_DISC
    ensures Transition(WAIT_RETURNS, ev) == Some((R_OPEN, Some(IDisconnectSendCEA)))
  {
  }

  lemma WinServes(s: Settings, p: Peer, ev: Event)
    requires Resting(p) && p.state == WAIT_RETURNS && (ev == WIN_ELECTION || ev == I_PEER_DISC)
    ensures Taken(s, p, ev) ==
            CloseHeld(StartWatchdog(s, SendCEA(s, CloseInitiator(p.(state := R_OPEN)), AAA_SUCCESS)))
  {
    WinBecomes(ev);
    AnswerActions(s, p.(state := R_OPEN), EventParam(ev, None, None));
    hide Apply, PeerModel.Serve, Transition, CloseHeld, StartWatchdog, SendCEA, CloseInitiator;
    TakenAtOnce(s, p, EventParam(ev, None, None));
  }

  lemma WinEnds(s: Settings, p: Peer)
    requires Resting(p) && p.state == R_OPEN
    ensures var q := CloseHeld(StartWatchdog(s, SendCEA(s, CloseInitiator(p), AAA_SUCCESS)));
            && SendsOne(p, q, Cea(s, p.responder, 2001))
            && q.state == R_OPEN && q.initiator == None && q.responder == p.responder && q.caps == p.caps
            && q.closed == p.closed + Opt(p.initiator)
  {
    hide CeAvps, ResultAvps;
    assert p.closed + Opt(p.initiator) + [] == p.closed + Opt(p.initiator);
  }

  /** The election won, or the own connection lost meanwhile: the accepted connection is answered with 2001. */
  lemma WinnersAnswer(s: Settings, p: Peer, ev: Event)
    requires Resting(p) && p.state == WAIT_RETURNS && (ev == WIN_ELECTION || ev == I_PEER_DISC)
    ensures |Taken(s, p, ev).outbox| > |p.outbox|
    ensures var q := Taken(s, p, ev);
            var m := q.outbox[|p.outbox|];
            && SendsOne(p, q, m) && IsCea(s, m, p.responder) && m.resultCode == 2001
            && q.state == R_OPEN && q.initiator == None && q.responder == p.responder && q.caps == p.caps
            && q.closed == p.closed + Opt(p.initiator)
  {
    WinServes(s, p, ev);
    WinEnds(s, p.(state := R_OPEN));
    PostedIsCea(s, p.responder, 2001);
    hide Taken, CloseHeld, StartWatchdog, SendCEA, CloseInitiator, IsCea, CeAvps, ResultAvps;
  }

  lemma NackServes(s: Settings, p: Peer)
    requires Resting(p) && p.state == WAIT_CONN_ACK_ELECT
    ensures Taken(s, p, I_RCV_CONN_NACK) ==
            CloseHeld(StartWatchdog(s, SendCEA(s, p.(state := R_OPEN), AAA_SUCCESS)))
  {
    assert Transition(WAIT_CONN_ACK_ELECT, I_RCV_CONN_NACK) == Some((R_OPEN, Some(RSendCEA)));
    hide PeerModel.Serve, Transition, CloseHeld, StartWatchdog, SendCEA;
    TakenAtOnce(s, p, EventParam(I_RCV_CONN_NACK, None, None));
  }

  lemma NackEnds(s: Settings, p: Peer)
    requires Resting(p) && p.state == R_OPEN
    ensures var q := CloseHeld(StartWatchdog(s, SendCEA(s, p, AAA_SUCCESS)));
            && SendsOne(p, q, Cea(s, p.responder, 2001))
            && q.state == R_OPEN && q.responder == p.responder && q.caps == p.caps && q.closed == p.closed
  {
    hide CeAvps, ResultAvps;
    assert p.closed + [] == p.closed;
  }

  /** A connection attempt refused while a CER was accepted: that connection is answered with 2001 and open. */
  lemma NackAnswersTheCer(s: Settings, p: Peer)
    requires Resting(p) && p.state == WAIT_CONN_ACK_ELECT
    ensures |Taken(s, p, I_RCV_CONN_NACK).outbox| > |p.outbox|
    ensures var q := Taken(s, p, I_RCV_CONN_NACK);
            var m := q.outbox[|p.outbox|];
            && SendsOne(p, q, m) && IsCea(s, m, p.responder) && m.resultCode == 2001
            && q.state == R_OPEN && q.responder == p.responder && q.caps == p.caps && q.closed == p.closed
  {
    NackServes(s, p);
    NackEnds(s, p.(state := R_OPEN));
    PostedIsCea(s, p.responder, 2001);
    hide Taken, CloseHeld, StartWatchdog, SendCEA, IsCea, CeAvps, ResultAvps;
  }

  lemma WatchdogServes(s: Settings, p: Peer)
    requires Resting(p) && p.state in {I_OPEN, R_OPEN}
    ensures Taken(s, p, WATCHDOG) == CloseHeld(Post(p, DWR, InUse(p), [], 0))
  {
    assert Transition(p.state, WATCHDOG) == Some((p.state, Some(SendWatchdog)));
    AnswerActions(s, p, EventParam(WATCHDOG, None, None));
    hide PeerModel.Serve, Transition, Apply, CloseHeld, Post;
    assert p.(state := p.state) == p;
    TakenAtOnce(s, p, EventParam(WATCHDOG, None, None));
  }

  /** The watchdog timer sends a request over the open connection and changes nothing else; it stays armed. */
  lemma WatchdogsAreSent(s: Settings, p: Peer)
    requires Resting(p) && p.state in {I_OPEN, R_OPEN}
    ensures var q := Taken(s, p, WATCHDOG);
            SendsOne(p, q, Sent(DWR, InUse(p), [], 0)) && q == p.(outbox := q.outbox, sentAt := q.sentAt)
  {
    WatchdogServes(s, p);
    hide Taken;
    assert p.closed + [] == p.closed;
  }

  lemma StopServes(s: Settings, p: Peer)
    requires Resting(p) && p.state in {I_OPEN, R_OPEN}
    ensures Taken(s, p, STOP) == CloseHeld(Leave(p.(state := CLOSING), InUse(p)))
  {
    assert Transition(p.state, STOP) == Some((CLOSING, Some(if p.state == I_OPEN then ISendDPR else RSendDPR)));
    DprActions(s, p.(state := CLOSING), EventParam(STOP, None, None));
    hide PeerModel.Serve, Transition, Apply, CloseHeld, Leave;
    TakenAtOnce(s, p, EventParam(STOP, None, None));
  }

  /** A stop sends a disconnect request over the open connection and waits 30 seconds for the answer. */
  lemma StopsAreAnnounced(s: Settings, p: Peer)
    requires Resting(p) && p.state in {I_OPEN, R_OPEN}
    ensures var q := Taken(s, p, STOP);
            && SendsOne(p, q, Sent(DPR, InUse(p), [], 0))
            && q.state == CLOSING && q.initiator == p.initiator && q.responder == p.responder && q.closed == p.closed
            && q.timers == p.timers[TIMEOUT_TIMER := Timer(TIMEOUT, 30)] - {WATCHDOG_TIMER}
  {
    StopServes(s, p);
    hide Taken;
    assert p.closed + [] == p.closed;
  }

  lemma AckServes(s: Settings, p: Peer, io: Io)
    requires Resting(p) && p.state == WAIT_CONN_ACK
    ensures PeerModel.Serve(s, Notify(p, EventParam(I_RCV_CONN_ACK, None, Some(io)))) ==
            CloseHeld(SendCER(s, TakeInitiator(p.(state := WAIT_I_CEA, held := Some(io)))))
  {
    assert Transition(WAIT_CONN_ACK, I_RCV_CONN_ACK) == Some((WAIT_I_CEA, Some(ISendCER)));
    assert ([] + [EventParam(I_RCV_CONN_ACK, None, Some(io))])[1..] == p.queue;
    hide Transition, CloseHeld, SendCER, TakeInitiator;
  }

  /** A connection that comes up carries a CER with this side's capabilities. */
  lemma ConnectionsAreIntroduced(s: Settings, p: Peer, io: Io)
    requires Resting(p) && p.state == WAIT_CONN_ACK
    ensures |PeerModel.Serve(s, Notify(p, EventParam(I_RCV_CONN_ACK, None, Some(io)))).outbox| > |p.outbox|
    ensures var q := PeerModel.Serve(s, Notify(p, EventParam(I_RCV_CONN_ACK, None, Some(io))));
            var m := q.outbox[|p.outbox|];
            && SendsOne(p, q, m) && m.kind == CER && m.io == Some(io)
            && Decode(m.acl) == CapabilitiesOf(s.local, s.tls)
            && q.state == WAIT_I_CEA && q.initiator == Some(io)
  {
    RoundTrip(s.local, s.tls, []);
    assert CeAvps(s.local, s.tls) + [] == CeAvps(s.local, s.tls);
    AckServes(s, p, io);
    hide Decode, CeAvps, CapabilitiesOf, PeerModel.Serve;
  }

  // ---------------------------------------------------------------- trying again

  lemma LossServes(s: Settings, p: Peer, ev: Event)
    requires Resting(p) && Transition(p.state, ev) == Some((CLOSED, Some(DoDisconnect)))
    ensures Taken(s, p, ev) == CloseHeld(DoReConnect(s, Cleanup(p.(state := CLOSED), false)))
  {
    LossActions(s, p.(state := CLOSED), EventParam(ev, None, None));
    hide PeerModel.Serve, Transition, Apply, CloseHeld, DoReConnect, Cleanup;
    TakenAtOnce(s, p, EventParam(ev, None, None));
  }

  lemma LossEnds(s: Settings, p: Peer)
    requires Resting(p)
    ensures var q, c := CloseHeld(DoReConnect(s, Cleanup(p, false))), CloseHeld(Cleanup(p, false));
            && q == c.(timers := q.timers, attempts := q.attempts) && q.timers - {RETRY_TIMER} == c.timers
            && (RETRY_TIMER in q.timers <==> p.attempts < s.reconnectMax && s.reconnectInterval > 0)
            && (RETRY_TIMER in q.timers ==> q.timers[RETRY_TIMER] == Timer(CONN_RETRY, s.reconnectInterval))
  {
  }

  lemma LossBecomes(st: State, ev: Event)
    requires (st == I_OPEN && ev == I_PEER_DISC) || (st == R_OPEN && ev == R_PEER_DISC)
             || (st == WAIT_I_CEA && ev == I_PEER_DISC) || (st == CLOSING && (ev == I_PEER_DISC || ev == R_PEER_DISC))
    ensures Transition(st, ev) == Some((CLOSED, Some(DoDisconnect)))
  {
  }

  /** A peer that loses its connection gives up and sends nothing; it tries again after the configured interval. */
  lemma LostPeersTryAgain(s: Settings, p: Peer, ev: Event)
    requires Resting(p)
    requires (p.state == I_OPEN && ev == I_PEER_DISC) || (p.state == R_OPEN && ev == R_PEER_DISC)
             || (p.state == WAIT_I_CEA && ev == I_PEER_DISC)
             || (p.state == CLOSING && (ev == I_PEER_DISC || ev == R_PEER_DISC))
    ensures var q := Taken(s, p, ev);
            && q.outbox == p.outbox && GivesUp(p, q.(timers := q.timers - {RETRY_TIMER}))
            && (RETRY_TIMER in q.timers <==> p.attempts < s.reconnectMax && s.reconnectInterval > 0)
            && (RETRY_TIMER in q.timers ==> q.timers[RETRY_TIMER] == Timer(CONN_RETRY, s.reconnectInterval))
  {
    LossBecomes(p.state, ev);
    hide Taken, Transition, Cleanup, DoReConnect, CloseHeld;
    LossServes(s, p, ev);
    LossEnds(s, p.(state := CLOSED));
    CleanupGivesUp(p.(state := CLOSED));
  }

  /** A connection attempt that fails; if that arms the retry timer, the timer then fires and is served. */
  ghost function FailedAttempt(s: Settings, p: Peer): Peer
    requires p.running
  {
    var q := Taken(s, p, I_RCV_CONN_NACK);
    if RETRY_TIMER in q.timers && q.running then
      var r := Taken(s, q, q.timers[RETRY_TIMER].event);
      if r.queue != [] then PeerModel.Serve(s, r) else r
    else q
  }

  ghost function FailedAttempts(s: Settings, p: Peer, n: nat): Peer
    requires p.running
  {
    if n == 0 then p
    else
      var q := FailedAttempts(s, p, n - 1);
      if q.running then FailedAttempt(s, q) else q
  }

  /** Waiting for a connect that was tried again so many times already. */
  predicate Trying(p: Peer, attempts: nat, connects: nat) {
    && Resting(p) && p.state == WAIT_CONN_ACK && p.initiator == None && p.responder == None
    && RETRY_TIMER !in p.timers && p.attempts == attempts && p.connects == connects
  }

  lemma NackAtOnce(s: Settings, p: Peer)
    requires Resting(p) && p.state == WAIT_CONN_ACK
    ensures Taken(s, p, I_RCV_CONN_NACK) == CloseHeld(DoReConnect(s, Cleanup(p.(state := CLOSED), false)))
  {
    assert Transition(WAIT_CONN_ACK, I_RCV_CONN_NACK) == Some((CLOSED, Some(ConnNack)));
    hide PeerModel.Serve, Transition, CloseHeld, DoReConnect, Cleanup;
    TakenAtOnce(s, p, EventParam(I_RCV_CONN_NACK, None, None));
  }

  lemma RetryAtOnce(s: Settings, p: Peer)
    requires Resting(p) && p.state == CLOSED
    ensures Taken(s, p, CONN_RETRY) == CloseHeld(Start(Disarm(p, RETRY_TIMER)))
    ensures Taken(s, p, START) == CloseHeld(StartTimeout(p.(state := WAIT_CONN_ACK)))
  {
    assert Transition(CLOSED, CONN_RETRY) == Some((CLOSED, Some(Retry)));
    assert Transition(CLOSED, START) == Some((WAIT_CONN_ACK, Some(ISendConnReq)));
    hide PeerModel.Serve, Transition, CloseHeld, Start, Disarm, StartTimeout;
    TakenAtOnce(s, p, EventParam(CONN_RETRY, None, None));
    TakenAtOnce(s, p, EventParam(START, None, None));
  }

  lemma AfterNack(s: Settings, p: Peer)
    requires Trying(p, p.attempts, p.connects)
    ensures var q := CloseHeld(DoReConnect(s, Cleanup(p.(state := CLOSED), false)));
            && Resting(q) && q.state == CLOSED && q.initiator == None && q.responder == None && q.connects == p.connects
            && q.timers.Keys !! {TIMEOUT_TIMER, WATCHDOG_TIMER}
            && (RETRY_TIMER in q.timers <==> p.attempts < s.reconnectMax && s.reconnectInterval > 0)
            && (RETRY_TIMER in q.timers ==> q.timers[RETRY_TIMER].event == CONN_RETRY && q.attempts == p.attempts + 1)
            && (p.attempts >= s.reconnectMax ==> q.attempts == 0)
  {
  }

  lemma TriesAgain(s: Settings, p: Peer)
    requires Resting(p) && p.state == CLOSED && p.initiator == None && p.responder == None
    ensures var r := Taken(s, p, CONN_RETRY);
            r.queue != [] && Trying(PeerModel.Serve(s, r), p.attempts, p.connects + 1)
  {
    RetryAtOnce(s, p);
    var r := Disarm(p, RETRY_TIMER).(connects := p.connects + 1, closed := p.closed + []);
    assert Taken(s, p, CONN_RETRY) == Notify(r, EventParam(START, None, None));
    hide Taken;
    RetryAtOnce(s, r);
    assert Taken(s, r, START) == PeerModel.Serve(s, Notify(r, EventParam(START, None, None)));
  }

  /** After a failed attempt: the next one under way, or none left. */
  lemma OneFailedAttempt(s: Settings, p: Peer)
    requires Trying(p, p.attempts, p.connects)
    ensures var q := FailedAttempt(s, p);
            if p.attempts < s.reconnectMax && s.reconnectInterval > 0
            then Trying(q, p.attempts + 1, p.connects + 1)
            else Resting(q) && q.state == CLOSED && q.timers.Keys !! {TIMEOUT_TIMER, WATCHDOG_TIMER, RETRY_TIMER}
                 && q.connects == p.connects && (p.attempts >= s.reconnectMax ==> q.attempts == 0)
  {
    NackAtOnce(s, p);
    AfterNack(s, p);
    var q := Taken(s, p, I_RCV_CONN_NACK);
    hide Taken, CloseHeld, DoReConnect, Cleanup, StartTimeout;
    if RETRY_TIMER in q.timers {
      TriesAgain(s, q);
    }
  }

  /** A peer whose connects all fail tries again exactly as often as configured, and then rests. */
  lemma {:induction false} RetriesAreCounted(s: Settings, p: Peer, n: nat)
    requires Trying(p, 0, p.connects) && s.reconnectInterval > 0 && n <= s.reconnectMax + 1
    ensures var q := FailedAttempts(s, p, n);
            if n <= s.reconnectMax then Trying(q, n, p.connects + n)
            else Resting(q) && q.state == CLOSED && q.timers.Keys !! {TIMEOUT_TIMER, WATCHDOG_TIMER, RETRY_TIMER}
                 && q.connects == p.connects + s.reconnectMax && q.attempts == 0
  {
    if n > 0 {
      RetriesAreCounted(s, p, n - 1);
      OneFailedAttempt(s, FailedAttempts(s, p, n - 1));
      hide FailedAttempt;
    }
  }

  // ---------------------------------------------------------------- requests of the application

  /** A message to pass on goes out on the open connection, with what it carries, or is dropped. */
  lemma MessagesArePassedOn(s: Settings, p: Peer, acl: seq<Avp>)
    requires p.running
    ensures var q := PeerInvariants.Take(s, p, PeerInvariants.SendRequest(acl));
            && (p.state in {I_OPEN, R_OPEN} ==>
                  SendsOne(p, q, Sent(ONBEHALF, InUse(p), acl, 0)) && q == p.(outbox := q.outbox, sentAt := q.sentAt))
            && (p.state !in {I_OPEN, R_OPEN} ==> q == p)
  {
  }

  /** A stop, taken at once, and its answer: the peer comes back exactly if it said it was rebooting. */
  lemma RebootingPeersComeBack(s: Settings, p: Peer, cause: DisconnectCause, msg: Msg)
    requires Resting(p) && p.state in {I_OPEN, R_OPEN}
    ensures var q := PeerInvariants.Take(s, PeerInvariants.Take(s, p, PeerInvariants.StopRequest(cause)),
                                         PeerInvariants.Turn);
            var r := Received(s, q, DisconnectPeer, false, true, msg);
            && SendsOne(p, q, Sent(DPR, InUse(p), [], 0)) && q.state == CLOSING
            && r.state == CLOSED && r.outbox == q.outbox
            && (RETRY_TIMER in r.timers <==>
                  cause == REBOOTING && p.attempts < s.reconnectMax && s.reconnectInterval > 0)
  {
    var m := p.(cause := cause);
    StopIsTaken(s, p, cause);
    hide PeerInvariants.Take, Received;
    StopsAreAnnounced(s, m);
    StopKeeps(s, m);
    DpaEndsClosing(s, Taken(s, m, STOP), msg);
  }

  lemma StopIsTaken(s: Settings, p: Peer, cause: DisconnectCause)
    requires p.running
    ensures PeerInvariants.Take(s, PeerInvariants.Take(s, p, PeerInvariants.StopRequest(cause)), PeerInvariants.Turn) ==
            Taken(s, p.(cause := cause), STOP)
  {
    hide PeerModel.Serve;
  }

  lemma StopKeeps(s: Settings, p: Peer)
    requires Resting(p) && p.state in {I_OPEN, R_OPEN}
    ensures var q := Taken(s, p, STOP);
            Resting(q) && q.cause == p.cause && q.attempts == p.attempts
  {
    StopServes(s, p);
    hide Taken;
  }
}
