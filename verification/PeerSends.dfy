/** No message is sent on a connection that was closed before: over every run, at the moment of each send. */
module PeerSends {
  import opened Basics
  import opened AvpContainers
  import opened Capabilities
  import opened PeerTable
  import opened PeerModel
  import opened PeerInvariants
  import Election

  /** Every message went out on a connection, and on none of those closed before it was sent. */
  ghost predicate LiveSends(p: Peer) {
    && |p.sentAt| == |p.outbox|
    && forall k: nat :: k < |p.outbox| ==> SentLive(p, k)
  }

  ghost predicate SentLive(p: Peer, k: nat)
    requires |p.sentAt| == |p.outbox| && k < |p.outbox|
  {
    && p.sentAt[k] <= |p.closed|
    && p.outbox[k].io.Some? && p.outbox[k].io.value !in p.closed[..p.sentAt[k]]
  }

  /** No connection is in two places. */
  ghost predicate Single(p: Peer) {
    forall io :: Owners(p, io) <= 1
  }

  /** From p to r nothing is sent, and closed connections stay closed. */
  ghost predicate Silent(p: Peer, r: Peer) {
    r.outbox == p.outbox && r.sentAt == p.sentAt && p.closed <= r.closed
  }

  lemma SilenceKeeps(p: Peer, r: Peer)
    requires Silent(p, r)
    ensures LiveSends(p) ==> LiveSends(r)
  {
    if LiveSends(p) {
      forall k: nat | k < |r.outbox| ensures SentLive(r, k) {
        assert SentLive(p, k) && r.closed[..p.sentAt[k]] == p.closed[..p.sentAt[k]];
      }
    }
  }

  lemma SlotIsOpen(p: Peer, io: Io)
    requires Owners(p, io) <= 1 && (p.initiator == Some(io) || p.responder == Some(io))
    ensures io !in p.closed
  {
  }

  lemma PostKeeps(p: Peer, kind: MsgKind, io: Option<Io>, acl: seq<Avp>, resultCode: nat)
    requires LiveSends(p) && Single(p) && io.Some? && (io == p.initiator || io == p.responder)
    ensures LiveSends(Post(p, kind, io, acl, resultCode))
  {
    hide Owners;
    SlotIsOpen(p, io.value);
    var r := Post(p, kind, io, acl, resultCode);
    forall k: nat | k < |r.outbox| ensures SentLive(r, k) {
      if k < |p.outbox| {
        assert SentLive(p, k);
      } else {
        assert r.closed[..r.sentAt[k]] == p.closed;
      }
    }
  }

  /** The slot operations move a connection or close one, and leave every connection in one place. */
  lemma SlotsSingle(p: Peer)
    requires LiveSends(p) && Single(p)
    ensures forall r <- [TakeInitiator(p), TakeResponder(p), CloseInitiator(p), CloseResponder(p), CloseHeld(p)] ::
              LiveSends(r) && Single(r)
  {
    hide LiveSends, Owners;
    forall r <- [TakeInitiator(p), TakeResponder(p), CloseInitiator(p), CloseResponder(p), CloseHeld(p)]
      ensures LiveSends(r) && Single(r)
    {
      SilenceKeeps(p, r);
      forall io ensures Owners(r, io) <= 1 {
        SlotsKeep(p, io);
        assert Owners(p, io) <= 1;
      }
    }
  }

  lemma CleanupSilent(p: Peer, keepInitiator: bool)
    ensures Silent(p, Cleanup(p, keepInitiator))
  {
  }

  lemma ElectSilent(s: Settings, p: Peer)
    requires p.running
    ensures Silent(p, Elect(s, p))
  {
    hide Election.Outcome;
  }

  // Each of the next lemmas is about the actions that send in one way.

  lemma AnswerKeeps(s: Settings, p: Peer, rcode: nat)
    requires LiveSends(p) && Single(p) && OpenIo(p).Some?
    ensures LiveSends(SendCEA(s, p, rcode))
  {
    hide LiveSends, Single, CeAvps, ResultAvps;
    PostKeeps(p, CEA, OpenIo(p), CeAvps(s.local, s.tls) + ResultAvps(rcode), rcode);
  }

  lemma AcceptSendCEAKeepsLive(s: Settings, p: Peer, e: EventParam)
    requires LiveSends(p) && Single(p) && p.held.Some? && p.state == R_OPEN
    ensures LiveSends(AcceptSendCEA(s, p, e))
  {
    hide LiveSends, Single, Decode, Validate, CeAvps;
    SlotsSingle(p);
    var q := Learn(TakeResponder(p), e);
    assert q == TakeResponder(p).(caps := q.caps);
    LearnedSingle(TakeResponder(p), q.caps);
    AnswerKeeps(s, q, Verdict(s, q));
    SilenceKeeps(SendCEA(s, q, Verdict(s, q)), AcceptSendCEA(s, p, e));
  }

  lemma LearnedSingle(p: Peer, caps: PeerCapabilities)
    requires LiveSends(p) && Single(p)
    ensures LiveSends(p.(caps := caps)) && Single(p.(caps := caps))
  {
    hide Owners;
    SilenceKeeps(p, p.(caps := caps));
    forall io ensures Owners(p.(caps := caps), io) <= 1 {
      OwnersOfSlots(p, p.(caps := caps), io);
    }
  }

  lemma OwnersOfSlots(p: Peer, r: Peer, io: Io)
    requires r.initiator == p.initiator && r.responder == p.responder && r.held == p.held
    requires r.queue == p.queue && r.closed == p.closed
    ensures Owners(r, io) == Owners(p, io)
  {
  }

  lemma SendCERKeepsLive(s: Settings, p: Peer)
    requires LiveSends(p) && Single(p) && p.held.Some?
    ensures LiveSends(SendCER(s, TakeInitiator(p)))
  {
    hide LiveSends, Single, CeAvps;
    SlotsSingle(p);
    assert LiveSends(TakeInitiator(p)) && Single(TakeInitiator(p));
    PostKeeps(TakeInitiator(p), CER, p.held, CeAvps(s.local, s.tls), 0);
  }

  lemma OpenAsResponderKeepsLive(s: Settings, p: Peer)
    requires LiveSends(p) && Single(p) && p.responder.Some? && p.state == R_OPEN
    ensures LiveSends(StartWatchdog(s, SendCEA(s, KeepOrTakeResponder(p), AAA_SUCCESS)))
    ensures LiveSends(StartWatchdog(s, SendCEA(s, CloseInitiator(p), AAA_SUCCESS)))
  {
    hide LiveSends, Single, CeAvps, ResultAvps;
    SlotsSingle(p);
    assert LiveSends(TakeResponder(p)) && Single(TakeResponder(p));
    assert LiveSends(CloseInitiator(p)) && Single(CloseInitiator(p));
    AnswerKeeps(s, KeepOrTakeResponder(p), AAA_SUCCESS);
    AnswerKeeps(s, CloseInitiator(p), AAA_SUCCESS);
    SilenceKeeps(SendCEA(s, KeepOrTakeResponder(p), AAA_SUCCESS),
                 StartWatchdog(s, SendCEA(s, KeepOrTakeResponder(p), AAA_SUCCESS)));
    SilenceKeeps(SendCEA(s, CloseInitiator(p), AAA_SUCCESS),
                 StartWatchdog(s, SendCEA(s, CloseInitiator(p), AAA_SUCCESS)));
  }

  lemma RenegotiateKeepsLive(s: Settings, p: Peer, e: EventParam)
    requires LiveSends(p) && Single(p) && OpenIo(p).Some?
    ensures LiveSends(Renegotiate(s, p, e))
  {
    hide LiveSends, Single, Decode, Validate, CeAvps, ResultAvps;
    var q := Learn(p, e);
    LearnedSingle(p, q.caps);
    AnswerKeeps(s, q, Verdict(s, q));
  }

  lemma LeaveKeepsLive(p: Peer, io: Option<Io>)
    requires LiveSends(p) && Single(p) && io.Some? && (io == p.initiator || io == p.responder)
    ensures LiveSends(Leave(p, io))
    ensures LiveSends(Cleanup(Post(p, DPA, io, [], AAA_SUCCESS), false))
  {
    hide LiveSends, Cleanup;
    PostKeeps(p, DPR, io, [], 0);
    SilenceKeeps(Post(p, DPR, io, [], 0), Leave(p, io));
    PostKeeps(p, DPA, io, [], AAA_SUCCESS);
    CleanupSilent(Post(p, DPA, io, [], AAA_SUCCESS), false);
    SilenceKeeps(Post(p, DPA, io, [], AAA_SUCCESS), Cleanup(Post(p, DPA, io, [], AAA_SUCCESS), false));
  }

  predicate Sends(ac: Action) {
    ac in {RAcceptSendCEA, ISendCER, ISendCERElect, RSendCEA, RSendCEAOpen, ISendCEA, IDisconnectSendCEA, ISendDPR,
           RSendDPR, ISendDPADisconnect, RSendDPADisconnect, ProcessDWRSendDWA, SendWatchdog}
  }

  lemma QuietActions(s: Settings, p: Peer, ac: Action, e: EventParam)
    requires p.running && !Sends(ac)
    ensures Silent(p, Apply(s, p, ac, e))
  {
    hide Election.Outcome, Decode, Validate, Cleanup;
    CleanupSilent(p, false);
    CleanupSilent(p, true);
    match ac
    case RAccept | RAcceptElect =>
      var q := Learn(TakeResponder(p), e);
      CleanupSilent(q, false);
      CleanupSilent(q, true);
    case _ =>
  }

  /** A send finds its connection open: the slot it goes out on holds a connection that was not closed. */
  lemma ApplySendsLive(s: Settings, p: Peer, ac: Action, e: EventParam)
    requires LiveSends(p) && Single(p) && p.running && CanRun(p, ac, e)
    ensures LiveSends(Apply(s, p, ac, e))
  {
    hide LiveSends, Single, CeAvps, ResultAvps, Silent, AcceptSendCEA, Renegotiate, Cleanup, Leave;
    if !Sends(ac) {
      QuietActions(s, p, ac, e);
      SilenceKeeps(p, Apply(s, p, ac, e));
    } else {
      match ac
      case RAcceptSendCEA => AcceptSendCEAKeepsLive(s, p, e);
      case ISendCER => SendCERKeepsLive(s, p);
      case ISendCERElect =>
        SendCERKeepsLive(s, p);
        ElectSilent(s, SendCER(s, TakeInitiator(p)));
        SilenceKeeps(SendCER(s, TakeInitiator(p)), Elect(s, SendCER(s, TakeInitiator(p))));
      case RSendCEA | IDisconnectSendCEA => OpenAsResponderKeepsLive(s, p);
      case RSendCEAOpen | ISendCEA => RenegotiateKeepsLive(s, p, e);
      case ISendDPR | ISendDPADisconnect => LeaveKeepsLive(p, p.initiator);
      case RSendDPR | RSendDPADisconnect => LeaveKeepsLive(p, p.responder);
      case ProcessDWRSendDWA => PostKeeps(p, DWA, OpenIo(p), [], AAA_SUCCESS);
      case SendWatchdog => PostKeeps(p, DWR, OpenIo(p), [], 0);
      case _ =>
    }
  }

  lemma ServeSendsLive(s: Settings, p: Peer)
    requires Inv(s, p) && p.queue != [] && LiveSends(p) && Single(p)
    ensures LiveSends(Serve(s, p))
  {
    hide Single, LiveSends, Apply;
    var e := p.queue[0];
    var q := p.(queue := p.queue[1..], held := e.io);
    SilenceKeeps(p, q);
    assert e in p.queue;
    TakenSingle(p, q);
    match Transition(q.state, e.event)
    case Some((next, Some(ac))) =>
      var entered := q.(state := next);
      SilenceKeeps(q, entered);
      TakenSingle(p, entered);
      assert entered.(state := q.state) == q;
      ActionsFindTheirConnections(s, entered, q.state, ac, e);
      ApplySendsLive(s, entered, ac, e);
      SilenceKeeps(Apply(s, entered, ac, e), Serve(s, p));
    case Some((next, None)) => SilenceKeeps(q, Serve(s, p));
    case None => SilenceKeeps(q, Serve(s, p));
  }

  lemma TakenSingle(p: Peer, q: Peer)
    requires Single(p) && p.queue != [] && p.held.None?
    requires q.initiator == p.initiator && q.responder == p.responder && q.held == p.queue[0].io
    requires q.queue == p.queue[1..] && q.closed == p.closed
    ensures Single(q)
  {
    forall io ensures Owners(q, io) <= 1 {
      assert Owners(p, io) <= 1;
    }
  }

  lemma TakeSendsLive(s: Settings, p: Peer, i: Input)
    requires Inv(s, p) && LiveSends(p) && Single(p)
    ensures LiveSends(Take(s, p, i))
  {
    hide LiveSends, Single, Serve, TimersFit, QueueFits, SentOnConnections;
    match i
    case SendRequest(acl) =>
      if IsOpen(p.state) {
        PostKeeps(p, ONBEHALF, OpenIo(p), acl, 0);
      }
    case Turn =>
      if p.queue != [] {
        ServeSendsLive(s, p);
      }
    case _ => SilenceKeeps(p, Take(s, p, i));
  }

  lemma NothingSentYet()
    ensures LiveSends(NEW_PEER)
  {
  }

  /** When no connection is delivered twice, no message of any run goes out on a connection closed before. */
  lemma {:induction false} RunSendsLive(s: Settings, inputs: seq<Input>)
    requires WellFormedInputs(inputs)
    requires forall io :: Deliveries(inputs, io) <= 1
    ensures LiveSends(Run(s, NEW_PEER, inputs))
  {
    hide LiveSends, Inv, Take, Owners;
    if inputs == [] {
      NothingSentYet();
    } else {
      var front := inputs[..|inputs| - 1];
      forall io ensures Deliveries(front, io) <= 1 && Owners(Run(s, NEW_PEER, front), io) <= 1 {
        assert Deliveries(front, io) <= Deliveries(inputs, io) <= 1;
        RunConserves(s, front, io);
      }
      RunSendsLive(s, front);
      RunKeepsInv(s, front);
      TakeSendsLive(s, Run(s, NEW_PEER, front), inputs[|inputs| - 1]);
    }
  }
}
