/**
  The peer state machine itself: `DiameterPeerStateMachine` with its action operators, and the event
  producers of `DiameterPeerEntry`. Each method is proved to do what PeerModel says.
 */
module PeerMachine {
  import opened Basics
  import opened AvpContainers
  import opened Capabilities
  import opened StateTables
  import opened Timers
  import opened PeerTable
  import opened PeerModel
  import opened PeerInvariants
  import Election

  predicate Negotiates(ac: Action) {
    ac in {RAcceptSendCEA, ISendCER, RAccept, ProcessCEA, RAcceptElect, ISendCERElect, RSendCEA, RSendCEAOpen,
           RDisconnectIOpen, IDisconnectSendCEA, ISendCEA}
  }

  lemma NewPeerFits(s: Settings)
    ensures Inv(s, NEW_PEER)
  {
  }

  class PeerStateMachine {
    const settings: Settings
    const table: StateTable<State, Event, Action>
    const timers: TimerQueue<Event>

    var running: bool
    var state: State
    var initiator: Option<Io>
    var responder: Option<Io>
    var held: Option<Io>
    var caps: PeerCapabilities
    var queue: seq<EventParam>
    var closed: seq<Io>
    var outbox: seq<Sent>
    ghost var sentAt: seq<nat>
    var attempts: nat
    var connects: nat
    var cause: DisconnectCause

    /** The table is filled as its constructor fills it. */
    ghost predicate Tabled()
      reads this, table
    {
      table.rows == Rows()
    }

    ghost function View(): Peer
      requires timers.Valid()
      reads this, timers
    {
      Peer(running, state, initiator, responder, held, timers.Armed(), caps, queue, closed, outbox, sentAt,
           attempts, connects, cause)
    }

    ghost predicate Valid()
      reads this, timers, table
    {
      timers.Valid() && Tabled() && Inv(settings, View())
    }

    constructor (settings: Settings, table: StateTable<State, Event, Action>)
      requires table.rows == Rows()
      ensures Valid() && View() == NEW_PEER
      ensures this.settings == settings && this.table == table && fresh(timers)
    {
      this.settings := settings;
      this.table := table;
      timers := new TimerQueue();
      running := true;
      state := CLOSED;
      initiator, responder, held := None, None, None;
      caps := NO_CAPABILITIES;
      queue, closed, outbox := [], [], [];
      attempts, connects := 0, 0;
      cause := DONTWANTTOTALK;
      sentAt := [];
      new;
      hide Rows, Inv, Consistent, ArmedIn;
      NewPeerFits(settings);
    }

    // -------------------------------------------------------------- building blocks

    method CloseInitiator()
      requires timers.Valid()
      modifies this`initiator, this`closed
      ensures timers.Valid() && View() == PeerModel.CloseInitiator(old(View()))
    {
      if initiator.Some? {
        closed := closed + [initiator.value];
      }
      initiator := None;
    }

    method CloseResponder()
      requires timers.Valid()
      modifies this`responder, this`closed
      ensures timers.Valid() && View() == PeerModel.CloseResponder(old(View()))
    {
      if responder.Some? {
        closed := closed + [responder.value];
      }
      responder := None;
    }

    method CloseHeld()
      requires timers.Valid()
      modifies this`held, this`closed
      ensures timers.Valid() && View() == PeerModel.CloseHeld(old(View()))
    {
      if held.Some? {
        closed := closed + [held.value];
      }
      held := None;
    }

    method TakeInitiator()
      requires timers.Valid()
      modifies this`initiator, this`held, this`closed
      ensures timers.Valid() && View() == PeerModel.TakeInitiator(old(View()))
    {
      CloseInitiator();
      initiator := held;
      held := None;
    }

    method TakeResponder()
      requires timers.Valid()
      modifies this`responder, this`held, this`closed
      ensures timers.Valid() && View() == PeerModel.TakeResponder(old(View()))
    {
      CloseResponder();
      responder := held;
      held := None;
    }

    method StopReConnect()
      requires timers.Valid()
      modifies timers
      ensures timers.Valid() && View() == Disarm(old(View()), RETRY_TIMER)
    {
      timers.CancelTimer(RETRY_TIMER);
    }

    method DoReConnect()
      requires timers.Valid()
      modifies this`attempts, timers
      ensures timers.Valid() && View() == PeerModel.DoReConnect(settings, old(View()))
    {
      if attempts < settings.reconnectMax {
        if settings.reconnectInterval > 0 {
          attempts := attempts + 1;
          timers.ScheduleTimer(CONN_RETRY, settings.reconnectInterval, RETRY_TIMER);
        }
      } else {
        attempts := 0;
      }
    }

    method CancelTimers()
      requires timers.Valid()
      modifies timers
      ensures timers.Valid()
      ensures View() == DisarmAll(old(View()))
    {
      StopReConnect();
      timers.CancelTimer(TIMEOUT_TIMER);
      timers.CancelTimer(WATCHDOG_TIMER);
      timers.CancelTimer(CONNECT_TIMEOUT);
      DisarmEach(old(View()));
    }

    method CloseConnections(keepInitiator: bool)
      requires timers.Valid()
      modifies this`initiator, this`responder, this`held, this`closed
      ensures timers.Valid() && View() == PeerModel.CloseConnections(old(View()), keepInitiator)
    {
      CloseResponder();
      if !keepInitiator {
        CloseInitiator();
      }
      CloseHeld();
    }

    method Cleanup(keepInitiator: bool)
      requires timers.Valid()
      modifies this, timers
      ensures timers.Valid() && View() == PeerModel.Cleanup(old(View()), keepInitiator)
    {
      caps := NO_CAPABILITIES;
      CancelTimers();
      running := false;
      CloseConnections(keepInitiator);
      state := CLOSED;
      running := true;
    }

    method StartWatchdog()
      requires timers.Valid()
      modifies timers
      ensures timers.Valid() && View() == PeerModel.StartWatchdog(settings, old(View()))
    {
      timers.CancelTimer(TIMEOUT_TIMER);
      timers.ScheduleTimer(WATCHDOG, settings.watchdogTimeout, WATCHDOG_TIMER);
    }

    method StartTimeout()
      requires timers.Valid()
      modifies timers
      ensures timers.Valid() && View() == PeerModel.StartTimeout(old(View()))
    {
      timers.ScheduleTimer(TIMEOUT, CONNECT_TIMEOUT, TIMEOUT_TIMER);
    }

    /** Sending needs a connection: the original dereferences the slot. */
    method Post(kind: MsgKind, io: Option<Io>, acl: seq<Avp>, resultCode: nat)
      requires timers.Valid() && io.Some?
      modifies this`outbox, this`sentAt
      ensures timers.Valid() && View() == PeerModel.Post(old(View()), kind, io, acl, resultCode)
    {
      outbox := outbox + [Sent(kind, io, acl, resultCode)];
      sentAt := sentAt + [|closed|];
    }

    /**
      Sends on behalf of others. The result is that of the transport, or says that the machine is not running or
      not open.
     */
    method Send(acl: seq<Avp>, result: int) returns (r: int)
      requires Valid()
      modifies this`outbox, this`sentAt
      ensures Valid() && View() == Take(settings, old(View()), SendRequest(acl))
      ensures r == if !running then -1 else if IsOpen(state) then result else 0
    {
      hide Rows, TimersFit, QueueFits, SentOnConnections, Base;
      TakeKeepsInv(settings, View(), SendRequest(acl));
      if !running {
        return -1;
      }
      match state
      case I_OPEN =>
        Post(ONBEHALF, initiator, acl, 0);
        return result;
      case R_OPEN =>
        Post(ONBEHALF, responder, acl, 0);
        return result;
      case _ =>
        return 0;
    }

    method SendCER()
      requires timers.Valid() && initiator.Some?
      modifies this`outbox, this`sentAt
      ensures timers.Valid() && View() == PeerModel.SendCER(settings, old(View()))
    {
      var acl := new AvpContainerList([]);
      AssembleCE(settings.local, settings.tls, acl);
      assert acl.containers == CeAvps(settings.local, settings.tls);
      Post(CER, initiator, acl.containers, 0);
    }

    method SendCEA(rcode: nat)
      requires timers.Valid() && OpenIo(View()).Some?
      modifies this`outbox, this`sentAt
      ensures timers.Valid() && View() == PeerModel.SendCEA(settings, old(View()), rcode)
    {
      var acl := new AvpContainerList([]);
      AssembleCE(settings.local, settings.tls, acl);
      acl.Add(Avp(ResultCode, [U32(rcode)]));
      if !IsSuccess(rcode) {
        acl.Add(Avp(ErrorMessage, [Octets([])]));
      }
      assert acl.containers == CeAvps(settings.local, settings.tls) + ResultAvps(rcode);
      var io := if state == I_OPEN then initiator else responder;
      Post(CEA, io, acl.containers, rcode);
    }

    /** Queues an event; false and dropped, with its connection, when the machine is not running. */
    method Notify(e: EventParam)
      requires timers.Valid()
      modifies this`queue, this`closed
      ensures timers.Valid() && View() == PeerModel.Notify(old(View()), e)
    {
      if running {
        queue := queue + [e];
      } else if e.io.Some? {
        closed := closed + [e.io.value];
      }
    }

    method Elect()
      requires timers.Valid()
      modifies this, timers
      ensures timers.Valid() && View() == PeerModel.Elect(settings, old(View()))
    {
      var verdict := Election.Elect(settings.local.identity, caps.host);
      match verdict
      case SameHost => Cleanup(false);
      case Win => Notify(EventParam(WIN_ELECTION, None, None));
      case Lose =>
    }

    /** Starts a connection attempt: the event first, then the transport is asked to connect. */
    method Start()
      requires timers.Valid()
      modifies this`queue, this`closed, this`connects
      ensures timers.Valid() && View() == PeerModel.Start(old(View()))
    {
      Notify(EventParam(START, None, None));
      connects := connects + 1;
    }

    method Stop(cause: DisconnectCause)
      requires Valid()
      modifies this`cause, this`queue, this`closed
      ensures Valid() && View() == Take(settings, old(View()), StopRequest(cause))
    {
      hide Rows, Inv, Consistent, ArmedIn;
      TakeKeepsInv(settings, View(), StopRequest(cause));
      this.cause := cause;
      Notify(EventParam(STOP, None, None));
    }

    // -------------------------------------------------------------- event producers

    method Produce(e: EventParam)
      requires Valid() && WellFormed(e)
      modifies this`queue, this`closed
      ensures Valid() && View() == Take(settings, old(View()), Raise(e))
    {
      hide Rows, Inv, Consistent, ArmedIn;
      TakeKeepsInv(settings, View(), Raise(e));
      Notify(e);
    }

    method IncommingConnectionRequest(io: Io, cer: Msg)
      requires Valid()
      modifies this`queue, this`closed
      ensures Valid() && View() == Take(settings, old(View()), Raise(EventParam(R_CONN_CER, Some(cer), Some(io))))
    {
      hide Rows;
      Produce(EventParam(R_CONN_CER, Some(cer), Some(io)));
    }

    method ConnectionRequestAccepted(io: Io)
      requires Valid()
      modifies this`queue, this`closed
      ensures Valid() && View() == Take(settings, old(View()), Raise(EventParam(I_RCV_CONN_ACK, None, Some(io))))
    {
      hide Rows;
      Produce(EventParam(I_RCV_CONN_ACK, None, Some(io)));
    }

    method ConnectionRequestFailed()
      requires Valid()
      modifies this`queue, this`closed
      ensures Valid() && View() == Take(settings, old(View()), Raise(EventParam(I_RCV_CONN_NACK, None, None)))
    {
      hide Rows;
      Produce(EventParam(I_RCV_CONN_NACK, None, None));
    }

    /** A timer of the machine fires. */
    method Timeout(timerType: int)
      requires Valid() && timerType in timers.Armed()
      modifies this`queue, this`closed
      ensures Valid()
      ensures View() == Take(settings, old(View()), Raise(EventParam(old(timers.Armed()[timerType]).event, None, None)))
    {
      hide Rows;
      Produce(EventParam(timers.reactor[timers.handles[timerType]].event, None, None));
    }

    /** The classifier of received messages: it reads the state at arrival, not when the event is served. */
    method Message(command: Command, request: bool, idsAccepted: bool, msg: Msg)
      requires Valid()
      modifies this`queue, this`closed
      ensures Valid()
      ensures var c := Classify(old(View()), command, request, idsAccepted, msg);
              View() == if c.Some? then Take(settings, old(View()), Raise(c.value)) else old(View())
    {
      hide Inv, Rows, Consistent, ArmedIn;
      if state == WAIT_I_CEA && (command != CapabilitiesExchange || request) {
        Produce(EventParam(I_RCV_NON_CEA, None, None));
      } else if command == Other {
        if state == I_OPEN {
          Produce(EventParam(I_RCV_MESSAGE, Some(msg), None));
        } else if state == R_OPEN {
          Produce(EventParam(R_RCV_MESSAGE, Some(msg), None));
        }
      } else if idsAccepted || request {
        match state {
          case I_OPEN => Produce(EventParam(InitiatorEvent(command, request), Some(msg), None));
          case R_OPEN => Produce(EventParam(ResponderEvent(command, request), Some(msg), None));
          case CLOSING =>
            var ev := if initiator.Some? then InitiatorEvent(command, request) else ResponderEvent(command, request);
            Produce(EventParam(ev, Some(msg), None));
          case WAIT_RETURNS | WAIT_I_CEA =>
            if command == CapabilitiesExchange && !request {
              Produce(EventParam(I_RCV_CEA, Some(msg), None));
            }
          case _ =>
        }
      }
    }

    // -------------------------------------------------------------- actions

    method Learn(e: EventParam)
      requires timers.Valid() && e.msg.Some?
      modifies this`caps
      ensures timers.Valid() && View() == PeerModel.Learn(old(View()), e)
    {
      var acl := new AvpContainerList(e.msg.value.acl);
      caps := DisassembleCE(acl);
    }

    method AcceptSendCEA(e: EventParam)
      requires timers.Valid() && e.msg.Some? && held.Some? && state == R_OPEN
      modifies this, timers
      ensures timers.Valid() && View() == PeerModel.AcceptSendCEA(settings, old(View()), e)
    {
      TakeResponder();
      Learn(e);
      var rcode := ValidatePeer(settings.local, settings.tls, caps);
      SendCEA(rcode);
      if rcode != AAA_SUCCESS {
        Cleanup(false);
      } else {
        StartWatchdog();
        StopReConnect();
      }
    }

    method Accept(e: EventParam)
      requires timers.Valid() && e.msg.Some?
      modifies this, timers
      ensures timers.Valid() && View() == PeerModel.Accept(settings, old(View()), e)
    {
      TakeResponder();
      Learn(e);
      var rcode := ValidatePeer(settings.local, settings.tls, caps);
      if rcode != AAA_SUCCESS {
        Cleanup(false);
      }
    }

    method AcceptElect(e: EventParam)
      requires timers.Valid() && e.msg.Some?
      modifies this, timers
      ensures timers.Valid() && View() == PeerModel.AcceptElect(settings, old(View()), e)
    {
      TakeResponder();
      Learn(e);
      var rcode := ValidatePeer(settings.local, settings.tls, caps);
      if rcode != AAA_SUCCESS {
        Cleanup(true);
      } else {
        Elect();
      }
    }

    method OnCEA(e: EventParam)
      requires timers.Valid() && e.msg.Some?
      modifies this, timers
      ensures timers.Valid() && View() == PeerModel.OnCEA(settings, old(View()), e)
    {
      if IsSuccess(e.msg.value.resultCode) {
        Learn(e);
        StopReConnect();
        StartWatchdog();
      } else {
        Cleanup(false);
      }
    }

    method DisconnectInitiatorOpen(e: EventParam)
      requires timers.Valid() && e.msg.Some?
      modifies this, timers
      ensures timers.Valid() && View() == PeerModel.DisconnectInitiatorOpen(settings, old(View()), e)
    {
      if IsSuccess(e.msg.value.resultCode) {
        Learn(e);
        StartWatchdog();
        CloseResponder();
      } else {
        Cleanup(false);
      }
    }

    method Renegotiate(e: EventParam)
      requires timers.Valid() && e.msg.Some? && OpenIo(View()).Some?
      modifies this, timers
      ensures timers.Valid() && View() == PeerModel.Renegotiate(settings, old(View()), e)
    {
      Learn(e);
      var rcode := ValidatePeer(settings.local, settings.tls, caps);
      SendCEA(rcode);
    }

    method Leave(io: Option<Io>)
      requires timers.Valid() && io.Some?
      modifies this, timers
      ensures timers.Valid() && View() == PeerModel.Leave(old(View()), io)
    {
      timers.CancelTimer(WATCHDOG_TIMER);
      StartTimeout();
      Post(DPR, io, [], 0);
    }

    method OnDPA()
      requires timers.Valid()
      modifies this, timers
      ensures timers.Valid() && View() == PeerModel.OnDPA(settings, old(View()))
    {
      Cleanup(false);
      if cause == REBOOTING {
        DoReConnect();
      }
    }

    method AnswerDPR(io: Option<Io>)
      requires timers.Valid() && io.Some?
      modifies this, timers
      ensures timers.Valid() && View() == PeerModel.Cleanup(PeerModel.Post(old(View()), DPA, io, [], AAA_SUCCESS), false)
    {
      Post(DPA, io, [], AAA_SUCCESS);
      Cleanup(false);
    }

    method WinByNack()
      requires timers.Valid() && responder.Some? && state == R_OPEN
      modifies this, timers
      ensures timers.Valid()
      ensures View() == PeerModel.StartWatchdog(settings,
                          PeerModel.SendCEA(settings, KeepOrTakeResponder(old(View())), AAA_SUCCESS))
    {
      if held.Some? {
        TakeResponder();
      }
      SendCEA(AAA_SUCCESS);
      StartWatchdog();
    }

    method WinElection()
      requires timers.Valid() && responder.Some? && state == R_OPEN
      modifies this, timers
      ensures timers.Valid()
      ensures View() == PeerModel.StartWatchdog(settings,
                          PeerModel.SendCEA(settings, PeerModel.CloseInitiator(old(View())), AAA_SUCCESS))
    {
      CloseInitiator();
      SendCEA(AAA_SUCCESS);
      StartWatchdog();
    }

    /** The actions that negotiate capabilities. */
    method Negotiate(ac: Action, e: EventParam)
      requires timers.Valid() && CanRun(View(), ac, e) && Negotiates(ac)
      modifies this, timers
      ensures timers.Valid() && View() == Apply(settings, old(View()), ac, e)
    {
      hide Decode, Validate, CeAvps, ResultAvps, Election.Outcome, PeerModel.AcceptSendCEA, PeerModel.Accept,
           PeerModel.AcceptElect, PeerModel.OnCEA, PeerModel.Renegotiate, PeerModel.DisconnectInitiatorOpen,
           PeerModel.Elect, PeerModel.SendCER, PeerModel.SendCEA, PeerModel.StartWatchdog;
      match ac
      case RAcceptSendCEA => AcceptSendCEA(e);
      case ISendCER => TakeInitiator(); SendCER();
      case RAccept => Accept(e);
      case ProcessCEA => OnCEA(e);
      case RAcceptElect => AcceptElect(e);
      case ISendCERElect => TakeInitiator(); SendCER(); Elect();
      case RSendCEA => WinByNack();
      case RSendCEAOpen => Renegotiate(e);
      case RDisconnectIOpen => DisconnectInitiatorOpen(e);
      case IDisconnectSendCEA => WinElection();
      case ISendCEA => Renegotiate(e);
    }

    method Dispatch(ac: Action, e: EventParam)
      requires timers.Valid() && CanRun(View(), ac, e)
      modifies this, timers
      ensures timers.Valid() && View() == Apply(settings, old(View()), ac, e)
    {
      hide Decode, Validate, CeAvps, ResultAvps, Election.Outcome, PeerModel.Cleanup, PeerModel.DoReConnect,
           PeerModel.Leave, PeerModel.OnDPA, PeerModel.Start, PeerModel.StartTimeout, Disarm;
      if Negotiates(ac) {
        Negotiate(ac, e);
        return;
      }
      match ac
      case ISendConnReq => StartTimeout();
      case ConnNack => Cleanup(false); DoReConnect();
      case DoCleanup => Cleanup(false);
      case Retry => StopReConnect(); Start();
      case ReportError => Cleanup(false);
      case DoDisconnect => Cleanup(false); DoReConnect();
      case DisconnectDPA => OnDPA();
      case RDisconnectResp => CloseResponder();
      case RReject => CloseHeld();
      case RSendMessage | ISendMessage | Process =>
      case ProcessDWRSendDWA => Post(DWA, if state == I_OPEN then initiator else responder, [], AAA_SUCCESS);
      case ProcessDWA =>
        if !IsSuccess(e.msg.value.resultCode) {
          Cleanup(false);
        }
      case ISendDPR => Leave(initiator);
      case RSendDPR => Leave(responder);
      case ISendDPADisconnect => AnswerDPR(initiator);
      case RSendDPADisconnect => AnswerDPR(responder);
      case SendWatchdog => Post(DWR, if state == I_OPEN then initiator else responder, [], 0);
    }

    /** Looks the event up, changes the state, then runs the action. */
    method HandleEvent(e: EventParam)
      requires timers.Valid() && Tabled() && MidInv(settings, View()) && WellFormed(e) && held == e.io
      modifies this, timers
      ensures timers.Valid() && View() == React(settings, old(View()), e)
    {
      hide Rows;
      if !running {
        return;
      }
      var entry := table.FindStateTableEntry(state, e.event);
      LookupIsTransition(state, e.event);
      if entry.None? {
        return;
      }
      ghost var prev := state;
      ghost var before := View();
      state := entry.value.next;
      assert View().(state := prev) == before;
      if entry.value.action.Some? {
        ActionsFindTheirConnections(settings, View(), prev, entry.value.action.value, e);
        Dispatch(entry.value.action.value, e);
      }
    }

    /** One turn: the oldest event is served and then destroyed with whatever connection it still owns. */
    method Serve()
      requires Valid() && queue != []
      modifies this, timers
      ensures Valid() && View() == PeerModel.Serve(settings, old(View()))
    {
      hide Rows, Inv, MidInv, React, WellFormed;
      ServeKeepsInv(settings, View());
      TakenFits(settings, View());
      var e := queue[0];
      queue := queue[1..];
      held := e.io;
      HandleEvent(e);
      CloseHeld();
    }
  }
}
