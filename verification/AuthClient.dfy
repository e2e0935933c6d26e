/** The authorization client session: its table, its actions, and the timers that supervise it. */
module AuthClient {
  import opened Basics
  import opened StateTables
  import opened TableFunctions
  import opened Timers
  import opened AuthTypes

  datatype Action =
    | TxSSAR | TxSSARDiscard | RxSSA | RxSSAADiscard | GrantAccess | RxRAR | TxSTRNoSvc | TxSTRProcError
    | SessionTimeout | SessionTimeoutState | AuthTimeout | UserAbort | TxASASuccess | TxASATxSTRSuccess | TxASAFail
    | Disconnect | Cleanup

  type ClientRow = Row<State, Event, Action>

  type ClientMove = Move<State, Action>

  type ClientArms = Arms<State, Event, Action>

  // ---------------------------------------------------------------- the table, state by state

  function IdleArms(): ClientArms {
    On(REQUEST_ACCESS, PENDING, None,
    On(RX_ASR_USID, IDLE, None,
    On(TX_SSAR, IDLE, Some(TxSSARDiscard),
    On(RX_SSAA, IDLE, Some(RxSSAADiscard),
    Otherwise(IDLE, None)))))
  }

  function PendingArms(): ClientArms {
    On(SSAA_OK, OPEN, Some(GrantAccess),
    On(SSAA_NOSVC, DISC, Some(TxSTRNoSvc),
    On(SSAA_ERROR, DISC, Some(TxSTRProcError),
    On(SSAA_FAIL, IDLE, Some(Cleanup),
    On(TX_SSAR, PENDING, Some(TxSSAR),
    On(RX_SSAA, PENDING, Some(RxSSA),
    On(STOP, IDLE, Some(Disconnect),
    Otherwise(PENDING, None))))))))
  }

  function OpenArms(): ClientArms {
    On(REQUEST_ACCESS, OPEN, None,
    On(RX_RAR, OPEN, Some(RxRAR),
    On(SSAA_OK, OPEN, Some(GrantAccess),
    On(RX_SSAR, OPEN, Some(RxSSA),
    On(SSAR_OK, OPEN, None,
    On(SSAR_FAIL, IDLE, Some(Disconnect),
    On(SSAA_FAIL, IDLE, Some(Disconnect),
    On(SESSION_TOUT_ST, DISC, Some(SessionTimeoutState),
    LaterOpenArms()))))))))
  }

  function LaterOpenArms(): ClientArms {
    On(SESSION_TOUT_NOST, IDLE, Some(SessionTimeout),
    On(RX_ASR_OK, DISC, Some(TxASATxSTRSuccess),
    On(RX_ASR_RETRY, OPEN, Some(TxASAFail),
    On(LIFETIME_TOUT, DISC, Some(AuthTimeout),
    On(STOP, IDLE, Some(Disconnect),
    On(ABORT, DISC, Some(UserAbort),
    On(TX_SSAR, OPEN, Some(TxSSAR),
    On(RX_SSAA, OPEN, Some(RxSSA),
    Otherwise(OPEN, None)))))))))
  }

  function DiscArms(): ClientArms {
    On(RX_ASR, DISC, Some(TxASASuccess),
    On(RX_STA, IDLE, Some(Disconnect),
    On(SESSION_TOUT_ST, IDLE, Some(Disconnect),
    On(LIFETIME_TOUT, IDLE, Some(Disconnect),
    On(TX_SSAR, DISC, Some(TxSSARDiscard),
    On(RX_SSAA, DISC, Some(RxSSAADiscard),
    Otherwise(DISC, None)))))))
  }

  /** The table in the order of the constructor. */
  function Table(): Blocks<State, Event, Action> {
    Block(IDLE, IdleArms(),
    Block(PENDING, PendingArms(),
    Block(OPEN, OpenArms(),
    Block(DISC, DiscArms(),
    Done))))
  }

  function Rows(): seq<ClientRow> {
    BlockRows(Table())
  }

  // ---------------------------------------------------------------- the table as a function

  function FromIdle(ev: Event): ClientMove {
    match ev
    case REQUEST_ACCESS => Some((PENDING, None))
    case RX_ASR_USID => Some((IDLE, None))
    case TX_SSAR => Some((IDLE, Some(TxSSARDiscard)))
    case RX_SSAA => Some((IDLE, Some(RxSSAADiscard)))
    case _ => Some((IDLE, None))
  }

  function FromPending(ev: Event): ClientMove {
    match ev
    case SSAA_OK => Some((OPEN, Some(GrantAccess)))
    case SSAA_NOSVC => Some((DISC, Some(TxSTRNoSvc)))
    case SSAA_ERROR => Some((DISC, Some(TxSTRProcError)))
    case SSAA_FAIL => Some((IDLE, Some(Cleanup)))
    case TX_SSAR => Some((PENDING, Some(TxSSAR)))
    case RX_SSAA => Some((PENDING, Some(RxSSA)))
    case STOP => Some((IDLE, Some(Disconnect)))
    case _ => Some((PENDING, None))
  }

  function FromOpen(ev: Event): ClientMove {
    match ev
    case REQUEST_ACCESS => Some((OPEN, None))
    case RX_RAR => Some((OPEN, Some(RxRAR)))
    case SSAA_OK => Some((OPEN, Some(GrantAccess)))
    case RX_SSAR => Some((OPEN, Some(RxSSA)))
    case SSAR_OK => Some((OPEN, None))
    case SSAR_FAIL => Some((IDLE, Some(Disconnect)))
    case SSAA_FAIL => Some((IDLE, Some(Disconnect)))
    case SESSION_TOUT_ST => Some((DISC, Some(SessionTimeoutState)))
    case SESSION_TOUT_NOST => Some((IDLE, Some(SessionTimeout)))
    case RX_ASR_OK => Some((DISC, Some(TxASATxSTRSuccess)))
    case RX_ASR_RETRY => Some((OPEN, Some(TxASAFail)))
    case LIFETIME_TOUT => Some((DISC, Some(AuthTimeout)))
    case STOP => Some((IDLE, Some(Disconnect)))
    case ABORT => Some((DISC, Some(UserAbort)))
    case TX_SSAR => Some((OPEN, Some(TxSSAR)))
    case RX_SSAA => Some((OPEN, Some(RxSSA)))
    case _ => Some((OPEN, None))
  }

  function FromDisc(ev: Event): ClientMove {
    match ev
    case RX_ASR => Some((DISC, Some(TxASASuccess)))
    case RX_STA => Some((IDLE, Some(Disconnect)))
    case SESSION_TOUT_ST => Some((IDLE, Some(Disconnect)))
    case LIFETIME_TOUT => Some((IDLE, Some(Disconnect)))
    case TX_SSAR => Some((DISC, Some(TxSSARDiscard)))
    case RX_SSAA => Some((DISC, Some(RxSSAADiscard)))
    case _ => Some((DISC, None))
  }

  function Transition(st: State, ev: Event): ClientMove {
    match st
    case IDLE => FromIdle(ev)
    case PENDING => FromPending(ev)
    case OPEN => FromOpen(ev)
    case DISC => FromDisc(ev)
  }

  // ---------------------------------------------------------------- the rows agree with the function

  lemma IdleAgrees(ev: Event)
    ensures Find(IdleArms(), ev) == FromIdle(ev) && Distinct(IdleArms())
  {
  }

  lemma PendingAgrees(ev: Event)
    ensures Find(PendingArms(), ev) == FromPending(ev) && Distinct(PendingArms())
  {
  }

  predicate IsLaterInOpen(ev: Event) {
    ev in {SESSION_TOUT_NOST, RX_ASR_OK, RX_ASR_RETRY, LIFETIME_TOUT, STOP, ABORT, TX_SSAR, RX_SSAA}
  }

  lemma LaterOpenAgrees(ev: Event)
    ensures Mentions(LaterOpenArms(), ev) <==> IsLaterInOpen(ev)
    ensures Find(LaterOpenArms(), ev) == if IsLaterInOpen(ev) then FromOpen(ev) else Some((OPEN, None))
    ensures Distinct(LaterOpenArms())
  {
  }

  predicate IsEarlierInOpen(ev: Event) {
    ev in {REQUEST_ACCESS, RX_RAR, SSAA_OK, RX_SSAR, SSAR_OK, SSAR_FAIL, SSAA_FAIL, SESSION_TOUT_ST}
  }

  lemma OpenFinds(ev: Event)
    ensures IsEarlierInOpen(ev) ==> Find(OpenArms(), ev) == FromOpen(ev)
    ensures !IsEarlierInOpen(ev) ==> Find(OpenArms(), ev) == Find(LaterOpenArms(), ev)
  {
    hide LaterOpenArms;
  }

  lemma NeitherInOpen(ev: Event)
    requires !IsEarlierInOpen(ev) && !IsLaterInOpen(ev)
    ensures FromOpen(ev) == Some((OPEN, None))
  {
  }

  lemma OpenIsDistinct()
    ensures Distinct(OpenArms())
  {
    hide LaterOpenArms, Find;
    forall e ensures Mentions(LaterOpenArms(), e) <==> IsLaterInOpen(e) {
      LaterOpenAgrees(e);
    }
    LaterOpenAgrees(STOP);
  }

  lemma OpenAgrees(ev: Event)
    ensures Find(OpenArms(), ev) == FromOpen(ev) && Distinct(OpenArms())
  {
    hide OpenArms, LaterOpenArms, FromOpen, IsEarlierInOpen, IsLaterInOpen;
    OpenIsDistinct();
    OpenFinds(ev);
    LaterOpenAgrees(ev);
    if !IsEarlierInOpen(ev) && !IsLaterInOpen(ev) {
      NeitherInOpen(ev);
    }
  }

  lemma DiscAgrees(ev: Event)
    ensures Find(DiscArms(), ev) == FromDisc(ev) && Distinct(DiscArms())
  {
  }

  lemma TableAgrees(st: State, ev: Event)
    ensures FindIn(Table(), st, ev) == Transition(st, ev)
  {
    hide Find, IdleArms, FromIdle, PendingArms, FromPending, OpenArms, FromOpen, DiscArms, FromDisc;
    match st
    case IDLE => IdleAgrees(ev);
    case PENDING => PendingAgrees(ev);
    case OPEN => OpenAgrees(ev);
    case DISC => DiscAgrees(ev);
  }

  lemma TableIsBuildable()
    ensures Buildable(Table())
  {
    hide Distinct, IdleArms, PendingArms, OpenArms, DiscArms;
    IdleAgrees(STOP);
    PendingAgrees(STOP);
    OpenAgrees(STOP);
    DiscAgrees(STOP);
  }

  /** The constructor never meets a duplicate, and looking an event up in the list is the transition function. */
  lemma LookupIsTransition(st: State, ev: Event)
    ensures Built(Rows())
    ensures Target(Lookup(Rows(), st, ev)) == Transition(st, ev)
  {
    TableIsBuildable();
    TableAgrees(st, ev);
    hide Table, Transition;
    LookupIsFind(Table(), st, ev);
  }

  // ---------------------------------------------------------------- the actions

  function Grant(s: Session): Session {
    var a := s.attrs;
    var armed := if a.stateful then
                   Schedule(Schedule(CancelAll(s), SESSION_TIMER, SESSION_TOUT_ST, a.sessionTimeout),
                            AUTH_TIMER, LIFETIME_TOUT, Wrap(a.lifetime + a.grace))
                 else if a.sessionTimeout > 0 then
                   Schedule(CancelAll(s), SESSION_TIMER, SESSION_TOUT_NOST, a.sessionTimeout)
                 else CancelAll(s);
    Noted(armed, Succeeded)
  }

  function Apply(s: Session, ac: Action, env: Surroundings): Session {
    match ac
    case TxSSAR => Noted(s, Delivered)
    case TxSSARDiscard => Noted(s, Discarded)
    case RxSSA => Noted(s, HandedUp)
    case RxSSAADiscard => Noted(s, Discarded)
    case GrantAccess => Grant(s)
    case RxRAR => Noted(if env.reAuthSet then Noted(s, ReAuthenticated) else s, SentRAA(env.reAuthSet))
    case TxSTRNoSvc => Noted(s, SentSTR(REALM_NOT_SERVED))
    case TxSTRProcError => Noted(s, SentSTR(AVP_UNSUPPORTED))
    case SessionTimeout => Reset(Noted(CancelAll(s), SessionTimedOut))
    case SessionTimeoutState => Noted(Noted(CancelAll(s), SentSTR(AUTHORIZATION_REJECTED)), SessionTimedOut)
    case AuthTimeout => Noted(Noted(CancelAll(s), SentSTR(AUTHORIZATION_REJECTED)), AuthorizationTimedOut)
    case UserAbort => Noted(CancelAll(s), SentSTR(AUTHORIZATION_REJECTED))
    case TxASASuccess => Noted(s, SentASA(SUCCESS))
    case TxASATxSTRSuccess => Noted(Noted(s, SentASA(SUCCESS)), SentSTR(SUCCESS))
    case TxASAFail => Noted(s, SentASA(UNABLE_TO_COMPLY))
    case Disconnect => Reset(CancelAll(Noted(s, Disconnected)))
    case Cleanup => Reset(Noted(CancelAll(s), Aborted))
  }

  function Notify(s: Session, ev: Event, env: Surroundings): Session {
    if !s.running then s
    else
      match Transition(s.state, ev)
      case None => s
      case Some((next, None)) => s.(state := next)
      case Some((next, Some(ac))) => Apply(s.(state := next), ac, env)
  }

  function Next(s: Session, st: Step): Session {
    match st
    case Raise(ev, env) => Notify(s, ev, env)
    case Fire(t, env) => if t in s.timers then Notify(s, s.timers[t].event, env) else s
    case Negotiate(t, l, g) => s.(attrs := s.attrs.(sessionTimeout := t, lifetime := l, grace := g))
  }

  function Run(attrs: Attributes, steps: seq<Step>): Session {
    if steps == [] then Start(attrs) else Next(Run(attrs, steps[..|steps| - 1]), steps[|steps| - 1])
  }

  // ---------------------------------------------------------------- supervision

  /**
    A stateful session is supervised by both timers while it is open, and by none while it is idle or pending.
    On the way out it has both or none.
   */
  predicate Fits(s: Session) {
    && s.attrs.stateful && (s.running || s.state == IDLE)
    && match s.state
       case IDLE | PENDING => s.timers == map[]
       case OPEN => Supervised(s)
       case DISC => s.timers == map[] || Supervised(s)
  }

  lemma IdleFits(s: Session, ev: Event, env: Surroundings)
    requires Fits(s) && s.state == IDLE
    ensures Fits(Notify(s, ev, env))
  {
  }

  lemma PendingFits(s: Session, ev: Event, env: Surroundings)
    requires Fits(s) && s.state == PENDING
    ensures Fits(Notify(s, ev, env))
  {
  }

  /** Where an action of an open session leads. */
  predicate LeavesOpenFor(ac: Action, next: State) {
    match ac
    case RxRAR | GrantAccess | RxSSA | TxASAFail | TxSSAR => next == OPEN
    case Disconnect | SessionTimeout => next == IDLE
    case SessionTimeoutState | TxASATxSTRSuccess | AuthTimeout | UserAbort => next == DISC
    case _ => false
  }

  lemma OpenLeads(ev: Event)
    ensures var m := Transition(OPEN, ev);
            m.Some? && if m.value.1.Some? then LeavesOpenFor(m.value.1.value, m.value.0) else m.value.0 == OPEN
  {
  }

  lemma OpenApplyFits(s: Session, next: State, ac: Action, env: Surroundings)
    requires Fits(s) && s.state == OPEN && LeavesOpenFor(ac, next)
    ensures Fits(Apply(s.(state := next), ac, env))
  {
  }

  lemma OpenFits(s: Session, ev: Event, env: Surroundings)
    requires Fits(s) && s.state == OPEN
    ensures Fits(Notify(s, ev, env))
  {
    OpenLeads(ev);
    hide Transition, LeavesOpenFor, Apply;
    match Transition(OPEN, ev)
    case Some((next, Some(ac))) => OpenApplyFits(s, next, ac, env);
    case Some((next, None)) =>
  }

  lemma DiscFits(s: Session, ev: Event, env: Surroundings)
    requires Fits(s) && s.state == DISC
    ensures Fits(Notify(s, ev, env))
  {
  }

  lemma NotifyFits(s: Session, ev: Event, env: Surroundings)
    requires Fits(s)
    ensures Fits(Notify(s, ev, env))
  {
    match s.state
    case IDLE => IdleFits(s, ev, env);
    case PENDING => PendingFits(s, ev, env);
    case OPEN => OpenFits(s, ev, env);
    case DISC => DiscFits(s, ev, env);
  }

  /** Every run of a stateful client session keeps its supervision timers in step with its state. */
  lemma {:induction false} RunFits(attrs: Attributes, steps: seq<Step>)
    requires attrs.stateful
    ensures Fits(Run(attrs, steps))
  {
    if steps != [] {
      var s, st := Run(attrs, steps[..|steps| - 1]), steps[|steps| - 1];
      RunFits(attrs, steps[..|steps| - 1]);
      if st.Raise? {
        NotifyFits(s, st.ev, st.env);
      } else if st.Fire? && st.timerType in s.timers {
        NotifyFits(s, s.timers[st.timerType].event, st.env);
      }
    }
  }

  /** No open session outlives its timers: either of them firing takes it out of the open state. */
  lemma TimersEndOpenSessions(s: Session, timerType: int, env: Surroundings)
    requires Fits(s) && s.state == OPEN && timerType in s.timers
    ensures Next(s, Fire(timerType, env)).state == DISC && Next(s, Fire(timerType, env)).timers == map[]
  {
  }

  /** A session on its way out without timers waits for the answer to its STR: no timer will end it. */
  lemma OnlyAnswersEndUnsupervised(s: Session, st: Step)
    requires s.state == DISC && s.timers == map[]
    requires Next(s, st).state != DISC
    ensures st.Raise? && st.ev in {RX_STA, SESSION_TOUT_ST, LIFETIME_TOUT}
  {
  }

  // ---------------------------------------------------------------- the end of a session

  predicate Resets(ac: Action, env: Surroundings) {
    ac == SessionTimeout || ac == Disconnect || ac == Cleanup
  }

  lemma ResettingProceeds(s: Session, ac: Action, env: Surroundings)
    requires s.running && Resets(ac, env) && s.state == IDLE
    ensures Proceeds(s, Apply(s, ac, env))
  {
  }

  lemma OthersProceed(s: Session, ac: Action, env: Surroundings)
    requires s.running && !Resets(ac, env)
    ensures Apply(s, ac, env).running && s.notes <= Apply(s, ac, env).notes
    ensures forall i :: |s.notes| <= i < |Apply(s, ac, env).notes| ==> Apply(s, ac, env).notes[i] != WasReset
  {
  }

  lemma ApplyProceeds(s: Session, ac: Action, env: Surroundings)
    requires s.running && (Resets(ac, env) ==> s.state == IDLE)
    ensures Proceeds(s, Apply(s, ac, env))
  {
    hide Apply, Resets;
    if Resets(ac, env) {
      ResettingProceeds(s, ac, env);
    } else {
      OthersProceed(s, ac, env);
    }
  }

  /** The table resets a session only on its way to idle. */
  lemma ResetsAreIdle(st: State, ev: Event, env: Surroundings)
    requires Transition(st, ev).Some? && Transition(st, ev).value.1.Some?
    ensures Resets(Transition(st, ev).value.1.value, env) ==> Transition(st, ev).value.0 == IDLE
  {
  }

  lemma NotifyResetsLast(s: Session, ev: Event, env: Surroundings)
    requires ResetsLast(s)
    ensures ResetsLast(Notify(s, ev, env))
  {
    if s.running {
      match Transition(s.state, ev)
      case Some((next, Some(ac))) =>
        ResetsAreIdle(s.state, ev, env);
        ApplyProceeds(s.(state := next), ac, env);
        hide Apply, Transition, Resets;
        ProceedingResetsLast(s.(state := next), Apply(s.(state := next), ac, env));
      case _ =>
    }
  }

  /** Every run resets a session at most once; that leaves it idle, and nothing is sent or reported afterwards. */
  lemma {:induction false} RunResetsLast(attrs: Attributes, steps: seq<Step>)
    ensures ResetsLast(Run(attrs, steps))
  {
    hide Notify;
    if steps != [] {
      var s, st := Run(attrs, steps[..|steps| - 1]), steps[|steps| - 1];
      RunResetsLast(attrs, steps[..|steps| - 1]);
      if st.Raise? {
        NotifyResetsLast(s, st.ev, st.env);
      } else if st.Fire? && st.timerType in s.timers {
        NotifyResetsLast(s, s.timers[st.timerType].event, st.env);
      }
    }
  }

  // ---------------------------------------------------------------- termination requests

  function Terminations(notes: seq<Note>): nat {
    if notes == [] then 0
    else Terminations(notes[..|notes| - 1]) + if notes[|notes| - 1].SentSTR? then 1 else 0
  }

  lemma TerminationsAppend(notes: seq<Note>, n: Note)
    ensures Terminations(notes + [n]) == Terminations(notes) + if n.SentSTR? then 1 else 0
  {
    assert (notes + [n])[..|notes|] == notes;
  }

  predicate Asks(ac: Action) {
    ac in {TxSTRNoSvc, TxSTRProcError, SessionTimeoutState, AuthTimeout, UserAbort, TxASATxSTRSuccess}
  }

  lemma ApplyAsks(s: Session, ac: Action, env: Surroundings)
    ensures Terminations(Apply(s, ac, env).notes) == Terminations(s.notes) + if Asks(ac) then 1 else 0
    ensures Apply(s, ac, env).state == s.state
  {
    hide Terminations;
    match ac
    case TxSSAR => TerminationsAppend(s.notes, Delivered);
    case TxSSARDiscard | RxSSAADiscard => TerminationsAppend(s.notes, Discarded);
    case RxSSA => TerminationsAppend(s.notes, HandedUp);
    case GrantAccess => TerminationsAppend(s.notes, Succeeded);
    case RxRAR =>
      TerminationsAppend(s.notes, SentRAA(env.reAuthSet));
      TwoAppend(s.notes, ReAuthenticated, SentRAA(env.reAuthSet));
    case TxSTRNoSvc => TerminationsAppend(s.notes, SentSTR(REALM_NOT_SERVED));
    case TxSTRProcError => TerminationsAppend(s.notes, SentSTR(AVP_UNSUPPORTED));
    case SessionTimeout => TwoAppend(s.notes, SessionTimedOut, WasReset);
    case SessionTimeoutState => TwoAppend(s.notes, SentSTR(AUTHORIZATION_REJECTED), SessionTimedOut);
    case AuthTimeout => TwoAppend(s.notes, SentSTR(AUTHORIZATION_REJECTED), AuthorizationTimedOut);
    case UserAbort => TerminationsAppend(s.notes, SentSTR(AUTHORIZATION_REJECTED));
    case TxASASuccess => TerminationsAppend(s.notes, SentASA(SUCCESS));
    case TxASATxSTRSuccess => TwoAppend(s.notes, SentASA(SUCCESS), SentSTR(SUCCESS));
    case TxASAFail => TerminationsAppend(s.notes, SentASA(UNABLE_TO_COMPLY));
    case Disconnect => TwoAppend(s.notes, Disconnected, WasReset);
    case Cleanup => TwoAppend(s.notes, Aborted, WasReset);
  }

  lemma TwoAppend(notes: seq<Note>, a: Note, b: Note)
    ensures Terminations(notes + [a] + [b]) ==
            Terminations(notes) + (if a.SentSTR? then 1 else 0) + (if b.SentSTR? then 1 else 0)
  {
    TerminationsAppend(notes, a);
    TerminationsAppend(notes + [a], b);
  }

  /** The table asks for termination exactly where it leads from another state to DISC. */
  lemma LeavingAsks(st: State, ev: Event)
    ensures var m := Transition(st, ev);
            m.Some? ==> (st != DISC && m.value.0 == DISC <==> m.value.1.Some? && Asks(m.value.1.value))
  {
  }

  lemma NotifyAsks(s: Session, ev: Event, env: Surroundings)
    ensures Terminations(Notify(s, ev, env).notes) ==
            Terminations(s.notes) + if s.state != DISC && Notify(s, ev, env).state == DISC then 1 else 0
  {
    LeavingAsks(s.state, ev);
    hide Transition, Apply, Asks, Terminations;
    if s.running {
      match Transition(s.state, ev)
      case Some((next, Some(ac))) => ApplyAsks(s.(state := next), ac, env);
      case _ =>
    }
  }

  /** How often a run enters the state in which a session waits for the end of its termination. */
  function Leavings(attrs: Attributes, steps: seq<Step>): nat {
    if steps == [] then 0
    else
      var front := steps[..|steps| - 1];
      Leavings(attrs, front) + if Run(attrs, front).state != DISC && Run(attrs, steps).state == DISC then 1 else 0
  }

  /** Every run asks the server for termination exactly once for each time it starts leaving. */
  lemma {:induction false} OneRequestPerLeaving(attrs: Attributes, steps: seq<Step>)
    ensures Terminations(Run(attrs, steps).notes) == Leavings(attrs, steps)
  {
    hide Notify, Terminations;
    if steps == [] {
      assert Terminations([]) == 0 by { NoTerminations(); }
    } else {
      var s, st := Run(attrs, steps[..|steps| - 1]), steps[|steps| - 1];
      OneRequestPerLeaving(attrs, steps[..|steps| - 1]);
      if st.Raise? {
        NotifyAsks(s, st.ev, st.env);
      } else if st.Fire? && st.timerType in s.timers {
        NotifyAsks(s, s.timers[st.timerType].event, st.env);
      }
    }
  }

  lemma NoTerminations()
    ensures Terminations([]) == 0
  {
  }

  /** An abort request is answered: with success and the own request to terminate, or with a refusal to try again. */
  lemma AbortsAreAnswered(s: Session, env: Surroundings)
    requires s.running && s.state == OPEN
    ensures var q := Notify(s, RX_ASR_OK, env);
            q.state == DISC && q.timers == s.timers && q.notes == s.notes + [SentASA(SUCCESS), SentSTR(SUCCESS)]
    ensures var q := Notify(s, RX_ASR_RETRY, env);
            q.state == OPEN && q.timers == s.timers && q.notes == s.notes + [SentASA(UNABLE_TO_COMPLY)]
  {
    assert forall a: Note, b: Note :: s.notes + [a] + [b] == s.notes + [a, b];
  }

  /** A grant that is refused: what the server is told. */
  lemma RefusalsAreReported(s: Session, env: Surroundings)
    requires s.running && s.state == PENDING
    ensures Notify(s, SSAA_NOSVC, env) == s.(state := DISC, notes := s.notes + [SentSTR(REALM_NOT_SERVED)])
    ensures Notify(s, SSAA_ERROR, env) == s.(state := DISC, notes := s.notes + [SentSTR(AVP_UNSUPPORTED)])
  {
  }

  /** A failed access ends the session at once and asks for nothing. */
  lemma FailuresEndAtOnce(s: Session, env: Surroundings)
    requires s.running && s.state == PENDING
    ensures Notify(s, SSAA_FAIL, env) ==
            s.(running := false, state := IDLE, timers := map[], notes := s.notes + [Aborted, WasReset])
  {
    assert s.notes + [Aborted] + [WasReset] == s.notes + [Aborted, WasReset];
  }

  /** An open session that is aborted here asks for termination unsupervised; one reauthorized says whether it was. */
  lemma OpenRequestsAreMet(s: Session, env: Surroundings)
    requires s.running && s.state == OPEN
    ensures Notify(s, ABORT, env) ==
            s.(state := DISC, timers := map[], notes := s.notes + [SentSTR(AUTHORIZATION_REJECTED)])
    ensures Notify(s, RX_RAR, env) ==
            s.(notes := s.notes + if env.reAuthSet then [ReAuthenticated, SentRAA(true)] else [SentRAA(false)])
  {
    assert s.notes + [ReAuthenticated] + [SentRAA(true)] == s.notes + [ReAuthenticated, SentRAA(true)];
  }
}
