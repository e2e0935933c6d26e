/** The authorization server session: its table, its actions, and the timers that supervise it. */
module AuthServer {
  import opened Basics
  import opened StateTables
  import opened TableFunctions
  import opened Timers
  import opened AuthTypes

  datatype Action =
    | RxSSARDiscard | RxSSA | TxSSAADiscard | TxSSA | GrantAccess | TxASR | TxRAR | RxRAA | TxSTACleanup
    | TxSTACleanupIdle | RxASA | AuthTimeout | SessionTimeout | SessionReclaim | Cleanup

  type ServerRow = Row<State, Event, Action>

  type ServerMove = Move<State, Action>

  type ServerArms = Arms<State, Event, Action>

  // ---------------------------------------------------------------- the table, state by state

  function IdleArms(): ServerArms {
    On(SSAR_OK, OPEN, Some(GrantAccess),
    On(SSAR_FAIL, IDLE, Some(Cleanup),
    On(RX_ASA_OK, IDLE, None,
    On(RX_ASA_FAIL, IDLE, None,
    On(RX_STR, IDLE, Some(TxSTACleanupIdle),
    On(TX_SSAA, IDLE, Some(TxSSA),
    On(RX_SSAR, IDLE, Some(RxSSA),
    On(SESSION_TOUT_NOST, IDLE, Some(SessionTimeout),
    On(SESSION_RECLAIM, IDLE, Some(SessionReclaim),
    On(ABORT, IDLE, Some(Cleanup),
    Otherwise(IDLE, None)))))))))))
  }

  function OpenArms(): ServerArms {
    On(SSAR_OK, OPEN, Some(GrantAccess),
    On(SSAR_FAIL, IDLE, Some(Cleanup),
    On(TX_SSAR, OPEN, Some(TxSSA),
    On(RX_SSAA, OPEN, Some(RxSSA),
    On(SSAA_OK, OPEN, None,
    On(SSAA_FAIL, IDLE, Some(Cleanup),
    On(ABORT, DISC, Some(TxASR),
    On(LIFETIME_TOUT, IDLE, Some(AuthTimeout),
    LaterOpenArms()))))))))
  }

  function LaterOpenArms(): ServerArms {
    On(SESSION_TOUT_ST, IDLE, Some(SessionTimeout),
    On(RX_ASA_OK, OPEN, None,
    On(RX_ASA_FAIL, OPEN, None,
    On(RX_STR, IDLE, Some(TxSTACleanup),
    On(TX_SSAA, OPEN, Some(TxSSA),
    On(RX_SSAR, OPEN, Some(RxSSA),
    On(REAUTH, OPEN, Some(TxRAR),
    On(RX_RAA, OPEN, Some(RxRAA),
    Otherwise(OPEN, None)))))))))
  }

  function DiscArms(): ServerArms {
    On(TX_ASR_FAIL, DISC, Some(TxASR),
    On(RX_ASA_OK, DISC, Some(RxASA),
    On(RX_ASA_FAIL, IDLE, Some(Cleanup),
    On(RX_STR, IDLE, Some(TxSTACleanup),
    On(LIFETIME_TOUT, IDLE, Some(AuthTimeout),
    On(SESSION_TOUT_ST, IDLE, Some(SessionTimeout),
    On(TX_SSAA, DISC, Some(TxSSAADiscard),
    On(RX_SSAR, DISC, Some(RxSSARDiscard),
    Otherwise(DISC, None)))))))))
  }

  /** The table in the order of the constructor. */
  function Table(): Blocks<State, Event, Action> {
    Block(IDLE, IdleArms(),
    Block(OPEN, OpenArms(),
    Block(DISC, DiscArms(),
    Done)))
  }

  function Rows(): seq<ServerRow> {
    BlockRows(Table())
  }

  // ---------------------------------------------------------------- the table as a function

  function FromIdle(ev: Event): ServerMove {
    match ev
    case SSAR_OK => Some((OPEN, Some(GrantAccess)))
    case SSAR_FAIL => Some((IDLE, Some(Cleanup)))
    case RX_ASA_OK => Some((IDLE, None))
    case RX_ASA_FAIL => Some((IDLE, None))
    case RX_STR => Some((IDLE, Some(TxSTACleanupIdle)))
    case TX_SSAA => Some((IDLE, Some(TxSSA)))
    case RX_SSAR => Some((IDLE, Some(RxSSA)))
    case SESSION_TOUT_NOST => Some((IDLE, Some(SessionTimeout)))
    case SESSION_RECLAIM => Some((IDLE, Some(SessionReclaim)))
    case ABORT => Some((IDLE, Some(Cleanup)))
    case _ => Some((IDLE, None))
  }

  function FromOpen(ev: Event): ServerMove {
    match ev
    case SSAR_OK => Some((OPEN, Some(GrantAccess)))
    case SSAR_FAIL => Some((IDLE, Some(Cleanup)))
    case TX_SSAR => Some((OPEN, Some(TxSSA)))
    case RX_SSAA => Some((OPEN, Some(RxSSA)))
    case SSAA_OK => Some((OPEN, None))
    case SSAA_FAIL => Some((IDLE, Some(Cleanup)))
    case ABORT => Some((DISC, Some(TxASR)))
    case LIFETIME_TOUT => Some((IDLE, Some(AuthTimeout)))
    case SESSION_TOUT_ST => Some((IDLE, Some(SessionTimeout)))
    case RX_ASA_OK => Some((OPEN, None))
    case RX_ASA_FAIL => Some((OPEN, None))
    case RX_STR => Some((IDLE, Some(TxSTACleanup)))
    case TX_SSAA => Some((OPEN, Some(TxSSA)))
    case RX_SSAR => Some((OPEN, Some(RxSSA)))
    case REAUTH => Some((OPEN, Some(TxRAR)))
    case RX_RAA => Some((OPEN, Some(RxRAA)))
    case _ => Some((OPEN, None))
  }

  function FromDisc(ev: Event): ServerMove {
    match ev
    case TX_ASR_FAIL => Some((DISC, Some(TxASR)))
    case RX_ASA_OK => Some((DISC, Some(RxASA)))
    case RX_ASA_FAIL => Some((IDLE, Some(Cleanup)))
    case RX_STR => Some((IDLE, Some(TxSTACleanup)))
    case LIFETIME_TOUT => Some((IDLE, Some(AuthTimeout)))
    case SESSION_TOUT_ST => Some((IDLE, Some(SessionTimeout)))
    case TX_SSAA => Some((DISC, Some(TxSSAADiscard)))
    case RX_SSAR => Some((DISC, Some(RxSSARDiscard)))
    case _ => Some((DISC, None))
  }

  function Transition(st: State, ev: Event): ServerMove {
    match st
    case IDLE => FromIdle(ev)
    case OPEN => FromOpen(ev)
    case DISC => FromDisc(ev)
    case PENDING => None
  }

  // ---------------------------------------------------------------- the rows agree with the function

  lemma IdleAgrees(ev: Event)
    ensures Find(IdleArms(), ev) == FromIdle(ev) && Distinct(IdleArms())
  {
  }

  predicate IsLaterInOpen(ev: Event) {
    ev in {SESSION_TOUT_ST, RX_ASA_OK, RX_ASA_FAIL, RX_STR, TX_SSAA, RX_SSAR, REAUTH, RX_RAA}
  }

  lemma LaterOpenAgrees(ev: Event)
    ensures Mentions(LaterOpenArms(), ev) <==> IsLaterInOpen(ev)
    ensures Find(LaterOpenArms(), ev) == if IsLaterInOpen(ev) then FromOpen(ev) else Some((OPEN, None))
    ensures Distinct(LaterOpenArms())
  {
  }

  predicate IsEarlierInOpen(ev: Event) {
    ev in {SSAR_OK, SSAR_FAIL, TX_SSAR, RX_SSAA, SSAA_OK, SSAA_FAIL, ABORT, LIFETIME_TOUT}
  }

  lemma OpenFinds(ev: Event)
    ensures IsEarlierInOpen(ev) ==> Find(OpenArms(), ev) == FromOpen(ev)
    ensures !IsEarlierInOpen(ev) ==> Find(OpenArms(), ev) == Find(LaterOpenArms(), ev)
  {
    hide LaterOpenArms;
  }

  lemma NeitherInOpen(ev: Event)
    requires !IsEarlierInOpen(ev) && !IsLaterInOpen(ev)
    ensures FromOpen(ev) == Some((OPEN, None))
  {
  }

  lemma OpenIsDistinct()
    ensures Distinct(OpenArms())
  {
    hide LaterOpenArms, Find;
    forall e ensures Mentions(LaterOpenArms(), e) <==> IsLaterInOpen(e) {
      LaterOpenAgrees(e);
    }
    LaterOpenAgrees(STOP);
  }

  lemma OpenAgrees(ev: Event)
    ensures Find(OpenArms(), ev) == FromOpen(ev) && Distinct(OpenArms())
  {
    hide OpenArms, LaterOpenArms, FromOpen, IsEarlierInOpen, IsLaterInOpen;
    OpenIsDistinct();
    OpenFinds(ev);
    LaterOpenAgrees(ev);
    if !IsEarlierInOpen(ev) && !IsLaterInOpen(ev) {
      NeitherInOpen(ev);
    }
  }

  lemma DiscAgrees(ev: Event)
    ensures Find(DiscArms(), ev) == FromDisc(ev) && Distinct(DiscArms())
  {
  }

  lemma TableAgrees(st: State, ev: Event)
    ensures FindIn(Table(), st, ev) == Transition(st, ev)
  {
    hide Find, IdleArms, FromIdle, OpenArms, FromOpen, DiscArms, FromDisc;
    match st
    case IDLE => IdleAgrees(ev);
    case OPEN => OpenAgrees(ev);
    case DISC => DiscAgrees(ev);
    case PENDING =>
  }

  lemma TableIsBuildable()
    ensures Buildable(Table())
  {
    hide Distinct, IdleArms, OpenArms, DiscArms;
    IdleAgrees(STOP);
    OpenAgrees(STOP);
    DiscAgrees(STOP);
  }

  /** The constructor never meets a duplicate, and looking an event up in the list is the transition function. */
  lemma LookupIsTransition(st: State, ev: Event)
    ensures Built(Rows())
    ensures Target(Lookup(Rows(), st, ev)) == Transition(st, ev)
  {
    TableIsBuildable();
    TableAgrees(st, ev);
    hide Table, Transition;
    LookupIsFind(Table(), st, ev);
  }

  // ---------------------------------------------------------------- the actions

  /** The server waits a little longer than the client does. */
  function Grant(s: Session): Session {
    var a := s.attrs;
    Noted(Schedule(Schedule(CancelAll(s), SESSION_TIMER, SESSION_TOUT_ST, Wrap(a.sessionTimeout + GRACE_PERIOD)),
                   AUTH_TIMER, LIFETIME_TOUT, Wrap(a.lifetime + a.grace + GRACE_PERIOD)),
          Succeeded)
  }

  /** An answer on its way out extends the access time of a stateless session. */
  function Answer(s: Session): Session {
    var sent := Noted(s, Delivered);
    if s.attrs.stateful then sent
    else
      Noted(if s.attrs.sessionTimeout > 0 then
              Schedule(CancelAll(sent), SESSION_TIMER, SESSION_TOUT_NOST, Wrap(s.attrs.sessionTimeout + GRACE_PERIOD))
            else
              Schedule(CancelAll(sent), SESSION_TIMER, SESSION_RECLAIM, RECLAMATION_PERIOD),
            Succeeded)
  }

  function Abort(s: Session, retry: nat, env: Surroundings): Session {
    var sent := Noted(CancelAll(s), SentASR(env.delivered));
    if env.delivered then sent.(asrSent := true) else Schedule(sent, ASR_TIMER, TX_ASR_FAIL, retry)
  }

  function Forget(s: Session): Session {
    Reset(s.(asrSent := false))
  }

  function Apply(s: Session, ac: Action, retry: nat, env: Surroundings): Session {
    match ac
    case RxSSARDiscard => Noted(s, Discarded)
    case RxSSA => Noted(s, HandedUp)
    case TxSSAADiscard => Noted(s, Discarded)
    case TxSSA => Answer(s)
    case GrantAccess => Grant(s)
    case TxASR => Abort(s, retry, env)
    case TxRAR => if env.reAuthSet then Noted(s, SentRAR) else s
    case RxRAA => if env.reAuthSet then Noted(s, ReAuthenticated) else s
    case TxSTACleanup => Forget(Noted(Noted(CancelAll(s), SentSTA(AUTHORIZATION_REJECTED)), Disconnected))
    case TxSTACleanupIdle => Forget(Noted(CancelAll(s), SentSTA(AUTHORIZATION_REJECTED)))
    case RxASA => Noted(s.(timers := s.timers - {ASR_TIMER}), Aborted)
    case AuthTimeout => Forget(CancelAll(Noted(s, AuthorizationTimedOut)))
    case SessionTimeout => Forget(CancelAll(Noted(s, SessionTimedOut)))
    case SessionReclaim =>
      if env.reclaimed then Forget(Noted(CancelAll(s), Disconnected))
      else Schedule(CancelAll(s), SESSION_TIMER, SESSION_RECLAIM, RECLAMATION_PERIOD)
    case Cleanup => Forget(Noted(CancelAll(s), Aborted))
  }

  function Notify(s: Session, ev: Event, retry: nat, env: Surroundings): Session {
    if !s.running then s
    else
      match Transition(s.state, ev)
      case None => s
      case Some((next, None)) => s.(state := next)
      case Some((next, Some(ac))) => Apply(s.(state := next), ac, retry, env)
  }

  function Next(s: Session, retry: nat, st: Step): Session {
    match st
    case Raise(ev, env) => Notify(s, ev, retry, env)
    case Fire(t, env) => if t in s.timers then Notify(s, s.timers[t].event, retry, env) else s
    case Negotiate(t, l, g) => s.(attrs := s.attrs.(sessionTimeout := t, lifetime := l, grace := g))
  }

  function Run(attrs: Attributes, retry: nat, steps: seq<Step>): Session {
    if steps == [] then Start(attrs) else Next(Run(attrs, retry, steps[..|steps| - 1]), retry, steps[|steps| - 1])
  }

  // ---------------------------------------------------------------- supervision

  /**
    A stateful session is supervised by both timers while it is open and by none while it is idle. While it is
    aborted only the retry of the abort can be armed.
   */
  predicate Fits(s: Session) {
    && s.attrs.stateful && (s.running || s.state == IDLE)
    && match s.state
       case IDLE => s.timers == map[]
       case PENDING => false
       case OPEN => Supervised(s)
       case DISC => s.timers.Keys <= {ASR_TIMER} && (ASR_TIMER in s.timers ==> s.timers[ASR_TIMER].event == TX_ASR_FAIL)
  }

  lemma IdleFits(s: Session, ev: Event, retry: nat, env: Surroundings)
    requires Fits(s) && s.state == IDLE && ev != SESSION_RECLAIM
    ensures Fits(Notify(s, ev, retry, env))
  {
  }

  /** Where an action of an open session leads. */
  predicate LeavesOpenFor(ac: Action, next: State) {
    match ac
    case GrantAccess | TxSSA | RxSSA | TxRAR | RxRAA => next == OPEN
    case Cleanup | AuthTimeout | SessionTimeout | TxSTACleanup => next == IDLE
    case TxASR => next == DISC
    case _ => false
  }

  lemma OpenLeads(ev: Event)
    ensures var m := Transition(OPEN, ev);
            m.Some? && if m.value.1.Some? then LeavesOpenFor(m.value.1.value, m.value.0) else m.value.0 == OPEN
  {
  }

  lemma OpenApplyFits(s: Session, next: State, ac: Action, retry: nat, env: Surroundings)
    requires Fits(s) && s.state == OPEN && LeavesOpenFor(ac, next)
    ensures Fits(Apply(s.(state := next), ac, retry, env))
  {
  }

  lemma OpenFits(s: Session, ev: Event, retry: nat, env: Surroundings)
    requires Fits(s) && s.state == OPEN && ev != SESSION_RECLAIM
    ensures Fits(Notify(s, ev, retry, env))
  {
    OpenLeads(ev);
    hide Transition, LeavesOpenFor, Apply;
    match Transition(OPEN, ev)
    case Some((next, Some(ac))) => OpenApplyFits(s, next, ac, retry, env);
    case Some((next, None)) =>
  }

  lemma DiscFits(s: Session, ev: Event, retry: nat, env: Surroundings)
    requires Fits(s) && s.state == DISC && ev != SESSION_RECLAIM
    ensures Fits(Notify(s, ev, retry, env))
  {
  }

  lemma NotifyFits(s: Session, ev: Event, retry: nat, env: Surroundings)
    requires Fits(s) && ev != SESSION_RECLAIM
    ensures Fits(Notify(s, ev, retry, env))
  {
    match s.state
    case IDLE => IdleFits(s, ev, retry, env);
    case OPEN => OpenFits(s, ev, retry, env);
    case DISC => DiscFits(s, ev, retry, env);
  }

  /** Only the reclamation timer raises the reclamation event. */
  predicate Proper(steps: seq<Step>) {
    forall st <- steps :: st.Raise? ==> st.ev != SESSION_RECLAIM
  }

  /** Every run of a stateful server session keeps its supervision timers in step with its state. */
  lemma {:induction false} RunFits(attrs: Attributes, retry: nat, steps: seq<Step>)
    requires attrs.stateful && Proper(steps)
    ensures Fits(Run(attrs, retry, steps))
  {
    if steps != [] {
      var s, st := Run(attrs, retry, steps[..|steps| - 1]), steps[|steps| - 1];
      RunFits(attrs, retry, steps[..|steps| - 1]);
      if st.Raise? {
        NotifyFits(s, st.ev, retry, st.env);
      } else if st.Fire? && st.timerType in s.timers {
        NotifyFits(s, s.timers[st.timerType].event, retry, st.env);
      }
    }
  }

  /** No open session outlives its timers: either of them firing ends it. */
  lemma TimersEndOpenSessions(s: Session, timerType: int, retry: nat, env: Surroundings)
    requires Fits(s) && s.state == OPEN && timerType in s.timers
    ensures Next(s, retry, Fire(timerType, env)).state == IDLE && Next(s, retry, Fire(timerType, env)).timers == map[]
  {
  }

  // ---------------------------------------------------------------- the end of a session

  predicate Resets(ac: Action, env: Surroundings) {
    ac in {TxSTACleanup, TxSTACleanupIdle, AuthTimeout, SessionTimeout, Cleanup} || (ac == SessionReclaim && env.reclaimed)
  }

  lemma ForgetProceeds(s: Session, m: Session)
    requires s.notes <= m.notes && m.state == IDLE && forall i :: |s.notes| <= i < |m.notes| ==> m.notes[i] != WasReset
    ensures Proceeds(s, Forget(m))
  {
  }

  lemma ResettingProceeds(s: Session, ac: Action, retry: nat, env: Surroundings)
    requires s.running && Resets(ac, env) && s.state == IDLE
    ensures Proceeds(s, Apply(s, ac, retry, env))
  {
    hide Forget, Proceeds;
    match ac
    case TxSTACleanup =>
      ForgetProceeds(s, Noted(Noted(CancelAll(s), SentSTA(AUTHORIZATION_REJECTED)), Disconnected));
    case TxSTACleanupIdle => ForgetProceeds(s, Noted(CancelAll(s), SentSTA(AUTHORIZATION_REJECTED)));
    case AuthTimeout => ForgetProceeds(s, CancelAll(Noted(s, AuthorizationTimedOut)));
    case SessionTimeout => ForgetProceeds(s, CancelAll(Noted(s, SessionTimedOut)));
    case SessionReclaim => ForgetProceeds(s, Noted(CancelAll(s), Disconnected));
    case _ => ForgetProceeds(s, Noted(CancelAll(s), Aborted));
  }

  lemma OthersProceed(s: Session, ac: Action, retry: nat, env: Surroundings)
    requires s.running && !Resets(ac, env)
    ensures Apply(s, ac, retry, env).running && s.notes <= Apply(s, ac, retry, env).notes
    ensures forall i :: |s.notes| <= i < |Apply(s, ac, retry, env).notes| ==> Apply(s, ac, retry, env).notes[i] != WasReset
  {
  }

  lemma ApplyProceeds(s: Session, ac: Action, retry: nat, env: Surroundings)
    requires s.running && (Resets(ac, env) ==> s.state == IDLE)
    ensures Proceeds(s, Apply(s, ac, retry, env))
  {
    hide Apply, Resets;
    if Resets(ac, env) {
      ResettingProceeds(s, ac, retry, env);
    } else {
      OthersProceed(s, ac, retry, env);
    }
  }

  /** The table resets a session only on its way to idle. */
  lemma ResetsAreIdle(st: State, ev: Event, env: Surroundings)
    requires Transition(st, ev).Some? && Transition(st, ev).value.1.Some?
    ensures Resets(Transition(st, ev).value.1.value, env) ==> Transition(st, ev).value.0 == IDLE
  {
  }

  lemma NotifyResetsLast(s: Session, ev: Event, retry: nat, env: Surroundings)
    requires ResetsLast(s)
    ensures ResetsLast(Notify(s, ev, retry, env))
  {
    if s.running {
      match Transition(s.state, ev)
      case Some((next, Some(ac))) =>
        ResetsAreIdle(s.state, ev, env);
        ApplyProceeds(s.(state := next), ac, retry, env);
        hide Apply, Transition, Resets;
        ProceedingResetsLast(s.(state := next), Apply(s.(state := next), ac, retry, env));
      case _ =>
    }
  }

  /** Every run resets a session at most once; that leaves it idle, and nothing is sent or reported afterwards. */
  lemma {:induction false} RunResetsLast(attrs: Attributes, retry: nat, steps: seq<Step>)
    ensures ResetsLast(Run(attrs, retry, steps))
  {
    hide Notify;
    if steps != [] {
      var s, st := Run(attrs, retry, steps[..|steps| - 1]), steps[|steps| - 1];
      RunResetsLast(attrs, retry, steps[..|steps| - 1]);
      if st.Raise? {
        NotifyResetsLast(s, st.ev, retry, st.env);
      } else if st.Fire? && st.timerType in s.timers {
        NotifyResetsLast(s, s.timers[st.timerType].event, retry, st.env);
      }
    }
  }

  /** A termination request is answered exactly once, in every state, and ends the session. */
  lemma TerminationsAreAnswered(s: Session, retry: nat, env: Surroundings)
    requires s.running && s.state != PENDING
    ensures var q := Notify(s, RX_STR, retry, env);
            && q.state == IDLE && !q.running && q.timers == map[]
            && q.notes == s.notes + [SentSTA(AUTHORIZATION_REJECTED)]
                          + (if s.state == IDLE then [] else [Disconnected]) + [WasReset]
  {
    assert s.notes + [SentSTA(AUTHORIZATION_REJECTED)] + [] == s.notes + [SentSTA(AUTHORIZATION_REJECTED)];
  }
}
