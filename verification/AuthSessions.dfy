/** The authorization session machines of client and server as the objects whose actions arm and cancel timers. */
module AuthSessions {
  import opened Basics
  import opened StateTables
  import opened Timers
  import opened AuthTypes
  import AuthClient
  import AuthServer

  /** Arms both supervision timers and nothing else. */
  method Supervise(timers: TimerQueue<Event>, session: int, lifetime: int)
    requires timers.Valid()
    modifies timers
    ensures timers.Valid()
    ensures timers.Armed() == map[SESSION_TIMER := Timer(SESSION_TOUT_ST, session),
                                  AUTH_TIMER := Timer(LIFETIME_TOUT, lifetime)]
  {
    hide Consistent, ArmedIn;
    timers.CancelAllTimer();
    timers.ScheduleTimer(SESSION_TOUT_ST, session, SESSION_TIMER);
    timers.ScheduleTimer(LIFETIME_TOUT, lifetime, AUTH_TIMER);
  }

  class ClientSession {
    const table: StateTable<State, Event, AuthClient.Action>
    const timers: TimerQueue<Event>
    var running: bool
    var state: State
    var attrs: Attributes
    var notes: seq<Note>

    ghost function View(): Session
      requires timers.Valid()
      reads this, timers
    {
      Session(running, state, attrs, timers.Armed(), false, notes)
    }

    /** The table is filled as its constructor fills it. */
    ghost predicate Tabled()
      reads this, table
    {
      table.rows == AuthClient.Rows()
    }

    method GrantAccess()
      requires timers.Valid()
      modifies this`notes, timers
      ensures timers.Valid() && View() == AuthClient.Grant(old(View()))
    {
      hide Wrap, Consistent, ArmedIn;
      if attrs.stateful {
        Supervise(timers, attrs.sessionTimeout, Wrap(attrs.lifetime + attrs.grace));
      } else {
        timers.CancelAllTimer();
        if attrs.sessionTimeout > 0 {
          timers.ScheduleTimer(SESSION_TOUT_NOST, attrs.sessionTimeout, SESSION_TIMER);
        }
      }
      notes := notes + [Succeeded];
    }

    /** Stops the machine. */
    method Reset()
      requires timers.Valid()
      modifies this`running, this`notes
      ensures timers.Valid() && View() == AuthTypes.Reset(old(View()))
    {
      running := false;
      notes := notes + [WasReset];
    }

    method Act(ac: AuthClient.Action, env: Surroundings)
      requires timers.Valid()
      modifies this`running, this`notes, timers
      ensures timers.Valid() && View() == AuthClient.Apply(old(View()), ac, env)
    {
      match ac
      case TxSSAR => notes := notes + [Delivered];
      case TxSSARDiscard => notes := notes + [Discarded];
      case RxSSA => notes := notes + [HandedUp];
      case RxSSAADiscard => notes := notes + [Discarded];
      case GrantAccess => GrantAccess();
      case RxRAR =>
        if env.reAuthSet {
          notes := notes + [ReAuthenticated];
        }
        notes := notes + [SentRAA(env.reAuthSet)];
      case TxSTRNoSvc => notes := notes + [SentSTR(REALM_NOT_SERVED)];
      case TxSTRProcError => notes := notes + [SentSTR(AVP_UNSUPPORTED)];
      case SessionTimeout => timers.CancelAllTimer(); notes := notes + [SessionTimedOut]; Reset();
      case SessionTimeoutState =>
        timers.CancelAllTimer();
        notes := notes + [SentSTR(AUTHORIZATION_REJECTED)] + [SessionTimedOut];
      case AuthTimeout =>
        timers.CancelAllTimer();
        notes := notes + [SentSTR(AUTHORIZATION_REJECTED)] + [AuthorizationTimedOut];
      case UserAbort => timers.CancelAllTimer(); notes := notes + [SentSTR(AUTHORIZATION_REJECTED)];
      case TxASASuccess => notes := notes + [SentASA(SUCCESS)];
      case TxASATxSTRSuccess => notes := notes + [SentASA(SUCCESS)] + [SentSTR(SUCCESS)];
      case TxASAFail => notes := notes + [SentASA(UNABLE_TO_COMPLY)];
      case Disconnect => notes := notes + [Disconnected]; timers.CancelAllTimer(); Reset();
      case Cleanup => timers.CancelAllTimer(); notes := notes + [Aborted]; Reset();
    }

    /** The state changes first, then the action runs. */
    method Follow(row: Row<State, Event, AuthClient.Action>, env: Surroundings)
      requires timers.Valid()
      modifies this, timers
      ensures timers.Valid()
      ensures var entered := old(View()).(state := row.next);
              View() == if row.action.Some? then AuthClient.Apply(entered, row.action.value, env) else entered
    {
      hide AuthClient.Rows, AuthClient.Apply;
      state := row.next;
      if row.action.Some? {
        Act(row.action.value, env);
      }
    }

    method Notify(ev: Event, env: Surroundings)
      requires timers.Valid() && Tabled()
      modifies this, timers
      ensures timers.Valid() && View() == AuthClient.Notify(old(View()), ev, env)
    {
      hide AuthClient.Rows, AuthClient.Apply, AuthClient.Transition, Consistent, ArmedIn, Lookup;
      if !running {
        return;
      }
      AuthClient.LookupIsTransition(state, ev);
      var entry := table.FindStateTableEntry(state, ev);
      if entry.Some? {
        Follow(entry.value, env);
      }
    }

    constructor (table: StateTable<State, Event, AuthClient.Action>, attrs: Attributes)
      requires table.rows == AuthClient.Rows()
      ensures timers.Valid() && Tabled() && fresh(timers) && this.table == table && View() == Start(attrs)
    {
      this.table, this.attrs := table, attrs;
      timers := new TimerQueue();
      running, state, notes := true, IDLE, [];
    }
  }

  class ServerSession {
    const table: StateTable<State, Event, AuthServer.Action>
    const timers: TimerQueue<Event>
    const abortRetry: nat
    var running: bool
    var state: State
    var attrs: Attributes
    var asrSent: bool
    var notes: seq<Note>

    ghost function View(): Session
      requires timers.Valid()
      reads this, timers
    {
      Session(running, state, attrs, timers.Armed(), asrSent, notes)
    }

    /** The table is filled as its constructor fills it. */
    ghost predicate Tabled()
      reads this, table
    {
      table.rows == AuthServer.Rows()
    }

    method GrantAccess()
      requires timers.Valid()
      modifies this`notes, timers
      ensures timers.Valid() && View() == AuthServer.Grant(old(View()))
    {
      hide Wrap, Consistent, ArmedIn;
      Supervise(timers, Wrap(attrs.sessionTimeout + GRACE_PERIOD), Wrap(attrs.lifetime + attrs.grace + GRACE_PERIOD));
      notes := notes + [Succeeded];
    }

    method Answer()
      requires timers.Valid()
      modifies this`notes, timers
      ensures timers.Valid() && View() == AuthServer.Answer(old(View()))
    {
      hide Wrap, Consistent, ArmedIn;
      notes := notes + [Delivered];
      if !attrs.stateful {
        timers.CancelAllTimer();
        if attrs.sessionTimeout > 0 {
          timers.ScheduleTimer(SESSION_TOUT_NOST, Wrap(attrs.sessionTimeout + GRACE_PERIOD), SESSION_TIMER);
        } else {
          timers.ScheduleTimer(SESSION_RECLAIM, RECLAMATION_PERIOD, SESSION_TIMER);
        }
        notes := notes + [Succeeded];
      }
    }

    /** Sends an abort request; one that cannot be sent is tried again when its timer fires. */
    method Abort(env: Surroundings)
      requires timers.Valid()
      modifies this`asrSent, this`notes, timers
      ensures timers.Valid() && View() == AuthServer.Abort(old(View()), abortRetry, env)
    {
      timers.CancelAllTimer();
      notes := notes + [SentASR(env.delivered)];
      if !env.delivered {
        timers.ScheduleTimer(TX_ASR_FAIL, abortRetry, ASR_TIMER);
        return;
      }
      asrSent := true;
    }

    /** Stops the machine. */
    method Reset()
      requires timers.Valid()
      modifies this`running, this`notes
      ensures timers.Valid() && View() == AuthTypes.Reset(old(View()))
    {
      running := false;
      notes := notes + [WasReset];
    }

    method Forget()
      requires timers.Valid()
      modifies this`running, this`asrSent, this`notes
      ensures timers.Valid() && View() == AuthServer.Forget(old(View()))
    {
      asrSent := false;
      Reset();
    }

    method Reclaim(env: Surroundings)
      requires timers.Valid()
      modifies this`running, this`asrSent, this`notes, timers
      ensures timers.Valid() && View() == AuthServer.Apply(old(View()), AuthServer.SessionReclaim, abortRetry, env)
    {
      timers.CancelAllTimer();
      if env.reclaimed {
        notes := notes + [Disconnected];
        Forget();
      } else {
        timers.ScheduleTimer(SESSION_RECLAIM, RECLAMATION_PERIOD, SESSION_TIMER);
      }
    }

    method Act(ac: AuthServer.Action, env: Surroundings)
      requires timers.Valid()
      modifies this`running, this`asrSent, this`notes, timers
      ensures timers.Valid() && View() == AuthServer.Apply(old(View()), ac, abortRetry, env)
    {
      match ac
      case RxSSARDiscard => notes := notes + [Discarded];
      case RxSSA => notes := notes + [HandedUp];
      case TxSSAADiscard => notes := notes + [Discarded];
      case TxSSA => Answer();
      case GrantAccess => GrantAccess();
      case TxASR => Abort(env);
      case TxRAR =>
        if env.reAuthSet {
          notes := notes + [SentRAR];
        }
      case RxRAA =>
        if env.reAuthSet {
          notes := notes + [ReAuthenticated];
        }
      case TxSTACleanup =>
        timers.CancelAllTimer();
        notes := notes + [SentSTA(AUTHORIZATION_REJECTED)] + [Disconnected];
        Forget();
      case TxSTACleanupIdle => timers.CancelAllTimer(); notes := notes + [SentSTA(AUTHORIZATION_REJECTED)]; Forget();
      case RxASA => timers.CancelTimer(ASR_TIMER); notes := notes + [Aborted];
      case AuthTimeout => notes := notes + [AuthorizationTimedOut]; timers.CancelAllTimer(); Forget();
      case SessionTimeout => notes := notes + [SessionTimedOut]; timers.CancelAllTimer(); Forget();
      case SessionReclaim => Reclaim(env);
      case Cleanup => timers.CancelAllTimer(); notes := notes + [Aborted]; Forget();
    }

    /** The state changes first, then the action runs. */
    method Follow(row: Row<State, Event, AuthServer.Action>, env: Surroundings)
      requires timers.Valid()
      modifies this, timers
      ensures timers.Valid()
      ensures var entered := old(View()).(state := row.next);
              View() == if row.action.Some? then AuthServer.Apply(entered, row.action.value, abortRetry, env) else entered
    {
      hide AuthServer.Rows, AuthServer.Apply;
      state := row.next;
      if row.action.Some? {
        Act(row.action.value, env);
      }
    }

    method Notify(ev: Event, env: Surroundings)
      requires timers.Valid() && Tabled()
      modifies this, timers
      ensures timers.Valid() && View() == AuthServer.Notify(old(View()), ev, abortRetry, env)
    {
      hide AuthServer.Rows, AuthServer.Apply, AuthServer.Transition, Consistent, ArmedIn;
      if !running {
        return;
      }
      AuthServer.LookupIsTransition(state, ev);
      var entry := table.FindStateTableEntry(state, ev);
      if entry.Some? {
        Follow(entry.value, env);
      }
    }

    constructor (table: StateTable<State, Event, AuthServer.Action>, attrs: Attributes, abortRetry: nat)
      requires table.rows == AuthServer.Rows()
      ensures timers.Valid() && Tabled() && fresh(timers) && View() == Start(attrs)
      ensures this.table == table && this.abortRetry == abortRetry
    {
      this.table, this.attrs, this.abortRetry := table, attrs, abortRetry;
      timers := new TimerQueue();
      running, state, asrSent, notes := true, IDLE, false, [];
    }
  }
}
