/** `DiameterAcctSessionClientStateMachine`: the accounting client as the object whose actions re-enter it. */
module AcctSessions {
  import opened Basics
  import opened StateTables
  import opened TableFunctions
  import opened Timers
  import AcctClient
  import opened AcctTypes = AcctClient

  class AcctSession {
    const table: StateTable<State, Event, Action>
    const timers: TimerQueue<Event>
    var running: bool
    var state: State
    var recordType: RecordType
    var recordNumber: nat
    var compatible: bool
    var realtime: Realtime
    var interimInterval: int
    var sessionTimeout: int
    var notes: seq<Note>

    ghost function View(): Session
      requires timers.Valid()
      reads this, timers
    {
      Session(running, state, recordType, recordNumber, compatible, realtime, interimInterval, sessionTimeout,
              timers.Armed(), notes)
    }

    /** The table is filled as its constructor fills it. */
    ghost predicate Tabled()
      reads this, table
    {
      table.rows == Rows()
    }

    /** The event a failure to send is turned into. */
    method Failure(env: Surroundings) returns (ev: Event)
      requires timers.Valid()
      ensures ev == FailureEvent(View(), env) && IsFailure(ev)
    {
      if env.lastInStorage {
        ev := FTS;
      } else if recordType == EVENT_RECORD || recordType == STOP_RECORD {
        ev := if env.space then FTS_BUF else FTS_NO_BUF;
      } else if env.space && realtime != DELIVER_AND_GRANT {
        ev := FTS_NOT_DAG;
      } else if realtime == GRANT_AND_LOSE {
        ev := FTS_AND_GAL;
      } else {
        ev := FTS_NOT_GAL;
      }
    }

    method SendRecord(env: Surroundings)
      requires timers.Valid() && Tabled()
      modifies this, timers
      ensures timers.Valid() && View() == AcctClient.SendRecord(old(View()), env).0
      decreases 1, 0
    {
      hide Rows, Consistent, ArmedIn, Transition, Apply, AcctClient.Notify, FailureEvent, IsFailure, Triggers;
      recordNumber := (recordNumber + 1) % TWO_TO_THE_32;
      notes := notes + [Generated(recordType, recordNumber)];
      if compatible {
        return;
      }
      notes := notes + [Offered(recordType, recordNumber)];
      if env.delivered {
        return;
      }
      var ev := Failure(env);
      FailuresDoNotSend(state, ev);
      Notify(ev, env);
      notes := notes + [SendFailed(recordNumber)];
    }

    method OnSuccess(env: Surroundings)
      requires timers.Valid()
      modifies this`notes, timers
      ensures timers.Valid() && View() == AcctClient.OnSuccess(old(View()), env)
    {
      if env.lastInStorage {
        notes := notes + [Deleted(recordType)];
      } else if recordType == START_RECORD || recordType == INTERIM_RECORD {
        timers.CancelAllTimer();
        timers.ScheduleTimer(INT_EXPIRE, interimInterval, INTERVAL_TIMER);
      }
      notes := notes + [Succeeded];
    }

    method Store(t: RecordType)
      requires timers.Valid()
      modifies this`notes, timers
      ensures timers.Valid() && View() == AcctClient.Store(old(View()), t)
    {
      timers.CancelAllTimer();
      notes := notes + [Stored(t)];
      if t == START_RECORD || t == INTERIM_RECORD {
        timers.ScheduleTimer(INT_EXPIRE, interimInterval, INTERVAL_TIMER);
      }
    }

    method Act(ac: Action, env: Surroundings)
      requires timers.Valid() && Tabled()
      modifies this, timers
      ensures timers.Valid() && View() == Apply(old(View()), ac, env).0
      decreases if Sends(ac) then 1 else 0, 1
    {
      hide Rows, Consistent, ArmedIn;
      match ac
      case TxACR =>
        timers.CancelAllTimer();
        SendRecord(env);
      case InterimTimeout =>
        timers.CancelAllTimer();
        recordType := INTERIM_RECORD;
        SendRecord(env);
      case RxACASuccess => OnSuccess(env);
      case StoreRecord(t) => Store(t);
      case StartIntTimer =>
        timers.CancelAllTimer();
        timers.ScheduleTimer(SESSION_TOUT, sessionTimeout, SESSION_TIMER);
      case DeleteRecord => notes := notes + [Deleted(recordType)];
      case Disconnect =>
        timers.CancelAllTimer();
        notes := notes + [WasReset];
    }

    /** One event through the table; re-entered from inside an action when a request cannot be sent. */
    method Notify(ev: Event, env: Surroundings)
      requires timers.Valid() && Tabled()
      modifies this, timers
      ensures timers.Valid() && View() == AcctClient.Notify(old(View()), ev, env).0
      decreases if Triggers(state, ev) then 1 else 0, 2
    {
      hide Rows, Apply, Transition, Consistent, ArmedIn;
      if !running {
        return;
      }
      LookupIsTransition(state, ev);
      var entry := table.FindStateTableEntry(state, ev);
      if entry.Some? {
        state := entry.value.next;
        if entry.value.action.Some? {
          Act(entry.value.action.value, env);
        }
      }
    }

    /** The table is filled and the machine started: idle, with the record type and number of a new session. */
    constructor (table: StateTable<State, Event, Action>, realtime: Realtime, interimInterval: int, sessionTimeout: int)
      requires table.rows == Rows()
      ensures timers.Valid() && Tabled() && fresh(timers) && this.table == table
      ensures View() == Session(true, IDLE, EVENT_RECORD, 0, false, realtime, interimInterval, sessionTimeout, map[], [])
    {
      this.table := table;
      timers := new TimerQueue();
      running, state, recordType, recordNumber, compatible := true, IDLE, EVENT_RECORD, 0, false;
      this.realtime, this.interimInterval, this.sessionTimeout, notes := realtime, interimInterval, sessionTimeout, [];
    }
  }
}
