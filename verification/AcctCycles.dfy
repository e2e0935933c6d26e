/** An accounting session whose records are delivered and answered: what it sends, in which order and how often. */
module AcctCycles {
  import opened Basics
  import opened Timers
  import opened AcctClient

  /** A triggered request that is delivered: one record under the next number, and nothing armed until the answer. */
  lemma RequestIsOffered(s: Session, ev: Event, env: Surroundings)
    requires s.running && !s.compatible && env.delivered
    requires (s.state == OPEN && (ev == INT_EXPIRE || ev == STOP)) ||
             (s.state == IDLE && (ev == REQUEST_ACCESS || ev == REQUEST_ONETIME_ACCESS || ev == REC_IN_STORAGE))
    ensures var r := Notify(s, ev, env).0;
            var t := if ev == INT_EXPIRE then INTERIM_RECORD else s.recordType;
            var n := (s.recordNumber + 1) % 0x1_0000_0000;
            && r.running && !r.compatible && r.timers == map[] && r.recordType == t && r.recordNumber == n
            && r.interimInterval == s.interimInterval
            && r.notes == s.notes + [Generated(t, n), Offered(t, n)]
            && r.state == (match ev case INT_EXPIRE => PENDING_I case STOP => PENDING_L
                                    case REQUEST_ACCESS => PENDING_S case REQUEST_ONETIME_ACCESS => PENDING_E
                                    case _ => PENDING_B)
  {
    RequestIsTriggered(s, ev, env);
    hide Notify, Transition, Triggers;
    var n := (s.recordNumber + 1) % 0x1_0000_0000;
    var t := if ev == INT_EXPIRE then INTERIM_RECORD else s.recordType;
    assert s.notes + [Generated(t, n)] + [Offered(t, n)] == s.notes + [Generated(t, n), Offered(t, n)];
  }

  lemma RequestIsTriggered(s: Session, ev: Event, env: Surroundings)
    requires s.running && Triggers(s.state, ev)
    ensures Notify(s, ev, env).0 ==
            SendRecord(CancelAll(s.(state := Transition(s.state, ev).value.0))
                         .(recordType := if ev == INT_EXPIRE then INTERIM_RECORD else s.recordType), env).0
  {
    TriggersSend(s.state, ev);
    hide SendRecord, Transition;
  }

  /**
    A success: what was replayed is deleted from storage; otherwise a start or interim record arms the interim timer
    anew, which other records do not. The session opens after an interval record and is over after any other.
   */
  lemma SuccessIsTaken(s: Session, env: Surroundings)
    requires s.running && s.state != IDLE && s.state != OPEN
    ensures var r := Notify(s, RX_ACA_OK, env).0;
            && r.state == (if s.state == PENDING_S || s.state == PENDING_I then OPEN else IDLE)
            && r.recordNumber == s.recordNumber && r.recordType == s.recordType
            && (env.lastInStorage ==> r.timers == s.timers && r.notes == s.notes + [Deleted(s.recordType), Succeeded])
            && (!env.lastInStorage ==> r.notes == s.notes + [Succeeded])
            && (!env.lastInStorage ==>
                  r.timers == if s.recordType == START_RECORD || s.recordType == INTERIM_RECORD
                              then map[INTERVAL_TIMER := Timer(INT_EXPIRE, s.interimInterval)] else s.timers)
  {
    assert s.notes + [Deleted(s.recordType)] + [Succeeded] == s.notes + [Deleted(s.recordType), Succeeded];
  }

  // ---------------------------------------------------------------- interim records

  const GOOD: Surroundings := Surroundings(true, false, true)

  /** A session that is started and answered, and whose interim timer then fires n times, each record answered. */
  function Cycled(s: Session, n: nat): Session {
    if n == 0 then Notify(Notify(s, REQUEST_ACCESS, GOOD).0, RX_ACA_OK, GOOD).0
    else
      var q := Cycled(s, n - 1);
      if INTERVAL_TIMER in q.timers
      then Notify(Notify(q, q.timers[INTERVAL_TIMER].event, GOOD).0, RX_ACA_OK, GOOD).0 else q
  }

  /** One record generated, offered and answered. */
  function Exchange(t: RecordType, number: nat): seq<Note> {
    [Generated(t, number), Offered(t, number), Succeeded]
  }

  /** A start record under the number after k, then n interim records under the numbers that follow. */
  function Exchanges(k: nat, n: nat): seq<Note> {
    if n == 0 then Exchange(START_RECORD, (k + 1) % 0x1_0000_0000)
    else Exchanges(k, n - 1) + Exchange(INTERIM_RECORD, (k + 1 + n) % 0x1_0000_0000)
  }

  /** While records are delivered and answered, interim records go out one for each interval, numbered in order. */
  lemma {:induction false} InterimsAreNumbered(s: Session, n: nat)
    requires s.running && !s.compatible && s.state == IDLE && s.recordType == START_RECORD
    ensures var r := Cycled(s, n);
            && r.running && !r.compatible && r.state == OPEN && r.interimInterval == s.interimInterval
            && r.timers == map[INTERVAL_TIMER := Timer(INT_EXPIRE, s.interimInterval)]
            && r.recordNumber == (s.recordNumber + 1 + n) % 0x1_0000_0000
            && r.notes == s.notes + Exchanges(s.recordNumber, n)
  {
    hide Notify;
    if n == 0 {
      OneExchange(s, REQUEST_ACCESS);
    } else {
      InterimsAreNumbered(s, n - 1);
      var q := Cycled(s, n - 1);
      OneExchange(q, INT_EXPIRE);
      NextNumber(s.recordNumber + n);
      var e := Exchange(INTERIM_RECORD, (s.recordNumber + 1 + n) % 0x1_0000_0000);
      assert (s.notes + Exchanges(s.recordNumber, n - 1)) + e == s.notes + (Exchanges(s.recordNumber, n - 1) + e);
    }
  }

  lemma NextNumber(v: nat)
    ensures (v % 0x1_0000_0000 + 1) % 0x1_0000_0000 == (v + 1) % 0x1_0000_0000
  {
  }

  lemma OneExchange(s: Session, ev: Event)
    requires s.running && !s.compatible
    requires (s.state == OPEN && ev == INT_EXPIRE) ||
             (s.state == IDLE && ev == REQUEST_ACCESS && s.recordType == START_RECORD)
    ensures var r := Notify(Notify(s, ev, GOOD).0, RX_ACA_OK, GOOD).0;
            var n := (s.recordNumber + 1) % 0x1_0000_0000;
            && r.running && !r.compatible && r.state == OPEN && r.interimInterval == s.interimInterval
            && r.timers == map[INTERVAL_TIMER := Timer(INT_EXPIRE, s.interimInterval)]
            && r.recordNumber == n
            && r.notes == s.notes + Exchange(if ev == INT_EXPIRE then INTERIM_RECORD else START_RECORD, n)
  {
    RequestIsOffered(s, ev, GOOD);
    var m := Notify(s, ev, GOOD).0;
    SuccessIsTaken(m, GOOD);
    SuccessKeepsRunning(m, GOOD);
    hide Notify;
    var t := if ev == INT_EXPIRE then INTERIM_RECORD else START_RECORD;
    var n := (s.recordNumber + 1) % 0x1_0000_0000;
    assert s.notes + [Generated(t, n), Offered(t, n)] + [Succeeded] == s.notes + Exchange(t, n);
  }

  lemma SuccessKeepsRunning(s: Session, env: Surroundings)
    requires s.running && s.state != IDLE && s.state != OPEN
    ensures var r := Notify(s, RX_ACA_OK, env).0;
            r.running && r.compatible == s.compatible && r.interimInterval == s.interimInterval
  {
  }

  // ---------------------------------------------------------------- refusals and stops

  /** A refused record opens an interval session only as GRANT_AND_LOSE asks, and then with the session timer alone. */
  lemma RefusalIsTaken(s: Session, env: Surroundings)
    requires s.running && s.state != IDLE && s.state != OPEN
    ensures var interval := s.state == PENDING_S || s.state == PENDING_I;
            && (interval ==>
                  && Notify(s, RX_ACA_FAIL_AND_GAL, env).0 ==
                       s.(state := OPEN, timers := map[SESSION_TIMER := Timer(SESSION_TOUT, s.sessionTimeout)])
                  && Notify(s, RX_ACA_FAIL_NOT_GAL, env).0 ==
                       s.(state := IDLE, timers := map[], notes := s.notes + [WasReset]))
            && (!interval ==>
                  Notify(s, RX_ACA_FAIL, env).0 ==
                    s.(state := IDLE, notes := s.notes + if s.state == PENDING_B then [Deleted(s.recordType)] else []))
  {
    assert s.notes + [] == s.notes;
  }

  /** A stop that comes while an interval record is unanswered stores a stop record and waits on. */
  lemma EarlyStopsAreStored(s: Session, env: Surroundings)
    requires s.running && (s.state == PENDING_S || s.state == PENDING_I)
    ensures Notify(s, STOP, env).0 == s.(timers := map[], notes := s.notes + [Stored(STOP_RECORD)])
  {
  }
}
