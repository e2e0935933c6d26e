/**
  The accounting client session (RFC 3588 section 8.2): its state table, and the event step that an action may
  re-enter when an accounting request cannot be sent.
 */
module AcctClient {
  import opened Basics
  import opened StateTables
  import opened TableFunctions
  import opened Timers

  datatype State = IDLE | OPEN | PENDING_S | PENDING_I | PENDING_E | PENDING_B | PENDING_L

  datatype Event =
    | REQUEST_ACCESS | REQUEST_ONETIME_ACCESS | REC_IN_STORAGE | RX_ACA_OK | FTS_NOT_DAG | FTS_AND_GAL | FTS_NOT_GAL
    | RX_ACA_FAIL_AND_GAL | RX_ACA_FAIL_NOT_GAL | INT_EXPIRE | RX_ACA_FAIL | FTS | FTS_BUF | FTS_NO_BUF
    | SESSION_TOUT | STOP

  datatype RecordType = EVENT_RECORD | START_RECORD | INTERIM_RECORD | STOP_RECORD | OTHER_RECORD(code: nat)

  datatype Realtime = DELIVER_AND_GRANT | GRANT_AND_STORE | GRANT_AND_LOSE | OTHER_REALTIME(code: nat)

  datatype Action =
    | TxACR | InterimTimeout | RxACASuccess | StoreRecord(recordType: RecordType) | StartIntTimer | DeleteRecord | Disconnect

  type AcctRow = Row<State, Event, Action>

  type AcctMove = Move<State, Action>

  type AcctArms = Arms<State, Event, Action>

  // ---------------------------------------------------------------- the table

  function IdleArms(): AcctArms {
    On(REQUEST_ACCESS, PENDING_S, Some(TxACR),
    On(REQUEST_ONETIME_ACCESS, PENDING_E, Some(TxACR),
    On(REC_IN_STORAGE, PENDING_B, Some(TxACR),
    Otherwise(IDLE, None))))
  }

  function PendingSArms(): AcctArms {
    On(RX_ACA_OK, OPEN, Some(RxACASuccess),
    On(FTS_NOT_DAG, OPEN, Some(StoreRecord(START_RECORD)),
    On(FTS_AND_GAL, OPEN, Some(StartIntTimer),
    On(FTS_NOT_GAL, IDLE, Some(Disconnect),
    On(RX_ACA_FAIL_AND_GAL, OPEN, Some(StartIntTimer),
    On(RX_ACA_FAIL_NOT_GAL, IDLE, Some(Disconnect),
    On(STOP, PENDING_S, Some(StoreRecord(STOP_RECORD)),
    Otherwise(PENDING_S, None))))))))
  }

  function OpenArms(): AcctArms {
    On(INT_EXPIRE, PENDING_I, Some(InterimTimeout),
    On(STOP, PENDING_L, Some(TxACR),
    Otherwise(OPEN, None)))
  }

  function PendingIArms(): AcctArms {
    On(RX_ACA_OK, OPEN, Some(RxACASuccess),
    On(FTS_NOT_DAG, OPEN, Some(StoreRecord(INTERIM_RECORD)),
    On(FTS_AND_GAL, OPEN, Some(StartIntTimer),
    On(FTS_NOT_GAL, IDLE, Some(Disconnect),
    On(RX_ACA_FAIL_AND_GAL, OPEN, Some(StartIntTimer),
    On(RX_ACA_FAIL_NOT_GAL, IDLE, Some(Disconnect),
    On(STOP, PENDING_I, Some(StoreRecord(STOP_RECORD)),
    Otherwise(PENDING_I, None))))))))
  }

  function PendingEArms(): AcctArms {
    On(RX_ACA_OK, IDLE, Some(RxACASuccess),
    On(FTS_BUF, IDLE, Some(StoreRecord(EVENT_RECORD)),
    On(FTS_NO_BUF, IDLE, None,
    On(RX_ACA_FAIL, IDLE, None,
    Otherwise(PENDING_E, None)))))
  }

  function PendingBArms(): AcctArms {
    On(RX_ACA_OK, IDLE, Some(RxACASuccess),
    On(FTS, IDLE, None,
    On(RX_ACA_FAIL, IDLE, Some(DeleteRecord),
    Otherwise(PENDING_B, None))))
  }

  function PendingLArms(): AcctArms {
    On(RX_ACA_OK, IDLE, Some(RxACASuccess),
    On(FTS_BUF, IDLE, Some(StoreRecord(STOP_RECORD)),
    On(FTS_NO_BUF, IDLE, None,
    On(RX_ACA_FAIL, IDLE, None,
    Otherwise(PENDING_L, None)))))
  }

  /** The table in the order of the constructor. */
  function Table(): Blocks<State, Event, Action> {
    Block(IDLE, IdleArms(),
    Block(PENDING_S, PendingSArms(),
    Block(OPEN, OpenArms(),
    Block(PENDING_I, PendingIArms(),
    Block(PENDING_E, PendingEArms(),
    Block(PENDING_B, PendingBArms(),
    Block(PENDING_L, PendingLArms(),
    Done)))))))
  }

  function Rows(): seq<AcctRow> {
    BlockRows(Table())
  }

  // ---------------------------------------------------------------- the table as a function

  function FromIdle(ev: Event): AcctMove {
    match ev
    case REQUEST_ACCESS => Some((PENDING_S, Some(TxACR)))
    case REQUEST_ONETIME_ACCESS => Some((PENDING_E, Some(TxACR)))
    case REC_IN_STORAGE => Some((PENDING_B, Some(TxACR)))
    case _ => Some((IDLE, None))
  }

  /** PendingS and PendingI differ only in the record they store and where they stay. */
  function FromInterval(st: State, stored: RecordType, ev: Event): AcctMove {
    match ev
    case RX_ACA_OK => Some((OPEN, Some(RxACASuccess)))
    case FTS_NOT_DAG => Some((OPEN, Some(StoreRecord(stored))))
    case FTS_AND_GAL => Some((OPEN, Some(StartIntTimer)))
    case FTS_NOT_GAL => Some((IDLE, Some(Disconnect)))
    case RX_ACA_FAIL_AND_GAL => Some((OPEN, Some(StartIntTimer)))
    case RX_ACA_FAIL_NOT_GAL => Some((IDLE, Some(Disconnect)))
    case STOP => Some((st, Some(StoreRecord(STOP_RECORD))))
    case _ => Some((st, None))
  }

  function FromPendingS(ev: Event): AcctMove {
    FromInterval(PENDING_S, START_RECORD, ev)
  }

  function FromPendingI(ev: Event): AcctMove {
    FromInterval(PENDING_I, INTERIM_RECORD, ev)
  }

  function FromOpen(ev: Event): AcctMove {
    match ev
    case INT_EXPIRE => Some((PENDING_I, Some(InterimTimeout)))
    case STOP => Some((PENDING_L, Some(TxACR)))
    case _ => Some((OPEN, None))
  }

  /** PendingE and PendingL differ only in the record they store and where they stay. */
  function FromLast(st: State, stored: RecordType, ev: Event): AcctMove {
    match ev
    case RX_ACA_OK => Some((IDLE, Some(RxACASuccess)))
    case FTS_BUF => Some((IDLE, Some(StoreRecord(stored))))
    case FTS_NO_BUF => Some((IDLE, None))
    case RX_ACA_FAIL => Some((IDLE, None))
    case _ => Some((st, None))
  }

  function FromPendingE(ev: Event): AcctMove {
    FromLast(PENDING_E, EVENT_RECORD, ev)
  }

  function FromPendingL(ev: Event): AcctMove {
    FromLast(PENDING_L, STOP_RECORD, ev)
  }

  function FromPendingB(ev: Event): AcctMove {
    match ev
    case RX_ACA_OK => Some((IDLE, Some(RxACASuccess)))
    case FTS => Some((IDLE, None))
    case RX_ACA_FAIL => Some((IDLE, Some(DeleteRecord)))
    case _ => Some((PENDING_B, None))
  }

  function Transition(st: State, ev: Event): AcctMove {
    match st
    case IDLE => FromIdle(ev)
    case PENDING_S => FromPendingS(ev)
    case OPEN => FromOpen(ev)
    case PENDING_I => FromPendingI(ev)
    case PENDING_E => FromPendingE(ev)
    case PENDING_B => FromPendingB(ev)
    case PENDING_L => FromPendingL(ev)
  }

  // ---------------------------------------------------------------- the rows agree with the function

  lemma IdleAgrees(ev: Event)
    ensures Find(IdleArms(), ev) == FromIdle(ev) && Distinct(IdleArms())
  {
  }

  lemma PendingSAgrees(ev: Event)
    ensures Find(PendingSArms(), ev) == FromPendingS(ev) && Distinct(PendingSArms())
  {
  }

  lemma OpenAgrees(ev: Event)
    ensures Find(OpenArms(), ev) == FromOpen(ev) && Distinct(OpenArms())
  {
  }

  lemma PendingIAgrees(ev: Event)
    ensures Find(PendingIArms(), ev) == FromPendingI(ev) && Distinct(PendingIArms())
  {
  }

  lemma PendingEAgrees(ev: Event)
    ensures Find(PendingEArms(), ev) == FromPendingE(ev) && Distinct(PendingEArms())
  {
  }

  lemma PendingBAgrees(ev: Event)
    ensures Find(PendingBArms(), ev) == FromPendingB(ev) && Distinct(PendingBArms())
  {
  }

  lemma PendingLAgrees(ev: Event)
    ensures Find(PendingLArms(), ev) == FromPendingL(ev) && Distinct(PendingLArms())
  {
  }

  lemma TableAgrees(st: State, ev: Event)
    ensures FindIn(Table(), st, ev) == Transition(st, ev)
  {
    hide Find, IdleArms, FromIdle, PendingSArms, FromPendingS, OpenArms, FromOpen, PendingIArms, FromPendingI,
         PendingEArms, FromPendingE, PendingBArms, FromPendingB, PendingLArms, FromPendingL;
    match st
    case IDLE => IdleAgrees(ev);
    case PENDING_S => PendingSAgrees(ev);
    case OPEN => OpenAgrees(ev);
    case PENDING_I => PendingIAgrees(ev);
    case PENDING_E => PendingEAgrees(ev);
    case PENDING_B => PendingBAgrees(ev);
    case PENDING_L => PendingLAgrees(ev);
  }

  lemma TableIsBuildable()
    ensures Buildable(Table())
  {
    hide Distinct, IdleArms, PendingSArms, OpenArms, PendingIArms, PendingEArms, PendingBArms, PendingLArms;
    IdleAgrees(STOP);
    PendingSAgrees(STOP);
    OpenAgrees(STOP);
    PendingIAgrees(STOP);
    PendingEAgrees(STOP);
    PendingBAgrees(STOP);
    PendingLAgrees(STOP);
  }

  /** The constructor never meets a duplicate, and looking an event up in the list is the transition function. */
  lemma LookupIsTransition(st: State, ev: Event)
    ensures Built(Rows())
    ensures Target(Lookup(Rows(), st, ev)) == Transition(st, ev)
  {
    TableIsBuildable();
    TableAgrees(st, ev);
    hide Table, Transition;
    LookupIsFind(Table(), st, ev);
  }

  // ---------------------------------------------------------------- the session

  /** What the session asks of its record collector and its application, in order. */
  datatype Note =
    | Generated(recordType: RecordType, number: nat)
    | Offered(recordType: RecordType, number: nat)   // handed to the delivery
    | Stored(recordType: RecordType)
    | Deleted(recordType: RecordType)
    | SendFailed(number: nat)
    | Succeeded
    | WasReset

  datatype Session = Session(
    running: bool,
    state: State,
    recordType: RecordType,
    recordNumber: nat,
    compatible: bool,          // backward compatibility: records are generated but not sent
    realtime: Realtime,
    interimInterval: int,
    sessionTimeout: int,
    timers: map<int, Timer<Event>>,
    notes: seq<Note>)

  /** How delivery and storage behave during one event. */
  datatype Surroundings = Surroundings(delivered: bool, lastInStorage: bool, space: bool)

  const SESSION_TIMER: int := 2
  const INTERVAL_TIMER: int := 4
  const TWO_TO_THE_32: nat := 0x1_0000_0000

  function Noted(s: Session, n: Note): Session {
    s.(notes := s.notes + [n])
  }

  function CancelAll(s: Session): Session {
    s.(timers := map[])
  }

  function Schedule(s: Session, timerType: int, ev: Event, sec: int): Session {
    s.(timers := s.timers[timerType := Timer(ev, sec)])
  }

  predicate IsInterval(t: RecordType) {
    t == START_RECORD || t == INTERIM_RECORD
  }

  predicate IsLast(t: RecordType) {
    t == EVENT_RECORD || t == STOP_RECORD
  }

  /** The event a failure to send is turned into. */
  function FailureEvent(s: Session, env: Surroundings): Event {
    if env.lastInStorage then FTS
    else if IsLast(s.recordType) then (if env.space then FTS_BUF else FTS_NO_BUF)
    else if env.space && s.realtime != DELIVER_AND_GRANT then FTS_NOT_DAG
    else if s.realtime == GRANT_AND_LOSE then FTS_AND_GAL
    else FTS_NOT_GAL
  }

  predicate Sends(ac: Action) {
    ac == TxACR || ac == InterimTimeout
  }

  predicate IsFailure(ev: Event) {
    ev == FTS || ev == FTS_BUF || ev == FTS_NO_BUF || ev == FTS_NOT_DAG || ev == FTS_AND_GAL || ev == FTS_NOT_GAL
  }

  predicate Triggers(st: State, ev: Event) {
    var m := Transition(st, ev);
    m.Some? && m.value.1.Some? && Sends(m.value.1.value)
  }

  /** A record is generated under the next number; a failure to send it re-enters the machine. */
  function SendRecord(s: Session, env: Surroundings): (r: (Session, nat))
    decreases 1, 0
  {
    var n := (s.recordNumber + 1) % TWO_TO_THE_32;
    var made := Noted(s.(recordNumber := n), Generated(s.recordType, n));
    if s.compatible then (made, 0)
    else
      var offered := Noted(made, Offered(s.recordType, n));
      if env.delivered then (offered, 0)
      else
        FailuresDoNotSend(offered.state, FailureEvent(offered, env));
        var (after, depth) := Notify(offered, FailureEvent(offered, env), env);
        (Noted(after, SendFailed(after.recordNumber)), depth)
  }

  function OnSuccess(s: Session, env: Surroundings): Session {
    Noted(if env.lastInStorage then Noted(s, Deleted(s.recordType))
          else if IsInterval(s.recordType) then Schedule(CancelAll(s), INTERVAL_TIMER, INT_EXPIRE, s.interimInterval)
          else s,
          Succeeded)
  }

  function Store(s: Session, t: RecordType): Session {
    var stored := Noted(CancelAll(s), Stored(t));
    if IsInterval(t) then Schedule(stored, INTERVAL_TIMER, INT_EXPIRE, s.interimInterval) else stored
  }

  function Apply(s: Session, ac: Action, env: Surroundings): (Session, nat)
    decreases if Sends(ac) then 1 else 0, 1
  {
    match ac
    case TxACR => SendRecord(CancelAll(s), env)
    case InterimTimeout => SendRecord(CancelAll(s).(recordType := INTERIM_RECORD), env)
    case RxACASuccess => (OnSuccess(s, env), 0)
    case StoreRecord(t) => (Store(s, t), 0)
    case StartIntTimer => (Schedule(CancelAll(s), SESSION_TIMER, SESSION_TOUT, s.sessionTimeout), 0)
    case DeleteRecord => (Noted(s, Deleted(s.recordType)), 0)
    case Disconnect => (Noted(CancelAll(s), WasReset), 0)
  }

  /** One event: the state changes first, then the action runs. Also how deep events nest. */
  function Notify(s: Session, ev: Event, env: Surroundings): (Session, nat)
    decreases if Triggers(s.state, ev) then 1 else 0, 2
  {
    if !s.running then (s, 1)
    else
      match Transition(s.state, ev)
      case None => (s, 1)
      case Some((next, None)) => (s.(state := next), 1)
      case Some((next, Some(ac))) =>
        var (after, depth) := Apply(s.(state := next), ac, env);
        (after, depth + 1)
  }

  lemma FailuresDoNotSend(st: State, ev: Event)
    requires IsFailure(ev)
    ensures !Triggers(st, ev)
  {
  }

  // ---------------------------------------------------------------- main results

  predicate IsPending(st: State) {
    st != IDLE && st != OPEN
  }

  /** The record type a triggered request goes out with. */
  function RecordSent(s: Session, ev: Event): RecordType {
    if ev == INT_EXPIRE then INTERIM_RECORD else s.recordType
  }

  /** The session between the moment a request is handed to the delivery and the news that this failed. */
  function Waiting(s: Session, ev: Event): Session
    requires Triggers(s.state, ev)
  {
    var n := (s.recordNumber + 1) % TWO_TO_THE_32;
    s.(state := Transition(s.state, ev).value.0, timers := map[], recordType := RecordSent(s, ev), recordNumber := n,
       notes := s.notes + [Generated(RecordSent(s, ev), n)] + [Offered(RecordSent(s, ev), n)])
  }

  /** What a failure event does to a waiting session. */
  function Resolved(s: Session, f: Event): Session {
    match Transition(s.state, f)
    case None => s
    case Some((next, None)) => s.(state := next)
    case Some((next, Some(StoreRecord(t)))) => Store(s.(state := next), t)
    case Some((next, Some(StartIntTimer))) =>
      Schedule(CancelAll(s.(state := next)), SESSION_TIMER, SESSION_TOUT, s.sessionTimeout)
    case Some((next, Some(_))) => Noted(CancelAll(s.(state := next)), WasReset)
  }

  /** A failed request that this event triggers. */
  predicate Fails(s: Session, ev: Event, env: Surroundings) {
    s.running && !s.compatible && !env.delivered && Triggers(s.state, ev)
  }

  lemma FailureResolves(s: Session, f: Event, env: Surroundings)
    requires IsFailure(f) && s.running
    ensures Notify(s, f, env) == (Resolved(s, f), 1)
  {
    match Transition(s.state, f)
    case None =>
    case Some((next, None)) =>
    case Some((next, Some(ac))) =>
      FailureActions(s.state, f);
      assert Apply(s.(state := next), ac, env).1 == 0;
  }

  lemma FailureActions(st: State, f: Event)
    requires IsFailure(f)
    ensures var m := Transition(st, f);
            m.Some? && m.value.1.Some? ==>
              m.value.1.value.StoreRecord? || m.value.1.value == StartIntTimer || m.value.1.value == Disconnect
  {
  }

  lemma SendUnfolds(s: Session, env: Surroundings)
    requires s.running && !s.compatible && !env.delivered
    ensures var n := (s.recordNumber + 1) % TWO_TO_THE_32;
            var offered := s.(recordNumber := n,
                              notes := s.notes + [Generated(s.recordType, n)] + [Offered(s.recordType, n)]);
            var r := Resolved(offered, FailureEvent(offered, env));
            SendRecord(s, env) == (Noted(r, SendFailed(r.recordNumber)), 1)
  {
    var n := (s.recordNumber + 1) % TWO_TO_THE_32;
    var offered := s.(recordNumber := n, notes := s.notes + [Generated(s.recordType, n)] + [Offered(s.recordType, n)]);
    assert offered == Noted(Noted(s.(recordNumber := n), Generated(s.recordType, n)), Offered(s.recordType, n));
    FailureResolves(offered, FailureEvent(offered, env), env);
    hide Notify, Resolved;
    assert SendRecord(s, env) == (Noted(Notify(offered, FailureEvent(offered, env), env).0,
                                        SendFailed(Notify(offered, FailureEvent(offered, env), env).0.recordNumber)), 1);
  }

  /** A failed request is the waiting session resolved by its failure event, at depth two. */
  lemma FailureUnfolds(s: Session, ev: Event, env: Surroundings)
    requires Fails(s, ev, env)
    ensures var w := Waiting(s, ev);
            var r := Resolved(w, FailureEvent(w, env));
            Notify(s, ev, env) == (Noted(r, SendFailed(r.recordNumber)), 2)
  {
    var next := Transition(s.state, ev).value.0;
    var t := RecordSent(s, ev);
    TriggersSend(s.state, ev);
    SendUnfolds(CancelAll(s.(state := next)).(recordType := t), env);
    hide SendRecord, Resolved;
    assert Apply(s.(state := next), Transition(s.state, ev).value.1.value, env)
           == SendRecord(CancelAll(s.(state := next)).(recordType := t), env);
  }

  lemma TriggersSend(st: State, ev: Event)
    requires Triggers(st, ev)
    ensures Transition(st, ev).value.1 == Some(if ev == INT_EXPIRE then InterimTimeout else TxACR)
    ensures Transition(st, ev).value.0 ==
              match ev case REQUEST_ACCESS => PENDING_S case REQUEST_ONETIME_ACCESS => PENDING_E
                       case REC_IN_STORAGE => PENDING_B case INT_EXPIRE => PENDING_I case _ => PENDING_L
    ensures ev == REQUEST_ACCESS || ev == REQUEST_ONETIME_ACCESS || ev == REC_IN_STORAGE || ev == INT_EXPIRE || ev == STOP
  {
  }

  /** Events nest at most two deep, and exactly two when a request fails. */
  lemma NestingIsBounded(s: Session, ev: Event, env: Surroundings)
    ensures Notify(s, ev, env).1 == if Fails(s, ev, env) then 2 else 1
  {
    if Fails(s, ev, env) {
      FailureUnfolds(s, ev, env);
    }
  }

  /** Storage holds a record exactly while replaying, and the record is of the kind the event asks for. */
  predicate Matching(s: Session, ev: Event, env: Surroundings) {
    && (env.lastInStorage <==> ev == REC_IN_STORAGE)
    && (ev == REQUEST_ONETIME_ACCESS || ev == STOP ==> IsLast(s.recordType))
    && (ev == REQUEST_ACCESS ==> !IsLast(s.recordType))
  }

  /** What resolving a failure adds to the notes. */
  function Extra(st: State, f: Event): seq<Note> {
    match Transition(st, f)
    case Some((_, Some(StoreRecord(t)))) => [Stored(t)]
    case Some((_, Some(Disconnect))) => [WasReset]
    case _ => []
  }

  /** The timers a failure leaves in a waiting session, which has none. */
  function TimersLeft(s: Session, f: Event): map<int, Timer<Event>> {
    match Transition(s.state, f)
    case Some((_, Some(StoreRecord(t)))) =>
      if IsInterval(t) then map[INTERVAL_TIMER := Timer(INT_EXPIRE, s.interimInterval)] else map[]
    case Some((_, Some(StartIntTimer))) => map[SESSION_TIMER := Timer(SESSION_TOUT, s.sessionTimeout)]
    case _ => map[]
  }

  lemma ResolvedState(s: Session, f: Event)
    requires IsFailure(f) && s.timers == map[]
    ensures var r := Resolved(s, f);
            && Transition(s.state, f).Some? && r.state == Transition(s.state, f).value.0
            && r.notes == s.notes + Extra(s.state, f) && r.timers == TimersLeft(s, f)
            && r.recordNumber == s.recordNumber
            && |Extra(s.state, f)| <= 1 && forall k :: SendFailed(k) !in Extra(s.state, f)
  {
    FailureActions(s.state, f);
    assert s.notes + [] == s.notes;
  }

  /** What a failed request leaves: the state, notes and timers of the resolved session. */
  lemma FailureLeaves(s: Session, ev: Event, env: Surroundings)
    requires Fails(s, ev, env)
    ensures var r := Notify(s, ev, env).0;
            var w := Waiting(s, ev);
            var f := FailureEvent(w, env);
            && Transition(w.state, f).Some? && r.state == Transition(w.state, f).value.0
            && r.notes == w.notes + Extra(w.state, f) + [SendFailed(w.recordNumber)]
            && r.timers == TimersLeft(w, f) && r.recordNumber == w.recordNumber
            && |Extra(w.state, f)| <= 1 && forall k :: SendFailed(k) !in Extra(w.state, f)
  {
    FailureUnfolds(s, ev, env);
    ResolvedState(Waiting(s, ev), FailureEvent(Waiting(s, ev), env));
    hide Notify, Resolved, Transition, FailureEvent, Extra, TimersLeft, Fails, Triggers;
  }

  /** Which failure events end which pending states. */
  lemma FailuresEnd(st: State, f: Event)
    requires IsPending(st) && IsFailure(f)
    ensures Transition(st, f).Some?
    ensures !IsPending(Transition(st, f).value.0) <==>
              if f == FTS then st == PENDING_B
              else if f == FTS_BUF || f == FTS_NO_BUF then st == PENDING_E || st == PENDING_L
              else st == PENDING_S || st == PENDING_I
  {
  }

  /** After a failed request the session is outside every pending state exactly if the premises match. */
  lemma FailureLeavesPendingIffMatching(s: Session, ev: Event, env: Surroundings)
    requires Fails(s, ev, env)
    ensures !IsPending(Notify(s, ev, env).0.state) <==> Matching(s, ev, env)
  {
    FailureLeaves(s, ev, env);
    TriggersSend(s.state, ev);
    var w := Waiting(s, ev);
    var f := FailureEvent(w, env);
    hide Notify, Transition, Fails, Triggers;
    FailuresEnd(w.state, f);
  }

  predicate IsStored(notes: seq<Note>, t: RecordType) {
    Stored(t) in notes
  }

  /** A start or interim record that could not be sent: kept, lost, or the end of the session. */
  lemma IntervalCases(w: Session, env: Surroundings, t: RecordType)
    requires (w.state == PENDING_S && t == START_RECORD) || (w.state == PENDING_I && t == INTERIM_RECORD)
    requires !IsLast(w.recordType) && !env.lastInStorage
    ensures var f := FailureEvent(w, env);
            var kept := env.space && w.realtime != DELIVER_AND_GRANT;
            var lost := !kept && w.realtime == GRANT_AND_LOSE;
            && Transition(w.state, f).Some?
            && Transition(w.state, f).value.0 == (if kept || lost then OPEN else IDLE)
            && Extra(w.state, f) == (if kept then [Stored(t)] else if lost then [] else [WasReset])
            && TimersLeft(w, f) == (if kept then map[INTERVAL_TIMER := Timer(INT_EXPIRE, w.interimInterval)]
                                    else if lost then map[SESSION_TIMER := Timer(SESSION_TOUT, w.sessionTimeout)]
                                    else map[])
  {
  }

  /** An event or stop record that could not be sent: stored if there is space, and the session ends. */
  lemma LastCases(w: Session, env: Surroundings, t: RecordType)
    requires (w.state == PENDING_E && t == EVENT_RECORD) || (w.state == PENDING_L && t == STOP_RECORD)
    requires IsLast(w.recordType) && !env.lastInStorage
    ensures var f := FailureEvent(w, env);
            && Transition(w.state, f).Some? && Transition(w.state, f).value.0 == IDLE
            && Extra(w.state, f) == (if env.space then [Stored(t)] else [])
            && TimersLeft(w, f) == map[]
  {
  }

  lemma ResolutionNotes(before: seq<Note>, a: Note, b: Note, mid: seq<Note>, z: Note)
    ensures before + [a] + [b] + mid + [z] == before + ([a, b] + mid + [z])
    ensures (before + [a] + [b] + mid + [z])[|before|..] == [a, b] + mid + [z]
    ensures before + [a] + [b] + [] + [z] == before + [a] + [b] + [z]
  {
    assert before + [a] + [b] + [] == before + [a] + [b];
  }

  lemma StoredAmong(before: seq<Note>, a: Note, b: Note, mid: seq<Note>, z: Note, t: RecordType)
    requires !a.Stored? && !b.Stored? && !z.Stored?
    ensures IsStored((before + [a] + [b] + mid + [z])[|before|..], t) <==> Stored(t) in mid
  {
    ResolutionNotes(before, a, b, mid, z);
    assert forall n :: n in [a, b] + mid + [z] <==> n == a || n == b || n in mid || n == z;
  }

  /**
    After a failed start or interim record the session is open exactly if the record was stored or realtime
    is GRANT_AND_LOSE; otherwise it is idle. A stored record leaves the interim timer running, a lost one
    only the session timer.
   */
  lemma FailedIntervalRecord(s: Session, ev: Event, env: Surroundings)
    requires Fails(s, ev, env) && Matching(s, ev, env) && (ev == REQUEST_ACCESS || ev == INT_EXPIRE)
    ensures var r := Notify(s, ev, env).0;
            var t := if ev == REQUEST_ACCESS then START_RECORD else INTERIM_RECORD;
            && s.notes <= r.notes
            && (r.state == OPEN <==> IsStored(r.notes[|s.notes|..], t) || s.realtime == GRANT_AND_LOSE)
            && (r.state == OPEN || r.state == IDLE)
            && (IsStored(r.notes[|s.notes|..], t) <==> env.space && s.realtime != DELIVER_AND_GRANT)
            && r.timers == (if IsStored(r.notes[|s.notes|..], t)
                            then map[INTERVAL_TIMER := Timer(INT_EXPIRE, s.interimInterval)]
                            else if r.state == OPEN then map[SESSION_TIMER := Timer(SESSION_TOUT, s.sessionTimeout)]
                            else map[])
  {
    FailureLeaves(s, ev, env);
    TriggersSend(s.state, ev);
    var w := Waiting(s, ev);
    IntervalCases(w, env, if ev == REQUEST_ACCESS then START_RECORD else INTERIM_RECORD);
    hide Notify, Triggers, Fails, Extra, TimersLeft, Transition, FailureEvent, IsStored, Matching;
    var t := RecordSent(s, ev);
    var made := if ev == REQUEST_ACCESS then START_RECORD else INTERIM_RECORD;
    var kept := env.space && s.realtime != DELIVER_AND_GRANT;
    var mid := if kept then [Stored(made)] else if s.realtime == GRANT_AND_LOSE then [] else [WasReset];
    var n := (s.recordNumber + 1) % TWO_TO_THE_32;
    StoredAmong(s.notes, Generated(t, n), Offered(t, n), mid, SendFailed(n), made);
    ResolutionNotes(s.notes, Generated(t, n), Offered(t, n), mid, SendFailed(n));
  }

  /** Something that happens to a session, with how delivery and storage behave meanwhile. */
  datatype Occurrence = Occurrence(event: Event, env: Surroundings)

  /** Timer events come from timers that are armed. */
  predicate CanHappen(s: Session, o: Occurrence) {
    && (o.event == INT_EXPIRE ==> INTERVAL_TIMER in s.timers)
    && (o.event == SESSION_TOUT ==> SESSION_TIMER in s.timers)
  }

  function After(s: Session, run: seq<Occurrence>): Session
    decreases |run|
  {
    if run == [] then s else After(Notify(s, run[0].event, run[0].env).0, run[1..])
  }

  /** A run in which the application does not stop the session. */
  predicate Unstopped(s: Session, run: seq<Occurrence>)
    decreases |run|
  {
    run == [] || (CanHappen(s, run[0]) && run[0].event != STOP && Unstopped(Notify(s, run[0].event, run[0].env).0, run[1..]))
  }

  /** An open session without its interim timer ignores everything but a stop. */
  lemma {:induction false} OpenWithoutInterims(s: Session, run: seq<Occurrence>)
    requires s.state == OPEN && INTERVAL_TIMER !in s.timers && Unstopped(s, run)
    ensures After(s, run) == s
  {
    if run != [] {
      assert Notify(s, run[0].event, run[0].env).0 == s.(state := OPEN);
      OpenWithoutInterims(s, run[1..]);
    }
  }

  /** Since s an interim record was generated. */
  ghost predicate Interim(s: Session, notes: seq<Note>) {
    exists i, k :: |s.notes| <= i < |notes| && notes[i] == Generated(INTERIM_RECORD, k)
  }

  /**
    After a start or interim record that could not be sent, another interim record can follow without a stop exactly
    if that record was stored: where it was lost, the session stays open and silent.
   */
  lemma InterimsGoOnIffStored(s: Session, ev: Event, env: Surroundings)
    requires Fails(s, ev, env) && Matching(s, ev, env) && (ev == REQUEST_ACCESS || ev == INT_EXPIRE)
    requires Notify(s, ev, env).0.state == OPEN
    ensures var r := Notify(s, ev, env).0;
            && s.notes <= r.notes
            && ((exists run :: Unstopped(r, run) && Interim(r, After(r, run).notes)) <==>
              IsStored(r.notes[|s.notes|..], if ev == REQUEST_ACCESS then START_RECORD else INTERIM_RECORD))
  {
    var r := Notify(s, ev, env).0;
    FailedIntervalRecord(s, ev, env);
    FailureKeepsRunning(s, ev, env);
    hide Notify, Fails, Matching, Unstopped, After, Interim;
    if INTERVAL_TIMER in r.timers {
      InterimFollows(r);
    } else {
      forall run | Unstopped(r, run) ensures !Interim(r, After(r, run).notes) {
        OpenWithoutInterims(r, run);
        NothingFollows(r);
      }
    }
  }

  lemma NothingFollows(s: Session)
    ensures !Interim(s, s.notes)
  {
  }

  lemma FailureKeepsRunning(s: Session, ev: Event, env: Surroundings)
    requires Fails(s, ev, env)
    ensures Notify(s, ev, env).0.running && !Notify(s, ev, env).0.compatible
  {
    FailureUnfolds(s, ev, env);
    hide Notify, Transition, FailureEvent;
  }

  lemma InterimFollows(s: Session)
    requires s.running && s.state == OPEN && INTERVAL_TIMER in s.timers
    ensures exists run :: Unstopped(s, run) && Interim(s, After(s, run).notes)
  {
    hide Notify;
    var env := Surroundings(true, false, false);
    var run := [Occurrence(INT_EXPIRE, env)];
    InterimIsGenerated(s, env);
    assert run[1..] == [] && After(s, run) == Notify(s, INT_EXPIRE, env).0 && Unstopped(s, run);
    assert After(s, run).notes[|s.notes|] == Generated(INTERIM_RECORD, (s.recordNumber + 1) % TWO_TO_THE_32);
  }

  lemma InterimIsGenerated(s: Session, env: Surroundings)
    requires s.running && s.state == OPEN && env.delivered
    ensures s.notes + [Generated(INTERIM_RECORD, (s.recordNumber + 1) % TWO_TO_THE_32)] <= Notify(s, INT_EXPIRE, env).0.notes
  {
    var ready := CancelAll(s.(state := PENDING_I)).(recordType := INTERIM_RECORD);
    assert Notify(s, INT_EXPIRE, env).0 == SendRecord(ready, env).0 by {
      hide SendRecord;
      assert Apply(s.(state := PENDING_I), InterimTimeout, env) == SendRecord(ready, env);
    }
    hide Notify;
  }

  /** A failed event or stop record ends the session, stored exactly if there is space. */
  lemma FailedLastRecord(s: Session, ev: Event, env: Surroundings)
    requires Fails(s, ev, env) && Matching(s, ev, env) && (ev == REQUEST_ONETIME_ACCESS || ev == STOP)
    ensures var r := Notify(s, ev, env).0;
            var t := if ev == STOP then STOP_RECORD else EVENT_RECORD;
            && s.notes <= r.notes && r.state == IDLE && r.timers == map[]
            && (IsStored(r.notes[|s.notes|..], t) <==> env.space)
  {
    FailureLeaves(s, ev, env);
    TriggersSend(s.state, ev);
    var w := Waiting(s, ev);
    LastCases(w, env, if ev == STOP then STOP_RECORD else EVENT_RECORD);
    hide Notify, Triggers, Fails, Extra, TimersLeft, Transition, FailureEvent, IsStored, Matching;
    var made := if ev == STOP then STOP_RECORD else EVENT_RECORD;
    var mid := if env.space then [Stored(made)] else [];
    var n := (s.recordNumber + 1) % TWO_TO_THE_32;
    StoredAmong(s.notes, Generated(s.recordType, n), Offered(s.recordType, n), mid, SendFailed(n), made);
    ResolutionNotes(s.notes, Generated(s.recordType, n), Offered(s.recordType, n), mid, SendFailed(n));
  }

  lemma ReportedOnce(before: seq<Note>, a: Note, b: Note, mid: seq<Note>, z: Note)
    requires !a.SendFailed? && !b.SendFailed? && forall k :: SendFailed(k) !in mid
    ensures var notes := before + [a] + [b] + mid + [z];
            && before + [a, b] <= notes && |notes| >= |before| + 3 && notes[|notes| - 1] == z
            && forall i, k :: |before| <= i < |notes| - 1 ==> notes[i] != SendFailed(k)
  {
    var notes := before + [a] + [b] + mid + [z];
    assert before + [a, b] == before + [a] + [b];
    forall i, k | |before| <= i < |notes| - 1
      ensures notes[i] != SendFailed(k)
    {
      if i >= |before| + 2 {
        assert notes[i] == mid[i - |before| - 2] && notes[i] in mid;
      }
    }
  }

  /** Every failed request is reported once, last, under the number its record was generated with. */
  lemma FailureIsReported(s: Session, ev: Event, env: Surroundings)
    requires Fails(s, ev, env)
    ensures var r := Notify(s, ev, env).0;
            var n := (s.recordNumber + 1) % TWO_TO_THE_32;
            && r.recordNumber == n
            && s.notes + [Generated(RecordSent(s, ev), n), Offered(RecordSent(s, ev), n)] <= r.notes
            && |r.notes| >= |s.notes| + 3 && r.notes[|r.notes| - 1] == SendFailed(n)
            && forall i, k :: |s.notes| <= i < |r.notes| - 1 ==> r.notes[i] != SendFailed(k)
  {
    FailureLeaves(s, ev, env);
    var w := Waiting(s, ev);
    hide Notify, Triggers, Fails, Extra, TimersLeft, Transition, FailureEvent;
    var n := (s.recordNumber + 1) % TWO_TO_THE_32;
    ReportedOnce(s.notes, Generated(RecordSent(s, ev), n), Offered(RecordSent(s, ev), n),
                 Extra(w.state, FailureEvent(w, env)), SendFailed(n));
  }
}
