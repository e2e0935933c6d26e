/** What the authorization sessions of client and server share (RFC 3588 section 8.1). */
module AuthTypes {
  import opened Basics
  import opened Timers

  datatype State = IDLE | PENDING | OPEN | DISC

  datatype Event =
    | REQUEST_ACCESS | RX_ASR | RX_ASA_OK | RX_ASA_FAIL | RX_ASR_USID | RX_ASR_OK | RX_ASR_RETRY | TX_ASR_FAIL
    | RX_STR | RX_STA | TX_SSAR | RX_SSAR | TX_SSAA | RX_SSAA | RX_RAR | RX_RAA | SSAR_OK | SSAR_FAIL | SSAA_OK
    | SSAA_NOSVC | SSAA_ERROR | SSAA_FAIL | REAUTH | LIFETIME_TOUT | SESSION_TOUT_ST | SESSION_TOUT_NOST
    | SESSION_RECLAIM | ABORT | STOP

  datatype ResultCode = SUCCESS | REALM_NOT_SERVED | AVP_UNSUPPORTED | AUTHORIZATION_REJECTED | UNABLE_TO_COMPLY

  /** What a session sends and what it tells its application, in order. */
  datatype Note =
    | Delivered            // a session message handed to the delivery
    | HandedUp             // a session message handed to the application
    | Discarded
    | SentSTR(code: ResultCode)
    | SentSTA(code: ResultCode)
    | SentASA(code: ResultCode)
    | SentRAA(reauthenticated: bool)
    | SentASR(delivered: bool)
    | SentRAR
    | Succeeded | Disconnected | SessionTimedOut | AuthorizationTimedOut | Aborted | ReAuthenticated | WasReset

  /** The values client and server negotiate, all 32 bits wide. */
  datatype Attributes = Attributes(stateful: bool, sessionTimeout: nat, lifetime: nat, grace: nat)

  datatype Session = Session(
    running: bool,
    state: State,
    attrs: Attributes,
    timers: map<int, Timer<Event>>,
    asrSent: bool,
    notes: seq<Note>)

  /** How the surroundings answer during one event. */
  datatype Surroundings = Surroundings(delivered: bool, reclaimed: bool, reAuthSet: bool)

  const ASR_TIMER: int := 1
  const SESSION_TIMER: int := 2
  const AUTH_TIMER: int := 3
  const TWO_TO_THE_32: nat := 0x1_0000_0000
  const GRACE_PERIOD: nat := 5
  const RECLAMATION_PERIOD: nat := 60

  /** Timer intervals are computed in 32 bits. */
  function Wrap(sec: nat): nat {
    sec % TWO_TO_THE_32
  }

  function Noted(s: Session, n: Note): Session {
    s.(notes := s.notes + [n])
  }

  function CancelAll(s: Session): Session {
    s.(timers := map[])
  }

  function Schedule(s: Session, timerType: int, ev: Event, sec: int): Session {
    s.(timers := s.timers[timerType := Timer(ev, sec)])
  }

  /** A reset stops the machine: it takes no event any more. */
  function Reset(s: Session): Session {
    Noted(s.(running := false), WasReset)
  }

  /** A machine is stopped exactly by its reset, which is the last thing it notes and leaves it idle. */
  ghost predicate ResetsLast(s: Session) {
    && (forall i :: 0 <= i < |s.notes| && s.notes[i] == WasReset ==> i == |s.notes| - 1 && !s.running)
    && (!s.running ==> s.state == IDLE && s.notes != [] && s.notes[|s.notes| - 1] == WasReset)
  }

  /** From s, in a new state, something other than a reset is noted, and then possibly the reset. */
  ghost predicate Proceeds(s: Session, r: Session) {
    && s.notes <= r.notes
    && (forall i :: |s.notes| <= i < |r.notes| && r.notes[i] == WasReset ==> i == |r.notes| - 1 && !r.running)
    && (!r.running ==> r.state == IDLE && |r.notes| > |s.notes| && r.notes[|r.notes| - 1] == WasReset)
  }

  lemma ProceedingResetsLast(s: Session, r: Session)
    requires ResetsLast(s) && s.running && Proceeds(s, r)
    ensures ResetsLast(r)
  {
  }

  function Start(attrs: Attributes): Session {
    Session(true, IDLE, attrs, map[], false, [])
  }

  /** Both supervision timers are armed, and nothing else. */
  predicate Supervised(s: Session) {
    && s.timers.Keys == {SESSION_TIMER, AUTH_TIMER}
    && s.timers[SESSION_TIMER].event == SESSION_TOUT_ST && s.timers[AUTH_TIMER].event == LIFETIME_TOUT
  }

  /** What happens to a session: an event, one of its own timers firing, or new negotiated values. */
  datatype Step =
    | Raise(ev: Event, env: Surroundings)
    | Fire(timerType: int, env: Surroundings)
    | Negotiate(sessionTimeout: nat, lifetime: nat, grace: nat)
}
