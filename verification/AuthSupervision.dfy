/** How the supervision timers of client and server relate (RFC 3588 section 8.1). */
module AuthSupervision {
  import opened Basics
  import opened Timers
  import opened AuthTypes
  import AuthClient
  import AuthServer

  /** When the first supervision timer of a session granted at `now` fires. */
  function FirstExpiry(s: Session, now: int): int
    requires Supervised(s)
  {
    now + Min(s.timers[SESSION_TIMER].sec, s.timers[AUTH_TIMER].sec)
  }

  /** Neither interval of the server leaves 32 bits when the grace period is added. */
  predicate NoOverflow(a: Attributes) {
    a.sessionTimeout + GRACE_PERIOD < TWO_TO_THE_32 && Wrap(a.lifetime + a.grace) + GRACE_PERIOD < TWO_TO_THE_32
  }

  predicate In32Bits(a: Attributes) {
    a.sessionTimeout < TWO_TO_THE_32 && a.lifetime < TWO_TO_THE_32 && a.grace < TWO_TO_THE_32
  }

  lemma WrapAdds(v: nat)
    requires Wrap(v) + GRACE_PERIOD < TWO_TO_THE_32
    ensures Wrap(v + GRACE_PERIOD) == Wrap(v) + GRACE_PERIOD
  {
  }

  lemma WrapOverflows(v: nat)
    requires Wrap(v) + GRACE_PERIOD >= TWO_TO_THE_32
    ensures Wrap(v + GRACE_PERIOD) < GRACE_PERIOD
  {
  }

  /** Granting arms both timers, in any state. */
  lemma GrantsSupervise(client: Session, server: Session)
    requires client.attrs.stateful
    ensures Supervised(AuthClient.Grant(client)) && Supervised(AuthServer.Grant(server))
  {
  }

  /**
    With equal negotiated values and no overflow, the client's first timer fires before the server's exactly if
    the client was granted less than the grace period after the server.
   */
  lemma ClientExpiresFirst(client: Session, server: Session, clientNow: int, serverNow: int)
    requires client.attrs == server.attrs && client.attrs.stateful && In32Bits(client.attrs) && NoOverflow(client.attrs)
    ensures Supervised(AuthClient.Grant(client)) && Supervised(AuthServer.Grant(server))
    ensures FirstExpiry(AuthClient.Grant(client), clientNow) < FirstExpiry(AuthServer.Grant(server), serverNow)
            <==> clientNow - serverNow < GRACE_PERIOD
  {
    GrantsSupervise(client, server);
    var a := client.attrs;
    WrapAdds(a.lifetime + a.grace);
    WrapAdds(a.sessionTimeout);
  }

  /** With an overflow the promise fails: a client granted in time can still be the later one. */
  lemma OverflowBreaksTheOrder(client: Session, server: Session, now: int)
    requires client.attrs == server.attrs && client.attrs.stateful && In32Bits(client.attrs) && !NoOverflow(client.attrs)
    ensures Supervised(AuthClient.Grant(client)) && Supervised(AuthServer.Grant(server))
    ensures FirstExpiry(AuthClient.Grant(client), now + GRACE_PERIOD - 1) >= FirstExpiry(AuthServer.Grant(server), now)
  {
    GrantsSupervise(client, server);
    var a := client.attrs;
    if a.sessionTimeout + GRACE_PERIOD >= TWO_TO_THE_32 {
      WrapOverflows(a.sessionTimeout);
    } else {
      WrapOverflows(a.lifetime + a.grace);
    }
  }

  // ---------------------------------------------------------------- which timer ends a session, and when

  /** A timer that fires before every other. */
  predicate Soonest(s: Session, t: int) {
    t in s.timers && forall u :: u in s.timers ==> s.timers[t].sec <= s.timers[u].sec
  }

  /** The client's timers run for the negotiated session timeout, and for the lifetime and its grace in 32 bits. */
  lemma ClientGrants(s: Session, env: Surroundings)
    requires s.running && s.attrs.stateful && (s.state == PENDING || s.state == OPEN)
    ensures var r := AuthClient.Notify(s, SSAA_OK, env);
            && r.running && r.state == OPEN && r.attrs == s.attrs
            && r.timers == map[SESSION_TIMER := Timer(SESSION_TOUT_ST, s.attrs.sessionTimeout),
                               AUTH_TIMER := Timer(LIFETIME_TOUT, (s.attrs.lifetime + s.attrs.grace) % 0x1_0000_0000)]
  {
  }

  /**
    After a grant the client's session ends by whichever comes first: by its timeout if the session timeout is shorter
    than lifetime and grace, by the end of its authorization if it is longer. Either way it asks for termination.
   */
  lemma ClientEndsByTheShorter(s: Session, env: Surroundings, later: Surroundings, t: int)
    requires s.running && s.attrs.stateful && (s.state == PENDING || s.state == OPEN)
    requires Soonest(AuthClient.Notify(s, SSAA_OK, env), t)
    ensures var r := AuthClient.Notify(s, SSAA_OK, env);
            var q := AuthClient.Next(r, Fire(t, later));
            var timeout, authorized := s.attrs.sessionTimeout, (s.attrs.lifetime + s.attrs.grace) % 0x1_0000_0000;
            && r.timers[t].sec == (if timeout < authorized then timeout else authorized)
            && q.state == DISC && q.timers == map[]
            && (timeout < authorized ==>
                  q.notes == r.notes + [SentSTR(AUTHORIZATION_REJECTED), SessionTimedOut])
            && (timeout > authorized ==>
                  q.notes == r.notes + [SentSTR(AUTHORIZATION_REJECTED), AuthorizationTimedOut])
  {
    ClientGrants(s, env);
    var r := AuthClient.Notify(s, SSAA_OK, env);
    assert SESSION_TIMER in r.timers && AUTH_TIMER in r.timers;
    hide AuthClient.Notify;
    ClientTimesOut(r, later);
    hide Soonest;
  }

  lemma ClientTimesOut(s: Session, env: Surroundings)
    requires s.running && s.state == OPEN
    ensures var q := AuthClient.Notify(s, SESSION_TOUT_ST, env);
            && q.state == DISC && q.timers == map[]
            && q.notes == s.notes + [SentSTR(AUTHORIZATION_REJECTED), SessionTimedOut]
    ensures var q := AuthClient.Notify(s, LIFETIME_TOUT, env);
            && q.state == DISC && q.timers == map[]
            && q.notes == s.notes + [SentSTR(AUTHORIZATION_REJECTED), AuthorizationTimedOut]
  {
    assert forall a: Note, b: Note :: s.notes + [a] + [b] == s.notes + [a, b];
  }

  /** The server's timers run 5 seconds longer, again in 32 bits. */
  lemma ServerGrants(s: Session, retry: nat, env: Surroundings)
    requires s.running && (s.state == IDLE || s.state == OPEN)
    ensures var r := AuthServer.Notify(s, SSAR_OK, retry, env);
            && r.running && r.state == OPEN && r.attrs == s.attrs
            && r.timers ==
                 map[SESSION_TIMER := Timer(SESSION_TOUT_ST, (s.attrs.sessionTimeout + 5) % 0x1_0000_0000),
                     AUTH_TIMER := Timer(LIFETIME_TOUT, (s.attrs.lifetime + s.attrs.grace + 5) % 0x1_0000_0000)]
  {
  }

  lemma ServerEndsByTheShorter(s: Session, retry: nat, env: Surroundings, later: Surroundings, t: int)
    requires s.running && (s.state == IDLE || s.state == OPEN)
    requires Soonest(AuthServer.Notify(s, SSAR_OK, retry, env), t)
    ensures var r := AuthServer.Notify(s, SSAR_OK, retry, env);
            var q := AuthServer.Next(r, retry, Fire(t, later));
            var timeout := (s.attrs.sessionTimeout + 5) % 0x1_0000_0000;
            var authorized := (s.attrs.lifetime + s.attrs.grace + 5) % 0x1_0000_0000;
            && r.timers[t].sec == (if timeout < authorized then timeout else authorized)
            && q.state == IDLE && !q.running && q.timers == map[]
            && (timeout < authorized ==> q.notes == r.notes + [SessionTimedOut, WasReset])
            && (timeout > authorized ==> q.notes == r.notes + [AuthorizationTimedOut, WasReset])
  {
    ServerGrants(s, retry, env);
    var r := AuthServer.Notify(s, SSAR_OK, retry, env);
    assert SESSION_TIMER in r.timers && AUTH_TIMER in r.timers;
    hide AuthServer.Notify;
    ServerTimesOut(r, retry, later);
    hide Soonest;
  }

  lemma ServerTimesOut(s: Session, retry: nat, env: Surroundings)
    requires s.running && s.state == OPEN
    ensures var q := AuthServer.Notify(s, SESSION_TOUT_ST, retry, env);
            q.state == IDLE && !q.running && q.timers == map[] && q.notes == s.notes + [SessionTimedOut, WasReset]
    ensures var q := AuthServer.Notify(s, LIFETIME_TOUT, retry, env);
            q.state == IDLE && !q.running && q.timers == map[] && q.notes == s.notes + [AuthorizationTimedOut, WasReset]
  {
    assert forall a: Note, b: Note :: s.notes + [a] + [b] == s.notes + [a, b];
  }

  /** Each of the client's timers, not only the first, fires before the same timer of the server. */
  lemma EachClientTimerFirst(client: Session, server: Session, retry: nat, env: Surroundings, k: int,
                             clientNow: int, serverNow: int)
    requires client.running && (client.state == PENDING || client.state == OPEN) && client.attrs.stateful
    requires server.running && (server.state == IDLE || server.state == OPEN) && server.attrs == client.attrs
    requires In32Bits(client.attrs) && NoOverflow(client.attrs) && (k == SESSION_TIMER || k == AUTH_TIMER)
    ensures var c, r := AuthClient.Notify(client, SSAA_OK, env), AuthServer.Notify(server, SSAR_OK, retry, env);
            && k in c.timers && k in r.timers && c.timers[k].event == r.timers[k].event
            && (clientNow + c.timers[k].sec < serverNow + r.timers[k].sec <==> clientNow - serverNow < 5)
  {
    hide *;
    ClientGrants(client, env);
    ServerGrants(server, retry, env);
    GraceAdds(client.attrs);
    LaterByGrace(client.attrs.sessionTimeout, (client.attrs.lifetime + client.attrs.grace) % 0x1_0000_0000, k);
  }

  lemma LaterByGrace(x: int, y: int, k: int)
    requires k == SESSION_TIMER || k == AUTH_TIMER
    ensures var c := map[SESSION_TIMER := Timer(SESSION_TOUT_ST, x), AUTH_TIMER := Timer(LIFETIME_TOUT, y)];
            var r := map[SESSION_TIMER := Timer(SESSION_TOUT_ST, x + 5), AUTH_TIMER := Timer(LIFETIME_TOUT, y + 5)];
            k in c && k in r && c[k].event == r[k].event && r[k].sec == c[k].sec + 5
  {
  }

  lemma GraceAdds(a: Attributes)
    requires In32Bits(a) && NoOverflow(a)
    ensures (a.sessionTimeout + 5) % 0x1_0000_0000 == a.sessionTimeout + 5
    ensures (a.lifetime + a.grace + 5) % 0x1_0000_0000 == (a.lifetime + a.grace) % 0x1_0000_0000 + 5
  {
    WrapAdds(a.lifetime + a.grace);
    WrapAdds(a.sessionTimeout);
  }

  // ---------------------------------------------------------------- stateless sessions

  lemma StatelessGrants(s: Session, env: Surroundings)
    requires s.running && !s.attrs.stateful && (s.state == PENDING || s.state == OPEN)
    ensures var r := AuthClient.Notify(s, SSAA_OK, env);
            && r.running && r.state == OPEN
            && r.timers == if s.attrs.sessionTimeout == 0 then map[]
                           else map[SESSION_TIMER := Timer(SESSION_TOUT_NOST, s.attrs.sessionTimeout)]
  {
  }

  lemma OpenTimesOut(s: Session, env: Surroundings)
    requires s.running && s.state == OPEN
    ensures var q := AuthClient.Notify(s, SESSION_TOUT_NOST, env);
            q.state == IDLE && !q.running && q.timers == map[] && q.notes == s.notes + [SessionTimedOut, WasReset]
  {
    assert s.notes + [SessionTimedOut] + [WasReset] == s.notes + [SessionTimedOut, WasReset];
  }

  /** A stateless client is timed only if there is a session timeout, and then ends by it without asking anyone. */
  lemma StatelessClientTimesOut(s: Session, env: Surroundings, later: Surroundings)
    requires s.running && !s.attrs.stateful && (s.state == PENDING || s.state == OPEN)
    ensures var r := AuthClient.Notify(s, SSAA_OK, env);
            && r.state == OPEN
            && (s.attrs.sessionTimeout == 0 ==> r.timers == map[])
            && (s.attrs.sessionTimeout > 0 ==>
                  && r.timers == map[SESSION_TIMER := Timer(SESSION_TOUT_NOST, s.attrs.sessionTimeout)]
                  && var q := AuthClient.Next(r, Fire(SESSION_TIMER, later));
                     && q.state == IDLE && !q.running && q.timers == map[]
                     && q.notes == r.notes + [SessionTimedOut, WasReset])
  {
    StatelessGrants(s, env);
    var r := AuthClient.Notify(s, SSAA_OK, env);
    hide AuthClient.Notify;
    OpenTimesOut(r, later);
  }

  /**
    A stateless server that answers is timed 5 seconds longer than the client, or offered for reclamation every 60
    seconds until it is reclaimed.
   */
  lemma StatelessServerEnds(s: Session, retry: nat, env: Surroundings, later: Surroundings)
    requires s.running && !s.attrs.stateful && s.state == IDLE
    ensures var r := AuthServer.Notify(s, TX_SSAA, retry, env);
            && r.state == IDLE && SESSION_TIMER in r.timers
            && var q := AuthServer.Next(r, retry, Fire(SESSION_TIMER, later));
               if s.attrs.sessionTimeout > 0 then
                 && r.timers ==
                      map[SESSION_TIMER := Timer(SESSION_TOUT_NOST, (s.attrs.sessionTimeout + 5) % 0x1_0000_0000)]
                 && !q.running && q.timers == map[] && q.notes == r.notes + [SessionTimedOut, WasReset]
               else
                 && r.timers == map[SESSION_TIMER := Timer(SESSION_RECLAIM, 60)]
                 && (later.reclaimed ==>
                       !q.running && q.timers == map[] && q.notes == r.notes + [Disconnected, WasReset])
                 && (!later.reclaimed ==> q == r)
  {
    StatelessAnswers(s, retry, env);
    var r := AuthServer.Notify(s, TX_SSAA, retry, env);
    hide AuthServer.Notify;
    IdleTimesOut(r, retry, later);
  }

  lemma StatelessAnswers(s: Session, retry: nat, env: Surroundings)
    requires s.running && !s.attrs.stateful && s.state == IDLE
    ensures var r := AuthServer.Notify(s, TX_SSAA, retry, env);
            && r.running && r.state == IDLE
            && r.timers ==
                 if s.attrs.sessionTimeout > 0
                 then map[SESSION_TIMER := Timer(SESSION_TOUT_NOST, (s.attrs.sessionTimeout + 5) % 0x1_0000_0000)]
                 else map[SESSION_TIMER := Timer(SESSION_RECLAIM, 60)]
  {
  }

  lemma IdleTimesOut(s: Session, retry: nat, env: Surroundings)
    requires s.running && s.state == IDLE
    ensures var q := AuthServer.Notify(s, SESSION_TOUT_NOST, retry, env);
            !q.running && q.timers == map[] && q.notes == s.notes + [SessionTimedOut, WasReset]
    ensures var q := AuthServer.Notify(s, SESSION_RECLAIM, retry, env);
            && (env.reclaimed ==> !q.running && q.timers == map[] && q.notes == s.notes + [Disconnected, WasReset])
            && (!env.reclaimed ==> q == s.(timers := map[SESSION_TIMER := Timer(SESSION_RECLAIM, 60)]))
  {
    assert forall a: Note, b: Note :: s.notes + [a] + [b] == s.notes + [a, b];
  }

  // ---------------------------------------------------------------- aborting

  /** The server after an abort whose request could not be sent, and n retries that could not be either. */
  function Retried(s: Session, retry: nat, env: Surroundings, n: nat): Session {
    if n == 0 then AuthServer.Notify(s, ABORT, retry, env)
    else AuthServer.Next(Retried(s, retry, env, n - 1), retry, Fire(ASR_TIMER, env))
  }

  function Times(n: nat, note: Note): seq<Note> {
    seq(n, _ => note)
  }

  lemma AbortIsSent(s: Session, retry: nat, env: Surroundings, ev: Event)
    requires s.running && ((s.state == OPEN && ev == ABORT) || (s.state == DISC && ev == TX_ASR_FAIL))
    ensures var q := AuthServer.Notify(s, ev, retry, env);
            && q.running && q.state == DISC && q.notes == s.notes + [SentASR(env.delivered)]
            && q.timers == (if env.delivered then map[] else map[ASR_TIMER := Timer(TX_ASR_FAIL, retry)])
            && q.asrSent == (env.delivered || s.asrSent)
  {
  }

  /** An abort request is tried again after every interval until it can be sent; then nothing is armed. */
  lemma {:induction false} AbortsAreRetried(s: Session, retry: nat, env: Surroundings, later: Surroundings, n: nat)
    requires s.running && s.state == OPEN && !env.delivered && later.delivered
    ensures var r := Retried(s, retry, env, n);
            && r.running && r.state == DISC && r.timers == map[ASR_TIMER := Timer(TX_ASR_FAIL, retry)]
            && r.notes == s.notes + Times(n + 1, SentASR(false)) && r.asrSent == s.asrSent
    ensures var q := AuthServer.Next(Retried(s, retry, env, n), retry, Fire(ASR_TIMER, later));
            && q.state == DISC && q.timers == map[] && q.asrSent
            && q.notes == s.notes + Times(n + 1, SentASR(false)) + [SentASR(true)]
  {
    if n == 0 {
      AbortIsSent(s, retry, env, ABORT);
    } else {
      AbortsAreRetried(s, retry, env, later, n - 1);
      AbortIsSent(Retried(s, retry, env, n - 1), retry, env, TX_ASR_FAIL);
    }
    hide AuthServer.Notify;
    AbortIsSent(Retried(s, retry, env, n), retry, later, TX_ASR_FAIL);
    assert Times(n + 1, SentASR(false)) == Times(n, SentASR(false)) + [SentASR(false)];
    assert s.notes + Times(n, SentASR(false)) + [SentASR(false)] == s.notes + Times(n + 1, SentASR(false));
    if n == 0 {
      assert s.notes + Times(0, SentASR(false)) == s.notes;
    }
  }
}
