/**
  The timer bookkeeping of `AAA_StateMachineWithTimer`: a map from timer types to reactor handles.

  The reactor keeps its own table of pending timers and hands out handles. A timer it holds repeats
  until it is cancelled, so firing leaves it armed.
 */
module Timers {
  import opened Basics

  datatype Timer<E> = Timer(event: E, sec: int)

  /** Every pending reactor timer is known under exactly one type, and every handle is pending. */
  ghost predicate Consistent<E>(handles: map<int, nat>, reactor: map<nat, Timer<E>>, nextHandle: nat,
                                typeOf: map<nat, int>)
  {
    && reactor.Keys == typeOf.Keys
    && (forall t <- handles :: handles[t] in typeOf && typeOf[handles[t]] == t)
    && (forall h <- typeOf :: h < nextHandle && typeOf[h] in handles && handles[typeOf[h]] == h)
  }

  /** The timers that can fire, by type. */
  ghost function ArmedIn<E>(handles: map<int, nat>, reactor: map<nat, Timer<E>>): map<int, Timer<E>>
    requires forall t <- handles :: handles[t] in reactor
  {
    map t | t in handles :: reactor[handles[t]]
  }

  /** A type that is not armed gets a handle nobody else has. */
  lemma ArmingAdds<E>(handles: map<int, nat>, reactor: map<nat, Timer<E>>, n: nat, typeOf: map<nat, int>, t: int,
                      timer: Timer<E>)
    requires Consistent(handles, reactor, n, typeOf) && t !in handles
    ensures Consistent(handles[t := n], reactor[n := timer], n + 1, typeOf[n := t])
    ensures ArmedIn(handles[t := n], reactor[n := timer]) == ArmedIn(handles, reactor)[t := timer]
  {
    assert n !in reactor;
    assert forall u <- handles :: handles[u] != n;
  }

  class TimerQueue<E> {
    var handles: map<int, nat>          // timer type -> reactor handle
    var reactor: map<nat, Timer<E>>     // reactor handle -> pending timer
    var nextHandle: nat
    ghost var typeOf: map<nat, int>     // reactor handle -> timer type

    ghost predicate Valid()
      reads this
    {
      Consistent(handles, reactor, nextHandle, typeOf)
    }

    ghost function Armed(): map<int, Timer<E>>
      requires Valid()
      reads this
    {
      ArmedIn(handles, reactor)
    }

    constructor ()
      ensures Valid() && Armed() == map[]
    {
      handles := map[];
      reactor := map[];
      nextHandle := 0;
      typeOf := map[];
    }

    method CancelTimer(timerType: int)
      requires Valid()
      modifies this
      ensures Valid() && Armed() == old(Armed()) - {timerType}
      ensures handles.Keys == old(handles.Keys) - {timerType}
    {
      if timerType in handles {
        var handle := handles[timerType];
        handles := handles - {timerType};
        reactor := reactor - {handle};
        typeOf := typeOf - {handle};
        assert forall t <- handles :: Armed()[t] == old(Armed())[t];
      }
    }

    method ScheduleTimer(ev: E, sec: int, timerType: int)
      requires Valid()
      modifies this
      ensures Valid() && Armed() == old(Armed())[timerType := Timer(ev, sec)]
    {
      CancelTimer(timerType);
      ArmNew(ev, sec, timerType);
    }

    /** A type that is not armed gets a handle nobody else has. */
    method ArmNew(ev: E, sec: int, timerType: int)
      requires Valid() && timerType !in handles
      modifies this
      ensures Valid() && Armed() == old(Armed())[timerType := Timer(ev, sec)]
    {
      ArmingAdds(handles, reactor, nextHandle, typeOf, timerType, Timer(ev, sec));
      hide Consistent, ArmedIn;
      handles := handles[timerType := nextHandle];
      reactor := reactor[nextHandle := Timer(ev, sec)];
      typeOf := typeOf[nextHandle := timerType];
      nextHandle := nextHandle + 1;
    }

    method CancelAllTimer()
      requires Valid()
      modifies this
      ensures Valid() && Armed() == map[] && reactor == map[]
    {
      var types := handles.Keys;
      while types != {}
        invariant Valid() && types == handles.Keys
      {
        var t := Any(types);
        CancelTimer(t);
        types := types - {t};
      }
    }
  }
}
