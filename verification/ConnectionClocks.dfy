/** The connection's two clocks, read off the events of a run: how long the venue has been silent, and when the next
    attempt to reconnect is due. */
module ConnectionClocks {
  import opened Types
  import opened Connections
  import opened ConnectionRuns

  /** A call that reached the transport, and whether it opened. */
  datatype Try = Try(at: Timestamp, success: bool)

  /** A connect tries unless the link is up already, a reconnect unless it answers that it did not. */
  function TryOf(c: LinkConfig, l: LinkState, e: LinkEvent): Option<Try> {
    match e
    case Connect(now, opens) => if l.state == Ready || l.state == Connected then None else Some(Try(now, opens))
    case MaybeReconnect(now, opens) =>
      if MaybeReconnects(l, c, now, opens).1 == Ok(false) then None else Some(Try(now, opens))
    case _ => None
  }

  function LastTry(c: LinkConfig, es: seq<LinkEvent>): Option<Try> {
    if es == [] then None
    else
      var front := es[..|es| - 1];
      var t := TryOf(c, After(c, front), es[|es| - 1]);
      if t.Some? then t else LastTry(c, front)
  }

  /** The failed tries since the last one that opened. */
  function Streak(c: LinkConfig, es: seq<LinkEvent>): nat {
    if es == [] then 0
    else
      var front := es[..|es| - 1];
      var t := TryOf(c, After(c, front), es[|es| - 1]);
      if t.None? then Streak(c, front) else if t.value.success then 0 else Streak(c, front) + 1
  }

  /** When the venue was last heard: at an opening, or in a poll that brought anything at all. */
  function Heard(c: LinkConfig, es: seq<LinkEvent>): Timestamp {
    if es == [] then NO_TIMESTAMP
    else
      var front, last := es[..|es| - 1], es[|es| - 1];
      var t := TryOf(c, After(c, front), last);
      if t.Some? && t.value.success then t.value.at
      else if last.Poll? && last.isOpen && last.inbox != [] then last.now
      else Heard(c, front)
  }

  /** The clock has been set whenever the link was asked to connect. */
  predicate Clocked(es: seq<LinkEvent>) {
    forall k :: 0 <= k < |es| ==>
      (es[k].Connect? ==> IsSet(es[k].now)) && (es[k].MaybeReconnect? ==> IsSet(es[k].now))
  }

  /** When the next try is due, after this last one. */
  function DueAfter(c: LinkConfig, last: Option<Try>, streak: nat): Timestamp {
    match last
    case None => NO_TIMESTAMP
    case Some(t) => if t.success then t.at else t.at + BackoffAfter(c.supervisor, streak)
  }

  lemma {:induction false} DrainLeavesSupervisor(l: LinkState, inbox: seq<Message>, now: Timestamp)
    ensures Draining(l, inbox, now).0.supervisor == l.supervisor
    ensures Draining(l, inbox, now).0.heartbeat.lastActivity
            == if inbox == [] then l.heartbeat.lastActivity else now
  {
    if inbox != [] {
      DrainLeavesSupervisor(l, inbox[..|inbox| - 1], now);
    }
  }

  /** What one event does to the supervisor and to the time of last activity. */
  lemma OneEvent(c: LinkConfig, l: LinkState, e: LinkEvent)
    ensures var t, after := TryOf(c, l, e), Stepping(c, l, e);
            && after.supervisor
               == (if t.None? then l.supervisor
                   else
                     var tried := Attempted(l.supervisor, c.supervisor, t.value.at);
                     if t.value.success then Succeeded(tried, c.supervisor, t.value.at)
                     else FailedAt(tried, t.value.at))
            && after.heartbeat.lastActivity
               == (if t.Some? && t.value.success then t.value.at
                   else if e.Poll? && e.isOpen && e.inbox != [] then e.now
                   else l.heartbeat.lastActivity)
  {
    hide Attempted, Succeeded, FailedAt, Draining;
    if e.Poll? {
      DrainLeavesSupervisor(l, e.inbox, e.now);
    }
  }

  /** The supervisor counts the failures since the last opening, and waits the backoff after that many of them. */
  lemma {:induction false} SupervisorFollowsTries(c: LinkConfig, es: seq<LinkEvent>)
    requires Clocked(es)
    ensures var s, streak := After(c, es).supervisor, Streak(c, es);
            && s.attempts == streak && s.backoff == BackoffAfter(c.supervisor, streak)
            && s.nextAttempt == DueAfter(c, LastTry(c, es), streak)
  {
    if es != [] {
      var front, last := es[..|es| - 1], es[|es| - 1];
      assert Clocked(front);
      SupervisorFollowsTries(c, front);
      OneEvent(c, After(c, front), last);
      hide Stepping, NextBackoff;
      assert TryOf(c, After(c, front), last).Some? ==> IsSet(last.now);
    }
  }

  /** A reconnect is tried exactly when the failures since the last opening leave an attempt, and the last failure is
      as long ago as the backoff after that many failures; it ends up synchronizing or failed. */
  lemma ReconnectsIff(c: LinkConfig, es: seq<LinkEvent>, now: Timestamp, opens: bool)
    requires Clocked(es) && IsSet(now)
    ensures var (after, r) := MaybeReconnects(After(c, es), c, now, opens);
            var last, streak, most := LastTry(c, es), Streak(c, es), c.supervisor.maxAttempts;
            && (r != Ok(false) <==>
                  && (most == 0 || streak < most)
                  && (last.Some? ==>
                        now >= last.value.at
                               + if last.value.success then 0 else BackoffAfter(c.supervisor, streak)))
            && (r != Ok(false) ==> after.state == if opens then Synchronizing else Failed)
            && (r == Ok(false) ==> after == After(c, es))
  {
    SupervisorFollowsTries(c, es);
    hide AfterFrom, LastTry, Streak, BackoffAfter;
  }

  /** The time of last activity is when the venue was last heard. */
  lemma {:induction false} ActivityIsHeard(c: LinkConfig, es: seq<LinkEvent>)
    ensures After(c, es).heartbeat.lastActivity == Heard(c, es)
  {
    if es != [] {
      ActivityIsHeard(c, es[..|es| - 1]);
      OneEvent(c, After(c, es[..|es| - 1]), es[|es| - 1]);
      hide Stepping;
    }
  }

  /** How long the venue has been silent; a clock that runs behind counts as no silence. */
  function Silence(c: LinkConfig, es: seq<LinkEvent>, now: Timestamp): Duration {
    if now < Heard(c, es) then 0 else now - Heard(c, es)
  }

  /** A tick of a link that is up or degraded goes by the silence alone: dead, late or well. */
  lemma TickGoesBySilence(c: LinkConfig, es: seq<LinkEvent>, now: Timestamp)
    requires After(c, es).state == Ready || After(c, es).state == Degraded
    requires IsSet(now) && IsSet(Heard(c, es))
    ensures Ticks(After(c, es), c, now)
            == After(c, es).(state := if Silence(c, es, now) > c.heartbeat.deadAfter then Reconnecting
                                      else if Silence(c, es, now) > c.heartbeat.degradedAfter then Degraded
                                      else Ready)
  {
    ActivityIsHeard(c, es);
    hide AfterFrom, Heard;
  }

  /** Once a tick has met too long a silence, nothing can be sent until the link has been opened anew and marked
      synchronized. */
  lemma SilenceStopsTrading(c: LinkConfig, es: seq<LinkEvent>, now: Timestamp, later: seq<LinkEvent>, accepts: bool)
    requires After(c, es).state == Ready || After(c, es).state == Degraded
    requires IsSet(now) && IsSet(Heard(c, es)) && Silence(c, es, now) > c.heartbeat.deadAfter
    ensures Sends(AfterFrom(c, Ticks(After(c, es), c, now), later), accepts).Ok? ==> Resynchronizes(later)
  {
    TickGoesBySilence(c, es, now);
    DownUntilResynchronized(c, Ticks(After(c, es), c, now), later);
  }
}
