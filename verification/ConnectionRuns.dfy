/** The live connection over whole runs of connects, drops, reconnects, ticks and polls. */
module ConnectionRuns {
  import opened Types
  import opened Connections

  datatype LinkEvent =
    | Connect(now: Timestamp, opens: bool)
    | Disconnect
    | MaybeReconnect(now: Timestamp, opens: bool)
    | MarkSynchronized
    | Send(accepts: bool)
    | Tick(now: Timestamp)
    | Poll(now: Timestamp, isOpen: bool, inbox: seq<Message>)

  function Stepping(c: LinkConfig, l: LinkState, e: LinkEvent): LinkState {
    match e
    case Connect(now, opens) => Connects(l, c, now, opens).0
    case Disconnect => l.(state := Disconnected)
    case MaybeReconnect(now, opens) => MaybeReconnects(l, c, now, opens).0
    case MarkSynchronized => Marks(l).0
    case Send(_) => l
    case Tick(now) => Ticks(l, c, now)
    case Poll(now, isOpen, inbox) => Polls(l, isOpen, inbox, now).0
  }

  /** The state after the events, starting anywhere. */
  function AfterFrom(c: LinkConfig, l: LinkState, es: seq<LinkEvent>): LinkState {
    if es == [] then l else Stepping(c, AfterFrom(c, l, es[..|es| - 1]), es[|es| - 1])
  }

  /** What polls hand up over the events. */
  function AcceptedFrom(c: LinkConfig, l: LinkState, es: seq<LinkEvent>): seq<Message> {
    if es == [] then []
    else
      var front, last := es[..|es| - 1], es[|es| - 1];
      AcceptedFrom(c, l, front) +
      if last.Poll? then Polls(AfterFrom(c, l, front), last.isOpen, last.inbox, last.now).1 else []
  }

  function After(c: LinkConfig, es: seq<LinkEvent>): LinkState {
    AfterFrom(c, NewLink(c), es)
  }

  function Accepted(c: LinkConfig, es: seq<LinkEvent>): seq<Message> {
    AcceptedFrom(c, NewLink(c), es)
  }

  // ---------------------------------------------------------------------------
  // Sequence numbers
  // ---------------------------------------------------------------------------

  /** The sequenced messages of the list carry strictly increasing numbers, all above low and none above high. */
  predicate Climbing(ms: seq<Message>, low: nat, high: nat) {
    && (forall i :: 0 <= i < |ms| && ms[i].sequence != 0 ==> low < ms[i].sequence <= high)
    && forall i, j :: 0 <= i < j < |ms| && ms[i].sequence != 0 && ms[j].sequence != 0 ==>
         ms[i].sequence < ms[j].sequence
  }

  lemma ClimbingJoin(a: seq<Message>, b: seq<Message>, low: nat, middle: nat, high: nat)
    requires Climbing(a, low, middle) && Climbing(b, middle, high) && low <= middle <= high
    ensures Climbing(a + b, low, high)
  {
  }

  lemma {:induction false} DrainClimbs(l: LinkState, inbox: seq<Message>, now: Timestamp)
    ensures var (after, accepted) := Draining(l, inbox, now);
            after.lastSequence >= l.lastSequence && Climbing(accepted, l.lastSequence, after.lastSequence)
  {
    if inbox != [] {
      DrainClimbs(l, inbox[..|inbox| - 1], now);
      var (before, accepted) := Draining(l, inbox[..|inbox| - 1], now);
      var (after, more) := Sifting(before, inbox[|inbox| - 1], now);
      ClimbingJoin(accepted, more, l.lastSequence, before.lastSequence, after.lastSequence);
    }
  }

  /** Whatever happens to the connection, the accepted sequence numbers climb from where they were. */
  lemma {:induction false} AcceptedClimb(c: LinkConfig, l: LinkState, es: seq<LinkEvent>)
    ensures var after := AfterFrom(c, l, es);
            after.lastSequence >= l.lastSequence && Climbing(AcceptedFrom(c, l, es), l.lastSequence, after.lastSequence)
  {
    if es != [] {
      var front, last := es[..|es| - 1], es[|es| - 1];
      AcceptedClimb(c, l, front);
      var before := AfterFrom(c, l, front);
      if last.Poll? {
        DrainClimbs(before, last.inbox, last.now);
        ClimbingJoin(AcceptedFrom(c, l, front), Polls(before, last.isOpen, last.inbox, last.now).1,
                     l.lastSequence, before.lastSequence, Stepping(c, before, last).lastSequence);
      }
    }
  }

  /** Over every run with drops and reconnects, accepted sequence numbers strictly increase: none is accepted twice. */
  lemma SequencesIncrease(c: LinkConfig, es: seq<LinkEvent>)
    ensures var ms := Accepted(c, es);
            forall i, j :: 0 <= i < j < |ms| && ms[i].sequence != 0 && ms[j].sequence != 0 ==>
              ms[i].sequence < ms[j].sequence
  {
    AcceptedClimb(c, NewLink(c), es);
  }

  lemma {:induction false} SplitRun(c: LinkConfig, l: LinkState, first: seq<LinkEvent>, second: seq<LinkEvent>)
    ensures AfterFrom(c, l, first + second) == AfterFrom(c, AfterFrom(c, l, first), second)
    ensures AcceptedFrom(c, l, first + second)
            == AcceptedFrom(c, l, first) + AcceptedFrom(c, AfterFrom(c, l, first), second)
    decreases |second|
  {
    hide Stepping, Polls;
    if second == [] {
      assert first + second == first;
    } else {
      var front, all := second[..|second| - 1], first + second;
      assert all[..|all| - 1] == first + front && all[|all| - 1] == second[|second| - 1];
      SplitRun(c, l, first, front);
    }
  }

  /** The largest sequence number taken into account so far. */
  function Highest(offered: seq<Message>): nat {
    if offered == [] then 0
    else
      var before, m := Highest(offered[..|offered| - 1]), offered[|offered| - 1];
      if Considered(m) && m.sequence > before then m.sequence else before
  }

  /** Everything the polls of the run took from the transport. */
  function Offered(es: seq<LinkEvent>): seq<Message> {
    if es == [] then []
    else
      var last := es[|es| - 1];
      Offered(es[..|es| - 1]) + if last.Poll? && last.isOpen then last.inbox else []
  }

  lemma {:induction false} HighestAppend(l: LinkState, offered: seq<Message>, inbox: seq<Message>, now: Timestamp)
    requires l.lastSequence == Highest(offered)
    ensures Draining(l, inbox, now).0.lastSequence == Highest(offered + inbox)
    decreases |inbox|
  {
    if inbox == [] {
      assert offered + inbox == offered;
    } else {
      var front := inbox[..|inbox| - 1];
      HighestAppend(l, offered, front, now);
      assert (offered + inbox)[..|offered + inbox| - 1] == offered + front;
    }
  }

  lemma NothingOffered()
    ensures Highest([]) == 0
  {
  }

  /** Only a poll of an open transport changes what the connection remembers. */
  lemma OnlyPollsRemember(c: LinkConfig, l: LinkState, e: LinkEvent)
    ensures e.Poll? && e.isOpen ==> Stepping(c, l, e) == Draining(l, e.inbox, e.now).0
    ensures !(e.Poll? && e.isOpen) ==>
              Stepping(c, l, e).lastSequence == l.lastSequence && Stepping(c, l, e).recentIds == l.recentIds
  {
  }

  /** The connection's memory is the maximum of all sequence numbers offered, through every reconnect. */
  lemma {:induction false} RemembersTheHighest(c: LinkConfig, es: seq<LinkEvent>)
    ensures After(c, es).lastSequence == Highest(Offered(es))
  {
    hide Stepping, Draining, Highest;
    NothingOffered();
    if es != [] {
      var front, last := es[..|es| - 1], es[|es| - 1];
      RemembersTheHighest(c, front);
      OnlyPollsRemember(c, After(c, front), last);
      if last.Poll? && last.isOpen {
        HighestAppend(After(c, front), Offered(front), last.inbox, last.now);
      } else {
        assert Offered(front) + [] == Offered(front);
      }
    }
  }

  lemma {:induction false} HighestIsUpperBound(offered: seq<Message>, i: nat)
    requires i < |offered| && Considered(offered[i])
    ensures offered[i].sequence <= Highest(offered)
  {
    if i < |offered| - 1 {
      HighestIsUpperBound(offered[..|offered| - 1], i);
    }
  }

  /** A sequenced message anywhere in a polled inbox is accepted in its turn exactly when its number is above all that
      were offered before it and it is not dated more than five seconds ahead. */
  lemma AcceptedIffRecord(c: LinkConfig, es: seq<LinkEvent>, inbox: seq<Message>, i: nat, now: Timestamp)
    requires i < |inbox| && Considered(inbox[i]) && inbox[i].sequence != 0
    ensures Accepted(c, es + [Poll(now, true, inbox[..i + 1])])
            == Accepted(c, es + [Poll(now, true, inbox[..i])])
               + if && inbox[i].sequence > Highest(Offered(es) + inbox[..i])
                    && !(IsSet(now) && IsSet(inbox[i].venueTime) && inbox[i].venueTime - now > 5_000_000_000)
                 then [inbox[i].(receivedTime := now)] else []
  {
    hide Highest, Offered, AcceptedFrom, AfterFrom, Accepted, Remember;
    RemembersTheHighest(c, es);
    HighestAppend(After(c, es), Offered(es), inbox[..i], now);
    AcceptedWithPoll(c, es, inbox[..i], now);
    AcceptedWithPoll(c, es, inbox[..i + 1], now);
    assert inbox[..i + 1][..i] == inbox[..i] && inbox[..i + 1][i] == inbox[i];
  }

  lemma AcceptedWithPoll(c: LinkConfig, es: seq<LinkEvent>, inbox: seq<Message>, now: Timestamp)
    ensures Accepted(c, es + [Poll(now, true, inbox)]) == Accepted(c, es) + Draining(After(c, es), inbox, now).1
  {
    assert (es + [Poll(now, true, inbox)])[..|es|] == es;
  }

  /** A message that was ever offered, accepted or dropped, is never accepted later, so one that was dropped as
      future-dated is lost for good. */
  lemma OfferedIsNeverAcceptedLater(c: LinkConfig, es: seq<LinkEvent>, later: seq<LinkEvent>, i: nat, j: nat)
    requires i < |Offered(es)| && Considered(Offered(es)[i]) && Offered(es)[i].sequence != 0
    requires var more := AcceptedFrom(c, After(c, es), later); j < |more| && more[j].sequence != 0
    ensures Offered(es)[i].sequence < AcceptedFrom(c, After(c, es), later)[j].sequence
  {
    RemembersTheHighest(c, es);
    HighestIsUpperBound(Offered(es), i);
    AcceptedClimb(c, After(c, es), later);
  }

  // ---------------------------------------------------------------------------
  // Streams without sequence numbers
  // ---------------------------------------------------------------------------

  predicate Fresh(l: LinkState, m: Message) {
    Considered(m) && m.sequence == 0 && m.fillId != "" && m.fillId !in l.recentIds
  }

  /** The ids taken into the window by a drain, oldest first. */
  function Noted(l: LinkState, inbox: seq<Message>, now: Timestamp): seq<string> {
    if inbox == [] then []
    else
      var front, m := inbox[..|inbox| - 1], inbox[|inbox| - 1];
      Noted(l, front, now) + if Fresh(Draining(l, front, now).0, m) then [m.fillId] else []
  }

  function NotedOver(c: LinkConfig, es: seq<LinkEvent>): seq<string> {
    if es == [] then []
    else
      var front, last := es[..|es| - 1], es[|es| - 1];
      NotedOver(c, front) + if last.Poll? && last.isOpen then Noted(After(c, front), last.inbox, last.now) else []
  }

  /** The window is the last ids of the history, and equal ids in the history are further apart than the window. */
  predicate Window(history: seq<string>, recent: seq<string>) {
    && |recent| <= |history| && recent == history[|history| - |recent|..]
    && (|recent| == |history| || |recent| == RECENT_ID_CAPACITY) && |recent| <= RECENT_ID_CAPACITY
    && FarApart(history)
  }

  predicate FarApart(history: seq<string>) {
    forall i, j :: 0 <= i < j < |history| && history[i] == history[j] ==> j - i > RECENT_ID_CAPACITY
  }

  lemma WindowGrows(history: seq<string>, recent: seq<string>, id: string)
    requires Window(history, recent) && id !in recent
    ensures Window(history + [id], Remember(recent, id))
  {
  }

  /** A message with an id that is not in the window enters it; no other message changes it. */
  lemma SiftRemembers(l: LinkState, m: Message, now: Timestamp)
    ensures Sifting(l, m, now).0.recentIds == if Fresh(l, m) then Remember(l.recentIds, m.fillId) else l.recentIds
    ensures Fresh(l, m) ==> m.fillId !in l.recentIds
  {
  }

  lemma {:induction false} DrainKeepsWindow(history: seq<string>, l: LinkState, inbox: seq<Message>, now: Timestamp)
    requires Window(history, l.recentIds)
    ensures Window(history + Noted(l, inbox, now), Draining(l, inbox, now).0.recentIds)
    decreases |inbox|
  {
    hide Window, Remember, Fresh, Sifting;
    if inbox == [] {
      assert history + [] == history;
    } else {
      var front, m := inbox[..|inbox| - 1], inbox[|inbox| - 1];
      DrainKeepsWindow(history, l, front, now);
      SiftRemembers(Draining(l, front, now).0, m, now);
      var before, noted := Draining(l, front, now).0, history + Noted(l, front, now);
      if Fresh(before, m) {
        WindowGrows(noted, before.recentIds, m.fillId);
        assert noted + [m.fillId] == history + Noted(l, inbox, now);
      } else {
        assert history + Noted(l, inbox, now) == noted;
      }
    }
  }

  lemma EmptyWindow()
    ensures Window([], [])
  {
  }

  /** On an unsequenced stream, over every run, the same fill id is let through again only after more than 4096
      other ids. */
  lemma {:induction false} IdsAreFarApart(c: LinkConfig, es: seq<LinkEvent>)
    ensures Window(NotedOver(c, es), After(c, es).recentIds)
  {
    hide Window, Stepping, Draining, Noted;
    EmptyWindow();
    if es != [] {
      var front, last := es[..|es| - 1], es[|es| - 1];
      IdsAreFarApart(c, front);
      OnlyPollsRemember(c, After(c, front), last);
      if last.Poll? && last.isOpen {
        DrainKeepsWindow(NotedOver(c, front), After(c, front), last.inbox, last.now);
      } else {
        assert NotedOver(c, front) + [] == NotedOver(c, front);
      }
    }
  }

  /** The ids of the accepted fills that carry no sequence number. */
  function Ids(ms: seq<Message>): seq<string> {
    if ms == [] then []
    else
      var m := ms[|ms| - 1];
      Ids(ms[..|ms| - 1]) + if m.sequence == 0 && m.fillId != "" then [m.fillId] else []
  }

  lemma {:induction false} IdsAppend(ms: seq<Message>, more: seq<Message>)
    ensures Ids(ms + more) == Ids(ms) + Ids(more)
    decreases |more|
  {
    if more == [] {
      assert ms + more == ms;
    } else {
      assert (ms + more)[..|ms + more| - 1] == ms + more[..|more| - 1];
      IdsAppend(ms, more[..|more| - 1]);
    }
  }

  lemma JoinKeepsInclusion(a: seq<string>, b: seq<string>, x: seq<string>, y: seq<string>)
    requires multiset(a) <= multiset(x) && multiset(b) <= multiset(y)
    ensures multiset(a + b) <= multiset(x + y)
  {
  }

  /** A message that passes with an id took its id into the window. */
  lemma SiftedIdIsNoted(l: LinkState, m: Message, now: Timestamp)
    ensures multiset(Ids(Sifting(l, m, now).1)) <= multiset(if Fresh(l, m) then [m.fillId] else [])
  {
    var more := Sifting(l, m, now).1;
    if more != [] {
      assert more[..0] == [];
    }
  }

  lemma {:induction false} DrainAcceptsNoted(l: LinkState, inbox: seq<Message>, now: Timestamp)
    ensures multiset(Ids(Draining(l, inbox, now).1)) <= multiset(Noted(l, inbox, now))
  {
    hide Ids, Fresh, Sifting;
    if inbox != [] {
      var front, m := inbox[..|inbox| - 1], inbox[|inbox| - 1];
      DrainAcceptsNoted(l, front, now);
      var (before, accepted) := Draining(l, front, now);
      var more := Sifting(before, m, now).1;
      IdsAppend(accepted, more);
      SiftedIdIsNoted(before, m, now);
      JoinKeepsInclusion(Ids(accepted), Ids(more), Noted(l, front, now), if Fresh(before, m) then [m.fillId] else []);
    } else {
      NoIds();
    }
  }

  lemma NoIds()
    ensures Ids([]) == []
  {
  }

  /** Every accepted unsequenced fill took its id into the window: within one window of ids none is accepted twice. */
  lemma {:induction false} AcceptedIdsAreNoted(c: LinkConfig, es: seq<LinkEvent>)
    ensures multiset(Ids(Accepted(c, es))) <= multiset(NotedOver(c, es))
  {
    hide Ids, Noted, Draining, Stepping;
    NoIds();
    if es != [] {
      var front, last := es[..|es| - 1], es[|es| - 1];
      AcceptedIdsAreNoted(c, front);
      var l := After(c, front);
      var more := if last.Poll? then Polls(l, last.isOpen, last.inbox, last.now).1 else [];
      var ids := if last.Poll? && last.isOpen then Noted(l, last.inbox, last.now) else [];
      if last.Poll? {
        DrainAcceptsNoted(l, last.inbox, last.now);
      }
      IdsAppend(Accepted(c, front), more);
      JoinKeepsInclusion(Ids(Accepted(c, front)), Ids(more), NotedOver(c, front), ids);
    }
  }

  lemma {:induction false} DistinctCountsOne(s: seq<string>, x: string)
    requires forall i, j :: 0 <= i < j < |s| ==> s[i] != s[j]
    ensures multiset(s)[x] <= 1
  {
    if s != [] {
      var front := s[..|s| - 1];
      assert s == front + [s[|s| - 1]];
      DistinctCountsOne(front, x);
      if s[|s| - 1] == x {
        assert x !in front;
      }
    }
  }

  lemma AtMostOnceWithinTheWindow(c: LinkConfig, es: seq<LinkEvent>, id: string)
    requires |NotedOver(c, es)| <= RECENT_ID_CAPACITY
    ensures multiset(Ids(Accepted(c, es)))[id] <= 1
  {
    IdsAreFarApart(c, es);
    AcceptedIdsAreNoted(c, es);
    DistinctCountsOne(NotedOver(c, es), id);
  }

  // ---------------------------------------------------------------------------
  // A dead heartbeat
  // ---------------------------------------------------------------------------

  predicate Opens(e: LinkEvent) {
    (e.Connect? || e.MaybeReconnect?) && e.opens
  }

  /** Some event of the run opens the transport. */
  predicate OpensIn(es: seq<LinkEvent>) {
    es != [] && (Opens(es[|es| - 1]) || OpensIn(es[..|es| - 1]))
  }

  /** Some event of the run marks the connection synchronized, and an earlier one opened the transport. */
  predicate Resynchronizes(es: seq<LinkEvent>) {
    es != [] &&
    (Resynchronizes(es[..|es| - 1]) || (es[|es| - 1].MarkSynchronized? && OpensIn(es[..|es| - 1])))
  }

  predicate Down(s: ConnectionState) {
    s == Disconnected || s == Connecting || s == Reconnecting || s == Failed
  }

  /** From a connection that is down, trading is possible only after a successful open, and after that only after
      synchronization. */
  lemma {:induction false} DownUntilResynchronized(c: LinkConfig, l: LinkState, es: seq<LinkEvent>)
    requires Down(l.state)
    ensures var s := AfterFrom(c, l, es).state;
            (!OpensIn(es) ==> Down(s)) && (!Resynchronizes(es) ==> Down(s) || s == Synchronizing)
  {
    if es != [] {
      DownUntilResynchronized(c, l, es[..|es| - 1]);
      hide OpensIn, Resynchronizes, Draining;
      OpenedBefore(es);
      PollKeepsState(c, AfterFrom(c, l, es[..|es| - 1]), es[|es| - 1]);
    }
  }

  lemma OpenedBefore(es: seq<LinkEvent>)
    requires es != []
    ensures OpensIn(es) <==> Opens(es[|es| - 1]) || OpensIn(es[..|es| - 1])
    ensures Resynchronizes(es) <==>
              Resynchronizes(es[..|es| - 1]) || (es[|es| - 1].MarkSynchronized? && OpensIn(es[..|es| - 1]))
  {
  }

  lemma {:induction false} DrainKeepsState(l: LinkState, inbox: seq<Message>, now: Timestamp)
    ensures Draining(l, inbox, now).0.state == l.state
  {
    if inbox != [] {
      DrainKeepsState(l, inbox[..|inbox| - 1], now);
    }
  }

  lemma PollKeepsState(c: LinkConfig, l: LinkState, e: LinkEvent)
    ensures e.Poll? ==> Stepping(c, l, e).state == l.state
  {
    if e.Poll? {
      DrainKeepsState(l, e.inbox, e.now);
    }
  }

  /** After a tick has found the heartbeat dead, no send succeeds until the transport has been opened anew and the
      connection marked synchronized, in that order. */
  lemma NoSendAfterDeadHeartbeat(c: LinkConfig, l: LinkState, now: Timestamp, es: seq<LinkEvent>, accepts: bool)
    requires (l.state == Ready || l.state == Degraded) && Dead(l.heartbeat, c.heartbeat, now)
    ensures Sends(AfterFrom(c, Ticks(l, c, now), es), accepts).Ok? ==> Resynchronizes(es)
  {
    DownUntilResynchronized(c, Ticks(l, c, now), es);
  }

  // ---------------------------------------------------------------------------
  // Giving up, and waiting
  // ---------------------------------------------------------------------------

  /** The refusal that asks for manual intervention can never be returned: an exhausted supervisor already declines
      the attempt, and the connection then stays as it is. */
  lemma ExhaustionIsNeverReported(l: LinkState, c: LinkConfig, now: Timestamp, opens: bool)
    ensures MaybeReconnects(l, c, now, opens).1 != Err(AttemptsExhausted)
    ensures Exhausted(l.supervisor, c.supervisor) ==> MaybeReconnects(l, c, now, opens) == (l, Ok(false))
  {
  }

  /** The backoff after n attempts in a row. */
  function BackoffAfter(c: SupervisorConfig, n: nat): Duration {
    if n == 0 then c.initialBackoff else NextBackoff(c, BackoffAfter(c, n - 1))
  }

  /** n failed reconnects in a row, at times the supervisor allowed. */
  function Failures(c: LinkConfig, l: LinkState, times: seq<Timestamp>): LinkState {
    if times == [] then l
    else Connects(Failures(c, l, times[..|times| - 1]).(state := Reconnecting), c, times[|times| - 1], false).0
  }

  lemma Stretched(d: Duration, multiplier: real)
    requires d >= 0 && multiplier >= 1.0
    ensures d as real * multiplier >= 0.0 && (d as real * multiplier).Floor >= d
  {
  }

  lemma Scale(b: real, m: real)
    requires b >= 0.0 && m >= 1.0
    ensures b * m >= b
  {
  }

  lemma NextIsCapped(c: SupervisorConfig, d: Duration)
    requires 0 <= d <= c.maxBackoff && c.multiplier >= 1.0
    ensures d <= NextBackoff(c, d) <= c.maxBackoff
  {
    Stretched(d, c.multiplier);
  }

  lemma {:induction false} BackoffIsCapped(c: SupervisorConfig, n: nat)
    requires 0 <= c.initialBackoff <= c.maxBackoff && c.multiplier >= 1.0
    ensures c.initialBackoff <= BackoffAfter(c, n) <= c.maxBackoff
    ensures n > 0 ==> BackoffAfter(c, n - 1) <= BackoffAfter(c, n)
  {
    if n > 0 {
      BackoffIsCapped(c, n - 1);
      hide NextBackoff;
      NextIsCapped(c, BackoffAfter(c, n - 1));
    }
  }

  function Power(base: nat, n: nat): nat {
    if n == 0 then 1 else base * Power(base, n - 1)
  }

  lemma WholeProduct(d: Duration, base: nat)
    requires d >= 0
    ensures d as real * base as real == (d * base) as real
  {
  }

  lemma NextByWhole(c: SupervisorConfig, d: Duration, base: nat, product: int)
    requires d >= 0 && c.multiplier == base as real && product == d * base >= 0
    ensures NextBackoff(c, d) == if product < c.maxBackoff then product else c.maxBackoff
  {
    WholeProduct(d, base);
    assert (product as real).Floor == product;
  }

  lemma PowerStep(first: int, base: nat, n: nat)
    requires n > 0
    ensures first * Power(base, n) == first * Power(base, n - 1) * base
  {
  }

  lemma CappedProduct(grown: int, most: int, base: nat, product: int)
    requires 0 <= most && 0 <= grown && base >= 1 && product == (if grown < most then grown else most) * base
    ensures product >= 0 && grown * base >= 0
    ensures (if product < most then product else most) == if grown * base < most then grown * base else most
  {
    if grown >= most {
      assert most * base >= most && grown * base >= most * base;
    }
  }

  /** With a whole multiplier the backoff is the first one times a power of it, up to the cap. */
  lemma {:induction false} BackoffIsExponential(c: SupervisorConfig, base: nat, n: nat)
    requires 0 <= c.initialBackoff <= c.maxBackoff && base >= 1 && c.multiplier == base as real
    ensures var grown := c.initialBackoff * Power(base, n);
            grown >= 0 && BackoffAfter(c, n) == if grown < c.maxBackoff then grown else c.maxBackoff
  {
    hide NextBackoff;
    if n > 0 {
      BackoffIsExponential(c, base, n - 1);
      var before, grown := BackoffAfter(c, n - 1), c.initialBackoff * Power(base, n - 1);
      var product := before * base;
      PowerStep(c.initialBackoff, base, n);
      CappedProduct(grown, c.maxBackoff, base, product);
      NextByWhole(c, before, base, product);
      hide Power;
    }
  }

  /** After n failures in a row since the last success, the next attempt waits the n-times multiplied backoff from the
      last failure: the delay is already advanced once when the first wait begins. */
  lemma {:induction false} WaitsGrow(c: LinkConfig, l: LinkState, times: seq<Timestamp>)
    requires l.supervisor.backoff == c.supervisor.initialBackoff && times != []
    requires forall i :: 0 <= i < |times| ==> IsSet(times[i])
    ensures var s := Failures(c, l, times).supervisor;
            && s.backoff == BackoffAfter(c.supervisor, |times|) && s.attempts == l.supervisor.attempts + |times|
            && s.nextAttempt == times[|times| - 1] + BackoffAfter(c.supervisor, |times|)
  {
    var front := times[..|times| - 1];
    if front != [] {
      WaitsGrow(c, l, front);
    }
  }
}
