/** Event streams: merging several into one, and bracketing a stream with session events. */
module Sources {
  import opened Types
  import opened Calendars

  const NO_INSTRUMENT: nat := 0xFFFF_FFFF

  /** A market event; the content stands for everything that is not an ordering key. A session mark is the opening or
      closing event of a session. */
  datatype MarketEvent =
    | Data(exchangeTime: Timestamp, receiveTime: Timestamp, instrument: nat, content: int)
    | Mark(at: Timestamp, opening: bool)

  function ExchangeTimeOf(e: MarketEvent): Timestamp {
    match e
    case Data(t, _, _, _) => t
    case Mark(at, _) => at
  }

  function InstrumentOf(e: MarketEvent): nat {
    match e
    case Data(_, _, i, _) => i
    case Mark(_, _) => NO_INSTRUMENT
  }

  predicate Chronological(es: seq<MarketEvent>) {
    forall i, j :: 0 <= i < j < |es| ==> ExchangeTimeOf(es[i]) <= ExchangeTimeOf(es[j])
  }

  // ---------------------------------------------------------------------------
  // Merging
  // ---------------------------------------------------------------------------

  type Streams = seq<seq<MarketEvent>>

  /** How often stream i was taken from. */
  function Taken(picks: seq<nat>, i: nat): nat {
    if picks == [] then 0 else Taken(picks[..|picks| - 1], i) + if picks[|picks| - 1] == i then 1 else 0
  }

  /** The next unread event of stream i, after these picks. */
  predicate Waiting(streams: Streams, picks: seq<nat>, i: nat) {
    i < |streams| && Taken(picks, i) < |streams[i]|
  }

  function Head(streams: Streams, picks: seq<nat>, i: nat): MarketEvent
    requires Waiting(streams, picks, i)
  {
    streams[i][Taken(picks, i)]
  }

  /** Earlier in time, or at the same time for a smaller instrument, or then in an earlier stream. */
  predicate Before(a: MarketEvent, i: nat, b: MarketEvent, j: nat) {
    || ExchangeTimeOf(a) < ExchangeTimeOf(b)
    || (ExchangeTimeOf(a) == ExchangeTimeOf(b)
        && (InstrumentOf(a) < InstrumentOf(b) || (InstrumentOf(a) == InstrumentOf(b) && i <= j)))
  }

  /** Step k took the least of all waiting heads. */
  predicate PickedLeast(streams: Streams, picks: seq<nat>, k: nat)
    requires k < |picks|
  {
    && Waiting(streams, picks[..k], picks[k])
    && forall j :: 0 <= j < |streams| && Waiting(streams, picks[..k], j) ==>
         Before(Head(streams, picks[..k], picks[k]), picks[k], Head(streams, picks[..k], j), j)
  }

  /** The output takes every stream in order, one least head at a time. */
  ghost predicate FollowsPicks(streams: Streams, picks: seq<nat>, out: seq<MarketEvent>) {
    |out| == |picks| && forall k :: 0 <= k < |picks| ==>
      PickedLeast(streams, picks, k) && out[k] == Head(streams, picks[..k], picks[k])
  }

  /** Nothing is left over. */
  predicate Exhausts(streams: Streams, picks: seq<nat>) {
    forall i :: 0 <= i < |streams| ==> Taken(picks, i) == |streams[i]|
  }

  /** The merge of streams by these picks: each stream is an in-order subsequence, nothing is lost or added, and
      every choice is decided by time, then instrument, then stream. */
  ghost predicate IsMerge(streams: Streams, picks: seq<nat>, out: seq<MarketEvent>) {
    FollowsPicks(streams, picks, out) && Exhausts(streams, picks)
  }

  function TotalLength(streams: Streams): nat {
    if streams == [] then 0 else TotalLength(streams[..|streams| - 1]) + |streams[|streams| - 1]|
  }

  lemma {:induction false} PicksAreBounded(streams: Streams, picks: seq<nat>)
    requires forall k :: 0 <= k < |picks| ==> picks[k] < |streams|
    requires forall i :: 0 <= i < |streams| ==> Taken(picks, i) <= |streams[i]|
    ensures |picks| <= TotalLength(streams)
    ensures |picks| == TotalLength(streams) ==> Exhausts(streams, picks)
    ensures |picks| < TotalLength(streams) ==> exists i :: 0 <= i < |streams| && Waiting(streams, picks, i)
  {
    TakenSums(streams, picks, |streams|);
    assert streams[..|streams|] == streams;
  }

  /** The picks from the first n streams, and their lengths. */
  function TakenFrom(picks: seq<nat>, n: nat): nat {
    if n == 0 then 0 else TakenFrom(picks, n - 1) + Taken(picks, n - 1)
  }

  lemma {:induction false} TakenFromCounts(picks: seq<nat>, n: nat)
    requires forall k :: 0 <= k < |picks| ==> picks[k] < n
    ensures TakenFrom(picks, n) == |picks|
  {
    if picks == [] {
      NothingTaken(n);
    } else {
      var front, last := picks[..|picks| - 1], picks[|picks| - 1];
      TakenFromCounts(front, n);
      OneMoreTaken(front, last, n);
      assert picks == front + [last];
    }
  }

  lemma {:induction false} NothingTaken(n: nat)
    ensures TakenFrom([], n) == 0
  {
    if n > 0 {
      NothingTaken(n - 1);
    }
  }

  lemma TakenSnoc(picks: seq<nat>, last: nat, i: nat)
    ensures Taken(picks + [last], i) == Taken(picks, i) + if last == i then 1 else 0
  {
  }

  lemma {:induction false} OneMoreTaken(picks: seq<nat>, last: nat, n: nat)
    ensures TakenFrom(picks + [last], n) == TakenFrom(picks, n) + if last < n then 1 else 0
  {
    if n > 0 {
      OneMoreTaken(picks, last, n - 1);
      TakenSnoc(picks, last, n - 1);
    }
  }

  lemma {:induction false} TakenSums(streams: Streams, picks: seq<nat>, n: nat)
    requires n <= |streams| && forall k :: 0 <= k < |picks| ==> picks[k] < |streams|
    requires forall i :: 0 <= i < |streams| ==> Taken(picks, i) <= |streams[i]|
    ensures TakenFrom(picks, n) <= TotalLength(streams[..n])
    ensures TakenFrom(picks, n) == TotalLength(streams[..n]) ==>
              forall i :: 0 <= i < n ==> Taken(picks, i) == |streams[i]|
    ensures TakenFrom(picks, n) < TotalLength(streams[..n]) ==> exists i :: 0 <= i < n && Waiting(streams, picks, i)
    ensures n == |streams| ==> TakenFrom(picks, n) == |picks|
  {
    if n > 0 {
      TakenSums(streams, picks, n - 1);
      assert streams[..n][..n - 1] == streams[..n - 1];
      if Taken(picks, n - 1) < |streams[n - 1]| {
        assert Waiting(streams, picks, n - 1);
      }
    }
    if n == |streams| {
      TakenFromCounts(picks, n);
    }
  }

  /** The least waiting head among the first n streams, if any waits. */
  predicate LeastSoFar(streams: Streams, picks: seq<nat>, n: nat, best: nat)
    requires n <= |streams|
  {
    if best == |streams| then forall j :: 0 <= j < n ==> !Waiting(streams, picks, j)
    else
      && best < n && Waiting(streams, picks, best)
      && forall j :: 0 <= j < n && Waiting(streams, picks, j) ==>
           Before(Head(streams, picks, best), best, Head(streams, picks, j), j)
  }

  /** The scan over all streams for the next event; ties keep the earlier stream. */
  method ChooseNext(streams: Streams, cursor: seq<nat>, ghost picks: seq<nat>) returns (best: nat)
    requires |cursor| == |streams| && forall i :: 0 <= i < |streams| ==> cursor[i] == Taken(picks, i)
    ensures LeastSoFar(streams, picks, |streams|, best)
  {
    hide Taken;
    best := |streams|;
    var i := 0;
    while i < |streams|
      invariant 0 <= i <= |streams| && LeastSoFar(streams, picks, i, best)
    {
      if cursor[i] < |streams[i]| {
        if best == |streams| {
          best := i;
        } else {
          var a, b := ExchangeTimeOf(streams[i][cursor[i]]), ExchangeTimeOf(streams[best][cursor[best]]);
          if a < b {
            best := i;
          } else if a == b {
            if InstrumentOf(streams[i][cursor[i]]) < InstrumentOf(streams[best][cursor[best]]) { best := i; }
          }
        }
      }
      i := i + 1;
    }
  }

  /** Merges by moving one cursor at a time, then checks the result's order. */
  method MergeSorted(streams: Streams) returns (r: Option<seq<MarketEvent>>)
    ensures r.Some? <==> forall i :: 0 <= i < |streams| ==> Chronological(streams[i])
    ensures r.Some? ==> Chronological(r.value) && exists picks :: IsMerge(streams, picks, r.value)
  {
    hide Chronological, Before, Exhausts, Taken;
    var total := CountEvents(streams);
    var out: seq<MarketEvent> := [];
    var cursor: seq<nat> := seq(|streams|, i => 0);
    ghost var picks: seq<nat> := [];
    NoneTaken(streams);
    var n := 0;
    while n < total
      invariant 0 <= n <= total == TotalLength(streams) && n == |out| == |picks|
      invariant |cursor| == |streams| && forall i :: 0 <= i < |streams| ==> cursor[i] == Taken(picks, i) <= |streams[i]|
      invariant FollowsPicks(streams, picks, out)
      invariant forall k :: 0 <= k < |picks| ==> picks[k] < |streams|
    {
      PicksAreBounded(streams, picks);
      var best := ChooseNext(streams, cursor, picks);
      assert best != |streams|;
      PickFollows(streams, picks, out, best);
      forall i | 0 <= i < |streams|
        ensures Taken(picks + [best], i) == Taken(picks, i) + if best == i then 1 else 0
      {
        TakenSnoc(picks, best, i);
      }
      out := out + [streams[best][cursor[best]]];
      cursor := cursor[best := cursor[best] + 1];
      picks := picks + [best];
      n := n + 1;
    }
    PicksAreBounded(streams, picks);
    assert IsMerge(streams, picks, out);
    MergeIsSortedIff(streams, picks, out);
    var sorted := CheckOrder(out);
    if !sorted { return None; }
    return Some(out);
  }

  lemma NoneTaken(streams: Streams)
    ensures FollowsPicks(streams, [], []) && forall i :: 0 <= i < |streams| ==> Taken([], i) == 0
  {
  }

  method CountEvents(streams: Streams) returns (total: nat)
    ensures total == TotalLength(streams)
  {
    total := 0;
    var i := 0;
    while i < |streams|
      invariant 0 <= i <= |streams| && total == TotalLength(streams[..i])
    {
      assert streams[..i + 1][..i] == streams[..i];
      total := total + |streams[i]|;
      i := i + 1;
    }
    assert streams[..i] == streams;
  }

  /** Compares neighbours. */
  method CheckOrder(es: seq<MarketEvent>) returns (sorted: bool)
    ensures sorted <==> Chronological(es)
  {
    var i := 1;
    while i < |es|
      invariant 1 <= i && (i <= |es| || |es| == 0) && Chronological(es[..if i <= |es| then i else 0])
    {
      if ExchangeTimeOf(es[i]) < ExchangeTimeOf(es[i - 1]) { return false; }
      OrderGrows(es, i);
      i := i + 1;
    }
    assert es[..|es|] == es;
    return true;
  }

  lemma OrderGrows(es: seq<MarketEvent>, i: nat)
    requires 0 < i < |es| && Chronological(es[..i]) && ExchangeTimeOf(es[i - 1]) <= ExchangeTimeOf(es[i])
    ensures Chronological(es[..i + 1])
  {
  }

  lemma PickFollows(streams: Streams, picks: seq<nat>, out: seq<MarketEvent>, best: nat)
    requires FollowsPicks(streams, picks, out) && best < |streams| && LeastSoFar(streams, picks, |streams|, best)
    ensures FollowsPicks(streams, picks + [best], out + [Head(streams, picks, best)])
  {
    hide Before, Taken;
    var more := picks + [best];
    assert more[..|picks|] == picks;
    forall k | 0 <= k < |picks|
      ensures PickedLeast(streams, more, k)
      ensures (out + [Head(streams, picks, best)])[k] == Head(streams, more[..k], more[k])
    {
      assert more[..k] == picks[..k] && more[k] == picks[k];
      assert PickedLeast(streams, picks, k);
    }
  }

  // ---------------------------------------------------------------------------
  // When a merge is sorted
  // ---------------------------------------------------------------------------

  lemma {:induction false} TakenGrows(picks: seq<nat>, k: nat, i: nat)
    requires k <= |picks|
    ensures Taken(picks[..k], i) <= Taken(picks, i)
  {
    if k < |picks| {
      TakenGrows(picks[..|picks| - 1], k, i);
      assert picks[..|picks| - 1][..k] == picks[..k];
    } else {
      assert picks[..k] == picks;
    }
  }

  /** The m-th event of a stream was output at some step. */
  lemma {:induction false} WhenTaken(picks: seq<nat>, i: nat, m: nat) returns (k: nat)
    requires m < Taken(picks, i)
    ensures k < |picks| && picks[k] == i && Taken(picks[..k], i) == m
  {
    var n := |picks| - 1;
    if m < Taken(picks[..n], i) {
      k := WhenTaken(picks[..n], i, m);
      assert picks[..n][..k] == picks[..k];
    } else {
      k := n;
    }
  }

  /** If the output is sorted, so is every stream: each is taken in order and completely. */
  lemma SortedMergeHasSortedStreams(streams: Streams, picks: seq<nat>, out: seq<MarketEvent>, i: nat)
    requires IsMerge(streams, picks, out) && Chronological(out) && i < |streams|
    ensures Chronological(streams[i])
  {
    hide Before;
    forall a, b | 0 <= a < b < |streams[i]|
      ensures ExchangeTimeOf(streams[i][a]) <= ExchangeTimeOf(streams[i][b])
    {
      var j := WhenTaken(picks, i, a);
      var k := WhenTaken(picks, i, b);
      TakenBefore(picks, j, k, i);
      assert PickedLeast(streams, picks, j) && PickedLeast(streams, picks, k);
      assert out[j] == streams[i][a] && out[k] == streams[i][b];
    }
  }

  lemma TakenBefore(picks: seq<nat>, j: nat, k: nat, i: nat)
    requires j < |picks| && k < |picks|
    ensures k <= j ==> Taken(picks[..k], i) <= Taken(picks[..j], i)
  {
    if k <= j {
      TakenGrows(picks[..j], k, i);
      assert picks[..j][..k] == picks[..k];
    }
  }

  /** If every stream is sorted, each output is at most every later one. */
  lemma SortedStreamsMergeSorted(streams: Streams, picks: seq<nat>, out: seq<MarketEvent>)
    requires IsMerge(streams, picks, out) && forall i :: 0 <= i < |streams| ==> Chronological(streams[i])
    ensures Chronological(out)
  {
    forall j, k | 0 <= j < k < |out|
      ensures ExchangeTimeOf(out[j]) <= ExchangeTimeOf(out[k])
    {
      var i := picks[k];
      assert PickedLeast(streams, picks, j) && PickedLeast(streams, picks, k);
      TakenGrows(picks[..k], j, i);
      assert picks[..k][..j] == picks[..j];
      hide Taken, Chronological;
      assert Waiting(streams, picks[..j], i);
      HeadsAscend(streams, picks[..j], picks[..k], i);
    }
  }

  lemma HeadsAscend(streams: Streams, earlier: seq<nat>, later: seq<nat>, i: nat)
    requires Waiting(streams, earlier, i) && Waiting(streams, later, i) && Taken(earlier, i) <= Taken(later, i)
    requires Chronological(streams[i])
    ensures ExchangeTimeOf(Head(streams, earlier, i)) <= ExchangeTimeOf(Head(streams, later, i))
  {
  }

  /** A merge comes out sorted exactly when every stream went in sorted. */
  lemma MergeIsSortedIff(streams: Streams, picks: seq<nat>, out: seq<MarketEvent>)
    requires IsMerge(streams, picks, out)
    ensures Chronological(out) <==> forall i :: 0 <= i < |streams| ==> Chronological(streams[i])
  {
    hide IsMerge, Chronological;
    if Chronological(out) {
      forall i | 0 <= i < |streams|
        ensures Chronological(streams[i])
      {
        SortedMergeHasSortedStreams(streams, picks, out, i);
      }
    }
    if forall i :: 0 <= i < |streams| ==> Chronological(streams[i]) {
      SortedStreamsMergeSorted(streams, picks, out);
    }
  }

  lemma {:induction false} ExtendsPicks(streams: Streams, p: seq<nat>, q: seq<nat>, x: seq<MarketEvent>,
                                        y: seq<MarketEvent>, k: nat)
    requires IsMerge(streams, p, x) && IsMerge(streams, q, y) && k <= |p| && k <= |q|
    ensures p[..k] == q[..k] && x[..k] == y[..k]
  {
    hide Taken, Exhausts, PickedLeast;
    if k > 0 {
      ExtendsPicks(streams, p, q, x, y, k - 1);
      SameChoice(streams, p, q, k - 1);
      assert p[..k] == p[..k - 1] + [p[k - 1]] && q[..k] == q[..k - 1] + [q[k - 1]];
      assert x[..k] == x[..k - 1] + [x[k - 1]] && y[..k] == y[..k - 1] + [y[k - 1]];
    }
  }

  /** What a merge takes next among the heads that wait: none of them is earlier; of those at the same instant, session
      marks wait for data, and data for data of a smaller instrument; and equals go by the order of the streams. */
  lemma ChoiceIs(streams: Streams, picks: seq<nat>, out: seq<MarketEvent>, k: nat, j: nat)
    requires IsMerge(streams, picks, out) && k < |out| && Waiting(streams, picks[..k], j)
    ensures var taken, other := out[k], Head(streams, picks[..k], j);
            && ExchangeTimeOf(taken) <= ExchangeTimeOf(other)
            && (ExchangeTimeOf(taken) == ExchangeTimeOf(other) && other.Data? && other.instrument < 0xFFFF_FFFF ==>
                  taken.Data? && taken.instrument <= other.instrument
                  && (taken.instrument == other.instrument ==> picks[k] <= j))
            && (ExchangeTimeOf(taken) == ExchangeTimeOf(other) && taken.Mark? && other.Mark? ==> picks[k] <= j)
  {
    hide Taken, Exhausts;
    assert PickedLeast(streams, picks, k);
    assert Before(Head(streams, picks[..k], picks[k]), picks[k], Head(streams, picks[..k], j), j);
  }

  /** Two least heads are the same head. */
  lemma SameChoice(streams: Streams, p: seq<nat>, q: seq<nat>, k: nat)
    requires k < |p| && k < |q| && p[..k] == q[..k] && PickedLeast(streams, p, k) && PickedLeast(streams, q, k)
    ensures p[k] == q[k]
  {
  }

  /** The merge is determined by the streams: two runs order simultaneous events alike. */
  lemma MergeIsUnique(streams: Streams, p: seq<nat>, q: seq<nat>, x: seq<MarketEvent>, y: seq<MarketEvent>)
    requires IsMerge(streams, p, x) && IsMerge(streams, q, y)
    ensures x == y
  {
    MergeLength(streams, p, x);
    MergeLength(streams, q, y);
    ExtendsPicks(streams, p, q, x, y, |p|);
    assert x[..|p|] == x && y[..|p|] == y;
  }

  lemma MergeLength(streams: Streams, picks: seq<nat>, out: seq<MarketEvent>)
    requires IsMerge(streams, picks, out)
    ensures |picks| == |out| == TotalLength(streams)
  {
    forall k | 0 <= k < |picks|
      ensures picks[k] < |streams|
    {
      assert PickedLeast(streams, picks, k);
    }
    PicksAreBounded(streams, picks);
  }

  // ---------------------------------------------------------------------------
  // Session events
  // ---------------------------------------------------------------------------

  /** The events of one session. */
  datatype Group = Group(session: Session, events: seq<MarketEvent>)

  function OpenMark(s: Session): MarketEvent {
    Mark(s.open, true)
  }

  function CloseMark(s: Session): MarketEvent {
    Mark(s.close, false)
  }

  predicate InSession(cal: Calendar, e: MarketEvent) {
    Containing(cal, ExchangeTimeOf(e)).Some?
  }

  predicate AllInSession(cal: Calendar, es: seq<MarketEvent>) {
    forall i :: 0 <= i < |es| ==> InSession(cal, es[i])
  }

  function SessionOfEvent(cal: Calendar, e: MarketEvent): Session
    requires InSession(cal, e)
  {
    Containing(cal, ExchangeTimeOf(e)).value
  }

  /** Consecutive events of one session date belong together. */
  function Groups(cal: Calendar, es: seq<MarketEvent>): (gs: seq<Group>)
    requires AllInSession(cal, es)
    ensures es != [] ==> gs != []
  {
    if es == [] then []
    else
      var front, e := Groups(cal, es[..|es| - 1]), es[|es| - 1];
      var s := SessionOfEvent(cal, e);
      if front != [] && front[|front| - 1].session.date == s.date
      then front[|front| - 1 := Group(front[|front| - 1].session, front[|front| - 1].events + [e])]
      else front + [Group(s, [e])]
  }

  /** Each group between the opening and the closing event of its session. */
  function Flat(gs: seq<Group>): seq<MarketEvent> {
    if gs == [] then []
    else
      var g := gs[|gs| - 1];
      Flat(gs[..|gs| - 1]) + [OpenMark(g.session)] + g.events + [CloseMark(g.session)]
  }

  /** The same before the last closing event. */
  function Unclosed(gs: seq<Group>): seq<MarketEvent> {
    if gs == [] then []
    else
      var g := gs[|gs| - 1];
      Flat(gs[..|gs| - 1]) + [OpenMark(g.session)] + g.events
  }

  lemma OneMoreEvent(cal: Calendar, es: seq<MarketEvent>, e: MarketEvent)
    requires AllInSession(cal, es) && InSession(cal, e)
    ensures AllInSession(cal, es + [e])
    ensures var gs, s := Groups(cal, es), SessionOfEvent(cal, e);
            if gs != [] && gs[|gs| - 1].session.date == s.date then
              && Groups(cal, es + [e]) != []
              && Groups(cal, es + [e])[|gs| - 1].session == gs[|gs| - 1].session
              && |Groups(cal, es + [e])| == |gs|
              && Unclosed(Groups(cal, es + [e])) == Unclosed(gs) + [e]
            else
              && |Groups(cal, es + [e])| == |gs| + 1 && Groups(cal, es + [e])[|gs|].session == s
              && Unclosed(Groups(cal, es + [e]))
                 == Unclosed(gs) + (if gs == [] then [] else [CloseMark(gs[|gs| - 1].session)]) + [OpenMark(s)] + [e]
  {
    hide InSession, SessionOfEvent;
    assert (es + [e])[..|es|] == es;
    var gs := Groups(cal, es);
    var more := Groups(cal, es + [e]);
    if |more| == |gs| {
      assert more[..|more| - 1] == gs[..|gs| - 1];
    } else {
      assert more[..|more| - 1] == gs;
    }
  }

  /** Walks the stream and inserts the opening and closing events where the session date changes. */
  method WithSessionEvents(events: seq<MarketEvent>, cal: Calendar) returns (r: Option<seq<MarketEvent>>)
    ensures r.Some? <==> AllInSession(cal, events)
    ensures r.Some? ==> r.value == Flat(Groups(cal, events))
  {
    hide Containing, Groups, Unclosed;
    NoGroups(cal);
    if events == [] { return Some(events); }
    var out: seq<MarketEvent> := [];
    var current: Option<Session> := None;
    var k := 0;
    while k < |events|
      invariant 0 <= k <= |events|
      invariant AllInSession(cal, events[..k])
      invariant out == Unclosed(Groups(cal, events[..k]))
      invariant var gs := Groups(cal, events[..k]);
                current == if gs == [] then None else Some(gs[|gs| - 1].session)
    {
      var e := events[k];
      var s := SessionContaining(cal, ExchangeTimeOf(e));
      if s.None? {
        assert !InSession(cal, events[k]);
        return None;
      }
      OneMoreEvent(cal, events[..k], e);
      assert events[..k + 1] == events[..k] + [e];
      if current.None? || s.value.date != current.value.date {
        if current.Some? { out := out + [CloseMark(current.value)]; }
        out := out + [OpenMark(s.value)];
        current := s;
      }
      out := out + [e];
      k := k + 1;
    }
    assert events[..k] == events;
    LastCloses(Groups(cal, events));
    out := out + [CloseMark(current.value)];
    return Some(out);
  }

  lemma NoGroups(cal: Calendar)
    ensures Groups(cal, []) == [] && Unclosed([]) == []
  {
  }

  lemma LastCloses(gs: seq<Group>)
    requires gs != []
    ensures Flat(gs) == Unclosed(gs) + [CloseMark(gs[|gs| - 1].session)]
  {
  }

  // ---------------------------------------------------------------------------
  // What the bracketing keeps
  // ---------------------------------------------------------------------------

  /** The stream without session events. */
  function Erased(es: seq<MarketEvent>): seq<MarketEvent> {
    if es == [] then []
    else Erased(es[..|es| - 1]) + if es[|es| - 1].Mark? then [] else [es[|es| - 1]]
  }

  predicate Unmarked(es: seq<MarketEvent>) {
    forall i :: 0 <= i < |es| ==> es[i].Data?
  }

  lemma {:induction false} ErasedAppend(a: seq<MarketEvent>, b: seq<MarketEvent>)
    ensures Erased(a + b) == Erased(a) + Erased(b)
    decreases |b|
  {
    if b == [] {
      assert a + b == a;
    } else {
      assert (a + b)[..|a + b| - 1] == a + b[..|b| - 1];
      ErasedAppend(a, b[..|b| - 1]);
    }
  }

  lemma {:induction false} ErasedUnmarked(es: seq<MarketEvent>)
    requires Unmarked(es)
    ensures Erased(es) == es
  {
    if es != [] {
      ErasedUnmarked(es[..|es| - 1]);
      assert es == es[..|es| - 1] + [es[|es| - 1]];
    }
  }

  function Joined(gs: seq<Group>): seq<MarketEvent> {
    if gs == [] then [] else Joined(gs[..|gs| - 1]) + gs[|gs| - 1].events
  }

  lemma {:induction false} GroupsJoin(cal: Calendar, es: seq<MarketEvent>)
    requires AllInSession(cal, es)
    ensures Joined(Groups(cal, es)) == es
  {
    hide SessionOfEvent, InSession;
    if es != [] {
      var front := es[..|es| - 1];
      GroupsJoin(cal, front);
      var gs, more := Groups(cal, front), Groups(cal, es);
      assert es == front + [es[|es| - 1]];
      if |more| == |gs| {
        assert more[..|more| - 1] == gs[..|gs| - 1];
      } else {
        assert more[..|more| - 1] == gs;
      }
    }
  }

  lemma {:induction false} FlatErases(gs: seq<Group>)
    requires forall k :: 0 <= k < |gs| ==> Unmarked(gs[k].events)
    ensures Erased(Flat(gs)) == Joined(gs)
  {
    hide Erased, Unmarked;
    NothingErased();
    if gs != [] {
      var g := gs[|gs| - 1];
      FlatErases(gs[..|gs| - 1]);
      GroupErases(Flat(gs[..|gs| - 1]), g);
    }
  }

  lemma NothingErased()
    ensures Erased([]) == []
  {
  }

  lemma MarkErases(at: Timestamp, opening: bool)
    ensures Erased([Mark(at, opening)]) == []
  {
  }

  lemma GroupErases(before: seq<MarketEvent>, g: Group)
    requires Unmarked(g.events)
    ensures Erased(before + [OpenMark(g.session)] + g.events + [CloseMark(g.session)]) == Erased(before) + g.events
  {
    hide Erased, Unmarked;
    var b, c := [OpenMark(g.session)], [CloseMark(g.session)];
    ErasedAppend(before + b + g.events, c);
    ErasedAppend(before + b, g.events);
    ErasedAppend(before, b);
    ErasedUnmarked(g.events);
    MarkErases(g.session.open, true);
    MarkErases(g.session.close, false);
    assert Erased(before) + [] == Erased(before) && Erased(before) + g.events + [] == Erased(before) + g.events;
  }

  lemma {:induction false} JoinedUnmarked(gs: seq<Group>, k: nat)
    requires k < |gs| && Unmarked(Joined(gs))
    ensures Unmarked(gs[k].events)
  {
    var n := |gs| - 1;
    assert Joined(gs) == Joined(gs[..n]) + gs[n].events;
    if k < n {
      forall i | 0 <= i < |Joined(gs[..n])|
        ensures Joined(gs[..n])[i].Data?
      {
        assert Joined(gs)[i] == Joined(gs[..n])[i];
      }
      JoinedUnmarked(gs[..n], k);
    } else {
      forall i | 0 <= i < |gs[n].events|
        ensures gs[n].events[i].Data?
      {
        assert Joined(gs)[|Joined(gs[..n])| + i] == gs[n].events[i];
      }
    }
  }

  /** Taking the session events out again gives back the stream. */
  lemma BracketingErases(cal: Calendar, es: seq<MarketEvent>)
    requires AllInSession(cal, es) && Unmarked(es)
    ensures Erased(Flat(Groups(cal, es))) == es
  {
    hide InSession, Groups;
    GroupsJoin(cal, es);
    var gs := Groups(cal, es);
    forall k | 0 <= k < |gs|
      ensures Unmarked(gs[k].events)
    {
      JoinedUnmarked(gs, k);
    }
    FlatErases(gs);
  }

  /** Each group holds events of its own open session, in order, and the sessions follow each other without overlap:
      one opening and one closing event for every session date that has events. */
  predicate WellBracketed(cal: Calendar, gs: seq<Group>) {
    && (forall k :: 0 <= k < |gs| ==> GroupFits(cal, gs[k]))
    && forall j, k :: 0 <= j < k < |gs| ==> gs[j].session.date < gs[k].session.date
                                            && gs[j].session.close <= gs[k].session.open
  }

  predicate GroupFits(cal: Calendar, g: Group) {
    && g.events != [] && g.session in cal.open && Chronological(g.events)
    && forall i :: 0 <= i < |g.events| ==> g.session.Contains(ExchangeTimeOf(g.events[i]))
  }

  lemma SessionsInOrder(cal: Calendar, first: int, s: Session, t: Session, a: Timestamp, b: Timestamp)
    requires Sound(cal, first) && s in cal.open && t in cal.open && s.Contains(a) && t.Contains(b) && a <= b
    ensures s == t || (s.date < t.date && s.close <= t.open)
  {
    OpenOnesAreDisjoint(cal.all, first);
    hide Sound;
    var i :| 0 <= i < |cal.open| && cal.open[i] == s;
    var j :| 0 <= j < |cal.open| && cal.open[j] == t;
    assert !(j < i);
  }

  lemma SnocFits(cal: Calendar, g: Group, e: MarketEvent)
    requires GroupFits(cal, g) && g.session.Contains(ExchangeTimeOf(e))
    requires ExchangeTimeOf(g.events[|g.events| - 1]) <= ExchangeTimeOf(e)
    ensures GroupFits(cal, Group(g.session, g.events + [e]))
  {
  }

  /** The last event of the groups. */
  predicate EndsWith(gs: seq<Group>, e: MarketEvent) {
    gs != [] && var last := gs[|gs| - 1].events; last != [] && last[|last| - 1] == e
  }

  lemma {:induction false} GroupsAreBracketed(cal: Calendar, first: int, es: seq<MarketEvent>)
    requires Sound(cal, first) && Chronological(es) && AllInSession(cal, es)
    ensures WellBracketed(cal, Groups(cal, es)) && (es != [] ==> EndsWith(Groups(cal, es), es[|es| - 1]))
  {
    hide SessionOfEvent, Sound, Chronological, InSession, WellBracketed, EndsWith;
    if es != [] {
      var front, e := es[..|es| - 1], es[|es| - 1];
      PrefixChronological(es);
      GroupsAreBracketed(cal, first, front);
      var s := SessionOfEvent(cal, e);
      EventInOpenSession(cal, first, e);
      GroupsGrow(cal, first, Groups(cal, front), if front == [] then e else front[|front| - 1], s, e);
    } else {
      NothingBracketed(cal);
    }
  }

  lemma NothingBracketed(cal: Calendar)
    ensures WellBracketed(cal, [])
  {
  }

  lemma EventInOpenSession(cal: Calendar, first: int, e: MarketEvent)
    requires Sound(cal, first) && InSession(cal, e)
    ensures SessionOfEvent(cal, e) in cal.open && SessionOfEvent(cal, e).Contains(ExchangeTimeOf(e))
  {
    var s := SessionOfEvent(cal, e);
    ContainingIsTheScan(cal, first, ExchangeTimeOf(e), s);
    OpenIsOpen(cal, first, s);
    hide Sound, Containing;
  }

  lemma PrefixChronological(es: seq<MarketEvent>)
    requires es != [] && Chronological(es)
    ensures Chronological(es[..|es| - 1])
    ensures |es| > 1 ==> ExchangeTimeOf(es[|es| - 2]) <= ExchangeTimeOf(es[|es| - 1])
  {
  }

  lemma OpenIsOpen(cal: Calendar, first: int, s: Session)
    requires Sound(cal, first) && s in cal.open
    ensures s.IsOpen()
  {
    OpenOnesAreFromAll(cal.all, s);
  }

  lemma SingleFits(cal: Calendar, s: Session, e: MarketEvent)
    requires s in cal.open && s.Contains(ExchangeTimeOf(e))
    ensures GroupFits(cal, Group(s, [e]))
  {
  }

  /** One more event joins the last group or starts a later one. */
  lemma GroupsGrow(cal: Calendar, first: int, gs: seq<Group>, before: MarketEvent, s: Session, e: MarketEvent)
    requires Sound(cal, first) && WellBracketed(cal, gs) && (gs != [] ==> EndsWith(gs, before))
    requires ExchangeTimeOf(before) <= ExchangeTimeOf(e) && s in cal.open && s.Contains(ExchangeTimeOf(e))
    ensures var more := if gs != [] && gs[|gs| - 1].session.date == s.date
                        then gs[|gs| - 1 := Group(gs[|gs| - 1].session, gs[|gs| - 1].events + [e])]
                        else gs + [Group(s, [e])];
            WellBracketed(cal, more) && EndsWith(more, e)
  {
    hide Sound, GroupFits;
    SingleFits(cal, s, e);
    if gs != [] {
      var g := gs[|gs| - 1];
      LastContained(cal, g);
      SessionsInOrder(cal, first, g.session, s, ExchangeTimeOf(before), ExchangeTimeOf(e));
      if g.session == s {
        SnocFits(cal, g, e);
      }
    }
  }

  lemma LastContained(cal: Calendar, g: Group)
    requires GroupFits(cal, g)
    ensures g.events != [] && g.session in cal.open && g.session.Contains(ExchangeTimeOf(g.events[|g.events| - 1]))
  {
  }

  lemma {:induction false} FlatChronological(cal: Calendar, gs: seq<Group>)
    requires WellBracketed(cal, gs)
    ensures Chronological(Flat(gs))
    ensures gs != [] ==> forall i :: 0 <= i < |Flat(gs)| ==> ExchangeTimeOf(Flat(gs)[i]) <= gs[|gs| - 1].session.close
  {
    if gs != [] {
      var n := |gs| - 1;
      var front := gs[..n];
      assert WellBracketed(cal, front);
      FlatChronological(cal, front);
      hide WellBracketed, GroupFits;
      var g := gs[n];
      FitsBetween(cal, gs, n);
      JoinChronological(Flat(front), g);
      assert Flat(gs) == Flat(front) + ([OpenMark(g.session)] + g.events + [CloseMark(g.session)]);
    }
  }

  lemma FitsBetween(cal: Calendar, gs: seq<Group>, n: nat)
    requires WellBracketed(cal, gs) && n < |gs|
    ensures Chronological(gs[n].events) && gs[n].session.open <= gs[n].session.close
    ensures forall i :: 0 <= i < |gs[n].events| ==> gs[n].session.Contains(ExchangeTimeOf(gs[n].events[i]))
    ensures n > 0 ==> gs[n - 1].session.close <= gs[n].session.open
  {
    assert GroupFits(cal, gs[n]);
    assert gs[n].session.Contains(ExchangeTimeOf(gs[n].events[0]));
  }

  lemma JoinChronological(before: seq<MarketEvent>, g: Group)
    requires Chronological(before) && Chronological(g.events) && g.session.open <= g.session.close
    requires forall i :: 0 <= i < |before| ==> ExchangeTimeOf(before[i]) <= g.session.open
    requires forall i :: 0 <= i < |g.events| ==> g.session.Contains(ExchangeTimeOf(g.events[i]))
    ensures var all := before + ([OpenMark(g.session)] + g.events + [CloseMark(g.session)]);
            Chronological(all) && forall i :: 0 <= i < |all| ==> ExchangeTimeOf(all[i]) <= g.session.close
  {
  }

  /** On a chronological stream whose events all fall into sessions of a built calendar, the result is chronological
      and brackets each session date's events in one matching pair of an opening and a closing event. */
  lemma BracketingIsChronological(cal: Calendar, first: int, es: seq<MarketEvent>)
    requires Sound(cal, first) && Chronological(es) && AllInSession(cal, es)
    ensures WellBracketed(cal, Groups(cal, es)) && Chronological(Flat(Groups(cal, es)))
  {
    GroupsAreBracketed(cal, first, es);
    FlatChronological(cal, Groups(cal, es));
  }
}
