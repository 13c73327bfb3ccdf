/** Batches of venue messages: exactly when one fails, and when it loses fills that were already ingested. */
module LiveBatches {
  import opened Types
  import opened TimeChain
  import opened Orders
  import opened Venue
  import C = Connections
  import opened LiveBrokers

  // ---------------------------------------------------------------------------
  // One message
  // ---------------------------------------------------------------------------

  predicate IsFill(m: C.Message) {
    m.kind == C.PartialFill || m.kind == C.FilledWhole
  }

  predicate AboutAnOrder(m: C.Message) {
    || IsFill(m) || m.kind == C.OrderAccepted || m.kind == C.OrderRejected
    || m.kind == C.OrderCancelled || m.kind == C.OrderReplaced
  }

  /** The simulator refuses a reported fill of this order. */
  predicate Implausible(v: VenueState, id: OrderId, m: C.Message, now: Timestamp) {
    var i := IndexOf(v.pending, id);
    || i == |v.pending|
    || m.quantity <= 0.0 || m.price <= 0.0 || m.quantity > v.pending[i].Remaining() + TOLERANCE
    || !ChainOk(v.pending[i].order.times.(fill := if IsSet(m.venueTime) then m.venueTime else now))
  }

  /** A message about an order that is not tracked, or a fill that is not plausible. */
  predicate Fails(s: LiveState, m: C.Message, now: Timestamp) {
    AboutAnOrder(m) &&
    (m.clientOrderId !in s.listener
     || (IsFill(m) && Implausible(s.venue, s.listener[m.clientOrderId], m, now)))
  }

  lemma IngestFailsIff(v: VenueState, id: OrderId, m: C.Message, now: Timestamp)
    ensures Ingesting(v, ReportOf(m, id, now)).1.Err? <==> Implausible(v, id, m, now)
  {
    hide ChainOk, IndexOf;
  }

  /** A message is refused exactly when it fails so, and gives a fill exactly when it is one and is not refused. */
  lemma HandleFailsIff(s: LiveState, cfg: LiveConfig, m: C.Message, now: Timestamp)
    ensures var r := Handling(s, cfg, m, now).1;
            (r.Err? <==> Fails(s, m, now)) && (r.Ok? ==> (r.value.Some? <==> IsFill(m)))
  {
    if m.clientOrderId in s.listener {
      IngestFailsIff(s.venue, s.listener[m.clientOrderId], m, now);
      NotPlausible(s.venue, s.listener[m.clientOrderId], m, now);
    }
    hide Ingesting, Implausible, Cancelling;
  }

  lemma NotPlausible(v: VenueState, id: OrderId, m: C.Message, now: Timestamp)
    ensures m.quantity <= 0.0 || m.price <= 0.0 ==> Implausible(v, id, m, now)
  {
    hide ChainOk, IndexOf;
  }

  // ---------------------------------------------------------------------------
  // A batch
  // ---------------------------------------------------------------------------

  function StateBefore(s: LiveState, cfg: LiveConfig, ms: seq<C.Message>, now: Timestamp, k: nat): LiveState
    requires k <= |ms|
  {
    HandlingAll(s, cfg, ms[..k], now).state
  }

  /** The k-th message is the first that fails. */
  predicate StopsAt(s: LiveState, cfg: LiveConfig, ms: seq<C.Message>, now: Timestamp, k: nat)
    requires k < |ms|
  {
    Fails(StateBefore(s, cfg, ms, now, k), ms[k], now)
    && forall j: nat :: j < k ==> !Fails(StateBefore(s, cfg, ms, now, j), ms[j], now)
  }

  predicate Succeeds(s: LiveState, cfg: LiveConfig, ms: seq<C.Message>, now: Timestamp) {
    forall j: nat :: j < |ms| ==> !Fails(StateBefore(s, cfg, ms, now, j), ms[j], now)
  }

  predicate HasFill(ms: seq<C.Message>) {
    exists j :: 0 <= j < |ms| && IsFill(ms[j])
  }

  lemma SamePrefix(s: LiveState, cfg: LiveConfig, ms: seq<C.Message>, now: Timestamp, n: nat)
    requires n <= |ms|
    ensures forall j: nat :: j <= n ==> StateBefore(s, cfg, ms[..n], now, j) == StateBefore(s, cfg, ms, now, j)
    ensures StateBefore(s, cfg, ms, now, n) == HandlingAll(s, cfg, ms[..n], now).state
  {
    assert forall j: nat :: j <= n ==> ms[..n][..j] == ms[..j];
    hide HandlingAll;
  }

  lemma SucceedsOneMore(s: LiveState, cfg: LiveConfig, ms: seq<C.Message>, now: Timestamp)
    requires ms != []
    ensures var front := ms[..|ms| - 1];
            Succeeds(s, cfg, ms, now)
            <==> Succeeds(s, cfg, front, now) && !Fails(HandlingAll(s, cfg, front, now).state, ms[|ms| - 1], now)
  {
    hide Fails, HandlingAll, StateBefore;
    SamePrefix(s, cfg, ms, now, |ms| - 1);
  }

  lemma HasFillOneMore(ms: seq<C.Message>)
    requires ms != []
    ensures HasFill(ms) <==> HasFill(ms[..|ms| - 1]) || IsFill(ms[|ms| - 1])
  {
    var front := ms[..|ms| - 1];
    hide IsFill;
    if HasFill(front) {
      var j :| 0 <= j < |front| && IsFill(front[j]);
      assert IsFill(ms[j]);
    }
    if HasFill(ms) {
      var j :| 0 <= j < |ms| && IsFill(ms[j]);
      if j < |front| { assert IsFill(front[j]); }
    }
  }

  /** A batch succeeds exactly when none of its messages fails in its turn, and then has ingested its fills. */
  lemma {:induction false} BatchSucceedsIff(s: LiveState, cfg: LiveConfig, ms: seq<C.Message>, now: Timestamp)
    ensures var batch := HandlingAll(s, cfg, ms, now);
            && (batch.error.None? <==> Succeeds(s, cfg, ms, now))
            && (batch.error.None? ==> (batch.fills != [] <==> HasFill(ms)))
  {
    if ms != [] {
      var front := HandlingAll(s, cfg, ms[..|ms| - 1], now);
      BatchSucceedsIff(s, cfg, ms[..|ms| - 1], now);
      SucceedsOneMore(s, cfg, ms, now);
      HasFillOneMore(ms);
      hide Handling, Succeeds, HasFill, Fails;
      HandleFailsIff(front.state, cfg, ms[|ms| - 1], now);
    }
  }

  /** The batch fails at a message with a fill before it. */
  predicate LosesAt(s: LiveState, cfg: LiveConfig, ms: seq<C.Message>, now: Timestamp, k: nat)
    requires k < |ms|
  {
    StopsAt(s, cfg, ms, now, k) && HasFill(ms[..k])
  }

  lemma StoppedThere(s: LiveState, cfg: LiveConfig, ms: seq<C.Message>, now: Timestamp, k: nat)
    requires k < |ms| && StopsAt(s, cfg, ms, now, k)
    ensures var batch, before := HandlingAll(s, cfg, ms, now), HandlingAll(s, cfg, ms[..k], now);
            batch.error.Some? && batch.fills == before.fills && (batch.fills != [] <==> HasFill(ms[..k]))
  {
    hide Fails;
    var before := ms[..k];
    SamePrefix(s, cfg, ms, now, k);
    assert Succeeds(s, cfg, before, now);
    BatchSucceedsIff(s, cfg, before, now);
    HandleFailsIff(HandlingAll(s, cfg, before, now).state, cfg, ms[k], now);
    hide Handling, HasFill, StateBefore, Succeeds, StopsAt;
    var upTo := ms[..k + 1];
    assert upTo[..|upTo| - 1] == before && upTo[|upTo| - 1] == ms[k];
    StoppedBatch(s, cfg, ms, now, k + 1);
  }

  lemma NothingSucceeds(s: LiveState, cfg: LiveConfig, now: Timestamp)
    ensures Succeeds(s, cfg, [], now)
  {
  }

  /** Everything before the last message succeeds, and the last one does not. */
  lemma StopsAtLast(s: LiveState, cfg: LiveConfig, ms: seq<C.Message>, now: Timestamp)
    requires ms != [] && Succeeds(s, cfg, ms[..|ms| - 1], now)
    requires Fails(HandlingAll(s, cfg, ms[..|ms| - 1], now).state, ms[|ms| - 1], now)
    ensures StopsAt(s, cfg, ms, now, |ms| - 1)
  {
    hide Fails, StateBefore, HandlingAll;
    var front := ms[..|ms| - 1];
    SamePrefix(s, cfg, ms, now, |front|);
    forall j: nat | j < |front|
      ensures !Fails(StateBefore(s, cfg, ms, now, j), ms[j], now)
    {
      assert !Fails(StateBefore(s, cfg, front, now, j), front[j], now);
    }
  }

  lemma {:induction false} FirstFailure(s: LiveState, cfg: LiveConfig, ms: seq<C.Message>, now: Timestamp)
    returns (k: nat)
    requires !Succeeds(s, cfg, ms, now)
    ensures k < |ms| && StopsAt(s, cfg, ms, now, k)
  {
    hide *;
    NothingSucceeds(s, cfg, now);
    var front := ms[..|ms| - 1];
    SucceedsOneMore(s, cfg, ms, now);
    if Succeeds(s, cfg, front, now) {
      StopsAtLast(s, cfg, ms, now);
      k := |ms| - 1;
    } else {
      k := FirstFailure(s, cfg, front, now);
      StopsInPrefix(s, cfg, ms, now, |front|, k);
    }
  }

  lemma StopsInPrefix(s: LiveState, cfg: LiveConfig, ms: seq<C.Message>, now: Timestamp, n: nat, k: nat)
    requires k < n <= |ms| && StopsAt(s, cfg, ms[..n], now, k)
    ensures StopsAt(s, cfg, ms, now, k)
  {
    hide Fails, StateBefore, HandlingAll;
    SamePrefix(s, cfg, ms, now, n);
  }

  /** A poll fails after it has ingested fills, which its caller is then not given, exactly when some accepted message
      that is not attributable or not plausible in its turn comes after a fill, the ones before it all succeeding. */
  lemma PollLosesFillsIff(s: LiveState, cfg: LiveConfig, isOpen: bool, inbox: seq<C.Message>, now: Timestamp)
    ensures var (link, accepted) := C.Polls(s.link, isOpen, inbox, now);
            var start := s.(link := link);
            Polling(s, cfg, isOpen, inbox, now).1.Err? && HandlingAll(start, cfg, accepted, now).fills != []
            <==> exists k: nat :: k < |accepted| && LosesAt(start, cfg, accepted, now, k)
  {
    hide C.Polls, HandlingAll, HasFill, StopsAt, Succeeds;
    var (link, accepted) := C.Polls(s.link, isOpen, inbox, now);
    var start := s.(link := link);
    BatchSucceedsIff(start, cfg, accepted, now);
    forall k: nat | k < |accepted| && LosesAt(start, cfg, accepted, now, k)
      ensures HandlingAll(start, cfg, accepted, now).error.Some? && HandlingAll(start, cfg, accepted, now).fills != []
    {
      StoppedThere(start, cfg, accepted, now, k);
    }
    if HandlingAll(start, cfg, accepted, now).error.Some? {
      var k := FirstFailure(start, cfg, accepted, now);
      StoppedThere(start, cfg, accepted, now, k);
      assert HandlingAll(start, cfg, accepted, now).fills != [] ==> LosesAt(start, cfg, accepted, now, k);
    }
  }
}
