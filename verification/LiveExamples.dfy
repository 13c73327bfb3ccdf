/** Two short live runs: one takes twice the size of an order submitted twice, one loses a fill to a stray update. */
module LiveExamples {
  import opened Types
  import opened TimeChain
  import opened Orders
  import opened Venue
  import C = Connections
  import R = ConnectionRuns
  import opened LiveBrokers
  import opened LiveRuns
  import opened LiveOrders

  const FREE: Models := Models((q, p) => 0.0, st => 0.0, (q, st) => 0.0, n => 0.0, n => 1)

  const PLAIN := Setup(
    LiveConfig("", true, 0.0, i => "X"),
    C.LinkConfig(C.HeartbeatConfig(10, 20), C.SupervisorConfig(1, 2, 2.0, 3)), FREE)

  const ARRIVED := NO_TIMES.(decision := 0, arrival := 1)
  const ONE_SHARE := PendingOrder(SAMPLE_ORDER.(times := ARRIVED), 1, 0.0, false)

  function Update(kind: C.MessageKind, sequence: nat, client: string): C.Message {
    C.Message(kind, sequence, 1, 5, "", "", client, 1.0, 10.0, 0.0, 0.0)
  }

  // ---------------------------------------------------------------------------
  // The steps
  // ---------------------------------------------------------------------------

  predicate ReadyToTrade(s: LiveState) {
    s.link.state == C.Ready && s.link.lastSequence == 0
  }

  const OPENING: seq<LiveEvent> := [OnLink(R.Connect(0, true)), OnLink(R.MarkSynchronized)]

  lemma OpensReady()
    ensures var h := After(PLAIN, OPENING);
            && ReadyToTrade(h.state) && h.state.venue.pending == [] && h.state.listener == map[]
            && h.fills == [] && h.sent == []
  {
    hide HandlingAll, Submitting;
    assert OPENING[..1] == [OPENING[0]] && OPENING[..1][..0] == [];
    var h0 := Begun(PLAIN);
    assert After(PLAIN, OPENING[..1]) == Stepping(h0, PLAIN, OPENING[0]);
    assert After(PLAIN, OPENING) == Stepping(Stepping(h0, PLAIN, OPENING[0]), PLAIN, OPENING[1]);
  }

  lemma SampleArrives(v: VenueState)
    ensures Accepting(v, FREE, 0, SAMPLE_ORDER).1.Ok?
    ensures Accepting(v, FREE, 0, SAMPLE_ORDER).0.pending == v.pending + [ONE_SHARE]
  {
    assert ChainOk(ARRIVED);
  }

  /** The sample order is taken whenever it is submitted. */
  lemma SampleIsTaken(h: History)
    requires ReadyToTrade(h.state) && (h.state.listener == map[] || h.state.listener == map["1" := 1])
    ensures var after := Stepping(h, PLAIN, SubmitOrder(0, SAMPLE_ORDER, true));
            && Submitting(h.state, PLAIN.cfg, FREE, 0, SAMPLE_ORDER, true).1.Ok?
            && ReadyToTrade(after.state) && after.state.venue.pending == h.state.venue.pending + [ONE_SHARE]
            && after.state.listener == map["1" := 1] && after.fills == h.fills
            && after.sent == h.sent + [Sending(SAMPLE_ORDER, |h.fills|)]
  {
    SampleArrives(h.state.venue);
    assert ClientId(PLAIN.cfg, 1) == "1";
    hide Accepting;
  }

  lemma OneFill(v: VenueState, tail: seq<PendingOrder>, sequence: nat)
    requires v.pending == [ONE_SHARE] + tail
    ensures var (after, r) := Ingesting(v, ReportOf(Update(C.PartialFill, sequence, "1"), 1, 5));
            && r.Ok? && r.value.orderId == 1 && r.value.quantity == 1.0 && after.pending == tail
  {
    assert ChainOk(ARRIVED.(fill := 1));
    assert v.pending[1..] == tail && v.pending[..0] == [];
  }

  lemma HandlesOneFill(s: LiveState, tail: seq<PendingOrder>, sequence: nat)
    requires s.venue.pending == [ONE_SHARE] + tail && s.listener == map["1" := 1]
    ensures var (after, r) := Handling(s, PLAIN.cfg, Update(C.PartialFill, sequence, "1"), 5);
            && r.Ok? && r.value.Some? && r.value.value.orderId == 1 && r.value.value.quantity == 1.0
            && after.venue.pending == tail && after.listener == s.listener
  {
    OneFill(s.venue, tail, sequence);
    hide Ingesting;
  }

  /** Two sequenced messages pass the connection. */
  lemma BothPass(l: C.LinkState, a: C.Message, b: C.Message)
    requires l.lastSequence == 0 && a == Update(a.kind, 1, a.clientOrderId) && b == Update(b.kind, 2, b.clientOrderId)
    requires C.Considered(a) && C.Considered(b)
    ensures C.Polls(l, true, [a, b], 5).1 == [a, b]
  {
    assert [a, b][..1] == [a] && [a][..0] == [] && [a, b][1] == b;
    var (l1, first) := C.Sifting(l, a, 5);
    assert first == [a] && l1.lastSequence == 1;
    var (l2, second) := C.Sifting(l1, b, 5);
    assert second == [b];
    hide C.Sifting;
    assert C.Draining(l, [], 5) == (l, []);
    assert C.Draining(l, [a], 5) == (l1, [] + [a]);
    assert [] + [a] + [b] == [a, b];
  }

  lemma BatchOfTwo(s: LiveState, a: C.Message, b: C.Message)
    ensures var (s1, r1) := Handling(s, PLAIN.cfg, a, 5);
            r1.Ok? && r1.value.Some? ==>
              var (s2, r2) := Handling(s1, PLAIN.cfg, b, 5);
              var batch := HandlingAll(s, PLAIN.cfg, [a, b], 5);
              && batch.state == s2
              && (r2.Err? ==> batch.error == Some(r2.error) && batch.fills == [r1.value.value])
              && (r2.Ok? && r2.value.Some? ==> batch.error.None? && batch.fills == [r1.value.value, r2.value.value])
  {
    hide Handling;
    assert [a, b][..1] == [a] && [a][..0] == [];
    var (s1, r1) := Handling(s, PLAIN.cfg, a, 5);
    assert HandlingAll(s, PLAIN.cfg, [], 5) == Batch(s, [], [], None);
    if r1.Ok? && r1.value.Some? {
      assert HandlingAll(s, PLAIN.cfg, [a], 5) == Batch(s1, [] + [r1.value.value], [] + [a], None);
    }
  }

  // ---------------------------------------------------------------------------
  // Twice the size
  // ---------------------------------------------------------------------------

  const TWICE: seq<LiveEvent> := OPENING + [SubmitOrder(0, SAMPLE_ORDER, true), SubmitOrder(0, SAMPLE_ORDER, true)]

  function TwoFills(): LiveEvent {
    PollVenue(5, true, [Update(C.PartialFill, 1, "1"), Update(C.PartialFill, 2, "1")])
  }

  lemma SubmittedTwice()
    ensures var h := After(PLAIN, TWICE);
            && ReadyToTrade(h.state) && h.state.venue.pending == [ONE_SHARE, ONE_SHARE]
            && h.state.listener == map["1" := 1] && h.fills == []
            && h.sent == [Sending(SAMPLE_ORDER, 0), Sending(SAMPLE_ORDER, 0)]
  {
    OpensReady();
    hide Stepping;
    var h := After(PLAIN, OPENING);
    assert TWICE[..3][..2] == OPENING && TWICE[..3][2] == TWICE[2];
    var h1 := Stepping(h, PLAIN, SubmitOrder(0, SAMPLE_ORDER, true));
    assert After(PLAIN, TWICE[..3]) == h1;
    SampleIsTaken(h);
    SampleIsTaken(h1);
    assert After(PLAIN, TWICE) == Stepping(h1, PLAIN, SubmitOrder(0, SAMPLE_ORDER, true));
    assert [] + [ONE_SHARE] + [ONE_SHARE] == [ONE_SHARE, ONE_SHARE];
  }

  lemma PollsTwoFills(h: History)
    requires ReadyToTrade(h.state) && h.state.listener == map["1" := 1] && h.fills == []
    requires h.state.venue.pending == [ONE_SHARE, ONE_SHARE]
    ensures var fills := Stepping(h, PLAIN, TwoFills()).fills;
            |fills| == 2 && forall k :: 0 <= k < 2 ==> fills[k].orderId == 1 && fills[k].quantity == 1.0
  {
    var a, b := Update(C.PartialFill, 1, "1"), Update(C.PartialFill, 2, "1");
    BothPass(h.state.link, a, b);
    var (link, accepted) := C.Polls(h.state.link, true, [a, b], 5);
    var s := h.state.(link := link);
    hide C.Polls, Handling, HandlingAll;
    assert s.venue.pending == [ONE_SHARE] + [ONE_SHARE];
    HandlesOneFill(s, [ONE_SHARE], 1);
    assert [ONE_SHARE] == [ONE_SHARE] + [];
    HandlesOneFill(Handling(s, PLAIN.cfg, a, 5).0, [], 2);
    BatchOfTwo(s, a, b);
  }

  /** An order of one share, submitted twice with success, takes two shares. */
  lemma TwiceTheSize()
    ensures var h := After(PLAIN, TWICE + [TwoFills()]);
            && |h.sent| == 2 && h.sent[1] == Sending(SAMPLE_ORDER, 0)
            && Ingested(h.fills, 1) == 2.0 > SAMPLE_ORDER.quantity + TOLERANCE
    ensures !NeverPendingTwice(PLAIN, TWICE)
  {
    SubmittedTwice();
    var h := After(PLAIN, TWICE);
    PollsTwoFills(h);
    var es := TWICE + [TwoFills()];
    assert es[..|es| - 1] == TWICE;
    hide Stepping, After;
    var fills := Stepping(h, PLAIN, TwoFills()).fills;
    TwoIngested(fills);
    KeepsSent(h);
    FirstIsPending();
  }

  lemma KeepsSent(h: History)
    ensures Stepping(h, PLAIN, TwoFills()).sent == h.sent
  {
  }

  lemma TwoIngested(fills: seq<Fill>)
    requires |fills| == 2 && forall k :: 0 <= k < 2 ==> fills[k].orderId == 1 && fills[k].quantity == 1.0
    ensures Ingested(fills, 1) == 2.0
  {
    assert fills[..1][..0] == [];
    assert Ingested(fills[..1][..0], 1) == 0.0;
    assert Ingested(fills[..1], 1) == 1.0;
  }

  lemma FirstIsPending()
    ensures !NeverPendingTwice(PLAIN, TWICE)
  {
    OpensReady();
    hide Stepping;
    var h := After(PLAIN, OPENING);
    var front := TWICE[..|TWICE| - 1];
    assert front[..2] == OPENING && front[2] == TWICE[2];
    SampleIsTaken(h);
    assert After(PLAIN, front) == Stepping(h, PLAIN, SubmitOrder(0, SAMPLE_ORDER, true));
    assert After(PLAIN, front).state.venue.pending == [ONE_SHARE];
  }

  // ---------------------------------------------------------------------------
  // A lost fill
  // ---------------------------------------------------------------------------

  const ONCE: seq<LiveEvent> := OPENING + [SubmitOrder(0, SAMPLE_ORDER, true)]

  function FillAndStray(): seq<C.Message> {
    [Update(C.PartialFill, 1, "1"), Update(C.OrderAccepted, 2, "elsewhere")]
  }

  lemma SubmittedOnce()
    ensures var s := After(PLAIN, ONCE).state;
            ReadyToTrade(s) && s.venue.pending == [ONE_SHARE] && s.listener == map["1" := 1]
  {
    OpensReady();
    hide Stepping;
    assert ONCE[..2] == OPENING;
    SampleIsTaken(After(PLAIN, OPENING));
    assert [] + [ONE_SHARE] == [ONE_SHARE];
  }

  /** A fill and an update about an order placed elsewhere come in one poll: the share is bought, and the caller is told
      of the error alone. */
  lemma LostFillRun()
    ensures var s := After(PLAIN, ONCE).state;
            var (after, r) := Polling(s, PLAIN.cfg, true, FillAndStray(), 5);
            s.venue.pending == [ONE_SHARE] && after.venue.pending == [] && r == Err(Untracked)
  {
    SubmittedOnce();
    var s0 := After(PLAIN, ONCE).state;
    hide After;
    var a, b := Update(C.PartialFill, 1, "1"), Update(C.OrderAccepted, 2, "elsewhere");
    BothPass(s0.link, a, b);
    var (link, accepted) := C.Polls(s0.link, true, [a, b], 5);
    var s := s0.(link := link);
    assert [ONE_SHARE] == [ONE_SHARE] + [];
    HandlesOneFill(s, [], 1);
    StrayIsRefused(Handling(s, PLAIN.cfg, a, 5).0, b);
    hide C.Polls, Handling, HandlingAll;
    BatchOfTwo(s, a, b);
  }

  lemma StrayIsRefused(s: LiveState, stray: C.Message)
    requires stray.kind == C.OrderAccepted && stray.clientOrderId !in s.listener
    ensures Handling(s, PLAIN.cfg, stray, 5) == (s, Err(Untracked))
  {
    hide Ingesting, Cancelling;
  }
}
