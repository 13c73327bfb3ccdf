/** Live trading order by order: what is ingested for a submission, and when an id can take more than its size. */
module LiveOrders {
  import opened Types
  import opened TimeChain
  import opened Orders
  import opened Venue
  import C = Connections
  import R = ConnectionRuns
  import opened LiveBrokers
  import opened LiveRuns

  // ---------------------------------------------------------------------------
  // The bound of one order
  // ---------------------------------------------------------------------------

  /** How many fills had been ingested when the id was last submitted with success. */
  function Before(sent: seq<Sending>, id: OrderId): nat {
    if sent == [] then 0
    else if sent[|sent| - 1].order.id == id then sent[|sent| - 1].before
    else Before(sent[..|sent| - 1], id)
  }

  /** What the last successful submission of the id may fill; nothing if there was none. */
  function Size(sent: seq<Sending>, id: OrderId): real {
    if sent == [] then 0.0
    else if sent[|sent| - 1].order.id == id then sent[|sent| - 1].order.quantity + TOLERANCE
    else Size(sent[..|sent| - 1], id)
  }

  lemma SentOneMore(sent: seq<Sending>, x: Sending, id: OrderId)
    ensures Before(sent + [x], id) == if x.order.id == id then x.before else Before(sent, id)
    ensures Size(sent + [x], id) == if x.order.id == id then x.order.quantity + TOLERANCE else Size(sent, id)
  {
  }

  /** What was ingested since the last successful submission and what is pending stay within its size. */
  predicate OwnBound(h: History, id: OrderId) {
    Before(h.sent, id) <= |h.fills|
    && Covered(h.state.venue.pending, h.fills[Before(h.sent, id)..], id, Size(h.sent, id))
  }

  predicate Unused(ps: seq<PendingOrder>, id: OrderId) {
    IndexOf(ps, id) == |ps|
  }

  /** No submission of the run was of an id that was pending at that moment. */
  predicate NeverPendingTwice(u: Setup, es: seq<LiveEvent>) {
    es == [] ||
    (NeverPendingTwice(u, es[..|es| - 1])
     && (es[|es| - 1].SubmitOrder? ==> Unused(After(u, es[..|es| - 1]).state.venue.pending, es[|es| - 1].order.id)))
  }

  lemma UnusedHasNoRoom(ps: seq<PendingOrder>, id: OrderId)
    requires Open(ps)
    ensures Unused(ps, id) <==> Room(ps, id) == 0.0
  {
    RoomIsNatural(ps, id);
  }

  /** A submission of an unused id leaves the book as it was or adds the order. */
  lemma UnusedSubmit(u: Setup, es: seq<LiveEvent>, now: Timestamp, o: Order, accepts: bool)
    requires Unused(After(u, es).state.venue.pending, o.id)
    ensures var s := After(u, es).state;
            var (after, r) := Submitting(s, u.cfg, u.models, now, o, accepts);
            if r.Ok? then
              Accepting(s.venue, u.models, now, o).1.Ok?
              && after.venue.pending == s.venue.pending + [Registered(s.venue, u.models, now, o)]
            else after.venue.pending == s.venue.pending
  {
    RefusedSubmitLeaves(u, es, now, o, accepts);
    hide After, Cancelling, Expressible, ClientId, Tracking, Registered, Accepting;
  }

  lemma RoomOneMore(ps: seq<PendingOrder>, p: PendingOrder, id: OrderId)
    ensures Room(ps + [p], id) == Room(ps, id) + RoomOf(p, id)
  {
    assert (ps + [p])[..|ps|] == ps;
  }

  lemma NothingIngested(fills: seq<Fill>, id: OrderId)
    ensures Ingested(fills[|fills|..], id) == 0.0
  {
    assert fills[|fills|..] == [];
  }

  lemma SubmitKeepsOwnBound(u: Setup, es: seq<LiveEvent>, now: Timestamp, o: Order, accepts: bool, id: OrderId)
    requires OwnBound(After(u, es), id) && Unused(After(u, es).state.venue.pending, o.id)
    ensures OwnBound(Stepping(After(u, es), u, SubmitOrder(now, o, accepts)), id)
  {
    UnusedSubmit(u, es, now, o, accepts);
    var h := After(u, es);
    hide After, Submitting, Registers, Accepting, Registered, Ingested, Open, Unused;
    if Submitting(h.state, u.cfg, u.models, now, o, accepts).1.Ok? && o.id == id {
      OpenOf(h, id);
      SuccessfulSubmit(h, u, now, o, accepts);
      hide Room, Before, Size;
    } else if Submitting(h.state, u.cfg, u.models, now, o, accepts).1.Ok? {
      OpenOf(h, id);
      SuccessfulSubmit(h, u, now, o, accepts);
      RegisteredIsWhole(h.state.venue, u.models, now, o);
      SentOneMore(h.sent, Sending(o, |h.fills|), id);
      RoomOneMore(h.state.venue.pending, Registered(h.state.venue, u.models, now, o), id);
      hide Room, Before, Size;
    } else {
      hide Room, Before, Size;
    }
  }

  lemma RegisteredIsWhole(v: VenueState, m: Models, now: Timestamp, o: Order)
    requires Accepting(v, m, now, o).1.Ok?
    ensures var p := Registered(v, m, now, o);
            p.order.id == o.id && p.order.quantity == o.quantity && p.Remaining() == o.quantity && o.quantity > 0.0
  {
  }

  lemma PollKeepsOwnBound(h: History, u: Setup, now: Timestamp, isOpen: bool, inbox: seq<C.Message>, id: OrderId)
    requires OwnBound(h, id)
    ensures OwnBound(Stepping(h, u, PollVenue(now, isOpen, inbox)), id)
  {
    hide Covered, HandlingAll;
    var (link, accepted) := C.Polls(h.state.link, isOpen, inbox, now);
    var s := h.state.(link := link);
    var since := h.fills[Before(h.sent, id)..];
    BatchKeepsCovered(s, u.cfg, accepted, now, since, id, Size(h.sent, id));
    var batch := HandlingAll(s, u.cfg, accepted, now);
    assert (h.fills + batch.fills)[Before(h.sent, id)..] == since + batch.fills;
  }

  lemma {:induction false} OwnBoundOverRuns(u: Setup, es: seq<LiveEvent>, id: OrderId)
    requires NeverPendingTwice(u, es)
    ensures OwnBound(After(u, es), id)
  {
    if es != [] {
      hide OwnBound, Stepping, Unused;
      var front, e := es[..|es| - 1], es[|es| - 1];
      OwnBoundOverRuns(u, front, id);
      match e
      case SubmitOrder(now, o, accepts) => SubmitKeepsOwnBound(u, front, now, o, accepts, id);
      case PollVenue(now, isOpen, inbox) => PollKeepsOwnBound(After(u, front), u, now, isOpen, inbox, id);
      case OnLink(e') => LinkKeepsOwnBound(After(u, front), u, e', id);
    } else {
      BegunIsBounded(u, id);
    }
  }

  lemma LinkKeepsOwnBound(h: History, u: Setup, e: R.LinkEvent, id: OrderId)
    requires OwnBound(h, id)
    ensures OwnBound(Stepping(h, u, OnLink(e)), id)
  {
    hide Covered;
  }

  lemma BegunIsBounded(u: Setup, id: OrderId)
    ensures OwnBound(Begun(u), id)
  {
  }

  /** Over every run with drops, reconnects and resubmissions in which no submission was of an id pending at that
      moment, what was ingested for an order since it was last submitted never exceeds its size by more than the
      tolerance. Submissions that failed do not count. */
  lemma NeverIngestsTooMuch(u: Setup, es: seq<LiveEvent>, id: OrderId)
    requires NeverPendingTwice(u, es)
    ensures var h := After(u, es);
            && Before(h.sent, id) <= |h.fills|
            && Ingested(h.fills[Before(h.sent, id)..], id) <= Size(h.sent, id)
  {
    hide After, NeverPendingTwice, Ingested;
    OwnBoundOverRuns(u, es, id);
    RoomIsNatural(After(u, es).state.venue.pending, id);
  }

  // ---------------------------------------------------------------------------
  // The condition is exact
  // ---------------------------------------------------------------------------

  /** A venue may report these fills of an id one after the other, and all are ingested. */
  predicate AllIngested(v: VenueState, reports: seq<ExternalFillReport>, id: OrderId)
    decreases |reports|
  {
    reports == [] ||
    (reports[0].orderId == id && Ingesting(v, reports[0]).1.Ok?
     && AllIngested(Ingesting(v, reports[0]).0, reports[1..], id))
  }

  function Reported(reports: seq<ExternalFillReport>): real {
    if reports == [] then 0.0 else reports[0].quantity + Reported(reports[1..])
  }

  /** No pending order of the id claims an acknowledgement of its own. */
  predicate Unacknowledged(ps: seq<PendingOrder>, id: OrderId) {
    forall i :: 0 <= i < |ps| && ps[i].order.id == id ==>
      !IsSet(ps[i].order.times.ack) && ps[i].order.times.arrival == ps[i].arrivalTime && IsSet(ps[i].arrivalTime)
  }

  lemma {:induction false} ReportsStayWithinRoom(v: VenueState, reports: seq<ExternalFillReport>, id: OrderId)
    requires Open(v.pending) && AllIngested(v, reports, id)
    ensures Reported(reports) <= Room(v.pending, id)
    decreases |reports|
  {
    hide Ingesting, Room;
    if reports == [] {
      RoomIsNatural(v.pending, id);
    } else {
      var (after, r) := Ingesting(v, reports[0]);
      NoFillsYet(id);
      IngestedOneMore([], r.value, id);
      IngestKeepsCovered(v, reports[0], [], id, Room(v.pending, id));
      FillIsReported(v, reports[0]);
      assert [] + [r.value] == [r.value];
      ReportsStayWithinRoom(after, reports[1..], id);
    }
  }

  lemma NoFillsYet(id: OrderId)
    ensures Ingested([], id) == 0.0
  {
  }

  lemma FillIsReported(v: VenueState, report: ExternalFillReport)
    requires Ingesting(v, report).1.Ok?
    ensures Ingesting(v, report).1.value.orderId == report.orderId
    ensures Ingesting(v, report).1.value.quantity == report.quantity
  {
    hide ChainOk;
  }

  /** The whole of what the first pending order of the id has left, and the tolerance. */
  function TakeAll(p: PendingOrder): ExternalFillReport {
    ExternalFillReport(p.order.id, p.Remaining() + TOLERANCE, 1.0, p.arrivalTime, 0.0, 0.0, Taker)
  }

  lemma TakesAll(v: VenueState, id: OrderId)
    requires Open(v.pending) && Unacknowledged(v.pending, id) && !Unused(v.pending, id)
    ensures var i := IndexOf(v.pending, id);
            Ingesting(v, TakeAll(v.pending[i])).1.Ok?
            && Ingesting(v, TakeAll(v.pending[i])).0.pending == v.pending[..i] + v.pending[i + 1..]
  {
    var i := IndexOf(v.pending, id);
    FilledOnArrival(v.pending[i].order.times, v.pending[i].arrivalTime);
    hide IndexOf, ChainOk;
  }

  lemma FilledOnArrival(t: LifecycleTimes, at: Timestamp)
    requires ChainOk(t) && t.arrival == at && !IsSet(t.ack)
    ensures ChainOk(t.(fill := at))
  {
    forall i: nat | i + 1 < |STAGES|
      ensures !EdgeBroken(t.(fill := at), i)
    {
      assert !EdgeBroken(t, i);
    }
  }

  lemma {:induction false} RoomCanBeTaken(v: VenueState, id: OrderId) returns (reports: seq<ExternalFillReport>)
    requires Open(v.pending) && Unacknowledged(v.pending, id)
    ensures AllIngested(v, reports, id) && Reported(reports) == Room(v.pending, id)
    decreases |v.pending|
  {
    if Unused(v.pending, id) {
      reports := [];
      UnusedHasNoRoom(v.pending, id);
    } else {
      var i := IndexOf(v.pending, id);
      var first := TakeAll(v.pending[i]);
      TakesAll(v, id);
      var after := Ingesting(v, first).0;
      RoomWithout(v.pending, i, id);
      OthersStay(v.pending, i, id);
      hide Room, Ingesting, IndexOf;
      var rest := RoomCanBeTaken(after, id);
      reports := [first] + rest;
      assert reports[1..] == rest;
    }
  }

  lemma OthersStay(ps: seq<PendingOrder>, i: nat, id: OrderId)
    requires i < |ps| && Open(ps) && Unacknowledged(ps, id)
    ensures var less := ps[..i] + ps[i + 1..]; Open(less) && Unacknowledged(less, id)
  {
    var less := ps[..i] + ps[i + 1..];
    assert forall k :: 0 <= k < |less| ==> less[k] == ps[if k < i then k else k + 1];
  }

  /** The venue can report fills that, all ingested, exceed the size of the last submission beyond the tolerance. */
  ghost predicate CanIngestTooMuch(h: History, id: OrderId) {
    exists reports ::
      AllIngested(h.state.venue, reports, id)
      && Before(h.sent, id) <= |h.fills|
      && Ingested(h.fills[Before(h.sent, id)..], id) + Reported(reports) > Size(h.sent, id)
  }

  /** After a run that never submitted a pending id, a submission that succeeds lets the venue exceed the order's size
      exactly when the id was pending. */
  lemma SubmitInvitesTooMuchIff(u: Setup, es: seq<LiveEvent>, now: Timestamp, o: Order, accepts: bool)
    requires NeverPendingTwice(u, es) && !IsSet(o.times.ack)
    requires Unacknowledged(After(u, es).state.venue.pending, o.id)
    requires Submitting(After(u, es).state, u.cfg, u.models, now, o, accepts).1.Ok?
    ensures CanIngestTooMuch(Stepping(After(u, es), u, SubmitOrder(now, o, accepts)), o.id)
            <==> !Unused(After(u, es).state.venue.pending, o.id)
  {
    OwnBoundOverRuns(u, es, o.id);
    var h := After(u, es);
    hide After, NeverPendingTwice, Submitting, Stepping, CanIngestTooMuch, Unacknowledged, Unused;
    OpenOf(h, o.id);
    SuccessfulSubmit(h, u, now, o, accepts);
    var t := Stepping(h, u, SubmitOrder(now, o, accepts));
    AcknowledgedLater(h.state.venue, u.models, now, o);
    ExceedsIff(t, o.id);
  }

  lemma OpenOf(h: History, id: OrderId)
    requires OwnBound(h, id)
    ensures Open(h.state.venue.pending)
  {
    hide Open;
  }

  /** What a successful submission leaves to be ingested, against its size. */
  lemma SuccessfulSubmit(h: History, u: Setup, now: Timestamp, o: Order, accepts: bool)
    requires Submitting(h.state, u.cfg, u.models, now, o, accepts).1.Ok? && Open(h.state.venue.pending)
    ensures Accepting(h.state.venue, u.models, now, o).1.Ok?
    ensures var t := Stepping(h, u, SubmitOrder(now, o, accepts));
            && t.state.venue.pending == h.state.venue.pending + [Registered(h.state.venue, u.models, now, o)]
            && Open(t.state.venue.pending) && Before(t.sent, o.id) <= |t.fills|
            && Ingested(t.fills[Before(t.sent, o.id)..], o.id) == 0.0
            && (Room(t.state.venue.pending, o.id) > Size(t.sent, o.id) <==> !Unused(h.state.venue.pending, o.id))
  {
    SuccessRegisters(h.state, u, now, o, accepts);
    var ps, p := h.state.venue.pending, Registered(h.state.venue, u.models, now, o);
    RegisteredIsWhole(h.state.venue, u.models, now, o);
    SentOneMore(h.sent, Sending(o, |h.fills|), o.id);
    RoomOneMore(ps, p, o.id);
    UnusedHasNoRoom(ps, o.id);
    RoomIsNatural(ps, o.id);
    NothingIngested(h.fills, o.id);
    hide Submitting, Room, Unused, Registered, Accepting, Before, Size, Ingested, Registers;
  }

  lemma AcknowledgedLater(v: VenueState, m: Models, now: Timestamp, o: Order)
    requires Accepting(v, m, now, o).1.Ok? && !IsSet(o.times.ack) && Unacknowledged(v.pending, o.id)
    ensures Unacknowledged(v.pending + [Registered(v, m, now, o)], o.id)
  {
    RegisteredIsStamped(v, m, now, o);
    hide Registered, Accepting;
  }

  /** The size can be exceeded exactly when what is pending has more room. */
  lemma ExceedsIff(h: History, id: OrderId)
    requires Open(h.state.venue.pending) && Unacknowledged(h.state.venue.pending, id)
    requires Before(h.sent, id) <= |h.fills|
    ensures CanIngestTooMuch(h, id)
            <==> Ingested(h.fills[Before(h.sent, id)..], id) + Room(h.state.venue.pending, id) > Size(h.sent, id)
  {
    hide Open, Unacknowledged, Room, Before, Size, Ingested, AllIngested, Reported;
    if CanIngestTooMuch(h, id) {
      var reports :| AllIngested(h.state.venue, reports, id)
                     && Ingested(h.fills[Before(h.sent, id)..], id) + Reported(reports) > Size(h.sent, id);
      ReportsStayWithinRoom(h.state.venue, reports, id);
    }
    var reports := RoomCanBeTaken(h.state.venue, id);
  }

  lemma SuccessRegisters(s: LiveState, u: Setup, now: Timestamp, o: Order, accepts: bool)
    requires Submitting(s, u.cfg, u.models, now, o, accepts).1.Ok?
    ensures Accepting(s.venue, u.models, now, o).1.Ok?
    ensures Submitting(s, u.cfg, u.models, now, o, accepts).0.venue == Accepting(s.venue, u.models, now, o).0
  {
    hide Accepting, Cancelling, Expressible, ClientId, Tracking;
  }

  lemma RegisteredIsStamped(v: VenueState, m: Models, now: Timestamp, o: Order)
    requires Accepting(v, m, now, o).1.Ok? && !IsSet(o.times.ack)
    ensures var p := Registered(v, m, now, o);
            !IsSet(p.order.times.ack) && p.order.times.arrival == p.arrivalTime && IsSet(p.arrivalTime)
  {
  }
}
