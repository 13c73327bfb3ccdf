/** What every run of the engine keeps: book, venue, portfolio and journal agree with each other. */
module EngineRuns {
  import opened Types
  import opened TimeChain
  import opened Orders
  import opened OrderManagement
  import opened Venue
  import opened Portfolios
  import opened Agreement
  import opened Engines

  // ---------------------------------------------------------------------------
  // One visit at the venue
  // ---------------------------------------------------------------------------

  lemma AllowanceIsWithinWant(want: real, side: Side, st: MarketState, cfg: FillConfig, budget: real)
    requires want > 0.0
    ensures var a := Allowance(want, side, st, cfg, budget);
            a.Some? ==> 0.0 < a.value <= want
                        && (st.hasQuote && cfg.respectDisplayedSize ==> a.value <= st.Displayed(side))
                        && (budget > 0.0 ==> a.value <= budget)
  {
  }

  /** A trade is a fill of the visited order within what remains of it, not before its arrival, and a
      fill-or-kill trade takes everything up to the tolerance. */
  lemma TradeFillsItsOrder(p: PendingOrder, i: InstrumentId, st: MarketState, now: Timestamp,
                           cfg: FillConfig, m: Models, budget: real, slips: nat)
    ensures var visit := VisitOrder(p, i, st, now, cfg, m, budget, slips);
            && (visit.Rest? || visit.Refuse? ==> visit.p == p || visit.p == Awake(p))
            && (visit.Discard? ==> if visit.killed then p.order.tif == FillOrKill else p.Remaining() <= 0.0)
            && (visit.Trade? ==>
                  && FillFor(p, visit.fill) && p.order.instrument == i && visit.fill.times.fill == now
                  && ChainOk(visit.fill.times)
                  && (p.order.tif == FillOrKill ==> p.Remaining() - visit.fill.quantity <= TOLERANCE)
                  && visit.left == LeftAfter(Awake(p), visit.fill.quantity))
  {
  }

  // ---------------------------------------------------------------------------
  // Dispatching a whole market update
  // ---------------------------------------------------------------------------

  /** A dispatched fill came strictly after the decision and the submission of its order. */
  predicate Punctual(f: Fill, oms: OmsState, stamps: Stamps) {
    && f.orderId in oms.records && f.orderId in stamps
    && oms.records[f.orderId].order.times.decision < f.times.fill && stamps[f.orderId] < f.times.fill
  }

  predicate AllPunctual(s: EngineState) {
    forall f :: f in s.dispatched ==> Punctual(f, s.oms, s.stamps)
  }

  predicate Invariant(s: EngineState) {
    Agree(s.venue.pending, s.oms, s.stamps) && AllPunctual(s)
  }

  /** The book agrees with a list of pending orders that may run ahead of the venue field. */
  predicate AgreesWith(s: EngineState, ps: Pendings) {
    Agree(ps, s.oms, s.stamps) && AllPunctual(s)
  }

  lemma DispatchOneAgrees(s: EngineState, u: Setup, kept: Pendings, p: PendingOrder, f: Fill, tail: Pendings)
    requires AgreesWith(s, kept + [p] + tail) && FillFor(p, f)
    ensures var (t, r) := DispatchOne(s, u, f);
            && (r.Err? ==> r.error.PortfolioRefused?)
            && t.stamps == s.stamps && t.venue == s.venue
            && (r.Ok? ==> AgreesWith(t, kept + OptionSeq(LeftAfter(Awake(p), f.quantity)) + tail))
  {
    RestKeepsAgreement(kept, p, Awake(p), tail, s.oms, s.stamps);
    FillKeepsAgreement(kept, Awake(p), f, LeftAfter(Awake(p), f.quantity), tail, s.oms, s.stamps);
    var (t, r) := DispatchOne(s, u, f);
    if r.Ok? {
      assert p in kept + [p] + tail;
      BackedFillIsAccepted(p, f, s.oms, s.stamps);
      assert Punctual(f, t.oms, t.stamps);
      forall g | g in t.dispatched
        ensures Punctual(g, t.oms, t.stamps)
      {
        if g in s.dispatched {
          assert Punctual(g, s.oms, s.stamps);
        } else {
          assert g == f;
        }
      }
    }
  }

  lemma RestAgrees(s: EngineState, kept: Pendings, p: PendingOrder, q: PendingOrder, tail: Pendings)
    requires AgreesWith(s, kept + [p] + tail) && (q == p || q == Awake(p))
    ensures AgreesWith(s, kept + [q] + tail)
  {
    RestKeepsAgreement(kept, p, q, tail, s.oms, s.stamps);
  }

  /** A backed order is never found complete, so only a killed order is discarded. */
  lemma DiscardAgrees(s: EngineState, kept: Pendings, p: PendingOrder, tail: Pendings, killed: bool)
    requires AgreesWith(s, kept + [p] + tail)
    requires if killed then p.order.tif == FillOrKill else p.Remaining() <= 0.0
    ensures AgreesWith(s, kept + tail)
  {
    assert p in kept + [p] + tail;
    KillKeepsAgreement(kept, p, tail, s.oms, s.stamps);
  }

  /** Dispatching a matching's fills in order ends in agreement with what the venue kept; only the
      portfolio may refuse. */
  predicate Settles(s: EngineState, u: Setup, kept: Pendings, m: Matching) {
    var (t, r) := Dispatching(s, u, m.fills);
    && (r.Err? ==> r.error.PortfolioRefused?)
    && t.stamps == s.stamps && t.venue == s.venue
    && (r.Ok? ==> AgreesWith(t, kept + m.kept))
  }

  lemma SettlesAfterRest(s: EngineState, u: Setup, kept: Pendings, q: PendingOrder, rest: Matching)
    requires Settles(s, u, kept + [q], rest)
    ensures Settles(s, u, kept, rest.(kept := [q] + rest.kept))
  {
    assert kept + ([q] + rest.kept) == kept + [q] + rest.kept;
  }

  lemma SettlesAfterTrade(s: EngineState, u: Setup, kept: Pendings, p: PendingOrder, f: Fill, tail: Pendings,
                          rest: Matching)
    requires AgreesWith(s, kept + [p] + tail) && FillFor(p, f)
    requires DispatchOne(s, u, f).1.Ok? ==>
               Settles(DispatchOne(s, u, f).0, u, kept + OptionSeq(LeftAfter(Awake(p), f.quantity)), rest)
    ensures Settles(s, u, kept, rest.(kept := OptionSeq(LeftAfter(Awake(p), f.quantity)) + rest.kept,
                                      fills := [f] + rest.fills))
  {
    DispatchOneAgrees(s, u, kept, p, f, tail);
    hide DispatchOne, AgreesWith, LeftAfter, FillFor;
    var left := OptionSeq(LeftAfter(Awake(p), f.quantity));
    assert kept + (left + rest.kept) == kept + left + rest.kept;
    var fills := [f] + rest.fills;
    assert fills[0] == f && fills[1..] == rest.fills;
  }

  /** Matching a list of pending orders and dispatching its fills in order keeps book and list in
      agreement; the order manager refuses none of them. */
  lemma {:induction false} DispatchAgrees(s: EngineState, u: Setup, kept: Pendings, ps: Pendings, i: InstrumentId,
                                          st: MarketState, at: Timestamp, budget: real, slips: nat,
                                          stats: ExecutionStats)
    requires AgreesWith(s, kept + ps)
    requires MatchFrom(ps, i, st, at, u.fills, u.models, budget, slips, stats).error.None?
    ensures Settles(s, u, kept, MatchFrom(ps, i, st, at, u.fills, u.models, budget, slips, stats))
    decreases |ps|
  {
    hide DispatchOne, AgreesWith, FillFor, LeftAfter, StatsAfter, VisitOrder;
    if ps != [] {
      var p, tail := ps[0], ps[1..];
      assert kept + ps == kept + [p] + tail;
      var visit := VisitOrder(p, i, st, at, u.fills, u.models, budget, slips);
      var stats' := StatsAfter(stats, visit);
      TradeFillsItsOrder(p, i, st, at, u.fills, u.models, budget, slips);
      hide Settles;
      match visit {
        case Rest(q) =>
          RestAgrees(s, kept, p, q, tail);
          DispatchAgrees(s, u, kept + [q], tail, i, st, at, budget, slips, stats');
          SettlesAfterRest(s, u, kept, q, MatchFrom(tail, i, st, at, u.fills, u.models, budget, slips, stats'));
        case Discard(killed) =>
          DiscardAgrees(s, kept, p, tail, killed);
          DispatchAgrees(s, u, kept, tail, i, st, at, budget, slips, stats');
        case Trade(f, _, left) =>
          var budget' := Max(0.0, budget - f.quantity);
          var (t, r) := DispatchOne(s, u, f);
          if r.Ok? {
            DispatchOneAgrees(s, u, kept, p, f, tail);
            DispatchAgrees(t, u, kept + OptionSeq(left), tail, i, st, at, budget', slips + 1, stats');
          }
          SettlesAfterTrade(s, u, kept, p, f, tail,
                            MatchFrom(tail, i, st, at, u.fills, u.models, budget', slips + 1, stats'));
        case Refuse(_, _) =>
      }
    } else {
      assert kept + [] == kept && kept + ps == kept;
    }
  }

  lemma MatchingKeepsInvariant(s: EngineState, u: Setup, i: InstrumentId, st: MarketState, at: Timestamp)
    requires Invariant(s)
    ensures var (t, r) := MatchingAt(s, u, i, st, at);
            (r.Ok? ==> Invariant(t)) && (r.Err? ==> r.error.VenueRefused? || r.error.PortfolioRefused?)
  {
    hide Agree;
    var m := MatchAll(s.venue, i, st, at, u.fills, u.models);
    if m.error.None? {
      var v := Marketing(s.venue, i, st, at, u.fills, u.models).0;
      var t := s.(venue := v);
      assert [] + s.venue.pending == s.venue.pending && [] + m.kept == m.kept;
      DispatchAgrees(t, u, [], s.venue.pending, i, st, at, Participation(st, u.fills), s.venue.slips, s.venue.stats);
    }
  }

  // ---------------------------------------------------------------------------
  // The sink
  // ---------------------------------------------------------------------------

  /** An accepted order arrives strictly after its decision and after the submitting instant. */
  lemma AcceptedOrderArrivesLater(v: VenueState, m: Models, now: Timestamp, o: Order)
    requires Accepting(v, m, now, o).1.Ok?
    ensures var (w, r) := Accepting(v, m, now, o);
            && now < r.value && o.times.decision < r.value
            && w.pending == v.pending
                            + [PendingOrder(o.(times := o.times.(arrival := r.value)), r.value, 0.0, false)]
  {
  }

  lemma PricedKeepsTheRest(o: Order, reference: real)
    ensures Priced(o, reference) == o.(arrivalPrice := Priced(o, reference).arrivalPrice)
  {
  }

  lemma SubmittingKeepsInvariant(s: EngineState, u: Setup, o: Order, approved: bool)
    requires Invariant(s)
    ensures Invariant(Submitting(s, u, o, approved).0)
    ensures Submitting(s, u, o, approved).1.Ok? <==>
              approved && Submitted(s.oms, o).1.Ok?
              && Accepting(s.venue, u.models, s.now, Priced(o, ReferencePrice(s.market, o.instrument))).1.Ok?
  {
    var reference := ReferencePrice(s.market, o.instrument);
    PricedKeepsTheRest(o, reference);
    hide Agree, Punctual, Accepting, Transitioned, Priced;
    if approved && Submitted(s.oms, Priced(o, reference)).1.Ok? {
      SubmittingAgrees(s, u, o);
      SubmittingStaysPunctual(s, u, o);
    }
  }

  lemma SubmittingAgrees(s: EngineState, u: Setup, o: Order)
    requires Invariant(s) && Submitted(s.oms, Priced(o, ReferencePrice(s.market, o.instrument))).1.Ok?
    ensures var t := Submitting(s, u, o, true).0; Agree(t.venue.pending, t.oms, t.stamps)
  {
    var t := Submitting(s, u, o, true).0;
    var priced := Priced(o, ReferencePrice(s.market, o.instrument));
    PricedKeepsTheRest(o, ReferencePrice(s.market, o.instrument));
    var (venue, arrival) := Accepting(s.venue, u.models, s.now, priced);
    SubmittingBooks(s, u, o);
    hide Agree, Submitted, Transitioned, ChainOk;
    if arrival.Ok? {
      AcceptedOrderArrivesLater(s.venue, u.models, s.now, priced);
      var p := venue.pending[|venue.pending| - 1];
      assert Backed(p, t.oms, t.stamps);
      SubmitKeepsAgreement(s.venue.pending, s.oms, t.oms, s.stamps, p, s.now);
    } else {
      assert venue.pending == s.venue.pending;
      RejectKeepsAgreement(s.venue.pending, s.oms, t.oms, s.stamps, o.id);
    }
  }

  lemma SubmittingStaysPunctual(s: EngineState, u: Setup, o: Order)
    requires AllPunctual(s) && Submitted(s.oms, Priced(o, ReferencePrice(s.market, o.instrument))).1.Ok?
    ensures AllPunctual(Submitting(s, u, o, true).0)
  {
    var t := Submitting(s, u, o, true).0;
    SubmittingBooks(s, u, o);
    hide Submitted, Transitioned, Accepting, Priced;
    forall f | f in t.dispatched
      ensures Punctual(f, t.oms, t.stamps)
    {
      assert Punctual(f, s.oms, s.stamps);
    }
  }

  /** Exactly one record is added: Working when the venue accepts, Rejected when it refuses. */
  lemma SubmittingBooks(s: EngineState, u: Setup, o: Order)
    requires Submitted(s.oms, Priced(o, ReferencePrice(s.market, o.instrument))).1.Ok?
    ensures var t := Submitting(s, u, o, true).0;
            var priced := Priced(o, ReferencePrice(s.market, o.instrument));
            var accepted := Accepting(s.venue, u.models, s.now, priced).1.Ok?;
            o.id !in s.oms.records
            && t.oms.records
               == s.oms.records[o.id := OrderRecord(priced, if accepted then Working else Rejected, 0.0, 0.0, 0.0)]
  {
    var priced := Priced(o, ReferencePrice(s.market, o.instrument));
    PricedKeepsTheRest(o, ReferencePrice(s.market, o.instrument));
    var booked := Submitted(s.oms, priced).0;
    var pending := Transitioned(booked, o.id, PendingNew).0;
    assert booked.records == s.oms.records[o.id := OrderRecord(priced, New, 0.0, 0.0, 0.0)];
    assert pending.records == s.oms.records[o.id := OrderRecord(priced, PendingNew, 0.0, 0.0, 0.0)];
  }

  /** A strategy's cancel succeeds exactly when the order is pending, and never gets stuck between
      the venue and the book. */
  lemma CancellingKeepsInvariant(s: EngineState, id: OrderId)
    requires Invariant(s)
    ensures Invariant(CancellingAt(s, id).0)
    ensures CancellingAt(s, id).1.Ok? <==> Holds(s.venue.pending, id)
    ensures CancellingAt(s, id).1.Err? ==> CancellingAt(s, id).0 == s
  {
    CancelKeepsAgreement(s.venue, s.oms, s.stamps, id);
    var t := CancellingAt(s, id).0;
    forall f | f in t.dispatched
      ensures Punctual(f, t.oms, t.stamps)
    {
      assert Punctual(f, s.oms, s.stamps);
    }
  }

  lemma {:induction false} ScriptKeepsInvariant(s: EngineState, u: Setup, script: seq<SinkCall>)
    requires Invariant(s)
    ensures Invariant(Scripted(s, u, script))
  {
    if script != [] {
      var prefix, call := script[..|script| - 1], script[|script| - 1];
      ScriptKeepsInvariant(s, u, prefix);
      var t := Scripted(s, u, prefix);
      match call {
        case NextOrderId =>
        case SubmitOrder(o, approved) => SubmittingKeepsInvariant(t, u, o, approved);
        case CancelOrder(id) => CancellingKeepsInvariant(t, id);
      }
    }
  }

  // ---------------------------------------------------------------------------
  // Runs
  // ---------------------------------------------------------------------------

  lemma DeliveringKeepsInvariant(s: EngineState, u: Setup, d: Delivery)
    requires Invariant(s)
    ensures var (t, r) := Delivering(s, u, d);
            (r.Ok? ==> Invariant(t)) && (r.Err? ==> !r.error.OmsRefused?)
  {
    if d.received >= s.now {
      var s1 := s.(now := d.received);
      assert Invariant(s1);
      hide Invariant, MatchingAt, Scripted;
      match d.event {
        case Bar(i, _, _, close, _, closeTime) =>
          var st := BarState(MarketOf(s1, i), u, d.event);
          var s2 := Marking(s1, i, st, close, close);
          MarkingKeepsInvariant(s1, i, st, close, close);
          MatchingKeepsInvariant(s2, u, i, st, closeTime);
          if MatchingAt(s2, u, i, st, closeTime).1.Ok? {
            ScriptKeepsInvariant(MatchingAt(s2, u, i, st, closeTime).0, u, d.script);
          }
        case Quote(i, bid, ask, _, _, exchangeTime) =>
          var st := QuoteState(MarketOf(s1, i), d.event);
          var s2 := Marking(s1, i, st, bid, ask);
          MarkingKeepsInvariant(s1, i, st, bid, ask);
          MatchingKeepsInvariant(s2, u, i, st, exchangeTime);
          if MatchingAt(s2, u, i, st, exchangeTime).1.Ok? {
            ScriptKeepsInvariant(MatchingAt(s2, u, i, st, exchangeTime).0, u, d.script);
          }
        case TradePrint => ScriptKeepsInvariant(s1, u, d.script);
        case SplitAction(i, ratio) => OtherFieldsKeepInvariant(s1, Splitting(s1.portfolio, i, ratio).0, s1.turnover);
        case DividendAction(i, perShare) =>
          OtherFieldsKeepInvariant(s1, Paying(s1.portfolio, i, perShare), s1.turnover);
        case SessionOpen =>
          OtherFieldsKeepInvariant(s1, s1.portfolio, 0.0);
          assert s1.(portfolio := s1.portfolio, turnover := 0.0) == s1.(turnover := 0.0);
          ScriptKeepsInvariant(s1.(turnover := 0.0), u, d.script);
        case SessionClose => ScriptKeepsInvariant(s1, u, d.script);
      }
    }
  }

  lemma MarkingKeepsInvariant(s: EngineState, i: InstrumentId, st: MarketState, bid: real, ask: real)
    requires Invariant(s)
    ensures Invariant(Marking(s, i, st, bid, ask))
  {
  }

  lemma OtherFieldsKeepInvariant(s: EngineState, p: PortfolioState, turnover: real)
    requires Invariant(s)
    ensures Invariant(s.(portfolio := p, turnover := turnover))
    ensures Invariant(s.(portfolio := p))
  {
  }

  /** Over every run, whatever the strategy, the risk gate, the market and the models do: after every
      event that succeeds the venue's pending orders and the book of record agree, every fill so far is
      strictly later than its order's decision and submission, and no event ever fails because the
      order manager refused a fill. */
  lemma {:induction false} AgreementOverRuns(u: Setup, start: Timestamp, ds: seq<Delivery>)
    ensures var (s, r) := Running(u, start, ds);
            (r.Ok? ==> Invariant(s)) && (r.Err? ==> !r.error.OmsRefused?)
  {
    if ds == [] {
      assert forall id :: !Holds([], id);
    } else {
      var prefix := ds[..|ds| - 1];
      AgreementOverRuns(u, start, prefix);
      var (s, r) := Running(u, start, prefix);
      if r.Ok? {
        DeliveringKeepsInvariant(s, u, ds[|ds| - 1]);
      }
    }
  }
}
