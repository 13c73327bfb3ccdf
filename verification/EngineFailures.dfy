/** Where the engine's promises stop: stranded residues, fills lost to a failing update, and the
    conditions under which a run cannot fail. */
module EngineFailures {
  import opened Types
  import opened TimeChain
  import opened Orders
  import opened OrderManagement
  import opened Venue
  import opened Agreement
  import opened Engines
  import opened EngineRuns

  // ---------------------------------------------------------------------------
  // Stranded residues
  // ---------------------------------------------------------------------------

  /** The venue drops an order once it is complete up to the tolerance; the order book calls it Filled
      only when nothing remains. A fill of a day or good-till-cancel order leaves a live record with no
      order behind it exactly when the remainder is positive and within the tolerance. */
  lemma ResidueStrandsTheRecord(kept: Pendings, p: PendingOrder, f: Fill, tail: Pendings, oms: OmsState, stamps: Stamps)
    requires Agree(kept + [p] + tail, oms, stamps) && FillFor(p, f) && p.order.tif != ImmediateOrCancel
    ensures f.orderId in Filling(oms, f).0.records
    ensures LeftAfter(p, f.quantity).None? && Filling(oms, f).0.records[f.orderId].Live()
            <==> 0.0 < p.Remaining() - f.quantity <= TOLERANCE
  {
    assert p in kept + [p] + tail;
    assert Backed(p, oms, stamps) && Settled(p.order.id, oms.records[p.order.id]);
    BackedFillIsAccepted(p, f, oms, stamps);
  }

  /** In every reachable state the stranded day and good-till-cancel records are exactly the partially
      filled ones within the tolerance of complete, and no cancel ever reaches them. */
  lemma StrandedRecordsAreResidues(s: EngineState, id: OrderId)
    requires Invariant(s) && id in s.oms.records && !Immediate(s.oms.records[id].order.tif)
    ensures s.oms.records[id].Live() && !Holds(s.venue.pending, id)
            <==> s.oms.records[id].state == PartiallyFilled
                 && s.oms.records[id].Remaining() <= TOLERANCE
    ensures s.oms.records[id].Live() && !Holds(s.venue.pending, id)
            ==> CancellingAt(s, id) == (s, Err(VenueRefused(NotPending)))
  {
  }

  /** An immediate-or-cancel order that trades in part, or a fill-or-kill order that is killed, leaves
      its record live although the venue has dropped it. */
  lemma ImmediateRemaindersStayLive(kept: Pendings, p: PendingOrder, f: Fill, tail: Pendings, oms: OmsState,
                                    stamps: Stamps)
    requires Agree(kept + [p] + tail, oms, stamps) && FillFor(p, f) && p.order.tif == ImmediateOrCancel
    ensures LeftAfter(p, f.quantity).None? && f.orderId in Filling(oms, f).0.records
    ensures Filling(oms, f).0.records[f.orderId].Live() <==> f.quantity < p.Remaining()
  {
    assert p in kept + [p] + tail;
    assert Backed(p, oms, stamps) && Settled(p.order.id, oms.records[p.order.id]);
    BackedFillIsAccepted(p, f, oms, stamps);
  }

  // ---------------------------------------------------------------------------
  // When an update fails
  // ---------------------------------------------------------------------------

  /** For a pending order that has arrived, a fill is refused exactly when its price is not positive or
      the order already carries an acknowledgement stamp in the past. */
  lemma FillRefusedExactly(p: PendingOrder, oms: OmsState, stamps: Stamps, price: real, quantity: real,
                           commission: real, now: Timestamp)
    requires Backed(p, oms, stamps) && p.arrivalTime <= now && quantity > 0.0 && IsSet(now)
    ensures MakeFill(p.order, price, quantity, commission, now).Err?
            <==> price <= 0.0 || (IsSet(p.order.times.ack) && p.order.times.ack < now)
  {
    var before, after := p.order.times, p.order.times.(fill := now);
    assert forall i: nat :: i < 5 ==> EdgeBroken(after, i) == EdgeBroken(before, i);
    assert !EdgeBroken(after, 5);
    assert EdgeBroken(after, 6) <==> IsSet(after.ack) && after.ack < now;
  }

  /** What a matching leaves of an order it filled runs ahead of the order by that fill. */
  predicate ShowsFill(ps: Pendings, kept: Pendings, f: Fill) {
    exists p :: p in ps && FillFor(p, f)
                && forall q :: q in kept && q.order.id == f.orderId ==> q.filled == p.filled + f.quantity
  }

  /** The fills of a matching are fills of its orders and show in what it keeps of them; it keeps no other order. */
  predicate Shows(ps: Pendings, m: Matching) {
    && (forall f :: f in m.fills ==> ShowsFill(ps, m.kept, f))
    && (forall q :: q in m.kept ==> Holds(ps, q.order.id))
  }

  lemma ShowsFillAfter(p: PendingOrder, left: Pendings, tail: Pendings, kept: Pendings, f: Fill)
    requires Distinct([p] + tail) && ShowsFill(tail, kept, f)
    requires forall q :: q in left ==> q.order.id == p.order.id
    ensures ShowsFill([p] + tail, left + kept, f)
  {
    var o :| o in tail && FillFor(o, f)
             && forall q :: q in kept && q.order.id == f.orderId ==> q.filled == o.filled + f.quantity;
    DistinctHead(p, tail, o);
    assert o in [p] + tail;
  }

  lemma DistinctHead(p: PendingOrder, tail: Pendings, o: PendingOrder)
    requires Distinct([p] + tail) && o in tail
    ensures o.order.id != p.order.id && Distinct(tail)
  {
    assert [] + [p] + tail == [p] + tail && [] + tail == tail;
    DistinctAround([], [p], tail);
  }

  /** This is so whether the matching failed or not. */
  lemma {:induction false} FillsShow(ps: Pendings, i: InstrumentId, st: MarketState, at: Timestamp, cfg: FillConfig,
                                     m: Models, budget: real, slips: nat, stats: ExecutionStats)
    requires Distinct(ps)
    ensures Shows(ps, MatchFrom(ps, i, st, at, cfg, m, budget, slips, stats))
  {
    hide VisitOrder, StatsAfter, FillFor, LeftAfter, Distinct, Shows, Awake;
    if ps == [] {
      NothingShows();
    } else {
      var p, tail := ps[0], ps[1..];
      assert ps == [p] + tail;
      var visit := VisitOrder(p, i, st, at, cfg, m, budget, slips);
      var stats' := StatsAfter(stats, visit);
      TradeFillsItsOrder(p, i, st, at, cfg, m, budget, slips);
      TailIsDistinct(p, tail);
      AwakeIsTheSame(p);
      match visit {
        case Rest(q) =>
          FillsShow(tail, i, st, at, cfg, m, budget, slips, stats');
          ShowsAfter(p, [q], tail, MatchFrom(tail, i, st, at, cfg, m, budget, slips, stats'));
        case Discard(_) =>
          var rest := MatchFrom(tail, i, st, at, cfg, m, budget, slips, stats');
          FillsShow(tail, i, st, at, cfg, m, budget, slips, stats');
          ShowsAfter(p, [], tail, rest);
          assert rest.(kept := [] + rest.kept) == rest;
        case Trade(f, _, left) =>
          FillsShow(tail, i, st, at, cfg, m, Max(0.0, budget - f.quantity), slips + 1, stats');
          ShowsAfterTrade(p, f, tail,
                          MatchFrom(tail, i, st, at, cfg, m, Max(0.0, budget - f.quantity), slips + 1, stats'));
        case Refuse(q, e) => RefusedShows(p, q, tail, Matching([q] + tail, [], slips + 1, stats', Some(e)));
      }
    }
  }

  lemma NothingShows()
    ensures forall m: Matching :: m.fills == [] && m.kept == [] ==> Shows([], m)
  {
  }

  lemma AwakeIsTheSame(p: PendingOrder)
    ensures Awake(p).order == p.order && Awake(p).filled == p.filled
  {
  }

  lemma TailIsDistinct(p: PendingOrder, tail: Pendings)
    requires Distinct([p] + tail)
    ensures Distinct(tail)
  {
    assert [] + [p] + tail == [p] + tail && [] + tail == tail;
    DistinctAround([], [p], tail);
  }

  lemma LeftShows(p: PendingOrder, f: Fill)
    ensures forall q :: q in OptionSeq(LeftAfter(Awake(p), f.quantity)) ==>
              q.order.id == p.order.id && q.filled == p.filled + f.quantity
  {
  }

  lemma ShowsAfter(p: PendingOrder, left: Pendings, tail: Pendings, rest: Matching)
    requires Distinct([p] + tail) && (forall q :: q in left ==> q.order.id == p.order.id) && Shows(tail, rest)
    ensures Shows([p] + tail, rest.(kept := left + rest.kept))
  {
    hide ShowsFill, Distinct;
    forall f | f in rest.fills
      ensures ShowsFill([p] + tail, left + rest.kept, f)
    {
      ShowsFillAfter(p, left, tail, rest.kept, f);
    }
    forall q | q in left + rest.kept
      ensures Holds([p] + tail, q.order.id)
    {
      assert p in [p] + tail;
      if q !in left {
        var o :| o in tail && o.order.id == q.order.id;
        assert o in [p] + tail;
      }
    }
  }

  lemma ShowsAfterTrade(p: PendingOrder, f: Fill, tail: Pendings, rest: Matching)
    requires Distinct([p] + tail) && FillFor(p, f) && Shows(tail, rest)
    ensures Shows([p] + tail, rest.(kept := OptionSeq(LeftAfter(Awake(p), f.quantity)) + rest.kept,
                                    fills := [f] + rest.fills))
  {
    hide ShowsFill, Distinct, FillFor, LeftAfter, Awake;
    var left := OptionSeq(LeftAfter(Awake(p), f.quantity));
    LeftShows(p, f);
    ShowsAfter(p, left, tail, rest);
    OwnFillShows(p, f, tail, rest.kept);
  }

  lemma OwnFillShows(p: PendingOrder, f: Fill, tail: Pendings, kept: Pendings)
    requires Distinct([p] + tail) && FillFor(p, f) && forall q :: q in kept ==> Holds(tail, q.order.id)
    ensures ShowsFill([p] + tail, OptionSeq(LeftAfter(Awake(p), f.quantity)) + kept, f)
  {
    LeftShows(p, f);
    assert p in [p] + tail && f.orderId == p.order.id;
    hide FillFor, LeftAfter, Distinct;
    forall q | q in kept
      ensures q.order.id != f.orderId
    {
      var o :| o in tail && o.order.id == q.order.id;
      DistinctHead(p, tail, o);
    }
  }

  lemma RefusedShows(p: PendingOrder, q: PendingOrder, tail: Pendings, m: Matching)
    requires q.order.id == p.order.id && m.kept == [q] + tail && m.fills == []
    ensures Shows([p] + tail, m)
  {
    assert p in [p] + tail;
    forall o | o in tail
      ensures Holds([p] + tail, o.order.id)
    {
      assert o in [p] + tail;
    }
  }

  /** All fills are of orders that never rest. */
  predicate AllImmediate(fills: seq<Fill>, oms: OmsState) {
    forall f :: f in fills ==> f.orderId in oms.records && Immediate(oms.records[f.orderId].order.tif)
  }

  /** A matching whose fills never reach the book still agrees with it when none of them was of a resting order. */
  lemma {:induction false} UnbookedImmediateFillsAgree(kept: Pendings, ps: Pendings, oms: OmsState, stamps: Stamps,
                                                       i: InstrumentId, st: MarketState, at: Timestamp,
                                                       cfg: FillConfig, m: Models, budget: real, slips: nat,
                                                       stats: ExecutionStats)
    requires Agree(kept + ps, oms, stamps)
    requires AllImmediate(MatchFrom(ps, i, st, at, cfg, m, budget, slips, stats).fills, oms)
    ensures Agree(kept + MatchFrom(ps, i, st, at, cfg, m, budget, slips, stats).kept, oms, stamps)
    decreases |ps|
  {
    hide VisitOrder, StatsAfter, Agree, LeftAfter, FillFor;
    if ps != [] {
      var p, tail := ps[0], ps[1..];
      assert kept + ps == kept + [p] + tail;
      var visit := VisitOrder(p, i, st, at, cfg, m, budget, slips);
      var stats' := StatsAfter(stats, visit);
      TradeFillsItsOrder(p, i, st, at, cfg, m, budget, slips);
      match visit {
        case Rest(q) =>
          RestKeepsAgreement(kept, p, q, tail, oms, stamps);
          UnbookedImmediateFillsAgree(kept + [q], tail, oms, stamps, i, st, at, cfg, m, budget, slips, stats');
          var rest := MatchFrom(tail, i, st, at, cfg, m, budget, slips, stats');
          assert kept + ([q] + rest.kept) == kept + [q] + rest.kept;
        case Discard(killed) =>
          DiscardedIsImmediate(kept, p, tail, oms, stamps, killed);
          KillKeepsAgreement(kept, p, tail, oms, stamps);
          UnbookedImmediateFillsAgree(kept, tail, oms, stamps, i, st, at, cfg, m, budget, slips, stats');
        case Trade(f, _, left) =>
          var rest := MatchFrom(tail, i, st, at, cfg, m, Max(0.0, budget - f.quantity), slips + 1, stats');
          assert f in [f] + rest.fills && forall g :: g in rest.fills ==> g in [f] + rest.fills;
          ImmediateFillLeavesNothing(kept, p, f, tail, oms, stamps);
          KillKeepsAgreement(kept, p, tail, oms, stamps);
          UnbookedImmediateFillsAgree(kept, tail, oms, stamps, i, st, at, cfg, m, Max(0.0, budget - f.quantity),
                                      slips + 1, stats');
          assert OptionSeq(left) + rest.kept == rest.kept;
        case Refuse(q, _) =>
          RestKeepsAgreement(kept, p, q, tail, oms, stamps);
          assert kept + ([q] + tail) == kept + [q] + tail;
      }
    }
  }

  lemma DiscardedIsImmediate(kept: Pendings, p: PendingOrder, tail: Pendings, oms: OmsState, stamps: Stamps,
                             killed: bool)
    requires Agree(kept + [p] + tail, oms, stamps)
    requires if killed then p.order.tif == FillOrKill else p.Remaining() <= 0.0
    ensures Immediate(p.order.tif)
  {
    assert p in kept + [p] + tail;
  }

  lemma ImmediateFillLeavesNothing(kept: Pendings, p: PendingOrder, f: Fill, tail: Pendings, oms: OmsState,
                                   stamps: Stamps)
    requires Agree(kept + [p] + tail, oms, stamps) && FillFor(p, f)
    requires f.orderId in oms.records && Immediate(oms.records[f.orderId].order.tif)
    requires p.order.tif == FillOrKill ==> p.Remaining() - f.quantity <= TOLERANCE
    ensures Immediate(p.order.tif) && LeftAfter(Awake(p), f.quantity).None?
  {
    assert p in kept + [p] + tail;
  }

  /** The venue's pending orders, once matched, agree with a book that heard of none of the fills exactly when no
      resting order was filled. */
  lemma UnbookedFillsAgreeIff(ps: Pendings, oms: OmsState, stamps: Stamps, i: InstrumentId, st: MarketState,
                              at: Timestamp, cfg: FillConfig, m: Models, budget: real, slips: nat,
                              stats: ExecutionStats)
    requires Agree(ps, oms, stamps)
    ensures var r := MatchFrom(ps, i, st, at, cfg, m, budget, slips, stats);
            Agree(r.kept, oms, stamps) <==> AllImmediate(r.fills, oms)
  {
    var r := MatchFrom(ps, i, st, at, cfg, m, budget, slips, stats);
    assert [] + ps == ps && [] + r.kept == r.kept;
    FillsShow(ps, i, st, at, cfg, m, budget, slips, stats);
    if AllImmediate(r.fills, oms) {
      UnbookedImmediateFillsAgree([], ps, oms, stamps, i, st, at, cfg, m, budget, slips, stats);
    } else {
      hide MatchFrom, ShowsFill;
      var f :| f in r.fills && !(f.orderId in oms.records && Immediate(oms.records[f.orderId].order.tif));
      RestingFillShows(ps, r.kept, f, oms, stamps);
    }
  }

  lemma RestingFillShows(ps: Pendings, kept: Pendings, f: Fill, oms: OmsState, stamps: Stamps)
    requires Agree(ps, oms, stamps) && ShowsFill(ps, kept, f)
    requires f.orderId in oms.records ==> !Immediate(oms.records[f.orderId].order.tif)
    ensures !Agree(kept, oms, stamps)
  {
    var p :| p in ps && FillFor(p, f)
             && forall q :: q in kept && q.order.id == f.orderId ==> q.filled == p.filled + f.quantity;
    assert Backed(p, oms, stamps) && Outstanding(oms.records[f.orderId]);
    if Holds(kept, f.orderId) {
      var q :| q in kept && q.order.id == f.orderId;
      assert !Backed(q, oms, stamps);
    }
  }

  /** A failing update gives the order manager, the portfolio and the journal none of the fills it has made. The venue
      then still agrees with the book exactly when none of these was of a day or good-till-cancel order. */
  lemma FailedUpdateLosesFills(s: EngineState, u: Setup, i: InstrumentId, st: MarketState, at: Timestamp)
    requires Invariant(s) && MatchAll(s.venue, i, st, at, u.fills, u.models).error.Some?
    ensures var (t, r) := MatchingAt(s, u, i, st, at);
            && r.Err? && t == s.(venue := t.venue)
            && (Agree(t.venue.pending, t.oms, t.stamps)
                <==> AllImmediate(MatchAll(s.venue, i, st, at, u.fills, u.models).fills, s.oms))
  {
    hide Agree, MatchFrom, AllImmediate;
    UnbookedFillsAgreeIff(s.venue.pending, s.oms, s.stamps, i, st, at, u.fills, u.models, Participation(st, u.fills),
                          s.venue.slips, s.venue.stats);
  }
}
