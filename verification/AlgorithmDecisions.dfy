/** What the six algorithms decide, exactly: when a child is sent, how much of the parent it is, and at what limit. */
module AlgorithmDecisions {
  import opened Types
  import opened Orders
  import opened Schedules
  import opened Algorithms

  // ---------------------------------------------------------------------------
  // Whole lots
  // ---------------------------------------------------------------------------

  function Lots(k: nat, lot: real): real {
    k as real * lot
  }

  /** The most whole lots in a quantity; without a lot size, all of it. */
  ghost predicate InLots(lot: real, whole: real, q: real) {
    if lot > 0.0 then whole - lot < q <= whole && exists k: nat :: q == Lots(k, lot) else q == whole
  }

  /** At least a clip's worth of whole lots fits. */
  ghost predicate WorthAClip(lot: real, whole: real, minClip: real) {
    if lot > 0.0 then exists k: nat :: k > 0 && minClip <= Lots(k, lot) <= whole
    else whole > 0.0 && whole >= minClip
  }

  lemma RoundsDownToLots(lot: real, want: real)
    requires want >= 0.0
    ensures InLots(lot, want, ToLot(lot, want))
  {
    if lot > 0.0 {
      var q := want / lot;
      assert q * lot == want && q >= 0.0;
      AtMost(lot, q, want, q.Floor as real);
      WithinOne(lot, q, want, q.Floor as real);
      LotsBetween(lot, want, q.Floor, q.Floor as real);
      assert ToLot(lot, want) == Lots(q.Floor, lot);
    }
  }

  lemma LotsBetween(lot: real, want: real, k: nat, x: real)
    requires x == k as real && want - lot < x * lot <= want
    ensures want - lot < Lots(k, lot) <= want
  {
  }

  lemma AtMost(lot: real, q: real, want: real, x: real)
    requires lot > 0.0 && q * lot == want && x <= q
    ensures x * lot <= want
  {
    Algorithms.Times(x, q, lot);
  }

  lemma WithinOne(lot: real, q: real, want: real, x: real)
    requires lot > 0.0 && q * lot == want && q < x + 1.0
    ensures want - lot < x * lot
  {
    Algorithms.StrictTimes(q - 1.0, x, lot);
    assert (q - 1.0) * lot == q * lot - lot;
  }

  lemma LotsAreSpaced(lot: real, whole: real, k: nat, m: nat)
    requires lot > 0.0 && whole - lot < Lots(m, lot) && Lots(k, lot) <= whole
    ensures Lots(k, lot) <= Lots(m, lot)
  {
    hide Lots;
    if k > m {
      LotsGrow(m, k, lot);
    } else {
      LotsGrow(k, m, lot);
    }
  }

  lemma LotsGrow(k: nat, m: nat, lot: real)
    requires lot > 0.0 && k <= m
    ensures Lots(k, lot) <= Lots(m, lot) && (k < m ==> Lots(k, lot) + lot <= Lots(m, lot))
  {
    Algorithms.Times(k as real, m as real, lot);
    if k < m {
      Algorithms.Times((k + 1) as real, m as real, lot);
      assert (k + 1) as real * lot == Lots(k, lot) + lot;
    }
  }

  lemma LotsArePositiveIff(lot: real, k: nat)
    requires lot > 0.0
    ensures Lots(k, lot) > 0.0 <==> k > 0
  {
    if k > 0 {
      Algorithms.StrictTimes(0.0, k as real, lot);
    }
  }

  lemma ClipIsWorthIff(lot: real, want: real, minClip: real)
    requires minClip >= 0.0
    ensures ToLot(lot, want) > 0.0 && ToLot(lot, want) >= minClip <==> WorthAClip(lot, want, minClip)
  {
    if lot > 0.0 {
      if want >= 0.0 {
        RoundsDownToLots(lot, want);
        hide ToLot;
        MostLotsIff(lot, want, minClip, ToLot(lot, want));
      } else {
        LotsOfNothing(lot, want);
        forall k: nat | k > 0
          ensures Lots(k, lot) > want
        {
          LotsArePositiveIff(lot, k);
        }
      }
    }
  }

  lemma MostLotsIff(lot: real, want: real, minClip: real, q: real)
    requires lot > 0.0 && minClip >= 0.0 && InLots(lot, want, q)
    ensures q > 0.0 && q >= minClip <==> WorthAClip(lot, want, minClip)
  {
    hide Lots;
    var m: nat :| q == Lots(m, lot);
    LotsArePositiveIff(lot, m);
    if WorthAClip(lot, want, minClip) {
      var k: nat :| k > 0 && minClip <= Lots(k, lot) <= want;
      LotsAreSpaced(lot, want, k, m);
      LotsArePositiveIff(lot, k);
    }
  }

  // ---------------------------------------------------------------------------
  // Release and clips, in the words of the request
  // ---------------------------------------------------------------------------

  /** An executable market inside the window, and away from both ends of the session where these count. */
  predicate MayTrade(r: Request, ctx: Context) {
    && ctx.executable && r.windowBegin <= ctx.now && ctx.now < r.windowEnd
    && (r.policy.respectHours && IsSet(ctx.sessionOpen) ==> ctx.sessionOpen + r.policy.openBuffer <= ctx.now)
    && (r.policy.respectHours && IsSet(ctx.sessionClose) ==> ctx.now < ctx.sessionClose - r.policy.closeBuffer)
  }

  /** The least of what is desired, what remains, the capped share of the volume and the display cap. */
  function LeastOf(p: Policy, volume: real, desired: real, remaining: real): real {
    var wanted := Min(desired, remaining);
    var paced := if volume > 0.0 then Min(wanted, volume * p.maxParticipation) else wanted;
    if p.maxDisplay > 0.0 then Min(paced, p.maxDisplay) else paced
  }

  /** Whether something is sent out of the least quantity: a clip's worth, or a rest that is no more than a clip. */
  ghost predicate Sends(p: Policy, least: real, remaining: real) {
    remaining > 0.0 && (WorthAClip(p.lotSize, least, p.minClip) || remaining <= p.minClip)
  }

  /** How much: the whole lots in it when they are worth a clip, and otherwise all of the rest. */
  ghost predicate Amounts(p: Policy, least: real, remaining: real, q: real) {
    q > 0.0 && if WorthAClip(p.lotSize, least, p.minClip) then InLots(p.lotSize, least, q) && q >= p.minClip
               else q == remaining <= p.minClip
  }

  lemma ClipIs(p: Policy, volume: real, desired: real, remaining: real)
    requires p.maxParticipation > 0.0 && p.minClip >= 0.0
    ensures var clip, least := Capped(p, volume, desired, remaining), LeastOf(p, volume, desired, remaining);
            && (clip > 0.0 <==> desired > 0.0 && Sends(p, least, remaining))
            && (clip > 0.0 ==> Amounts(p, least, remaining, clip))
  {
    hide ToLot, Reduced, LeastOf, WorthAClip, InLots;
    var want, least := Min(desired, remaining), LeastOf(p, volume, desired, remaining);
    ClipIsWorthIff(p.lotSize, least, p.minClip);
    if want > 0.0 {
      LeastIsNatural(p, volume, desired, remaining);
      ReducedIsLeast(p, volume, desired, remaining);
      RoundsDownToLots(p.lotSize, least);
      ReducedBounds(p, volume, want);
    } else {
      LeastOfNothing(p, volume, desired, remaining);
      LotsOfNothing(p.lotSize, least);
    }
  }

  lemma ReducedIsLeast(p: Policy, volume: real, desired: real, remaining: real)
    ensures Reduced(p, volume, Min(desired, remaining)) == ToLot(p.lotSize, LeastOf(p, volume, desired, remaining))
  {
    hide ToLot;
  }

  lemma LeastIsNatural(p: Policy, volume: real, desired: real, remaining: real)
    requires p.maxParticipation > 0.0 && Min(desired, remaining) > 0.0
    ensures LeastOf(p, volume, desired, remaining) >= 0.0
  {
    if volume > 0.0 {
      Algorithms.Times(0.0, volume, p.maxParticipation);
    }
  }

  lemma LeastOfNothing(p: Policy, volume: real, desired: real, remaining: real)
    requires Min(desired, remaining) <= 0.0
    ensures LeastOf(p, volume, desired, remaining) <= 0.0
  {
  }

  // ---------------------------------------------------------------------------
  // The decisions
  // ---------------------------------------------------------------------------

  lemma ReleasableIsMayTrade(r: Request, ctx: Context)
    ensures Releasable(r, ctx) <==> MayTrade(r, ctx)
  {
  }

  /** A market order for the parent, on its side and instrument and with the policy's time in force. */
  predicate AtMarket(r: Request, c: ChildOrder) {
    && c.instrument == r.parent.instrument && c.side == r.parent.side && c.tif == r.policy.tif
    && c.orderType == Market && c.limit.None? && c.hidden == 0.0
  }

  /** The immediate algorithm sends, at any moment it may, all that remains, subject to the caps. */
  lemma ImmediateDecides(r: Request, s: Schedule, progress: Progress, ctx: Context)
    requires r.Valid()
    ensures var c := NextChild(Immediate, r, s, progress, ctx);
            var least := LeastOf(r.policy, ctx.volume, progress.remaining, progress.remaining);
            && (c.Some? <==> MayTrade(r, ctx) && Sends(r.policy, least, progress.remaining))
            && (c.Some? ==> AtMarket(r, c.value) && Amounts(r.policy, least, progress.remaining, c.value.quantity))
  {
    ReleasableIsMayTrade(r, ctx);
    ClipIs(r.policy, ctx.volume, progress.remaining, progress.remaining);
    hide Releasable, Capped, LeastOf, Amounts;
  }

  /** Twap and vwap send, at any moment they may, what the schedule's target is ahead of the fills, subject to the
      caps. */
  lemma ScheduledDecides(a: Algorithm, r: Request, s: Schedule, progress: Progress, ctx: Context)
    requires r.Valid() && (a.TwapAlgorithm? || a.VwapAlgorithm?)
    ensures var c := NextChild(a, r, s, progress, ctx);
            var due := TargetBy(s, ctx.now) - progress.filled;
            var least := LeastOf(r.policy, ctx.volume, due, progress.remaining);
            && (c.Some? <==> MayTrade(r, ctx) && due > 0.0 && Sends(r.policy, least, progress.remaining))
            && (c.Some? ==> AtMarket(r, c.value) && Amounts(r.policy, least, progress.remaining, c.value.quantity))
  {
    ReleasableIsMayTrade(r, ctx);
    ClipIs(r.policy, ctx.volume, TargetBy(s, ctx.now) - progress.filled, progress.remaining);
    hide Releasable, Capped, LeastOf, Amounts, TargetBy, Sends, SliceAt;
  }

  /** The participation algorithm sends, whenever it may and something traded, the least of its own rate and the cap
      applied to the volume and of what remains; outside the final rest never more than either share of the volume. */
  lemma ParticipationDecides(rate: real, r: Request, s: Schedule, progress: Progress, ctx: Context)
    requires r.Valid()
    ensures var c := NextChild(Participation(rate), r, s, progress, ctx);
            var ours, cap := ctx.volume * rate, ctx.volume * r.policy.maxParticipation;
            var least := Min(Min(ours, cap), progress.remaining);
            && (c.Some? <==> MayTrade(r, ctx) && ctx.volume > 0.0 && Sends(r.policy, least, progress.remaining))
            && (c.Some? ==>
                  && AtMarket(r, c.value) && Amounts(r.policy, least, progress.remaining, c.value.quantity)
                  && (progress.remaining > r.policy.minClip ==> c.value.quantity <= ours && c.value.quantity <= cap))
  {
    ReleasableIsMayTrade(r, ctx);
    var ours, cap := ctx.volume * rate, ctx.volume * r.policy.maxParticipation;
    var least := Min(Min(ours, cap), progress.remaining);
    LeastOfThree(ours, cap, progress.remaining);
    ParticipationClip(rate, r, progress, ctx);
    AmountIsAtMost(r.policy, least, progress.remaining, NextParticipation(rate, r, progress, ctx));
    hide Releasable, MayTrade, NextParticipation, Sends, Amounts, Min;
  }

  lemma LeastOfThree(a: real, b: real, c: real)
    ensures Min(Min(a, b), c) <= a && Min(Min(a, b), c) <= b
  {
  }

  lemma AmountIsAtMost(p: Policy, least: real, remaining: real, c: Option<ChildOrder>)
    requires p.minClip >= 0.0
    ensures c.Some? && Amounts(p, least, remaining, c.value.quantity) && remaining > p.minClip ==>
              c.value.quantity <= least
  {
  }

  lemma ParticipationClip(rate: real, r: Request, progress: Progress, ctx: Context)
    requires r.Valid()
    ensures var c := NextParticipation(rate, r, progress, ctx);
            var least := Min(Min(ctx.volume * rate, ctx.volume * r.policy.maxParticipation), progress.remaining);
            && (c.Some? <==> ctx.volume > 0.0 && Sends(r.policy, least, progress.remaining))
            && (c.Some? ==> AtMarket(r, c.value) && Amounts(r.policy, least, progress.remaining, c.value.quantity))
  {
    if ctx.volume > 0.0 {
      var least := Min(Min(ctx.volume * rate, ctx.volume * r.policy.maxParticipation), progress.remaining);
      ShareIsLeast(rate, r.policy, ctx.volume);
      assert least == Min(Algorithms.ShareOf(rate, r.policy, ctx.volume), progress.remaining);
      ClipIsWorthIff(r.policy.lotSize, least, r.policy.minClip);
      if least >= 0.0 {
        RoundsDownToLots(r.policy.lotSize, least);
        LotsNeverExceed(r.policy.lotSize, least);
      } else {
        LotsOfNothing(r.policy.lotSize, least);
      }
      hide ToLot, WorthAClip, InLots, Algorithms.ShareOf, Min;
    }
  }

  lemma ShareIsLeast(rate: real, p: Policy, volume: real)
    requires volume > 0.0
    ensures Algorithms.ShareOf(rate, p, volume) == Min(volume * rate, volume * p.maxParticipation)
  {
    if rate <= p.maxParticipation {
      Algorithms.Times(rate, p.maxParticipation, volume);
    } else {
      Algorithms.StrictTimes(p.maxParticipation, rate, volume);
    }
  }

  /** Within the collar: the offset in basis points that a limit really has. */
  function OffsetUsed(r: Request, offset: real): real {
    if Abs(offset) > r.policy.collar then r.policy.collar else offset
  }

  /** Below the ask for a buy, above the bid for a sell. */
  function LimitPrice(r: Request, ctx: Context, offset: real): real {
    if r.parent.side == Buy then ctx.ask * (1.0 - OffsetUsed(r, offset) * 0.0001)
    else ctx.bid * (1.0 + OffsetUsed(r, offset) * 0.0001)
  }

  predicate Priceable(r: Request, ctx: Context) {
    if r.parent.side == Buy then ctx.ask > 0.0 else ctx.bid > 0.0
  }

  /** A limit is off the touch by its offset, or the collar when the offset is wider; without a market or a price there
      is none. */
  lemma LimitIs(r: Request, ctx: Context, offset: real)
    ensures CollaredLimit(r, ctx, offset)
            == if ctx.executable && Priceable(r, ctx) then Some(LimitPrice(r, ctx, offset)) else None
  {
    if Priceable(r, ctx) {
      CollaredAt(r, ctx, offset);
      AwayFromTouch(r, ctx, offset);
      hide LimitPrice, CollaredLimit;
    }
  }

  lemma AwayFromTouch(r: Request, ctx: Context, offset: real)
    ensures ApplyBps(ctx.Touch(r.parent.side), OffsetUsed(r, offset), -SignOf(r.parent.side))
            == LimitPrice(r, ctx, offset)
  {
    MovedAway(ctx.ask, OffsetUsed(r, offset));
    MovedAway(ctx.bid, OffsetUsed(r, offset));
    hide ApplyBps, OffsetUsed;
  }

  lemma CollaredAt(r: Request, ctx: Context, offset: real)
    requires ctx.Touch(r.parent.side) > 0.0
    ensures CollaredLimit(r, ctx, offset)
            == if ctx.executable
               then Some(ApplyBps(ctx.Touch(r.parent.side), OffsetUsed(r, offset), -SignOf(r.parent.side))) else None
  {
    var touch := ctx.Touch(r.parent.side);
    BpsUndo(touch, offset, -SignOf(r.parent.side));
    hide ToBps, ApplyBps;
    assert Abs(-SignOf(r.parent.side) * offset) == Abs(offset);
  }

  lemma MovedAway(price: real, bps: real)
    ensures ApplyBps(price, bps, -1.0) == price * (1.0 - bps * 0.0001)
    ensures ApplyBps(price, bps, 1.0) == price * (1.0 + bps * 0.0001)
  {
  }

  /** An iceberg shows, at any moment it may and the touch has a price, the whole lots in its display size or in the
      rest, or all of the rest when there is not a lot; it is limited at the touch and hides what it does not show. */
  lemma IcebergDecides(display: real, r: Request, s: Schedule, progress: Progress, ctx: Context)
    requires r.Valid() && display > 0.0
    ensures var c := NextChild(Iceberg(display), r, s, progress, ctx);
            var shown := Min(display, progress.remaining);
            && (c.Some? <==> MayTrade(r, ctx) && progress.remaining > 0.0 && Priceable(r, ctx))
            && (c.Some? ==>
                  && c.value.orderType == Limit && c.value.tif == r.policy.tif
                  && c.value.limit == Some(LimitPrice(r, ctx, 0.0))
                  && (r.policy.collar >= 0.0 ==>
                        c.value.limit == Some(if r.parent.side == Buy then ctx.ask else ctx.bid))
                  && c.value.hidden == progress.remaining - c.value.quantity
                  && (if WorthAClip(r.policy.lotSize, shown, 0.0) then InLots(r.policy.lotSize, shown, c.value.quantity)
                      else c.value.quantity == progress.remaining))
  {
    ReleasableIsMayTrade(r, ctx);
    var shown := Min(display, progress.remaining);
    LimitIs(r, ctx, 0.0);
    ClipIsWorthIff(r.policy.lotSize, shown, 0.0);
    if shown >= 0.0 {
      RoundsDownToLots(r.policy.lotSize, shown);
      LotsNeverExceed(r.policy.lotSize, shown);
    } else {
      LotsOfNothing(r.policy.lotSize, shown);
    }
    hide Releasable, ToLot, WorthAClip, CollaredLimit, InLots;
  }

  /** Behind by at least the urgent share of the parent. */
  predicate Urgent(a: Algorithm, r: Request, due: real)
    requires a.AdaptiveLimit?
  {
    due >= a.urgency * r.parent.quantity
  }

  /** The adaptive algorithm sends like a scheduled one. It crosses once the schedule is ahead of fills by the urgent
      share of the parent, and rests at its offset before that. */
  lemma AdaptiveDecides(a: Algorithm, r: Request, s: Schedule, progress: Progress, ctx: Context)
    requires r.Valid() && a.AdaptiveLimit?
    ensures var c := NextChild(a, r, s, progress, ctx);
            var due := TargetBy(s, ctx.now) - progress.filled;
            var least := LeastOf(r.policy, ctx.volume, due, progress.remaining);
            && (c.Some? <==> MayTrade(r, ctx) && due > 0.0 && Sends(r.policy, least, progress.remaining)
                             && (Urgent(a, r, due) || Priceable(r, ctx)))
            && (c.Some? ==>
                  && c.value.tif == r.policy.tif && Amounts(r.policy, least, progress.remaining, c.value.quantity)
                  && (if Urgent(a, r, due) then AtMarket(r, c.value)
                      else c.value.orderType == Limit && c.value.limit == Some(LimitPrice(r, ctx, a.offset))))
  {
    ReleasableIsMayTrade(r, ctx);
    LimitIs(r, ctx, a.offset);
    ClipIs(r.policy, ctx.volume, TargetBy(s, ctx.now) - progress.filled, progress.remaining);
    ExecutableWhenTrading(r, ctx);
    AdaptiveBranches(a, r, s, progress, ctx);
    hide Releasable, MayTrade, Capped, LeastOf, Amounts, TargetBy, Sends, CollaredLimit, LimitPrice, Priceable, Urgent,
         NextAdaptive;
  }

  lemma AdaptiveBranches(a: Algorithm, r: Request, s: Schedule, progress: Progress, ctx: Context)
    requires r.Valid() && a.AdaptiveLimit?
    ensures var clip := Clip(r, s, progress, ctx);
            var limit := CollaredLimit(r, ctx, a.offset);
            NextAdaptive(a, r, s, progress, ctx)
            == if clip <= 0.0 then None
               else if Urgent(a, r, TargetBy(s, ctx.now) - progress.filled)
               then Some(Child(r, clip, Market, None, progress.released, 0.0))
               else if limit.None? then None else Some(Child(r, clip, Limit, limit, progress.released, 0.0))
  {
    UrgentIff(a, r, TargetBy(s, ctx.now) - progress.filled);
    hide TargetBy, Capped, CollaredLimit, Urgent;
  }

  lemma ExecutableWhenTrading(r: Request, ctx: Context)
    ensures MayTrade(r, ctx) ==> ctx.executable
  {
  }

  lemma UrgentIff(a: Algorithm, r: Request, due: real)
    requires a.AdaptiveLimit?
    ensures due / r.parent.quantity >= a.urgency <==> Urgent(a, r, due)
  {
    var share, quantity := due / r.parent.quantity, r.parent.quantity;
    assert share * quantity == due;
    if share >= a.urgency {
      AtMost(quantity, share, due, a.urgency);
    } else {
      Below(quantity, share, due, a.urgency);
    }
  }

  lemma Below(lot: real, q: real, want: real, x: real)
    requires lot > 0.0 && q * lot == want && q < x
    ensures want < x * lot
  {
    Algorithms.StrictTimes(q, x, lot);
  }
}
