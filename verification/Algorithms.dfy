/** The six execution algorithms: what they plan and what they would send at one instant. */
module Algorithms {
  import opened Types
  import opened Orders
  import opened Schedules

  /** Constraints that every algorithm shares. */
  datatype Policy = Policy(
    maxParticipation: real, minClip: real, maxDisplay: real, collar: real, tif: TimeInForce,
    respectHours: bool, openBuffer: Duration, closeBuffer: Duration, lotSize: real)

  /** The parent order and the half-open window in which it may be worked. */
  datatype Request = Request(
    parent: Order, windowBegin: Timestamp, windowEnd: Timestamp, policy: Policy, sliceCount: nat, profile: seq<real>)
  {
    predicate Valid() {
      && IsSet(windowBegin) && IsSet(windowEnd) && parent.times.decision <= windowBegin < windowEnd
      && 0.0 < policy.maxParticipation <= 1.0 && policy.minClip >= 0.0
    }
  }

  /** Everything an algorithm may see at one instant. */
  datatype Context = Context(
    now: Timestamp, executable: bool, bid: real, ask: real, volume: real, sessionOpen: Timestamp,
    sessionClose: Timestamp)
  {
    function Touch(side: Side): real { if side == Buy then ask else bid }
  }

  datatype Progress = Progress(filled: real, remaining: real, notional: real, costs: real, released: nat,
                               slicesFilled: nat)
  {
    /** Complete up to the tolerance. */
    predicate Complete(parentQuantity: real) { filled + TOLERANCE >= parentQuantity }
  }

  datatype ChildOrder = ChildOrder(
    instrument: InstrumentId, side: Side, quantity: real, orderType: OrderType, limit: Option<real>, tif: TimeInForce,
    sliceIndex: nat, hidden: real)
  {
    predicate Valid() {
      && instrument != INVALID_INSTRUMENT && quantity > 0.0
      && (orderType == Limit <==> limit.Some?) && (orderType == Limit || orderType == Market)
      && (limit.Some? ==> limit.value > 0.0)
    }
  }

  datatype Algorithm =
    | Immediate
    | TwapAlgorithm
    | VwapAlgorithm
    | Participation(rate: real)
    | Iceberg(display: real)
    | AdaptiveLimit(offset: real, urgency: real, slices: nat)

  // ---------------------------------------------------------------------------
  // Planning
  // ---------------------------------------------------------------------------

  predicate CanPlan(a: Algorithm, r: Request) {
    r.Valid() && (a.VwapAlgorithm? ==> GoodProfile(r.profile)) && (a.Iceberg? ==> a.display > 0.0)
  }

  /** The schedule, worked out once and before anything is sent. */
  method PlanSchedule(a: Algorithm, r: Request) returns (s: Result<Schedule, ScheduleError>)
    ensures s.Ok? <==> CanPlan(a, r)
    ensures s.Ok? ==> IsSchedule(s.value, r.parent.quantity, r.windowBegin, r.windowEnd)
  {
    if !r.Valid() { return Err(BadWindow); }
    match a
    case Immediate =>
      s := Twap(r.parent.quantity, r.windowBegin, r.windowEnd, 1);
    case TwapAlgorithm =>
      s := Twap(r.parent.quantity, r.windowBegin, r.windowEnd, if r.sliceCount < 1 then 1 else r.sliceCount);
    case VwapAlgorithm =>
      if r.profile == [] { return Err(NoVolume); }
      s := Vwap(r.parent.quantity, r.windowBegin, r.windowEnd, r.profile);
    case Participation(_) =>
      s := Twap(r.parent.quantity, r.windowBegin, r.windowEnd, 1);
    case Iceberg(display) =>
      if display <= 0.0 { return Err(ScheduleError.BadQuantity); }
      s := Twap(r.parent.quantity, r.windowBegin, r.windowEnd, 1);
    case AdaptiveLimit(_, _, slices) =>
      s := Twap(r.parent.quantity, r.windowBegin, r.windowEnd, if slices < 1 then 1 else slices);
  }

  // ---------------------------------------------------------------------------
  // Constraints
  // ---------------------------------------------------------------------------

  /** Whether anything may be released now: an executable market, continuous trading, inside the window. */
  predicate Releasable(r: Request, ctx: Context) {
    && ctx.executable
    && (r.policy.respectHours ==>
          && !(IsSet(ctx.sessionOpen) && ctx.now < ctx.sessionOpen + r.policy.openBuffer)
          && !(IsSet(ctx.sessionClose) && ctx.now >= ctx.sessionClose - r.policy.closeBuffer))
    && r.windowBegin <= ctx.now < r.windowEnd
  }

  /** Rounds toward zero. */
  function Trunc(x: real): int {
    if x >= 0.0 then x.Floor else -(-x).Floor
  }

  /** Rounds toward zero to whole lots; a lot size of zero or less means no rounding. */
  function ToLot(lot: real, want: real): real {
    if lot > 0.0 then Trunc(want / lot) as real * lot else want
  }

  /** The wanted quantity after the participation cap. */
  function Paced(p: Policy, volume: real, want: real): real {
    if volume > 0.0 then Min(want, volume * p.maxParticipation) else want
  }

  /** The wanted quantity after the participation cap, the display cap and lot rounding. */
  function Reduced(p: Policy, volume: real, want: real): real {
    var paced := Paced(p, volume, want);
    ToLot(p.lotSize, if p.maxDisplay > 0.0 then Min(paced, p.maxDisplay) else paced)
  }

  /** The quantity that policy permits out of what is desired. */
  function Capped(p: Policy, volume: real, desired: real, remaining: real): real {
    var want := Min(desired, remaining);
    if want <= 0.0 then 0.0
    else
      var reduced := Reduced(p, volume, want);
      if reduced >= p.minClip then Max(0.0, reduced)
      else if remaining > p.minClip then 0.0
      else Max(0.0, remaining)
  }

  /** The last piece of the parent, not worth a clip of its own once reduced. */
  predicate FinalResidue(p: Policy, volume: real, desired: real, remaining: real) {
    && Min(desired, remaining) > 0.0 && remaining <= p.minClip
    && Reduced(p, volume, Min(desired, remaining)) < p.minClip
  }

  lemma LotsNeverExceed(lot: real, want: real)
    requires want >= 0.0
    ensures 0.0 <= ToLot(lot, want) <= want
  {
    if lot > 0.0 {
      var q := want / lot;
      assert q * lot == want;
      assert q >= 0.0;
      Times(0.0, q.Floor as real, lot);
      Times(q.Floor as real, q, lot);
    }
  }

  lemma Times(a: real, b: real, c: real)
    requires a <= b && c >= 0.0
    ensures a * c <= b * c
  {
  }

  lemma StrictTimes(a: real, b: real, c: real)
    requires a < b && c > 0.0
    ensures a * c < b * c
  {
  }

  lemma ReducedBounds(p: Policy, volume: real, want: real)
    requires want > 0.0 && p.maxParticipation > 0.0
    ensures 0.0 <= Reduced(p, volume, want) <= want
    ensures volume > 0.0 ==> Reduced(p, volume, want) <= volume * p.maxParticipation
    ensures p.maxDisplay > 0.0 ==> Reduced(p, volume, want) <= p.maxDisplay
  {
    PacedBounds(p, volume, want);
    var paced := Paced(p, volume, want);
    LotsNeverExceed(p.lotSize, if p.maxDisplay > 0.0 then Min(paced, p.maxDisplay) else paced);
    hide ToLot, Paced;
  }

  lemma PacedBounds(p: Policy, volume: real, want: real)
    requires want > 0.0 && p.maxParticipation > 0.0
    ensures 0.0 <= Paced(p, volume, want) <= want
    ensures volume > 0.0 ==> Paced(p, volume, want) <= volume * p.maxParticipation
  {
    if volume > 0.0 {
      Times(0.0, volume, p.maxParticipation);
    }
  }

  /** A clip is never negative and never more than what remains; one that is sent is worth a clip, unless it is all that
      remains; and outside the final residue no cap is exceeded and nothing is sent ahead of what is desired. */
  lemma CapsHold(p: Policy, volume: real, desired: real, remaining: real)
    requires p.maxParticipation > 0.0 && p.minClip >= 0.0
    ensures var clip := Capped(p, volume, desired, remaining);
            && 0.0 <= clip <= Max(0.0, remaining)
            && (clip > 0.0 ==> clip >= p.minClip || clip == remaining)
            && (if FinalResidue(p, volume, desired, remaining) then clip == remaining
                else
                  && clip <= Max(0.0, desired)
                  && (volume > 0.0 ==> clip <= volume * p.maxParticipation)
                  && (p.maxDisplay > 0.0 ==> clip <= p.maxDisplay))
  {
    var want := Min(desired, remaining);
    if volume > 0.0 {
      Times(0.0, volume, p.maxParticipation);
    }
    if want > 0.0 {
      ReducedBounds(p, volume, want);
    }
    hide Reduced;
  }

  /** The participation cap is exceeded exactly when the final residue exceeds it. */
  lemma ParticipationCapBrokenIff(p: Policy, volume: real, desired: real, remaining: real)
    requires p.maxParticipation > 0.0 && p.minClip >= 0.0 && volume > 0.0
    ensures Capped(p, volume, desired, remaining) > volume * p.maxParticipation
            <==> FinalResidue(p, volume, desired, remaining) && remaining > volume * p.maxParticipation
  {
    CapsHold(p, volume, desired, remaining);
    hide Capped, FinalResidue;
  }

  /** So is the display cap. */
  lemma DisplayCapBrokenIff(p: Policy, volume: real, desired: real, remaining: real)
    requires p.maxParticipation > 0.0 && p.minClip >= 0.0 && p.maxDisplay > 0.0
    ensures Capped(p, volume, desired, remaining) > p.maxDisplay
            <==> FinalResidue(p, volume, desired, remaining) && remaining > p.maxDisplay
  {
    CapsHold(p, volume, desired, remaining);
    hide Capped, FinalResidue;
  }

  /** The default policy breaks the participation cap: a tenth of four shares traded is 0.4, and the half share that
      is left still goes out. */
  lemma ParticipationCapExample()
    ensures var p := Policy(0.1, 1.0, 0.0, 100.0, Day, true, 60_000_000_000, 60_000_000_000, 1.0);
            Capped(p, 4.0, 0.5, 0.5) == 0.5 && 4.0 * p.maxParticipation < 0.5
  {
  }

  /** A remainder no larger than a clip always goes out whole as soon as anything is desired, so an execution cannot
      be left holding it. */
  lemma ResidueGoesOutWhole(p: Policy, volume: real, desired: real, remaining: real)
    requires p.maxParticipation > 0.0 && desired > 0.0 && 0.0 < remaining <= p.minClip
    ensures Capped(p, volume, desired, remaining) == remaining
  {
    ReducedBounds(p, volume, Min(desired, remaining));
    hide Reduced;
  }

  // ---------------------------------------------------------------------------
  // Prices
  // ---------------------------------------------------------------------------

  /** Signed relative difference in basis points; against a zero reference there is none. */
  function ToBps(price: real, reference: real): real {
    if reference == 0.0 then 0.0 else (price / reference - 1.0) * 10000.0
  }

  /** A limit offset away from the touch, no further than the collar. */
  function CollaredLimit(r: Request, ctx: Context, offset: real): Option<real> {
    var side := r.parent.side;
    var touch := ctx.Touch(side);
    if !ctx.executable || touch <= 0.0 then None
    else
      var limit := ApplyBps(touch, offset, -SignOf(side));
      if Abs(ToBps(limit, touch)) > r.policy.collar then Some(ApplyBps(touch, r.policy.collar, -SignOf(side)))
      else Some(limit)
  }

  lemma BpsUndo(price: real, bps: real, direction: real)
    requires price != 0.0
    ensures ToBps(ApplyBps(price, bps, direction), price) == direction * bps
  {
  }

  /** The limit is within the collar, and a non-negative offset never puts it on the far side of the touch. */
  lemma CollarHolds(r: Request, ctx: Context, offset: real)
    requires r.policy.collar >= 0.0
    ensures var limit, touch := CollaredLimit(r, ctx, offset), ctx.Touch(r.parent.side);
            limit.Some? ==>
              && Abs(ToBps(limit.value, touch)) <= r.policy.collar
              && (offset >= 0.0 ==> if r.parent.side == Buy then limit.value <= touch else limit.value >= touch)
  {
    var touch := ctx.Touch(r.parent.side);
    if touch > 0.0 {
      BpsUndo(touch, offset, -SignOf(r.parent.side));
      BpsUndo(touch, r.policy.collar, -SignOf(r.parent.side));
      hide ToBps;
      Away(touch, offset);
      Away(touch, r.policy.collar);
    }
  }

  lemma Away(touch: real, bps: real)
    requires touch > 0.0
    ensures bps >= 0.0 ==> ApplyBps(touch, bps, -1.0) <= touch <= ApplyBps(touch, bps, 1.0)
  {
  }

  // ---------------------------------------------------------------------------
  // What each algorithm sends
  // ---------------------------------------------------------------------------

  /** The permitted part of what is due by now and not yet filled. */
  function Clip(r: Request, s: Schedule, progress: Progress, ctx: Context): real {
    Capped(r.policy, ctx.volume, TargetBy(s, ctx.now) - progress.filled, progress.remaining)
  }

  function Child(r: Request, quantity: real, orderType: OrderType, limit: Option<real>, index: nat,
                 hidden: real): ChildOrder
  {
    ChildOrder(r.parent.instrument, r.parent.side, quantity, orderType, limit, r.policy.tif, index, hidden)
  }

  function SliceIndex(s: Schedule, progress: Progress, now: Timestamp): nat {
    match SliceAt(s, now)
    case Some(slice) => slice.index
    case None => progress.released
  }

  /** Everything that remains, at once. */
  function NextImmediate(r: Request, progress: Progress, ctx: Context): Option<ChildOrder> {
    var clip := Capped(r.policy, ctx.volume, progress.remaining, progress.remaining);
    if clip <= 0.0 then None else Some(Child(r, clip, Market, None, progress.released, 0.0))
  }

  /** Whatever is behind the schedule; twap and vwap differ only in the schedule. */
  function NextScheduled(r: Request, s: Schedule, progress: Progress, ctx: Context): Option<ChildOrder> {
    var clip := Clip(r, s, progress, ctx);
    if clip <= 0.0 then None else Some(Child(r, clip, Market, None, SliceIndex(s, progress, ctx.now), 0.0))
  }

  /** The share of the volume that the participation algorithm allows itself. */
  function ShareOf(rate: real, p: Policy, volume: real): real {
    volume * Min(rate, p.maxParticipation)
  }

  /** A share of the volume that traded in the interval. */
  function NextParticipation(rate: real, r: Request, progress: Progress, ctx: Context): Option<ChildOrder> {
    if ctx.volume <= 0.0 then None
    else
      var want := ToLot(r.policy.lotSize, Min(ShareOf(rate, r.policy, ctx.volume), progress.remaining));
      if want < r.policy.minClip && progress.remaining > r.policy.minClip then None
      else
        var quantity := if want < r.policy.minClip then progress.remaining else want;
        if quantity <= 0.0 then None else Some(Child(r, quantity, Market, None, progress.released, 0.0))
  }

  /** One displayed clip at the touch; the rest is recorded as hidden. */
  function NextIceberg(display: real, r: Request, progress: Progress, ctx: Context): Option<ChildOrder> {
    var rounded := ToLot(r.policy.lotSize, Min(display, progress.remaining));
    var want := if rounded <= 0.0 then progress.remaining else rounded;
    if want <= 0.0 then None
    else
      var limit := CollaredLimit(r, ctx, 0.0);
      if limit.None? then None
      else Some(Child(r, want, Limit, limit, progress.released, Max(0.0, progress.remaining - want)))
  }

  /** Behind schedule by the urgency threshold it crosses; otherwise it rests at an offset from the touch. */
  function NextAdaptive(a: Algorithm, r: Request, s: Schedule, progress: Progress, ctx: Context): Option<ChildOrder>
    requires a.AdaptiveLimit?
  {
    var clip := Clip(r, s, progress, ctx);
    if clip <= 0.0 then None
    else
      var shortfall := (TargetBy(s, ctx.now) - progress.filled) / r.parent.quantity;
      if shortfall >= a.urgency then Some(Child(r, clip, Market, None, progress.released, 0.0))
      else
        var limit := CollaredLimit(r, ctx, a.offset);
        if limit.None? then None else Some(Child(r, clip, Limit, limit, progress.released, 0.0))
  }

  function NextChild(a: Algorithm, r: Request, s: Schedule, progress: Progress, ctx: Context): Option<ChildOrder> {
    if !Releasable(r, ctx) then None
    else
      match a
      case Immediate => NextImmediate(r, progress, ctx)
      case TwapAlgorithm => NextScheduled(r, s, progress, ctx)
      case VwapAlgorithm => NextScheduled(r, s, progress, ctx)
      case Participation(rate) => NextParticipation(rate, r, progress, ctx)
      case Iceberg(display) => NextIceberg(display, r, progress, ctx)
      case AdaptiveLimit(_, _, _) => NextAdaptive(a, r, s, progress, ctx)
  }

  /** On the parent's side and instrument, for a positive quantity that still remains of the parent. */
  predicate FitsParent(r: Request, progress: Progress, c: ChildOrder) {
    && c.instrument == r.parent.instrument && c.side == r.parent.side
    && 0.0 < c.quantity <= progress.remaining
  }

  lemma CappedChildFits(a: Algorithm, r: Request, s: Schedule, progress: Progress, ctx: Context)
    requires r.Valid()
    ensures var c := NextImmediate(r, progress, ctx); c.Some? ==> FitsParent(r, progress, c.value)
    ensures var c := NextScheduled(r, s, progress, ctx); c.Some? ==> FitsParent(r, progress, c.value)
    ensures a.AdaptiveLimit? ==>
              var c := NextAdaptive(a, r, s, progress, ctx); c.Some? ==> FitsParent(r, progress, c.value)
  {
    CapsHold(r.policy, ctx.volume, progress.remaining, progress.remaining);
    CapsHold(r.policy, ctx.volume, TargetBy(s, ctx.now) - progress.filled, progress.remaining);
    hide Capped, TargetBy, FinalResidue, CollaredLimit, SliceAt;
  }

  lemma ParticipationChildFits(rate: real, r: Request, progress: Progress, ctx: Context)
    requires r.Valid()
    ensures var c := NextParticipation(rate, r, progress, ctx); c.Some? ==> FitsParent(r, progress, c.value)
  {
  }

  lemma IcebergChildFits(display: real, r: Request, progress: Progress, ctx: Context)
    ensures var c := NextIceberg(display, r, progress, ctx);
            c.Some? ==> FitsParent(r, progress, c.value) && c.value.quantity + c.value.hidden == progress.remaining
  {
  }

  /** Whatever the algorithm, a child is sent only when release is allowed, and it fits the parent. */
  lemma ChildFitsParent(a: Algorithm, r: Request, s: Schedule, progress: Progress, ctx: Context)
    requires CanPlan(a, r)
    ensures var c := NextChild(a, r, s, progress, ctx);
            c.Some? ==> Releasable(r, ctx) && FitsParent(r, progress, c.value)
                        && (a.Iceberg? ==> c.value.quantity + c.value.hidden == progress.remaining)
  {
    hide NextImmediate, NextScheduled, NextParticipation, NextIceberg, NextAdaptive, Releasable;
    match a
    case Participation(rate) => ParticipationChildFits(rate, r, progress, ctx);
    case Iceberg(display) => IcebergChildFits(display, r, progress, ctx);
    case _ => CappedChildFits(a, r, s, progress, ctx);
  }

  lemma LotsOfNothing(lot: real, want: real)
    requires want <= 0.0
    ensures ToLot(lot, want) <= 0.0
  {
  }

  /** An iceberg shows more than its display size exactly when a lot is larger than the display size and more than
      the display size remains: it then shows the whole remainder. */
  lemma IcebergShowsTooMuchIff(display: real, r: Request, progress: Progress, ctx: Context)
    requires display > 0.0
    ensures var c := NextIceberg(display, r, progress, ctx);
            c.Some? ==>
              (c.value.quantity > display <==> display < r.policy.lotSize && progress.remaining > display)
  {
    var lot, want := r.policy.lotSize, Min(display, progress.remaining);
    hide CollaredLimit;
    if want > 0.0 {
      LotsNeverExceed(lot, want);
      if 0.0 < lot {
        RoundsToNothingIff(lot, want);
      }
    } else {
      LotsOfNothing(lot, want);
    }
    hide ToLot;
  }

  lemma RoundsToNothingIff(lot: real, want: real)
    requires lot > 0.0 && want > 0.0
    ensures ToLot(lot, want) == 0.0 <==> want < lot
  {
    var q := want / lot;
    assert q * lot == want && q > 0.0;
    if q < 1.0 {
      StrictTimes(q, 1.0, lot);
      assert q.Floor == 0;
    } else {
      Times(1.0, q, lot);
      assert q.Floor >= 1 && Trunc(q) == q.Floor;
      var t := q.Floor as real;
      Times(1.0, t, lot);
      assert ToLot(lot, want) == t * lot;
    }
  }

  /** Outside the final residue, a schedule-driven algorithm never sends more than it is behind. */
  lemma NeverAheadOfSchedule(r: Request, s: Schedule, progress: Progress, ctx: Context)
    requires r.Valid()
    requires !FinalResidue(r.policy, ctx.volume, TargetBy(s, ctx.now) - progress.filled, progress.remaining)
    ensures var c := NextScheduled(r, s, progress, ctx);
            c.Some? ==> progress.filled + c.value.quantity <= TargetBy(s, ctx.now)
  {
    CapsHold(r.policy, ctx.volume, TargetBy(s, ctx.now) - progress.filled, progress.remaining);
    hide TargetBy, Capped, FinalResidue, SliceAt;
  }

  /** The participation algorithm sends more than its share of the volume exactly when what remains is no more than a
      clip, is worth less than one once rounded, and is more than the share: it then goes out whole. */
  lemma ParticipationShareBrokenIff(rate: real, r: Request, progress: Progress, ctx: Context)
    requires r.Valid()
    ensures var c := NextParticipation(rate, r, progress, ctx);
            var share := ShareOf(rate, r.policy, ctx.volume);
            c.Some? ==>
              (c.value.quantity > share
               <==> progress.remaining <= r.policy.minClip && progress.remaining > share
                    && ToLot(r.policy.lotSize, Min(share, progress.remaining)) < r.policy.minClip)
  {
    ShareBrokenIff(ShareOf(rate, r.policy, ctx.volume), r.policy.lotSize, r.policy.minClip, progress.remaining);
    hide ToLot, Min, ShareOf;
  }

  lemma ShareBrokenIff(share: real, lot: real, minClip: real, remaining: real)
    requires minClip >= 0.0
    ensures var want := ToLot(lot, Min(share, remaining));
            var quantity := if want < minClip then remaining else want;
            (want >= minClip || remaining <= minClip) && quantity > 0.0 ==>
              (quantity > share <==> remaining <= minClip && remaining > share && want < minClip)
  {
    var wish := Min(share, remaining);
    if wish >= 0.0 {
      LotsNeverExceed(lot, wish);
    } else {
      LotsOfNothing(lot, wish);
    }
    hide ToLot;
  }
}
