/** The relation between the order book of record and the venue's pending orders, and the lemmas
    that each kind of change keeps it. */
module Agreement {
  import opened Types
  import opened Orders
  import opened OrderManagement
  import opened Venue

  type Pendings = seq<PendingOrder>
  type Stamps = map<OrderId, Timestamp>

  predicate Immediate(tif: TimeInForce) {
    tif == ImmediateOrCancel || tif == FillOrKill
  }

  /** A pending order stands on a live record with the same order and the same filled quantity, and
      it arrived strictly after its decision and its submission. */
  predicate Backed(p: PendingOrder, oms: OmsState, stamps: Stamps) {
    var id := p.order.id;
    && id in oms.records && id in stamps
    && var rec := oms.records[id];
      && p.order == rec.order.(times := rec.order.times.(arrival := p.arrivalTime))
      && rec.order.times.decision < p.arrivalTime && stamps[id] < p.arrivalTime
      && p.filled == rec.filled
      && (if rec.state == Working then p.filled == 0.0
          else rec.state == PartiallyFilled && 0.0 < p.filled && p.filled + TOLERANCE < rec.order.quantity)
  }

  /** Every record is in one of the five states an engine run can leave behind, with matching quantities. */
  predicate Settled(id: OrderId, rec: OrderRecord) {
    && rec.order.id == id && 0.0 <= rec.filled <= rec.order.quantity
    && match rec.state
      case Working => rec.filled == 0.0
      case PartiallyFilled => 0.0 < rec.filled < rec.order.quantity
      case Filled => rec.filled == rec.order.quantity
      case Cancelled => true
      case Rejected => rec.filled == 0.0
      case _ => false
  }

  predicate SettledBook(oms: OmsState) {
    forall id :: id in oms.records ==> Settled(id, oms.records[id])
  }

  predicate Distinct(ps: Pendings) {
    forall a, b :: 0 <= a < b < |ps| ==> ps[a].order.id != ps[b].order.id
  }

  predicate Holds(ps: Pendings, id: OrderId) {
    exists p :: p in ps && p.order.id == id
  }

  predicate AllBacked(ps: Pendings, oms: OmsState, stamps: Stamps) {
    forall p :: p in ps ==> Backed(p, oms, stamps)
  }

  /** What a live record must look like for its order still to be at the venue. */
  predicate Outstanding(rec: OrderRecord) {
    rec.state == Working || (rec.state == PartiallyFilled && rec.filled + TOLERANCE < rec.order.quantity)
  }

  /** Day and good-till-cancel orders are at the venue exactly while they are outstanding. */
  predicate Returned(ps: Pendings, oms: OmsState) {
    forall id :: id in oms.records && !Immediate(oms.records[id].order.tif) ==>
      (Holds(ps, id) <==> Outstanding(oms.records[id]))
  }

  predicate Agree(ps: Pendings, oms: OmsState, stamps: Stamps) {
    SettledBook(oms) && Distinct(ps) && AllBacked(ps, oms, stamps) && Returned(ps, oms)
  }

  // ---------------------------------------------------------------------------
  // List plumbing
  // ---------------------------------------------------------------------------

  lemma DistinctAround(kept: Pendings, mid: Pendings, tail: Pendings)
    requires Distinct(kept + mid + tail)
    ensures Distinct(kept + tail)
    ensures forall p, q :: p in mid && q in kept + tail ==> p.order.id != q.order.id
  {
    var all := kept + mid + tail;
    forall a, b | 0 <= a < b < |kept + tail|
      ensures (kept + tail)[a].order.id != (kept + tail)[b].order.id
    {
      var a' := if a < |kept| then a else a + |mid|;
      var b' := if b < |kept| then b else b + |mid|;
      assert all[a'] == (kept + tail)[a] && all[b'] == (kept + tail)[b];
    }
    forall p, q | p in mid && q in kept + tail
      ensures p.order.id != q.order.id
    {
      var i :| 0 <= i < |mid| && mid[i] == p;
      var j :| 0 <= j < |kept + tail| && (kept + tail)[j] == q;
      var j' := if j < |kept| then j else j + |mid|;
      assert all[|kept| + i] == p && all[j'] == q;
    }
  }

  lemma HoldsAround(kept: Pendings, mid: Pendings, tail: Pendings, id: OrderId)
    ensures Holds(kept + mid + tail, id) <==> Holds(mid, id) || Holds(kept + tail, id)
  {
  }

  lemma HoldsOne(p: PendingOrder, id: OrderId)
    ensures Holds([p], id) <==> p.order.id == id
  {
  }

  // ---------------------------------------------------------------------------
  // Each kind of change
  // ---------------------------------------------------------------------------

  /** A record changes under one id, and at most the pending order of that id changes with it. */
  lemma ChangeOne(kept: Pendings, old_: Pendings, new_: Pendings, tail: Pendings,
                  oms: OmsState, oms': OmsState, stamps: Stamps, stamps': Stamps, id: OrderId)
    requires Agree(kept + old_ + tail, oms, stamps)
    requires |old_| <= 1 && |new_| <= 1 && id in oms'.records
    requires forall p :: p in old_ + new_ ==> p.order.id == id
    requires old_ == [] ==> !Holds(kept + tail, id)
    requires oms'.records == oms.records[id := oms'.records[id]]
    requires forall k :: k in stamps && k != id ==> k in stamps' && stamps'[k] == stamps[k]
    requires Settled(id, oms'.records[id])
    requires forall p :: p in new_ ==> Backed(p, oms', stamps')
    requires !Immediate(oms'.records[id].order.tif) ==> (new_ != [] <==> Outstanding(oms'.records[id]))
    ensures Agree(kept + new_ + tail, oms', stamps')
  {
    DistinctAround(kept, old_, tail);
    assert !Holds(kept + tail, id) by {
      if old_ != [] {
        assert old_[0] in old_ && old_[0] in old_ + new_;
      }
    }
    if new_ == [] {
      assert kept + new_ + tail == kept + tail;
    } else {
      assert new_ == [new_[0]] && new_[0] in new_ && new_[0] in old_ + new_;
      DistinctInserted(kept, new_[0], tail);
    }
    forall p | p in kept + new_ + tail
      ensures Backed(p, oms', stamps')
    {
      if p !in new_ {
        assert p in kept + tail && p in kept + old_ + tail;
        assert p.order.id != id;
      }
    }
    forall k | k in oms'.records && !Immediate(oms'.records[k].order.tif)
      ensures Holds(kept + new_ + tail, k) <==> Outstanding(oms'.records[k])
    {
      HoldsAround(kept, new_, tail, k);
      HoldsAround(kept, old_, tail, k);
      if new_ != [] { HoldsOne(new_[0], k); }
      if old_ != [] { HoldsOne(old_[0], k); assert old_[0] in old_ + new_; assert old_ == [old_[0]]; }
    }
  }

  lemma DistinctInserted(kept: Pendings, p: PendingOrder, tail: Pendings)
    requires Distinct(kept + tail) && !Holds(kept + tail, p.order.id)
    ensures Distinct(kept + [p] + tail)
  {
    var all := kept + [p] + tail;
    forall a, b | 0 <= a < b < |all|
      ensures all[a].order.id != all[b].order.id
    {
      if a != |kept| && b != |kept| {
        var a' := if a < |kept| then a else a - 1;
        var b' := if b < |kept| then b else b - 1;
        assert (kept + tail)[a'] == all[a] && (kept + tail)[b'] == all[b];
      } else {
        var c := if a == |kept| then b else a;
        assert all[c] == (kept + tail)[if c < |kept| then c else c - 1];
        assert all[c] in kept + tail;
      }
    }
  }

  /** Resting, with or without its stop waking up, changes nothing that the record shows. */
  lemma RestKeepsAgreement(kept: Pendings, p: PendingOrder, q: PendingOrder, tail: Pendings, oms: OmsState,
                           stamps: Stamps)
    requires Agree(kept + [p] + tail, oms, stamps) && (q == p || q == Awake(p))
    ensures Agree(kept + [q] + tail, oms, stamps)
  {
    assert p in kept + [p] + tail;
    var id := p.order.id;
    assert Backed(q, oms, stamps);
    assert !Immediate(oms.records[id].order.tif) ==> Outstanding(oms.records[id]);
    ChangeOne(kept, [p], [q], tail, oms, oms, stamps, stamps, id);
  }

  /** Killing a fill-or-kill order at the venue leaves its record live, which agreement allows. */
  lemma KillKeepsAgreement(kept: Pendings, p: PendingOrder, tail: Pendings, oms: OmsState, stamps: Stamps)
    requires Agree(kept + [p] + tail, oms, stamps) && Immediate(p.order.tif)
    ensures Agree(kept + tail, oms, stamps)
  {
    assert p in kept + [p] + tail;
    ChangeOne(kept, [p], [], tail, oms, oms, stamps, stamps, p.order.id);
    assert kept + [] + tail == kept + tail;
  }

  /** A fill of the pending order p for a positive quantity within what remains. */
  predicate FillFor(p: PendingOrder, f: Fill) {
    && f.orderId == p.order.id && f.instrument == p.order.instrument && f.side == p.order.side
    && 0.0 < f.quantity <= p.Remaining() && p.arrivalTime <= f.times.fill
  }

  /** The order manager cannot refuse a fill of a backed pending order. */
  lemma BackedFillIsAccepted(p: PendingOrder, f: Fill, oms: OmsState, stamps: Stamps)
    requires Backed(p, oms, stamps) && Settled(p.order.id, oms.records[p.order.id]) && FillFor(p, f)
    ensures Filling(oms, f).1.Ok?
    ensures var rec, after := oms.records[f.orderId], Filling(oms, f).0.records[f.orderId];
            && Filling(oms, f).0.records == oms.records[f.orderId := after]
            && after == Booked(rec, f).(state := if after.filled == rec.order.quantity then Filled else PartiallyFilled)
            && Settled(f.orderId, after)
  {
  }

  /** Trading at the venue and then booking the fill keeps the agreement, whether a remainder stays or not. */
  lemma FillKeepsAgreement(kept: Pendings, p: PendingOrder, f: Fill, left: Option<PendingOrder>, tail: Pendings,
                           oms: OmsState, stamps: Stamps)
    requires Agree(kept + [p] + tail, oms, stamps) && FillFor(p, f)
    requires left == LeftAfter(p, f.quantity)
    ensures Filling(oms, f).1.Ok?
    ensures Agree(kept + OptionSeq(left) + tail, Filling(oms, f).0, stamps)
  {
    assert p in kept + [p] + tail;
    BackedFillIsAccepted(p, f, oms, stamps);
    var oms' := Filling(oms, f).0;
    var rec := oms'.records[f.orderId];
    if left.Some? {
      assert Backed(left.value, oms', stamps);
    }
    ChangeOne(kept, [p], OptionSeq(left), tail, oms, oms', stamps, stamps, f.orderId);
  }

  /** Accepting a new order: working in the book, pending at the venue. */
  lemma SubmitKeepsAgreement(ps: Pendings, oms: OmsState, oms': OmsState, stamps: Stamps, p: PendingOrder,
                             at: Timestamp)
    requires Agree(ps, oms, stamps) && p.order.id !in oms.records
    requires p.order.id in oms'.records && oms'.records == oms.records[p.order.id := oms'.records[p.order.id]]
    requires Backed(p, oms', stamps[p.order.id := at]) && oms'.records[p.order.id].state == Working
    ensures Agree(ps + [p], oms', stamps[p.order.id := at])
  {
    assert ps + [] + [] == ps && ps + [p] + [] == ps + [p];
    ChangeOne(ps, [], [p], [], oms, oms', stamps, stamps[p.order.id := at], p.order.id);
  }

  /** An order that the venue refuses ends Rejected and never becomes pending. */
  lemma RejectKeepsAgreement(ps: Pendings, oms: OmsState, oms': OmsState, stamps: Stamps, id: OrderId)
    requires Agree(ps, oms, stamps) && id !in oms.records
    requires id in oms'.records && oms'.records == oms.records[id := oms'.records[id]]
    requires Settled(id, oms'.records[id]) && oms'.records[id].state == Rejected
    ensures Agree(ps, oms', stamps)
  {
    assert ps + [] + [] == ps;
    ChangeOne(ps, [], [], [], oms, oms', stamps, stamps, id);
  }

  /** An order the venue can cancel is one the order manager can cancel, and both do. */
  lemma CancelKeepsAgreement(v: VenueState, oms: OmsState, stamps: Stamps, id: OrderId)
    requires Agree(v.pending, oms, stamps)
    ensures Cancelling(v, id).1.Ok? <==> Holds(v.pending, id)
    ensures Cancelling(v, id).1.Ok? ==>
              Transitioned(oms, id, Cancelled).1.Ok?
              && Agree(Cancelling(v, id).0.pending, Transitioned(oms, id, Cancelled).0, stamps)
  {
    hide Agree, IndexOf;
    var i := IndexOf(v.pending, id);
    if i < |v.pending| {
      var kept, p, tail := v.pending[..i], v.pending[i], v.pending[i + 1..];
      assert v.pending == kept + [p] + tail;
      assert p in v.pending;
      PendingIsCancellable(v.pending, p, oms, stamps);
      hide Transitioned, Holds;
      ChangeOne(kept, [p], [], tail, oms, Transitioned(oms, id, Cancelled).0, stamps, stamps, id);
      assert kept + [] + tail == kept + tail;
    }
  }

  /** The record of a pending order can be cancelled, and only that record changes. */
  lemma PendingIsCancellable(ps: Pendings, p: PendingOrder, oms: OmsState, stamps: Stamps)
    requires Agree(ps, oms, stamps) && p in ps
    ensures var (after, r) := Transitioned(oms, p.order.id, Cancelled);
            && r.Ok? && p.order.id in after.records
            && after.records == oms.records[p.order.id := after.records[p.order.id]]
            && Settled(p.order.id, after.records[p.order.id]) && !Outstanding(after.records[p.order.id])
  {
  }
}
