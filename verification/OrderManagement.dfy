/** The order book of record: identity, lifecycle state machine and fill accounting per order. */
module OrderManagement {
  import opened Types
  import opened Orders
  import opened Sums

  datatype OrderState =
    | New | PendingNew | Working | PartiallyFilled | Filled
    | PendingCancel | Cancelled | Rejected | Expired

  predicate IsTerminal(s: OrderState) {
    s == Filled || s == Cancelled || s == Rejected || s == Expired
  }

  predicate IsLegalTransition(from: OrderState, to: OrderState) {
    if IsTerminal(from) || from == to then false
    else match from
      case New => to == PendingNew || to == Rejected || to == Cancelled
      case PendingNew =>
        to == Working || to == Rejected || to == PartiallyFilled || to == Filled || to == Cancelled
      case Working =>
        to == PartiallyFilled || to == Filled || to == PendingCancel || to == Cancelled || to == Expired
      case PartiallyFilled =>
        to == Filled || to == PendingCancel || to == Cancelled || to == Expired
      case PendingCancel => to == Cancelled || to == Filled || to == PartiallyFilled
      case _ => false
  }

  datatype OrderRecord = OrderRecord(order: Order, state: OrderState, filled: real, notional: real, cost: real)
  {
    function Remaining(): real { order.quantity - filled }

    predicate Complete() { filled >= order.quantity }

    predicate Live() { !IsTerminal(state) }
  }

  datatype OmsError =
    | NoOrderId | DuplicateId | UnknownParent | UnknownOrder | IllegalTransition
    | TerminalState | WrongInstrumentOrSide | Overfill | FillNotAfterDecision

  /** The value of an order manager: its records and its id counter. */
  datatype OmsState = OmsState(records: map<OrderId, OrderRecord>, next: nat)

  type OmsOutcome = (OmsState, Result<OrderId, OmsError>)

  function Submitted(s: OmsState, o: Order): OmsOutcome {
    if o.id == NO_ORDER then (s, Err(NoOrderId))
    else if o.id in s.records then (s, Err(DuplicateId))
    else if o.parent != NO_ORDER && o.parent !in s.records then (s, Err(UnknownParent))
    else (OmsState(s.records[o.id := OrderRecord(o, New, 0.0, 0.0, 0.0)],
                   if s.next < o.id + 1 then o.id + 1 else s.next), Ok(o.id))
  }

  function Transitioned(s: OmsState, id: OrderId, to: OrderState): OmsOutcome {
    if id !in s.records then (s, Err(UnknownOrder))
    else if !IsLegalTransition(s.records[id].state, to) then (s, Err(IllegalTransition))
    else (s.(records := s.records[id := s.records[id].(state := to)]), Ok(id))
  }

  /** The record after a fill's quantities are booked and before its state is. */
  function Booked(rec: OrderRecord, f: Fill): OrderRecord {
    rec.(filled := rec.filled + f.quantity,
         notional := rec.notional + f.price * f.quantity,
         cost := rec.cost + f.TotalCost())
  }

  function FillState(rec: OrderRecord): OrderState {
    if rec.Complete() then Filled else PartiallyFilled
  }

  function Filling(s: OmsState, f: Fill): OmsOutcome {
    if f.orderId !in s.records then (s, Err(UnknownOrder))
    else
      var rec := s.records[f.orderId];
      if IsTerminal(rec.state) then (s, Err(TerminalState))
      else if f.instrument != rec.order.instrument || f.side != rec.order.side then (s, Err(WrongInstrumentOrSide))
      else if rec.filled + f.quantity > rec.order.quantity + TOLERANCE then (s, Err(Overfill))
      else if f.times.fill <= rec.order.times.decision then (s, Err(FillNotAfterDecision))
      else
        var booked := Booked(rec, f);
        var target := FillState(booked);
        if rec.state != target && !IsLegalTransition(rec.state, target)
        then (s.(records := s.records[f.orderId := booked]), Err(IllegalTransition))
        else (s.(records := s.records[f.orderId := booked.(state := target)]), Ok(f.orderId))
  }

  function Replaced(s: OmsState, original: OrderId, replacement: Order): OmsOutcome {
    if original !in s.records then (s, Err(UnknownOrder))
    else
      var rec := s.records[original];
      if IsTerminal(rec.state) then (s, Err(TerminalState))
      else if replacement.instrument != rec.order.instrument || replacement.side != rec.order.side
      then (s, Err(WrongInstrumentOrSide))
      else
        var (cancelled, outcome) := Transitioned(s, original, Cancelled);
        if outcome.Err? then (cancelled, outcome) else Submitted(cancelled, replacement)
  }

  class OrderManager {
    var records: map<OrderId, OrderRecord>
    var next: nat

    ghost function State(): OmsState
      reads this
    {
      OmsState(records, next)
    }

    constructor ()
      ensures State() == OmsState(map[], 1)
    {
      records, next := map[], 1;
    }

    method NextId() returns (id: OrderId)
      modifies this
      ensures id == old(next) && State() == old(State()).(next := old(next) + 1)
    {
      id := next;
      next := next + 1;
    }

    method Submit(o: Order) returns (r: Result<OrderId, OmsError>)
      modifies this
      ensures (State(), r) == Submitted(old(State()), o)
    {
      if o.id == NO_ORDER { return Err(NoOrderId); }
      if o.id in records { return Err(DuplicateId); }
      if o.parent != NO_ORDER && o.parent !in records { return Err(UnknownParent); }
      if next < o.id + 1 { next := o.id + 1; }
      records := records[o.id := OrderRecord(o, New, 0.0, 0.0, 0.0)];
      return Ok(o.id);
    }

    method Transition(id: OrderId, to: OrderState) returns (r: Result<OrderId, OmsError>)
      modifies this
      ensures (State(), r) == Transitioned(old(State()), id, to)
    {
      if id !in records { return Err(UnknownOrder); }
      var rec := records[id];
      if !IsLegalTransition(rec.state, to) { return Err(IllegalTransition); }
      records := records[id := rec.(state := to)];
      return Ok(id);
    }

    /** Books the quantities first and looks at the state machine last, as the source does. */
    method ApplyFill(f: Fill) returns (r: Result<OrderId, OmsError>)
      modifies this
      ensures (State(), r) == Filling(old(State()), f)
    {
      if f.orderId !in records { return Err(UnknownOrder); }
      var rec := records[f.orderId];
      if IsTerminal(rec.state) { return Err(TerminalState); }
      if f.instrument != rec.order.instrument || f.side != rec.order.side { return Err(WrongInstrumentOrSide); }
      var after := rec.filled + f.quantity;
      if after > rec.order.quantity + TOLERANCE { return Err(Overfill); }
      if f.times.fill <= rec.order.times.decision { return Err(FillNotAfterDecision); }

      rec := rec.(filled := after);
      rec := rec.(notional := rec.notional + f.price * f.quantity);
      rec := rec.(cost := rec.cost + f.TotalCost());
      records := records[f.orderId := rec];
      assert rec == Booked(old(records)[f.orderId], f);

      var target := if rec.Complete() then Filled else PartiallyFilled;
      if rec.state != target {
        if !IsLegalTransition(rec.state, target) { return Err(IllegalTransition); }
        rec := rec.(state := target);
        records := records[f.orderId := rec];
      }
      assert records == old(records)[f.orderId := rec];
      return Ok(f.orderId);
    }

    method CancelReplace(original: OrderId, replacement: Order) returns (r: Result<OrderId, OmsError>)
      modifies this
      ensures (State(), r) == Replaced(old(State()), original, replacement)
    {
      if original !in records { return Err(UnknownOrder); }
      var rec := records[original];
      if IsTerminal(rec.state) { return Err(TerminalState); }
      if replacement.instrument != rec.order.instrument || replacement.side != rec.order.side {
        return Err(WrongInstrumentOrSide);
      }
      r := Transition(original, Cancelled);
      if r.Ok? {
        r := Submit(replacement);
      }
    }

    /** Signed remaining quantity over the live orders of an instrument. */
    method ExposureOf(instrument: InstrumentId) returns (total: real)
      ensures total == Exposure(records, instrument)
    {
      hide SumOver;
      total := 0.0;
      var book := records;
      var rest := book.Keys;
      ghost var term := ExposureTerm(book, instrument);
      while rest != {}
        invariant rest <= book.Keys
        invariant total + SumOver(rest, term) == SumOver(book.Keys, term)
        decreases |rest|
      {
        var k :| k in rest;
        SumTakeOut(rest, term, k);
        var rec := book[k];
        ghost var before := total;
        if rec.order.instrument == instrument && !IsTerminal(rec.state) {
          total := total + rec.Remaining() * SignOf(rec.order.side);
        }
        assert total == before + term(k);
        rest := rest - {k};
      }
      SumNone(term);
    }
  }

  /** What one record contributes to the exposure of an instrument. */
  function Contribution(rec: OrderRecord, instrument: InstrumentId): real {
    if rec.order.instrument == instrument && rec.Live() then rec.Remaining() * SignOf(rec.order.side) else 0.0
  }

  function ExposureAt(records: map<OrderId, OrderRecord>, instrument: InstrumentId, k: OrderId): real {
    if k in records then Contribution(records[k], instrument) else 0.0
  }

  ghost function ExposureTerm(records: map<OrderId, OrderRecord>, instrument: InstrumentId): nat -> real {
    (k: nat) => ExposureAt(records, instrument, k)
  }

  ghost function Exposure(records: map<OrderId, OrderRecord>, instrument: InstrumentId): real {
    SumOver(records.Keys, ExposureTerm(records, instrument))
  }

  // ---------------------------------------------------------------------------
  // What the state machine guarantees
  // ---------------------------------------------------------------------------

  /** A record that an order manager can hold, reached by its own operations from New. */
  predicate SoundRecord(rec: OrderRecord) {
    && 0.0 <= rec.filled <= rec.order.quantity + TOLERANCE
    && (rec.state == Filled ==> rec.Complete())
    && (rec.state == New || rec.state == PendingNew || rec.state == Working ==> rec.filled == 0.0)
  }

  predicate SoundBook(s: OmsState) {
    forall id :: id in s.records ==>
      id != NO_ORDER && id < s.next && s.records[id].order.id == id && SoundRecord(s.records[id])
  }

  /** Terminal states are final: no operation changes the state or the quantities of a finished order. */
  lemma TerminalIsFinal(s: OmsState, id: OrderId, o: Order, to: OrderState, f: Fill, original: OrderId)
    requires id in s.records && IsTerminal(s.records[id].state)
    ensures id in Submitted(s, o).0.records && Submitted(s, o).0.records[id] == s.records[id]
    ensures Transitioned(s, original, to).0.records[id] == s.records[id]
    ensures Filling(s, f).0.records[id] == s.records[id]
    ensures id in Replaced(s, original, o).0.records && Replaced(s, original, o).0.records[id] == s.records[id]
  {
    NoWayOut(s.records[id].state, to);
    NoWayOut(s.records[id].state, Cancelled);
    hide IsLegalTransition, IsTerminal, Booked, FillState;
  }

  lemma NoWayOut(from: OrderState, to: OrderState)
    requires IsTerminal(from)
    ensures !IsLegalTransition(from, to)
  {
  }

  /** The one refusal that has already changed the record: a fill for an order still in New.
      Every other refusal leaves the book as it was. */
  lemma RefusedFillChangesTheBookOnlyInNew(s: OmsState, f: Fill)
    requires f.quantity > 0.0 && Filling(s, f).1.Err?
    ensures Filling(s, f).0 != s <==>
            f.orderId in s.records && s.records[f.orderId].state == New && Filling(s, f).1.error == IllegalTransition
  {
  }

  /** The state machine, read by where an order can come from. */
  lemma EnteredFrom(from: OrderState, to: OrderState)
    ensures IsLegalTransition(from, to)
            <==> match to
                 case New => false
                 case PendingNew => from == New
                 case Working => from == PendingNew
                 case Rejected => from == New || from == PendingNew
                 case PartiallyFilled => from == PendingNew || from == Working || from == PendingCancel
                 case Filled => !IsTerminal(from) && from != New
                 case PendingCancel | Expired => from == Working || from == PartiallyFilled
                 case Cancelled => !IsTerminal(from)
  {
  }

  /** How far along its life an order is; a partly filled order and one being cancelled are equally far. */
  function Progress(s: OrderState): nat {
    match s
    case New => 0
    case PendingNew => 1
    case Working => 2
    case PartiallyFilled | PendingCancel => 3
    case _ => 4
  }

  /** An order never goes back: each move takes it further, but for the two moves between partly filled and being
      cancelled, which can alternate. */
  lemma LifeGoesForward(from: OrderState, to: OrderState)
    requires IsLegalTransition(from, to)
    ensures Progress(from) < Progress(to) || {from, to} == {PartiallyFilled, PendingCancel}
  {
  }

  /** A fill is accepted exactly when its order is with the venue, it is on the order's instrument and side, it keeps
      the filled quantity within the order's by a billionth of a share, and it comes after the decision. */
  lemma FillAcceptedIff(s: OmsState, f: Fill)
    ensures Filling(s, f).1.Ok?
            <==> && f.orderId in s.records
                 && var rec := s.records[f.orderId];
                    && (rec.state == PendingNew || rec.state == Working || rec.state == PartiallyFilled
                        || rec.state == PendingCancel)
                    && f.instrument == rec.order.instrument && f.side == rec.order.side
                    && rec.filled + f.quantity - rec.order.quantity <= 0.000000001
                    && rec.order.times.decision < f.times.fill
  {
  }

  /** A booked fill is exact: one record changes, by the fill's quantity, notional and cost, and the
      record turns Filled exactly when nothing remains. */
  lemma AcceptedFillIsBooked(s: OmsState, f: Fill)
    requires Filling(s, f).1.Ok?
    ensures var before, after := s.records[f.orderId], Filling(s, f).0.records[f.orderId];
            && after.filled - before.filled == f.quantity
            && after.notional - before.notional == f.price * f.quantity
            && after.cost - before.cost == f.TotalCost()
            && after.order == before.order
            && (after.state == Filled <==> after.Remaining() <= 0.0)
    ensures forall id :: id in s.records && id != f.orderId ==> Filling(s, f).0.records[id] == s.records[id]
    ensures Filling(s, f).0.records.Keys == s.records.Keys
  {
  }

  /** A replacement leaves at most one of the two orders live, whatever the submit then says. */
  lemma ReplaceNeverLeavesBothLive(s: OmsState, original: OrderId, replacement: Order)
    requires original in s.records && replacement.id != original
    ensures var (after, outcome) := Replaced(s, original, replacement);
            && (outcome.Ok? ==> after.records[original].state == Cancelled
                                && after.records[replacement.id].state == New)
            && (outcome.Err? ==> after.records.Keys == s.records.Keys)
  {
  }

  /** The atomic pair is not all-or-nothing: it ends with the original cancelled and no replacement
      exactly when the original was live and the replacement's own submit is refused. */
  lemma FailedReplaceStillCancels(s: OmsState, original: OrderId, replacement: Order)
    requires original in s.records && s.records[original].order.instrument == replacement.instrument
    requires s.records[original].order.side == replacement.side
    ensures var (after, outcome) := Replaced(s, original, replacement);
            outcome.Err? && after != s <==>
              s.records[original].Live()
              && (replacement.id in s.records
                  || (replacement.parent != NO_ORDER && replacement.parent !in s.records))
  {
  }

  /** Book soundness is kept by every operation. */
  lemma SubmitKeepsTheBookSound(s: OmsState, o: Order)
    requires SoundBook(s)
    ensures SoundBook(Submitted(s, o).0)
  {
  }

  /** A transition keeps the book sound exactly when it is not an accepted one to Filled of a record that is not
      complete. */
  lemma TransitionKeepsTheBookSoundIff(s: OmsState, id: OrderId, to: OrderState)
    requires SoundBook(s)
    ensures SoundBook(Transitioned(s, id, to).0)
            <==> !(to == Filled && Transitioned(s, id, to).1.Ok? && !s.records[id].Complete())
  {
    hide SoundRecord, IsLegalTransition;
    if id in s.records && IsLegalTransition(s.records[id].state, to) {
      var after := s.records[id].(state := to);
      MovedRecordIsSoundIff(s.records[id], to);
      assert Transitioned(s, id, to).0.records == s.records[id := after];
      OneRecordDecides(s, id, after);
    }
  }

  lemma MovedRecordIsSoundIff(rec: OrderRecord, to: OrderState)
    requires SoundRecord(rec) && IsLegalTransition(rec.state, to)
    ensures SoundRecord(rec.(state := to)) <==> !(to == Filled && !rec.Complete())
  {
  }

  /** With one record changed, a sound book is sound again exactly when that record is. */
  lemma OneRecordDecides(s: OmsState, id: OrderId, after: OrderRecord)
    requires SoundBook(s) && id in s.records && after.order == s.records[id].order
    ensures SoundBook(s.(records := s.records[id := after])) <==> SoundRecord(after)
  {
    hide SoundRecord;
    var t := s.(records := s.records[id := after]);
    assert t.records[id] == after;
  }

  /** A fill keeps the book sound exactly when it is not one refused in New, whose quantities stay booked. */
  lemma FillKeepsTheBookSoundIff(s: OmsState, f: Fill)
    requires SoundBook(s) && f.quantity > 0.0
    ensures SoundBook(Filling(s, f).0)
            <==> !(Filling(s, f).1 == Err(IllegalTransition) && s.records[f.orderId].state == New)
  {
    if f.orderId in s.records && Filling(s, f).0 != s {
      var before, after := s.records[f.orderId], Filling(s, f).0.records[f.orderId];
      FilledRecordIsSoundIff(s, f);
      assert Filling(s, f).0 == s.(records := s.records[f.orderId := after]);
      OneRecordDecides(s, f.orderId, after);
      hide SoundRecord, SoundBook;
      if Filling(s, f).1.Err? {
        RefusedFillChangesTheBookOnlyInNew(s, f);
      }
      hide Filling;
    }
  }

  lemma FilledRecordIsSoundIff(s: OmsState, f: Fill)
    requires f.orderId in s.records && SoundRecord(s.records[f.orderId]) && f.quantity > 0.0 && Filling(s, f).0 != s
    ensures f.orderId in Filling(s, f).0.records
    ensures var after := Filling(s, f).0.records[f.orderId];
            && after.order == s.records[f.orderId].order
            && (SoundRecord(after) <==> Filling(s, f).1.Ok?)
  {
  }

  lemma ReplaceKeepsTheBookSound(s: OmsState, original: OrderId, replacement: Order)
    requires SoundBook(s)
    ensures SoundBook(Replaced(s, original, replacement).0)
  {
    if original in s.records {
      TransitionKeepsTheBookSoundIff(s, original, Cancelled);
      SubmitKeepsTheBookSound(Transitioned(s, original, Cancelled).0, replacement);
    }
  }

  /** On a sound book the counter is ahead of every id in use, so the next id is free. */
  lemma NextIdIsFree(s: OmsState)
    requires SoundBook(s)
    ensures s.next !in s.records
  {
  }

  /** Submitting adds the order's signed quantity to the exposure of its instrument and to no other. */
  lemma SubmitAddsExposure(s: OmsState, o: Order, instrument: InstrumentId)
    requires Submitted(s, o).1.Ok?
    ensures Exposure(Submitted(s, o).0.records, instrument)
            == Exposure(s.records, instrument) + (if o.instrument == instrument then o.SignedQuantity() else 0.0)
  {
    var t := Submitted(s, o).0;
    assert t.records == s.records[o.id := OrderRecord(o, New, 0.0, 0.0, 0.0)] && o.id !in s.records;
    hide Submitted;
    ExposureChanges(s.records, o.id, OrderRecord(o, New, 0.0, 0.0, 0.0), instrument);
  }

  /** A fill moves exposure into the position: the instrument's exposure falls by the signed quantity
      filled, up to the tolerance remainder that an over-complete order leaves behind. */
  lemma FillReducesExposure(s: OmsState, f: Fill)
    requires Filling(s, f).1.Ok?
    ensures var t := Filling(s, f).0;
            Exposure(t.records, f.instrument) - Exposure(s.records, f.instrument)
            == (if t.records[f.orderId].Live() then -f.SignedQuantity()
                else -(s.records[f.orderId].Remaining() * SignOf(f.side)))
  {
    AcceptedFillIsBooked(s, f);
    FilledBefore(s, f);
    var t := Filling(s, f).0;
    var before, after := s.records[f.orderId], t.records[f.orderId];
    assert t.records == s.records[f.orderId := after];
    hide Filling;
    assert after.Remaining() == before.Remaining() - f.quantity;
    ExposureChanges(s.records, f.orderId, after, f.instrument);
  }

  lemma FilledBefore(s: OmsState, f: Fill)
    requires Filling(s, f).1.Ok?
    ensures f.orderId in s.records
    ensures var rec := s.records[f.orderId];
            rec.Live() && rec.order.instrument == f.instrument && rec.order.side == f.side
  {
  }

  lemma ExposureChanges(records: map<OrderId, OrderRecord>, id: OrderId, rec: OrderRecord, instrument: InstrumentId)
    ensures Exposure(records[id := rec], instrument)
            == Exposure(records, instrument) + Contribution(rec, instrument)
               - if id in records then Contribution(records[id], instrument) else 0.0
  {
    hide Contribution;
    var more := records[id := rec];
    SumChangeOne(records.Keys, ExposureTerm(records, instrument), ExposureTerm(more, instrument), id);
    assert records.Keys + {id} == more.Keys;
  }
}
