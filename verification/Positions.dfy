/** One instrument's position with weighted-average cost, and the portfolio of all of them. */
module Positions {
  import opened Types
  import opened Orders

  datatype PositionState = PositionState(
    quantity: real, averageCost: real, realized: real, commission: real, bought: real, sold: real)
  {
    predicate Flat() { quantity == 0.0 }

    /** The cost basis of what is held, negative for a short. */
    function Basis(): real { quantity * averageCost }

    function MarketValue(mark: real): real { quantity * mark }

    function Unrealized(mark: real): real {
      if Flat() then 0.0 else (mark - averageCost) * quantity
    }
  }

  const NO_POSITION := PositionState(0.0, 0.0, 0.0, 0.0, 0.0, 0.0)

  /** Whether a signed trade opens a position or adds to it; a trade of nothing counts as a sale. */
  predicate Adds(before: real, delta: real) {
    before == 0.0 || ((before > 0.0) == (delta > 0.0))
  }

  /** The average price of `before` shares at `average` together with `delta` more at `price`. */
  function Blend(before: real, average: real, delta: real, price: real): real
    requires before + delta != 0.0
  {
    (average * before + price * delta) / (before + delta)
  }

  /** The gain on closing so many shares of a long (direction 1) or a short (direction -1). */
  function Gain(price: real, average: real, closing: real, direction: real): real {
    (price - average) * closing * direction
  }

  /** The average cost after trading `delta` shares at `price`. */
  function AverageAfter(before: real, average: real, delta: real, price: real): real {
    var after := before + delta;
    if after == 0.0 then 0.0
    else if Adds(before, delta) then Blend(before, average, delta, price)
    else if Abs(delta) > Abs(before) then price
    else average
  }

  /** The profit realised by trading `delta` shares at `price`: on the closed part only. */
  function RealizedBy(before: real, average: real, delta: real, price: real): real {
    if Adds(before, delta) then 0.0
    else Gain(price, average, Min(Abs(delta), Abs(before)), if before > 0.0 then 1.0 else -1.0)
  }

  function Applied(s: PositionState, f: Fill): PositionState {
    var delta := f.SignedQuantity();
    PositionState(
      s.quantity + delta,
      AverageAfter(s.quantity, s.averageCost, delta, f.price),
      s.realized + RealizedBy(s.quantity, s.averageCost, delta, f.price),
      s.commission + f.TotalCost(),
      if delta > 0.0 then s.bought + delta else s.bought,
      if delta > 0.0 then s.sold else s.sold - delta)
  }

  /** A split with a non-positive ratio is ignored. */
  function Split(s: PositionState, ratio: real): PositionState {
    if ratio <= 0.0 then s
    else s.(quantity := s.quantity * ratio, averageCost := s.averageCost / ratio,
            bought := s.bought * ratio, sold := s.sold * ratio)
  }

  class Position {
    var quantity: real
    var averageCost: real
    var realized: real
    var commission: real
    var bought: real
    var sold: real

    ghost function State(): PositionState
      reads this
    {
      PositionState(quantity, averageCost, realized, commission, bought, sold)
    }

    constructor ()
      ensures State() == NO_POSITION
    {
      quantity, averageCost, realized, commission, bought, sold := 0.0, 0.0, 0.0, 0.0, 0.0, 0.0;
    }

    /** Books a fill and returns the profit it realises. */
    method Apply(f: Fill) returns (realizedNow: real)
      modifies this
      ensures State() == Applied(old(State()), f)
      ensures realizedNow == State().realized - old(State()).realized
    {
      var delta := f.SignedQuantity();
      var px := f.price;
      var before := quantity;
      var after := before + delta;

      commission := commission + f.TotalCost();
      if delta > 0.0 {
        bought := bought + delta;
      } else {
        sold := sold - delta;
      }

      hide Blend, Gain;
      realizedNow := 0.0;
      if before == 0.0 || ((before > 0.0) == (delta > 0.0)) {
        var denom := before + delta;
        if denom != 0.0 {
          averageCost := Blend(before, averageCost, delta, px);
        }
      } else {
        var closing := Min(Abs(delta), Abs(before));
        var direction := if before > 0.0 then 1.0 else -1.0;
        realizedNow := Gain(px, averageCost, closing, direction);
        realized := realized + realizedNow;
        if Abs(delta) > Abs(before) {
          averageCost := px;
        } else if after == 0.0 {
          averageCost := 0.0;
        }
      }
      quantity := after;
      if quantity == 0.0 {
        averageCost := 0.0;
      }
    }

    method ApplySplit(ratio: real)
      modifies this
      ensures State() == Split(old(State()), ratio)
    {
      if ratio <= 0.0 { return; }
      quantity := quantity * ratio;
      averageCost := averageCost / ratio;
      bought := bought * ratio;
      sold := sold * ratio;
    }
  }

  // ---------------------------------------------------------------------------
  // The accounting identity of one position
  // ---------------------------------------------------------------------------

  /** Trading turns cost basis into realised profit and cash, with nothing lost, on every branch:
      opening, adding, reducing, closing and reversing through zero. */
  lemma TradeConservesValue(before: real, average: real, delta: real, price: real)
    ensures (before + delta) * AverageAfter(before, average, delta, price)
            == before * average + price * delta + RealizedBy(before, average, delta, price)
  {
  }

  /** Cash moved by a fill plus the change of cost basis is the profit realised less the costs. */
  lemma FillIdentity(s: PositionState, f: Fill)
    ensures f.CashDelta() + Applied(s, f).Basis() - s.Basis()
            == (Applied(s, f).realized - s.realized) - f.TotalCost()
  {
  }

  lemma FlatHasNoAverage(s: PositionState, f: Fill)
    ensures Applied(s, f).Flat() ==> Applied(s, f).averageCost == 0.0
  {
  }

  lemma SplitKeepsBasis(s: PositionState, ratio: real)
    ensures Split(s, ratio).Basis() == s.Basis()
  {
  }

  /** What can happen to one position. */
  datatype PositionEvent = Filled(fill: Fill) | SplitBy(ratio: real)

  function PositionAfter(events: seq<PositionEvent>): PositionState {
    if events == [] then NO_POSITION
    else
      var s := PositionAfter(events[..|events| - 1]);
      match events[|events| - 1]
      case Filled(f) => Applied(s, f)
      case SplitBy(ratio) => Split(s, ratio)
  }

  function CashMoved(events: seq<PositionEvent>): real {
    if events == [] then 0.0
    else CashMoved(events[..|events| - 1])
         + (match events[|events| - 1] case Filled(f) => f.CashDelta() case SplitBy(_) => 0.0)
  }

  function CostsPaid(events: seq<PositionEvent>): real {
    if events == [] then 0.0
    else CostsPaid(events[..|events| - 1])
         + (match events[|events| - 1] case Filled(f) => f.TotalCost() case SplitBy(_) => 0.0)
  }

  /** After any run of fills and splits, all the cash moved plus the cost basis still held is the
      realised profit less every cost, and a flat position carries no average cost. */
  lemma {:induction false} CashIdentityOverRuns(events: seq<PositionEvent>)
    ensures CashMoved(events) + PositionAfter(events).Basis() == PositionAfter(events).realized - CostsPaid(events)
    ensures PositionAfter(events).commission == CostsPaid(events)
    ensures PositionAfter(events).Flat() ==> PositionAfter(events).averageCost == 0.0
  {
    if events != [] {
      var prefix := events[..|events| - 1];
      CashIdentityOverRuns(prefix);
      match events[|events| - 1]
      case Filled(f) => FillIdentity(PositionAfter(prefix), f);
      case SplitBy(ratio) => SplitKeepsBasis(PositionAfter(prefix), ratio);
    }
  }

  /** So at every mark, cash moved plus marked value is realised plus unrealised profit less costs. */
  lemma MarkedIdentityOverRuns(events: seq<PositionEvent>, mark: real)
    ensures var s := PositionAfter(events);
            CashMoved(events) + s.MarketValue(mark) == s.realized + s.Unrealized(mark) - CostsPaid(events)
  {
    CashIdentityOverRuns(events);
  }

  /** Every share bought or sold is accounted for: splits rescale all three counters together. */
  lemma {:induction false} QuantityIsBoughtLessSold(events: seq<PositionEvent>)
    ensures PositionAfter(events).quantity == PositionAfter(events).bought - PositionAfter(events).sold
    ensures PositionAfter(events).bought >= 0.0 && PositionAfter(events).sold >= 0.0
  {
    if events != [] {
      QuantityIsBoughtLessSold(events[..|events| - 1]);
    }
  }

  /** A fill on the opposite side that is larger than the position reverses it: the profit is that of
      closing everything, and the new position stands at the fill's own price. */
  lemma ReversalResetsTheBasis(s: PositionState, f: Fill)
    requires !Adds(s.quantity, f.SignedQuantity()) && Abs(f.SignedQuantity()) > Abs(s.quantity)
    ensures Applied(s, f).realized - s.realized == (f.price - s.averageCost) * s.quantity
    ensures Applied(s, f).averageCost == f.price
    ensures (Applied(s, f).quantity > 0.0) != (s.quantity > 0.0)
  {
  }
}
