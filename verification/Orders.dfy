/** Immutable orders, their validating factory, and fills. */
module Orders {
  import opened Types
  import opened TimeChain

  type OrderId = nat
  const NO_ORDER: OrderId := 0
  type InstrumentId = nat
  const INVALID_INSTRUMENT: InstrumentId := 0xFFFF_FFFF

  datatype OrderType = Market | Limit | Stop | StopLimit
  datatype TimeInForce = Day | ImmediateOrCancel | FillOrKill | GoodTillCancel

  datatype OrderData = OrderData(
    id: OrderId, parent: OrderId, instrument: InstrumentId, side: Side, quantity: real,
    orderType: OrderType, tif: TimeInForce, limit: Option<real>, stop: Option<real>,
    times: LifecycleTimes, arrivalPrice: real)
  {
    predicate NeedsLimit() { orderType == Limit || orderType == StopLimit }

    predicate NeedsStop() { orderType == Stop || orderType == StopLimit }

    /** What every order that left a factory satisfies. */
    predicate Valid() {
      && id != NO_ORDER && instrument != INVALID_INSTRUMENT && quantity > 0.0
      && IsSet(times.decision) && ChainOk(times)
      && (NeedsLimit() <==> limit.Some?) && (limit.Some? ==> limit.value > 0.0)
      && (NeedsStop() <==> stop.Some?) && (stop.Some? ==> stop.value > 0.0)
    }

    function SignedQuantity(): real { quantity * SignOf(side) }

    /** Whether the order would trade against this touch price; a stop counts as triggered. */
    predicate MarketableAgainst(touch: real) {
      match orderType
      case Market | Stop => true
      case Limit | StopLimit =>
        limit.Some? && if side == Buy then touch <= limit.value else touch >= limit.value
    }
  }

  /** An order has a private constructor in the source, so every order is a valid one. */
  type Order = o: OrderData | o.Valid() witness SAMPLE_ORDER

  const SAMPLE_ORDER: OrderData := OrderData(1, 0, 0, Buy, 1.0, Market, Day, None, None, NO_TIMES.(decision := 0), 0.0)

  datatype OrderError =
    | NoId | NoInstrument | BadQuantity | NoDecisionTime | BrokenChain
    | LimitMissing | LimitForbidden | StopMissing | StopForbidden

  /** The factory behind `market`, `limit`, `stop` and `stop_limit`: checks in the source's order. */
  method Make(id: OrderId, instrument: InstrumentId, side: Side, quantity: real, orderType: OrderType,
              limit: Option<real>, stop: Option<real>, times: LifecycleTimes, tif: TimeInForce,
              parent: OrderId) returns (r: Result<Order, OrderError>)
    ensures var o := OrderData(id, parent, instrument, side, quantity, orderType, tif, limit, stop, times, 0.0);
            (r.Ok? <==> o.Valid()) && (r.Ok? ==> r.value == o)
    ensures id != NO_ORDER && instrument != INVALID_INSTRUMENT && quantity > 0.0 && IsSet(times.decision)
            ==> (r.Err? && r.error == BrokenChain <==> !ChainOk(times))
  {
    if id == NO_ORDER { return Err(NoId); }
    if instrument == INVALID_INSTRUMENT { return Err(NoInstrument); }
    if quantity <= 0.0 { return Err(BadQuantity); }
    if !IsSet(times.decision) { return Err(NoDecisionTime); }
    var violation := ValidateChain(times);
    if violation.Some? { return Err(BrokenChain); }
    var needsLimit := orderType == Limit || orderType == StopLimit;
    var needsStop := orderType == Stop || orderType == StopLimit;
    if needsLimit && (limit.None? || limit.value <= 0.0) { return Err(LimitMissing); }
    if !needsLimit && limit.Some? { return Err(LimitForbidden); }
    if needsStop && (stop.None? || stop.value <= 0.0) { return Err(StopMissing); }
    if !needsStop && stop.Some? { return Err(StopForbidden); }
    return Ok(OrderData(id, parent, instrument, side, quantity, orderType, tif, limit, stop, times, 0.0));
  }

  function WithArrivalPrice(o: Order, price: real): Order {
    o.(arrivalPrice := price)
  }

  /** Stamps the arrival; refused exactly when the stamped chain would be out of order. */
  function WithArrival(o: Order, arrival: Timestamp): (r: Option<Order>)
    ensures r.Some? ==> r.value.times.decision < r.value.times.arrival || !IsSet(arrival)
  {
    var times := o.times.(arrival := arrival);
    if ChainOk(times) then Some(o.(times := times)) else None
  }

  datatype Liquidity = Taker | Maker

  /** An execution report. */
  datatype Fill = Fill(
    orderId: OrderId, parentId: OrderId, instrument: InstrumentId, side: Side, price: real, quantity: real,
    commission: real, exchangeFee: real, liquidity: Liquidity, times: LifecycleTimes, arrivalPrice: real)
  {
    function TotalCost(): real { commission + exchangeFee }

    function SignedQuantity(): real { quantity * SignOf(side) }

    /** Signed cash impact, costs included; negative for a buy. */
    function CashDelta(): real { -(price * quantity * SignOf(side)) - commission - exchangeFee }
  }

  /** A fill moves cash by the signed shares at its price, less its costs, whichever side it is. */
  lemma CashDeltaMovesShares(f: Fill)
    ensures f.CashDelta() + f.price * f.SignedQuantity() == -f.TotalCost()
  {
  }

}
