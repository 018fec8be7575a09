/**
 * `check_order_fill` of the brokerage package: whether an order fills at a
 * given market price. It only reads the order.
 */
module OrderLogic {
  import opened Results
  import opened BrokerageOrder

  /** The `price` argument: a number, or any value that is not one. */
  datatype Quote = Number(value: real) | NotANumber

  /** The TypeError cases of the predicate. */
  datatype FillError =
    | UnsupportedOrder   // the order is not a MarketOrder, LimitOrder or StopOrder
    | MissingThreshold   // comparing a `None` limit or stop price with a number

  /** The price is at the threshold or better for the trader: no higher for a buy, no lower for a sell. */
  predicate AtOrBetter(direction: string, price: real, threshold: real)
  {
    (direction == "buy" && price <= threshold) || (direction == "sell" && price >= threshold)
  }

  /** The price has reached the threshold from the trader's unfavourable side: at or above for a buy, at or below for a sell. */
  predicate AtOrWorse(direction: string, price: real, threshold: real)
  {
    (direction == "buy" && price >= threshold) || (direction == "sell" && price <= threshold)
  }

  /**
   * The fill predicate. A non-number price is answered with `false` before
   * the order's class is looked at; a Market order always fills; a Limit
   * order fills when the price is at its limit or better, a Stop order when
   * the price has reached its stop; a direction other than buy or sell
   * never fills; any other class raises TypeError.
   */
  function CheckOrderFill(price: Quote, order: Order): (r: Result<bool, FillError>)
    ensures price.NotANumber? ==> r == Success(false)
    ensures price.Number? && order.kind.Market? ==> r == Success(true)
    ensures price.Number? && order.kind.Plain? ==> r == Failure(UnsupportedOrder)
    ensures price.Number? && order.kind.Limit? && order.kind.limitPrice.Some? ==>
      r == Success(AtOrBetter(order.direction, price.value, order.kind.limitPrice.value))
    ensures price.Number? && order.kind.Stop? && order.kind.stopPrice.Some? ==>
      r == Success(AtOrWorse(order.direction, price.value, order.kind.stopPrice.value))
    ensures order.direction !in Directions && !order.kind.Market? && !order.kind.Plain? ==> r == Success(false)
    ensures r == Failure(MissingThreshold) <==>
      price.Number? && order.direction in Directions && (order.kind == Limit(None) || order.kind == Stop(None))
  {
    if !price.Number? then Success(false)
    else
      match order.kind
      case Market => Success(true)
      case Limit(limitPrice) =>
        if order.direction == "buy" then
          if limitPrice.None? then Failure(MissingThreshold) else Success(limitPrice.value >= price.value)
        else if order.direction == "sell" then
          if limitPrice.None? then Failure(MissingThreshold) else Success(limitPrice.value <= price.value)
        else Success(false)
      case Stop(stopPrice) =>
        if order.direction == "buy" then
          if stopPrice.None? then Failure(MissingThreshold) else Success(stopPrice.value <= price.value)
        else if order.direction == "sell" then
          if stopPrice.None? then Failure(MissingThreshold) else Success(stopPrice.value >= price.value)
        else Success(false)
      case Plain => Failure(UnsupportedOrder)
  }

  /** Every order that construction lets through and that is of a supported class with its threshold given gets an answer. */
  lemma ConstructedOrdersAnswer(price: Quote, order: Order)
    requires Valid(order)
    requires !order.kind.Plain? && order.kind != Limit(None) && order.kind != Stop(None)
    ensures CheckOrderFill(price, order).Success?
  {
  }

  /**
   * A limit and a stop on the same threshold and direction split the price
   * line between them: at every number price at least one of them fills,
   * and both fill exactly at the threshold.
   */
  lemma LimitAndStopMeetAtThreshold(price: real, direction: string, threshold: real, limit: Order, stop: Order)
    requires direction in Directions
    requires limit.direction == direction && limit.kind == Limit(Some(threshold))
    requires stop.direction == direction && stop.kind == Stop(Some(threshold))
    ensures CheckOrderFill(Number(price), limit) == Success(true) || CheckOrderFill(Number(price), stop) == Success(true)
    ensures CheckOrderFill(Number(price), limit) == Success(true) && CheckOrderFill(Number(price), stop) == Success(true)
      <==> price == threshold
  {
  }

  /** A limit that fills at some price also fills at every price better for the trader. */
  lemma LimitFillIsMonotone(order: Order, price: real, better: real)
    requires order.kind.Limit? && order.kind.limitPrice.Some?
    requires CheckOrderFill(Number(price), order) == Success(true)
    requires (order.direction == "buy" && better <= price) || (order.direction == "sell" && better >= price)
    ensures CheckOrderFill(Number(better), order) == Success(true)
  {
  }

  /** A stop that fills at some price also fills at every price further past its stop. */
  lemma StopFillIsMonotone(order: Order, price: real, further: real)
    requires order.kind.Stop? && order.kind.stopPrice.Some?
    requires CheckOrderFill(Number(price), order) == Success(true)
    requires (order.direction == "buy" && further >= price) || (order.direction == "sell" && further <= price)
    ensures CheckOrderFill(Number(further), order) == Success(true)
  {
  }

  /** The cases of the unit tests, and the inclusive boundary of a buy limit at 10.5. */
  lemma TestVectors()
    ensures CheckOrderFill(Number(10.0), Order(Market, "123", "SPY", 10, "buy", "day", false, "open", None)) == Success(true)
    ensures CheckOrderFill(Number(10.0), Order(Limit(Some(10.5)), "123", "SPY", 10, "buy", "gtc", false, "open", None)) == Success(true)
    ensures CheckOrderFill(Number(10.5), Order(Limit(Some(10.5)), "123", "SPY", 10, "buy", "gtc", false, "open", None)) == Success(true)
    ensures CheckOrderFill(Number(10.6), Order(Limit(Some(10.5)), "123", "SPY", 10, "buy", "gtc", false, "open", None)) == Success(false)
    ensures CheckOrderFill(Number(90.0), Order(Limit(Some(100.0)), "321", "AAPL", 5, "sell", "gtc", false, "open", None)) == Success(false)
  {
  }
}
