/**
 * The enum-based dataclass `Order` of the orders package: enum tags for
 * status, direction and type, and an optional price whose presence
 * `__post_init__` checks against the type. No sign check is made on the
 * price. The creation `timestamp` (read from the clock) is not modelled.
 */
module EnumOrder {
  import opened Results

  datatype OrderStatus = Open | Executed | Cancelled
  {
    /** The enum member's value; note the spelling "canceled". */
    function Value(): string
    {
      match this
      case Open => "open"
      case Executed => "executed"
      case Cancelled => "canceled"
    }
  }

  datatype OrderDirection = Buy | Sell

  datatype OrderType = Market | Limit | Stop | StopLimit
  {
    /** The enum member's value, which the error message quotes. */
    function Value(): string
    {
      match this
      case Market => "market"
      case Limit => "limit"
      case Stop => "stop"
      case StopLimit => "stop limit"
    }

    /** The types that must carry a price. */
    predicate NeedsPrice()
    {
      this == Limit || this == Stop || this == StopLimit
    }
  }

  datatype Order = Order(
    symbol: string,
    quantity: int,
    orderDirection: OrderDirection,
    orderType: OrderType,
    price: Option<real>,
    status: OrderStatus)

  /** The ValueError `__post_init__` raises. */
  datatype ValueError =
    | PriceRequired(typeValue: string)   // a priced type without a price; the message names the type
    | MarketPriceSet                     // a Market order with a price

  /** What every order that construction lets through satisfies. */
  predicate Valid(o: Order)
  {
    (o.orderType.NeedsPrice() ==> o.price.Some?) && (o.orderType == Market ==> o.price.None?)
  }

  /**
   * Builds an order as calling the dataclass does, with the defaults
   * `price = None` and `status = OPEN`, then runs the price checks.
   */
  function NewOrder(
    symbol: string, quantity: int, orderDirection: OrderDirection, orderType: OrderType,
    price: Option<real> := None, status: OrderStatus := Open
  ): (r: Result<Order, ValueError>)
    ensures r.Success? <==> Valid(Order(symbol, quantity, orderDirection, orderType, price, status))
    ensures r.Success? ==> r.value == Order(symbol, quantity, orderDirection, orderType, price, status)
    ensures r.Failure? ==>
      || (r.error == PriceRequired(orderType.Value()) && orderType.NeedsPrice() && price.None?)
      || (r.error == MarketPriceSet && orderType == Market && price.Some?)
  {
    if orderType.NeedsPrice() && price.None? then Failure(PriceRequired(orderType.Value()))
    else if orderType == Market && price.Some? then Failure(MarketPriceSet)
    else Success(Order(symbol, quantity, orderDirection, orderType, price, status))
  }

  /** Building an order from the fields of a valid order gives that order back. */
  lemma RebuildValid(o: Order)
    requires Valid(o)
    ensures NewOrder(o.symbol, o.quantity, o.orderDirection, o.orderType, o.price, o.status) == Success(o)
  {
  }

  /** A priced type accepts every price, zero and negative ones included, and a new order is open by default. */
  lemma AnyPriceAccepted(symbol: string, quantity: int, orderDirection: OrderDirection, orderType: OrderType, price: real)
    requires orderType.NeedsPrice()
    ensures NewOrder(symbol, quantity, orderDirection, orderType, Some(price)).Success?
    ensures NewOrder(symbol, quantity, orderDirection, orderType, Some(price)).value.status == Open
  {
  }

  /** A Market order without a price is accepted and open by default. */
  lemma MarketWithoutPriceAccepted(symbol: string, quantity: int, orderDirection: OrderDirection)
    ensures NewOrder(symbol, quantity, orderDirection, Market) == Success(Order(symbol, quantity, orderDirection, Market, None, Open))
  {
  }

  /** The enum values are pairwise distinct, so each value names one member. */
  lemma ValuesDistinct(a: OrderType, b: OrderType, s: OrderStatus, t: OrderStatus)
    ensures a.Value() == b.Value() ==> a == b
    ensures s.Value() == t.Value() ==> s == t
  {
  }
}
