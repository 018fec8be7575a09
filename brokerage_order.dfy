/**
 * The dataclass orders of the brokerage package: the base `Order`, its
 * `MarketOrder`, `LimitOrder` and `StopOrder` subclasses, and the checks
 * their `__post_init__` hooks run when one is built.
 *
 * Orders are values here. The creation `timestamp` (read from the clock) is
 * not modelled.
 */
module BrokerageOrder {
  import opened Results

  const TimesInForce: set<string> := {"day", "gtc"}
  const Statuses: set<string> := {"open", "executed", "cancelled"}
  const Directions: set<string> := {"buy", "sell"}

  /** The class an order was built as. Limit and Stop orders carry their optional threshold price. */
  datatype Kind =
    | Plain                               // the base class `Order` itself
    | Market                              // `MarketOrder`
    | Limit(limitPrice: Option<real>)     // `LimitOrder`
    | Stop(stopPrice: Option<real>)       // `StopOrder`

  /** The fields of the dataclass, in declaration order, after the class they belong to. */
  datatype Order = Order(
    kind: Kind,
    orderId: string,
    symbol: string,
    quantity: int,
    direction: string,
    timeInForce: string,
    short: bool,
    status: string,
    executedPrice: Option<real>)

  /** The ValueError raised by `__post_init__`, one constructor per message. */
  datatype ValueError =
    | BadTimeInForce
    | BadStatus
    | BadDirection
    | NonPositiveLimitPrice
    | NonPositiveStopPrice

  /** The `type` attribute a subclass's `__post_init__` sets; the base class sets none. */
  function TypeTag(kind: Kind): (tag: Option<string>)
    ensures tag.None? <==> kind.Plain?
    ensures tag == Some("market") <==> kind.Market?
    ensures tag == Some("limit") <==> kind.Limit?
    ensures tag == Some("stop") <==> kind.Stop?
  {
    match kind
    case Plain => None
    case Market => Some("market")
    case Limit(_) => Some("limit")
    case Stop(_) => Some("stop")
  }

  /** The three checks of the base `__post_init__`, in the order it runs them. */
  function BaseError(direction: string, timeInForce: string, status: string): Option<ValueError>
  {
    if timeInForce !in TimesInForce then Some(BadTimeInForce)
    else if status !in Statuses then Some(BadStatus)
    else if direction !in Directions then Some(BadDirection)
    else None
  }

  /** The check a subclass adds after the base checks: a threshold, when given, must be positive. */
  function ThresholdError(kind: Kind): Option<ValueError>
  {
    match kind
    case Limit(Some(p)) => if p <= 0.0 then Some(NonPositiveLimitPrice) else None
    case Stop(Some(p)) => if p <= 0.0 then Some(NonPositiveStopPrice) else None
    case _ => None
  }

  /** What every order that construction lets through satisfies. */
  predicate Valid(o: Order)
  {
    && o.timeInForce in TimesInForce
    && o.status in Statuses
    && o.direction in Directions
    && (o.kind.Limit? && o.kind.limitPrice.Some? ==> o.kind.limitPrice.value > 0.0)
    && (o.kind.Stop? && o.kind.stopPrice.Some? ==> o.kind.stopPrice.value > 0.0)
  }

  /**
   * Builds an order as calling the dataclass does: the fields are stored as
   * given, with the defaults `short = False`, `status = "open"` and
   * `executed_price = None`, then `__post_init__` runs the base checks and,
   * for a Limit or Stop order, the threshold check.
   */
  function NewOrder(
    kind: Kind, orderId: string, symbol: string, quantity: int, direction: string, timeInForce: string,
    short: bool := false, status: string := "open", executedPrice: Option<real> := None
  ): (r: Result<Order, ValueError>)
    ensures r.Success? <==> Valid(Order(kind, orderId, symbol, quantity, direction, timeInForce, short, status, executedPrice))
    ensures r.Success? ==> r.value == Order(kind, orderId, symbol, quantity, direction, timeInForce, short, status, executedPrice)
    ensures timeInForce !in TimesInForce ==> r == Failure(BadTimeInForce)
    ensures timeInForce in TimesInForce && status !in Statuses ==> r == Failure(BadStatus)
    ensures timeInForce in TimesInForce && status in Statuses && direction !in Directions ==> r == Failure(BadDirection)
    ensures r == Failure(NonPositiveLimitPrice) <==>
      && timeInForce in TimesInForce && status in Statuses && direction in Directions
      && kind.Limit? && kind.limitPrice.Some? && kind.limitPrice.value <= 0.0
    ensures r == Failure(NonPositiveStopPrice) <==>
      && timeInForce in TimesInForce && status in Statuses && direction in Directions
      && kind.Stop? && kind.stopPrice.Some? && kind.stopPrice.value <= 0.0
  {
    var base := BaseError(direction, timeInForce, status);
    if base.Some? then Failure(base.value)
    else
      var threshold := ThresholdError(kind);
      if threshold.Some? then Failure(threshold.value)
      else Success(Order(kind, orderId, symbol, quantity, direction, timeInForce, short, status, executedPrice))
  }

  /** Building an order from the fields of a valid order gives that order back. */
  lemma RebuildValid(o: Order)
    requires Valid(o)
    ensures NewOrder(o.kind, o.orderId, o.symbol, o.quantity, o.direction, o.timeInForce, o.short, o.status, o.executedPrice) == Success(o)
  {
  }

  /** Left to their defaults, a new order is not short, is open and has no execution price. */
  lemma NewOrderDefaults(kind: Kind, orderId: string, symbol: string, quantity: int, direction: string, timeInForce: string)
    requires NewOrder(kind, orderId, symbol, quantity, direction, timeInForce).Success?
    ensures var o := NewOrder(kind, orderId, symbol, quantity, direction, timeInForce).value;
      !o.short && o.status == "open" && o.executedPrice.None?
  {
  }

  /** A Limit or Stop order without a threshold passes construction when its base fields do. */
  lemma MissingThresholdAccepted(orderId: string, symbol: string, quantity: int, direction: string, timeInForce: string, kind: Kind)
    requires kind == Limit(None) || kind == Stop(None)
    requires BaseError(direction, timeInForce, "open").None?
    ensures NewOrder(kind, orderId, symbol, quantity, direction, timeInForce).Success?
  {
  }

  /** The constructions the unit tests make succeed. */
  lemma TestOrdersConstruct()
    ensures NewOrder(Market, "123", "SPY", 10, "buy", "day").Success?
    ensures NewOrder(Limit(Some(10.5)), "123", "SPY", 10, "buy", "gtc").Success?
    ensures NewOrder(Limit(Some(100.0)), "321", "AAPL", 5, "sell", "gtc").Success?
    ensures NewOrder(Plain, "404", "AAPL", 1, "sell", "day").Success?
  {
  }
}
