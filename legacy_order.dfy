/**
 * The older standalone `Order` class: string-tagged orders ("Market",
 * "Limit", "Stop"; "Buy", "Sell") whose constructor checks that the
 * threshold price is given exactly when the type needs one, and whose
 * `check_fill` records an execution in place.
 */
module LegacyOrder {
  import opened Results

  /** The ValueError the constructor raises. */
  datatype ValueError =
    | PriceMissing      // a Limit or Stop order without a price
    | PriceNotAllowed   // a Market order with a price

  /** The two checks the constructor runs before it sets any attribute. */
  function ConstructionError(orderType: string, price: Option<real>): Option<ValueError>
  {
    if (orderType == "Limit" || orderType == "Stop") && price.None? then Some(PriceMissing)
    else if orderType == "Market" && price.Some? then Some(PriceNotAllowed)
    else None
  }

  /**
   * The price `check_fill` records an execution at, or None when no branch
   * of its match applies. A Market order executes at the current price; a
   * Limit or Stop order executes at its own price once the current price
   * crosses it.
   */
  function ExecutionPrice(orderType: string, buyOrSell: string, price: Option<real>, currentPrice: real): (executed: Option<real>)
    requires orderType == "Limit" || orderType == "Stop" ==> price.Some?
    ensures orderType == "Market" ==> executed == Some(currentPrice)
    ensures orderType != "Market" && executed.Some? ==> (orderType == "Limit" || orderType == "Stop") && executed == price
    ensures orderType == "Limit" ==>
      (executed.Some? <==> (buyOrSell == "Buy" && currentPrice <= price.value) || (buyOrSell == "Sell" && currentPrice >= price.value))
    ensures orderType == "Stop" ==>
      (executed.Some? <==> (buyOrSell == "Buy" && currentPrice >= price.value) || (buyOrSell == "Sell" && currentPrice <= price.value))
  {
    if orderType == "Market" then Some(currentPrice)
    else if orderType == "Limit" then
      if buyOrSell == "Buy" && currentPrice <= price.value then price
      else if buyOrSell == "Sell" && currentPrice >= price.value then price
      else None
    else if orderType == "Stop" then
      if buyOrSell == "Buy" && currentPrice >= price.value then price
      else if buyOrSell == "Sell" && currentPrice <= price.value then price
      else None
    else None
  }

  /** A Limit execution is at its limit, which is never better for the trader than the current price. */
  lemma LimitExecutionNoBetterThanMarket(orderType: string, buyOrSell: string, price: Option<real>, currentPrice: real)
    requires orderType == "Limit"
    requires price.Some?
    requires ExecutionPrice(orderType, buyOrSell, price, currentPrice).Some?
    ensures var p := ExecutionPrice(orderType, buyOrSell, price, currentPrice).value;
      (buyOrSell == "Buy" ==> p >= currentPrice) && (buyOrSell == "Sell" ==> p <= currentPrice)
  {
  }

  class Order {
    var buyOrSell: string
    var symbol: string
    var quantity: real
    var orderType: string
    var timeInForce: string
    var price: Option<real>
    var status: string
    var executedPrice: Option<real>

    /** What the constructor guarantees: Limit and Stop orders carry a price. */
    ghost predicate Valid()
      reads this
    {
      orderType == "Limit" || orderType == "Stop" ==> price.Some?
    }

    /** Sets the attributes once the checks of NewOrder have passed. */
    constructor (symbol: string, quantity: real, buyOrSell: string, orderType: string, timeInForce: string, price: Option<real>)
      requires ConstructionError(orderType, price).None?
      ensures Valid()
      ensures this.symbol == symbol && this.quantity == quantity && this.buyOrSell == buyOrSell
      ensures this.orderType == orderType && this.timeInForce == timeInForce && this.price == price
      ensures status == "Open" && executedPrice.None?
    {
      this.buyOrSell := buyOrSell;
      this.symbol := symbol;
      this.quantity := quantity;
      this.orderType := orderType;
      this.timeInForce := timeInForce;
      this.price := price;
      this.status := "Open";
      this.executedPrice := None;
    }

    /**
     * `check_fill`: records an execution when ExecutionPrice gives one and
     * otherwise changes nothing. It does not look at the current status, so
     * checking an executed Market order again overwrites its price.
     */
    method CheckFill(currentPrice: real)
      requires Valid()
      modifies this
      ensures Valid()
      ensures var executed := ExecutionPrice(orderType, buyOrSell, price, currentPrice);
        if executed.Some? then status == "Executed" && executedPrice == executed
        else status == old(status) && executedPrice == old(executedPrice)
      ensures buyOrSell == old(buyOrSell) && symbol == old(symbol) && quantity == old(quantity)
      ensures orderType == old(orderType) && timeInForce == old(timeInForce) && price == old(price)
    {
      if orderType == "Market" {
        executedPrice := Some(currentPrice);
        status := "Executed";
      } else if orderType == "Limit" {
        if buyOrSell == "Buy" && currentPrice <= price.value {
          executedPrice := price;
          status := "Executed";
        } else if buyOrSell == "Sell" && currentPrice >= price.value {
          executedPrice := price;
          status := "Executed";
        }
      } else if orderType == "Stop" {
        if buyOrSell == "Buy" && currentPrice >= price.value {
          executedPrice := price;
          status := "Executed";
        } else if buyOrSell == "Sell" && currentPrice <= price.value {
          executedPrice := price;
          status := "Executed";
        }
      }
    }
  }

  /**
   * The constructor with its defaults ("Buy", "Market", "GTC", no price):
   * raises ValueError for a Limit or Stop order without a price and for a
   * Market order with one, and otherwise gives a new open, unexecuted order.
   */
  method NewOrder(
    symbol: string, quantity: real, buyOrSell: string := "Buy", orderType: string := "Market",
    timeInForce: string := "GTC", price: Option<real> := None
  ) returns (r: Result<Order, ValueError>)
    ensures r == Failure(PriceMissing) <==> (orderType == "Limit" || orderType == "Stop") && price.None?
    ensures r == Failure(PriceNotAllowed) <==> orderType == "Market" && price.Some?
    ensures r.Failure? ==> r.error == PriceMissing || r.error == PriceNotAllowed
    ensures r.Success? ==> fresh(r.value) && r.value.Valid()
    ensures r.Success? ==>
      && r.value.symbol == symbol && r.value.quantity == quantity && r.value.buyOrSell == buyOrSell
      && r.value.orderType == orderType && r.value.timeInForce == timeInForce && r.value.price == price
      && r.value.status == "Open" && r.value.executedPrice.None?
  {
    var error := ConstructionError(orderType, price);
    if error.Some? {
      return Failure(error.value);
    }
    var order := new Order(symbol, quantity, buyOrSell, orderType, timeInForce, price);
    return Success(order);
  }

  /** A buy limit at 11 checked at a current price of 10 executes at 11, not at 10. */
  method LimitBuyExecutesAtItsLimit() returns (status: string, executed: Option<real>)
    ensures status == "Executed" && executed == Some(11.0)
  {
    var r := NewOrder("SPY", 10.0, orderType := "Limit", price := Some(11.0));
    var order := r.value;
    order.CheckFill(10.0);
    status, executed := order.status, order.executedPrice;
  }

  /** Checking an executed Market order again overwrites the price it executed at. */
  method RecheckOverwritesExecution() returns (first: Option<real>, second: Option<real>)
    ensures first == Some(10.0) && second == Some(12.0)
  {
    var r := NewOrder("SPY", 1.0);
    var order := r.value;
    order.CheckFill(10.0);
    first := order.executedPrice;
    order.CheckFill(12.0);
    second := order.executedPrice;
  }

  /** An unrecognised order type is accepted with any price and never executes. */
  method UnknownTypeNeverFills(currentPrice: real) returns (status: string, executed: Option<real>)
    ensures status == "Open" && executed.None?
  {
    var r := NewOrder("SPY", 1.0, orderType := "market", price := Some(5.0));
    var order := r.value;
    order.CheckFill(currentPrice);
    status, executed := order.status, order.executedPrice;
  }
}
