/**
 * The older standalone `Account` class: cash, holdings, an activity log, a
 * list of open legacy orders and a buying power set once from the cash.
 *
 * `holdings` is a dict from symbol to quantity, kept here as its items in
 * insertion order. The valuation adds the raw quantities to the cash: the
 * price multiplier is commented out in the source.
 */
module LegacyAccount {
  import opened Results
  import LegacyOrder

  /** One item of the `holdings` dict: a symbol and the quantity held. */
  type Holding = (string, real)

  /** The TypeError `order_create` raises for an argument that is not an Order. */
  datatype TypeError = NotAnOrder

  /** The IndexError `del` raises for an index outside the list. */
  datatype IndexError = IndexOutOfRange

  /** The quantities held, added up in dict order. */
  function TotalQuantity(holdings: seq<Holding>): real
  {
    if holdings == [] then 0.0
    else TotalQuantity(holdings[..|holdings| - 1]) + holdings[|holdings| - 1].1
  }

  /** The total of a concatenation of holdings is the sum of the totals of the parts. */
  lemma {:induction false} TotalQuantityAppend(a: seq<Holding>, b: seq<Holding>)
    ensures TotalQuantity(a + b) == TotalQuantity(a) + TotalQuantity(b)
  {
    if b == [] {
      assert a + b == a;
    } else {
      assert (a + b)[..|a + b| - 1] == a + b[..|b| - 1];
      TotalQuantityAppend(a, b[..|b| - 1]);
    }
  }

  /**
   * Where Python's `del xs[index]` removes from a list of length `n`: the one
   * position in range that is congruent to `index` modulo `n`, so negative
   * indices count from the end.
   */
  function RemovedPosition(index: int, n: nat): (k: nat)
    requires 0 <= n + index && index < n
    ensures k < n && (k - index) % n == 0
  {
    if index < 0 then n + index else index
  }

  class Account {
    var cash: real
    /** The items of the holdings dict, in insertion order. */
    var holdings: seq<Holding>
    var activity: seq<real>
    var openOrders: seq<LegacyOrder.Order>
    var buyingPower: real

    /** A new account with the given cash (1000 by default), nothing held, and that cash as buying power. */
    constructor (cash: real := 1000.0)
      ensures this.cash == cash && buyingPower == cash
      ensures holdings == [] && activity == [] && openOrders == []
    {
      this.cash := cash;
      holdings := [];
      activity := [];
      openOrders := [];
      buyingPower := cash;
    }

    /** `get_portfolio_value`: the cash plus the raw quantities held, accumulated over the holdings. */
    method GetPortfolioValue() returns (value: real)
      ensures value == cash + TotalQuantity(holdings)
    {
      var items := holdings;
      var total := 0.0;
      var i := 0;
      while i < |items|
        invariant 0 <= i <= |items|
        invariant total == TotalQuantity(items[..i])
      {
        assert items[..i + 1][..i] == items[..i];
        total := total + items[i].1;
        i := i + 1;
      }
      assert items[..i] == items;
      value := total + cash;
    }

    /**
     * `order_create`: appends an Order to the open orders; any other
     * argument raises TypeError and changes nothing.
     */
    method OrderCreate(order: object?) returns (r: Outcome<TypeError>)
      modifies this
      ensures r.Pass? <==> order is LegacyOrder.Order
      ensures r.Pass? ==> openOrders == old(openOrders) + [order as LegacyOrder.Order]
      ensures r.Fail? ==> openOrders == old(openOrders)
      ensures cash == old(cash) && holdings == old(holdings) && activity == old(activity)
      ensures buyingPower == old(buyingPower)
    {
      if !(order is LegacyOrder.Order) {
        return Fail(NotAnOrder);
      }
      openOrders := openOrders + [order as LegacyOrder.Order];
      return Pass;
    }

    /**
     * `order_cancel`: deletes the open order at the index, counting from the
     * end for a negative index, the others keeping their order; an index
     * outside the list raises IndexError and changes nothing.
     */
    method OrderCancel(orderIndex: int) returns (r: Outcome<IndexError>)
      modifies this
      ensures r.Pass? <==> -|old(openOrders)| <= orderIndex < |old(openOrders)|
      ensures r.Pass? ==>
        var k := RemovedPosition(orderIndex, |old(openOrders)|);
        openOrders == old(openOrders)[..k] + old(openOrders)[k + 1..]
      ensures r.Fail? ==> openOrders == old(openOrders)
      ensures cash == old(cash) && holdings == old(holdings) && activity == old(activity)
      ensures buyingPower == old(buyingPower)
    {
      if !(-|openOrders| <= orderIndex < |openOrders|) {
        return Fail(IndexOutOfRange);
      }
      var k := RemovedPosition(orderIndex, |openOrders|);
      openOrders := openOrders[..k] + openOrders[k + 1..];
      return Pass;
    }
  }

  /** Cancelling keeps every other open order, in order, and shortens the list by one. */
  lemma RemovalKeepsOthers(orders: seq<LegacyOrder.Order>, k: nat)
    requires k < |orders|
    ensures var rest := orders[..k] + orders[k + 1..];
      && |rest| == |orders| - 1
      && (forall i :: 0 <= i < k ==> rest[i] == orders[i])
      && (forall i :: k <= i < |rest| ==> rest[i] == orders[i + 1])
  {
  }

  /** The default account is worth its 1000 in cash; creating and cancelling an order leaves nothing open. */
  method DefaultAccountScenario() returns (value: real, openAfterCreate: int, openAfterCancel: int)
    ensures value == 1000.0 && openAfterCreate == 1 && openAfterCancel == 0
  {
    var account := new Account();
    value := account.GetPortfolioValue();
    var r := LegacyOrder.NewOrder("SPY", 10.0, orderType := "Limit", price := Some(11.0));
    var created := account.OrderCreate(r.value);
    openAfterCreate := |account.openOrders|;
    var cancelled := account.OrderCancel(-1);
    openAfterCancel := |account.openOrders|;
  }
}
