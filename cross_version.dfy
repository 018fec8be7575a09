/**
 * How the generations of the order and account code relate: the legacy
 * string-tagged order, the enum-based order and the brokerage dataclasses
 * agree on which price a type must carry and on when an order fills, and
 * the legacy valuation is the brokerage valuation at unit prices.
 */
module CrossVersion {
  import opened Results
  import BrokerageOrder
  import OrderLogic
  import BrokerageAccount
  import LegacyOrder
  import LegacyAccount
  import EnumOrder

  /** The legacy tag of an enum order type; STOP_LIMIT has none. */
  function LegacyTag(t: EnumOrder.OrderType): string
  {
    match t
    case Market => "Market"
    case Limit => "Limit"
    case Stop => "Stop"
    case StopLimit => "Stop Limit"
  }

  /** The brokerage class a legacy type tag and price stand for. */
  function BrokerageKind(orderType: string, price: Option<real>): BrokerageOrder.Kind
  {
    if orderType == "Market" then BrokerageOrder.Market
    else if orderType == "Limit" then BrokerageOrder.Limit(price)
    else if orderType == "Stop" then BrokerageOrder.Stop(price)
    else BrokerageOrder.Plain
  }

  /** The brokerage direction a legacy direction tag stands for. */
  function BrokerageDirection(buyOrSell: string): string
  {
    if buyOrSell == "Buy" then "buy" else if buyOrSell == "Sell" then "sell" else buyOrSell
  }

  /**
   * For Market, Limit and Stop the legacy constructor and the enum-based
   * one accept exactly the same prices.
   */
  lemma LegacyAndEnumValidationAgree(symbol: string, quantity: int, direction: EnumOrder.OrderDirection, t: EnumOrder.OrderType, price: Option<real>)
    requires t != EnumOrder.StopLimit
    ensures LegacyOrder.ConstructionError(LegacyTag(t), price).None?
        <==> EnumOrder.NewOrder(symbol, quantity, direction, t, price).Success?
  {
  }

  /**
   * A legacy order of a known type and direction records an execution
   * exactly when the brokerage predicate says the corresponding order fills
   * at that price.
   */
  lemma LegacyFillAgreesWithPredicate(orderType: string, buyOrSell: string, price: Option<real>, currentPrice: real, o: BrokerageOrder.Order)
    requires orderType in {"Market", "Limit", "Stop"} && buyOrSell in {"Buy", "Sell"}
    requires LegacyOrder.ConstructionError(orderType, price).None?
    requires o.kind == BrokerageKind(orderType, price) && o.direction == BrokerageDirection(buyOrSell)
    ensures LegacyOrder.ExecutionPrice(orderType, buyOrSell, price, currentPrice).Some?
        <==> OrderLogic.CheckOrderFill(OrderLogic.Number(currentPrice), o) == Success(true)
  {
  }

  /** Brokerage holdings with their quantities as reals, the form the legacy account keeps. */
  function AsLegacy(holdings: seq<BrokerageAccount.Holding>): (r: seq<LegacyAccount.Holding>)
    ensures |r| == |holdings|
    ensures forall i :: 0 <= i < |holdings| ==> r[i] == (holdings[i].0, holdings[i].1 as real)
  {
    if holdings == [] then [] else [(holdings[0].0, holdings[0].1 as real)] + AsLegacy(holdings[1..])
  }

  /**
   * With the price multiplier commented out, the legacy valuation is the
   * brokerage valuation with every held symbol priced at 1.
   */
  lemma {:induction false} LegacyValueIsUnitPriced(holdings: seq<BrokerageAccount.Holding>, prices: map<string, real>)
    requires forall i :: 0 <= i < |holdings| ==> holdings[i].0 in prices && prices[holdings[i].0] == 1.0
    ensures BrokerageAccount.AllPriced(holdings, prices)
    ensures BrokerageAccount.PositionsValue(holdings, prices) == LegacyAccount.TotalQuantity(AsLegacy(holdings))
  {
    if holdings != [] {
      var rest := holdings[1..];
      assert forall i :: 0 <= i < |rest| ==> rest[i] == holdings[i + 1];
      LegacyValueIsUnitPriced(rest, prices);
      assert AsLegacy(holdings) == [AsLegacy(holdings)[0]] + AsLegacy(rest);
      LegacyAccount.TotalQuantityAppend([AsLegacy(holdings)[0]], AsLegacy(rest));
      assert [AsLegacy(holdings)[0]][..0] == [];
    }
  }
}
