/**
 * The brokerage package's order management system: three dictionaries of
 * orders keyed by order id (open, cancelled, executed).
 *
 * A Python dict remembers insertion order, and `get_open_orders_by_symbol`
 * lists orders in that order, so the keys of `open_orders` are also kept
 * in a sequence. Submission consults `open_orders` only, so an id can sit
 * in `open_orders` and `cancelled_orders` at once (see
 * ResubmitAfterCancel); no global partition invariant is claimed. No
 * method writes `executed_orders`.
 */
module OrderManagement {
  import opened Results
  import opened BrokerageOrder

  predicate Distinct(ids: seq<string>)
  {
    forall i, j :: 0 <= i < j < |ids| ==> ids[i] != ids[j]
  }

  /** The ids with `id` deleted, the others in their order: the key order of a dict after `del`. */
  function Without(ids: seq<string>, id: string): (r: seq<string>)
    ensures forall x :: x in r <==> x in ids && x != id
    ensures Distinct(ids) ==> Distinct(r)
    ensures id !in ids ==> r == ids
  {
    if ids == [] then []
    else
      var rest := Without(ids[1..], id);
      assert forall x :: x in ids[1..] ==> x in ids;
      assert Distinct(ids) ==> Distinct(ids[1..]) && ids[0] !in rest by {
        if Distinct(ids) {
          forall i | 0 <= i < |ids[1..]| ensures ids[1..][i] != ids[0] {
            assert ids[1..][i] == ids[i + 1];
          }
        }
      }
      if ids[0] == id then rest else [ids[0]] + rest
  }

  /** Deleting distributes over concatenation: each part loses `id` and keeps its order. */
  lemma {:induction false} WithoutSplit(a: seq<string>, b: seq<string>, id: string)
    ensures Without(a + b, id) == Without(a, id) + Without(b, id)
  {
    if a != [] {
      assert (a + b)[1..] == a[1..] + b;
      WithoutSplit(a[1..], b, id);
    } else {
      assert a + b == b;
    }
  }

  /** In distinct ids, deleting `id` removes exactly its one position and keeps the others in order. */
  lemma WithoutRemovesAt(ids: seq<string>, id: string, k: nat)
    requires Distinct(ids)
    requires k < |ids| && ids[k] == id
    ensures Without(ids, id) == ids[..k] + ids[k + 1..]
  {
    assert ids == ids[..k] + [id] + ids[k + 1..];
    assert id !in ids[..k] && id !in ids[k + 1..];
    WithoutSplit(ids[..k] + [id], ids[k + 1..], id);
    WithoutSplit(ids[..k], [id], id);
  }

  /** The orders filed under `ids` whose symbol is `symbol`, in the order of `ids`. */
  function BySymbol(ids: seq<string>, orders: map<string, Order>, symbol: string): (r: seq<Order>)
    requires forall id :: id in ids ==> id in orders
    ensures forall o :: o in r ==> o.symbol == symbol && exists id :: id in ids && orders[id] == o
    ensures forall i :: 0 <= i < |ids| && orders[ids[i]].symbol == symbol ==> orders[ids[i]] in r
  {
    if ids == [] then []
    else
      var rest := BySymbol(ids[1..], orders, symbol);
      assert forall i :: 1 <= i < |ids| ==> ids[1..][i - 1] == ids[i];
      if orders[ids[0]].symbol == symbol then [orders[ids[0]]] + rest else rest
  }

  /** `o` is the order filed under some position of `ids`. */
  ghost predicate FiledAt(o: Order, ids: seq<string>, orders: map<string, Order>)
  {
    exists p :: 0 <= p < |ids| && ids[p] in orders && o == orders[ids[p]]
  }

  /** `o1` and `o2` are filed under two positions of `ids`, `o1`'s the earlier. */
  ghost predicate FiledBefore(o1: Order, o2: Order, ids: seq<string>, orders: map<string, Order>)
  {
    exists p, q :: 0 <= p < q < |ids| && ids[p] in orders && ids[q] in orders && o1 == orders[ids[p]] && o2 == orders[ids[q]]
  }

  /** Every order in `r` is filed under some position of `ids`. */
  ghost predicate FiledIn(r: seq<Order>, ids: seq<string>, orders: map<string, Order>)
  {
    forall i :: 0 <= i < |r| ==> FiledAt(r[i], ids, orders)
  }

  /** Of any two orders in `r`, the earlier one is filed at an earlier position of `ids`. */
  ghost predicate InOrder(r: seq<Order>, ids: seq<string>, orders: map<string, Order>)
  {
    forall i, j :: 0 <= i < j < |r| ==> FiledBefore(r[i], r[j], ids, orders)
  }

  /** Positions in the tail of `ids` are positions in `ids`, one further on. */
  lemma Shift(r: seq<Order>, ids: seq<string>, orders: map<string, Order>)
    requires ids != []
    requires FiledIn(r, ids[1..], orders) && InOrder(r, ids[1..], orders)
    ensures FiledIn(r, ids, orders) && InOrder(r, ids, orders)
  {
    var tail := ids[1..];
    forall i | 0 <= i < |r| ensures FiledAt(r[i], ids, orders) {
      assert FiledAt(r[i], tail, orders);
      var p :| 0 <= p < |tail| && tail[p] in orders && r[i] == orders[tail[p]];
      assert ids[p + 1] == tail[p];
    }
    forall i, j | 0 <= i < j < |r| ensures FiledBefore(r[i], r[j], ids, orders) {
      assert FiledBefore(r[i], r[j], tail, orders);
      var p, q :| 0 <= p < q < |tail| && tail[p] in orders && tail[q] in orders && r[i] == orders[tail[p]] && r[j] == orders[tail[q]];
      assert ids[p + 1] == tail[p] && ids[q + 1] == tail[q];
    }
  }

  /** Putting the order filed at the first position in front keeps both properties. */
  lemma Cons(r: seq<Order>, ids: seq<string>, orders: map<string, Order>)
    requires ids != [] && ids[0] in orders
    requires FiledIn(r, ids[1..], orders) && InOrder(r, ids[1..], orders)
    ensures FiledIn([orders[ids[0]]] + r, ids, orders) && InOrder([orders[ids[0]]] + r, ids, orders)
  {
    Shift(r, ids, orders);
    var s := [orders[ids[0]]] + r;
    var tail := ids[1..];
    forall i | 0 <= i < |s| ensures FiledAt(s[i], ids, orders) {
      if i == 0 {
        assert s[i] == orders[ids[0]];
      } else {
        assert s[i] == r[i - 1];
      }
    }
    forall i, j | 0 <= i < j < |s| ensures FiledBefore(s[i], s[j], ids, orders) {
      if i == 0 {
        assert s[j] == r[j - 1] && FiledAt(r[j - 1], tail, orders);
        var q :| 0 <= q < |tail| && tail[q] in orders && r[j - 1] == orders[tail[q]];
        assert s[i] == orders[ids[0]] && ids[q + 1] == tail[q];
      } else {
        assert s[i] == r[i - 1] && s[j] == r[j - 1];
        assert FiledBefore(r[i - 1], r[j - 1], ids, orders);
      }
    }
  }

  /** The selection lists orders in the order of `ids`. */
  lemma {:induction false} BySymbolInOrder(ids: seq<string>, orders: map<string, Order>, symbol: string)
    requires forall id :: id in ids ==> id in orders
    ensures FiledIn(BySymbol(ids, orders, symbol), ids, orders)
    ensures InOrder(BySymbol(ids, orders, symbol), ids, orders)
  {
    if ids != [] {
      assert forall x :: x in ids[1..] ==> x in ids;
      BySymbolInOrder(ids[1..], orders, symbol);
      var rest := BySymbol(ids[1..], orders, symbol);
      if orders[ids[0]].symbol == symbol {
        Cons(rest, ids, orders);
      } else {
        Shift(rest, ids, orders);
      }
    }
  }

  /** Filing one more id at the end adds its order at the end of its symbol's list. */
  lemma {:induction false} BySymbolAppend(ids: seq<string>, id: string, orders: map<string, Order>, symbol: string)
    requires forall x :: x in ids ==> x in orders
    requires id in orders
    ensures BySymbol(ids + [id], orders, symbol)
         == BySymbol(ids, orders, symbol) + (if orders[id].symbol == symbol then [orders[id]] else [])
  {
    if ids != [] {
      assert (ids + [id])[1..] == ids[1..] + [id];
      BySymbolAppend(ids[1..], id, orders, symbol);
    }
  }

  /** Selecting over a concatenation of ids selects over each part, in order. */
  lemma {:induction false} BySymbolSplit(a: seq<string>, b: seq<string>, orders: map<string, Order>, symbol: string)
    requires forall x :: x in a + b ==> x in orders
    ensures BySymbol(a + b, orders, symbol) == BySymbol(a, orders, symbol) + BySymbol(b, orders, symbol)
  {
    if a != [] {
      assert (a + b)[1..] == a[1..] + b;
      BySymbolSplit(a[1..], b, orders, symbol);
    } else {
      assert a + b == b;
    }
  }

  /** The orders other than the one filed under `id`, the others in their order. */
  function WithoutOrder(orders: seq<Order>, id: string): (r: seq<Order>)
    ensures forall o :: o in r <==> o in orders && o.orderId != id
    ensures (forall i :: 0 <= i < |orders| ==> orders[i].orderId != id) ==> r == orders
  {
    if orders == [] then []
    else
      var rest := WithoutOrder(orders[1..], id);
      assert forall o :: o in orders[1..] ==> o in orders;
      if orders[0].orderId == id then rest else [orders[0]] + rest
  }

  /**
   * Deleting `id` from the open ids and its order from the open map removes
   * that order from every symbol's list and keeps the others in their order.
   */
  lemma {:induction false} BySymbolCancel(ids: seq<string>, orders: map<string, Order>, id: string, symbol: string)
    requires forall x :: x in ids ==> x in orders && orders[x].orderId == x
    ensures forall x :: x in Without(ids, id) ==> x in orders - {id}
    ensures BySymbol(Without(ids, id), orders - {id}, symbol) == WithoutOrder(BySymbol(ids, orders, symbol), id)
  {
    if ids != [] {
      assert forall x :: x in ids[1..] ==> x in ids;
      BySymbolCancel(ids[1..], orders, id, symbol);
    }
  }

  /** Filing an order under an id outside `ids` does not change what `ids` select. */
  lemma {:induction false} BySymbolFrame(ids: seq<string>, orders: map<string, Order>, id: string, o: Order, symbol: string)
    requires forall x :: x in ids ==> x in orders
    requires id !in ids
    ensures BySymbol(ids, orders[id := o], symbol) == BySymbol(ids, orders, symbol)
  {
    if ids != [] {
      BySymbolFrame(ids[1..], orders, id, o, symbol);
    }
  }

  class Oms {
    var openOrders: map<string, Order>
    var cancelledOrders: map<string, Order>
    var executedOrders: map<string, Order>
    /** The keys of `openOrders` in insertion order. */
    var openIds: seq<string>

    /** The insertion-order record matches the open map, and every order is filed under its own id. */
    ghost predicate Valid()
      reads this
    {
      && Distinct(openIds)
      && (forall id :: id in openIds <==> id in openOrders)
      && (forall id :: id in openOrders ==> openOrders[id].orderId == id)
      && (forall id :: id in cancelledOrders ==> cancelledOrders[id].orderId == id)
    }

    constructor ()
      ensures Valid()
      ensures openOrders == map[] && cancelledOrders == map[] && executedOrders == map[]
      ensures openIds == []
    {
      openOrders, cancelledOrders, executedOrders := map[], map[], map[];
      openIds := [];
    }

    /** `get_open_orders_by_symbol`: exactly the open orders with that symbol, in insertion order. */
    function OpenOrdersBySymbol(symbol: string): (r: seq<Order>)
      reads this
      requires Valid()
      ensures forall o :: o in r ==> o.symbol == symbol && o.orderId in openOrders && openOrders[o.orderId] == o
      ensures forall id :: id in openOrders && openOrders[id].symbol == symbol ==> openOrders[id] in r
      ensures InOrder(r, openIds, openOrders)
    {
      assert forall id :: id in openOrders ==> exists i :: 0 <= i < |openIds| && openIds[i] == id;
      var r := BySymbol(openIds, openOrders, symbol);
      BySymbolInOrder(openIds, openOrders, symbol);
      r
    }

    /**
     * `new_open_order`: files the order under its id unless that id is
     * already open, in which case nothing changes (the source prints a
     * message; `added` reports which happened).
     */
    method NewOpenOrder(order: Order) returns (added: bool)
      requires Valid()
      modifies this
      ensures Valid()
      ensures added <==> order.orderId !in old(openOrders)
      ensures added ==> openOrders == old(openOrders)[order.orderId := order] && openIds == old(openIds) + [order.orderId]
      ensures !added ==> openOrders == old(openOrders) && openIds == old(openIds)
      ensures cancelledOrders == old(cancelledOrders) && executedOrders == old(executedOrders)
      ensures added ==> OpenOrdersBySymbol(order.symbol) == old(OpenOrdersBySymbol(order.symbol)) + [order]
    {
      added := order.orderId !in openOrders;
      if added {
        ghost var before := openIds;
        ghost var beforeOrders := openOrders;
        openOrders := openOrders[order.orderId := order];
        openIds := openIds + [order.orderId];
        BySymbolFrame(before, beforeOrders, order.orderId, order, order.symbol);
        BySymbolAppend(before, order.orderId, openOrders, order.symbol);
      }
    }

    /**
     * `cancel_order`: an open order gets status "cancelled", is filed in
     * `cancelledOrders` (replacing any order cancelled earlier under that id)
     * and leaves `openOrders`. An id that is not open changes nothing (the
     * source prints a message; `found` reports which happened).
     */
    method CancelOrder(orderId: string) returns (found: bool)
      requires Valid()
      modifies this
      ensures Valid()
      ensures found <==> orderId in old(openOrders)
      ensures found ==>
        && openOrders == old(openOrders) - {orderId}
        && openIds == Without(old(openIds), orderId)
        && cancelledOrders == old(cancelledOrders)[orderId := old(openOrders)[orderId].(status := "cancelled")]
      ensures !found ==> openOrders == old(openOrders) && openIds == old(openIds) && cancelledOrders == old(cancelledOrders)
      ensures executedOrders == old(executedOrders)
      ensures found ==> forall symbol :: OpenOrdersBySymbol(symbol) == WithoutOrder(old(OpenOrdersBySymbol(symbol)), orderId)
    {
      found := orderId in openOrders;
      if found {
        ghost var before, beforeOrders := openIds, openOrders;
        var order := openOrders[orderId].(status := "cancelled");
        cancelledOrders := cancelledOrders[orderId := order];
        openOrders := openOrders - {orderId};
        openIds := Without(openIds, orderId);
        forall symbol
          ensures BySymbol(openIds, openOrders, symbol) == WithoutOrder(BySymbol(before, beforeOrders, symbol), orderId)
        {
          BySymbolCancel(before, beforeOrders, orderId, symbol);
        }
      }
    }
  }

  /**
   * Submitting, cancelling and submitting again the same order leaves its id
   * both open and cancelled: submission does not consult `cancelledOrders`.
   */
  method ResubmitAfterCancel(order: Order) returns (openAndCancelled: bool)
    ensures openAndCancelled
  {
    var oms := new Oms();
    var added := oms.NewOpenOrder(order);
    var found := oms.CancelOrder(order.orderId);
    added := oms.NewOpenOrder(order);
    openAndCancelled := order.orderId in oms.openOrders && order.orderId in oms.cancelledOrders;
  }

  /** The unit tests: a submitted order is filed under its id; a cancelled one moves out of the open map. */
  method UnitTestScenarios() returns (filed: Option<Order>, cancelled: Option<Order>, openLeft: int)
    ensures filed == Some(Order(Market, "123", "SPY", 10, "sell", "day", false, "open", None))
    ensures cancelled == Some(Order(Plain, "404", "AAPL", 1, "sell", "day", false, "cancelled", None))
    ensures openLeft == 0
  {
    var oms := new Oms();
    var order := Order(Market, "123", "SPY", 10, "sell", "day", false, "open", None);
    var added := oms.NewOpenOrder(order);
    filed := if "123" in oms.openOrders then Some(oms.openOrders["123"]) else None;

    oms := new Oms();
    order := Order(Plain, "404", "AAPL", 1, "sell", "day", false, "open", None);
    added := oms.NewOpenOrder(order);
    var found := oms.CancelOrder("404");
    cancelled := if "404" in oms.cancelledOrders then Some(oms.cancelledOrders["404"]) else None;
    openLeft := |oms.openOrders|;
  }
}
