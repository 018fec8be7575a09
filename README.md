# Backtester orders and accounts in Dafny

A model of the order and account core of a Python trading backtester. The
repository holds several generations of the same code. This model covers:

- **Brokerage orders** (`brokerage_order.dfy`): the dataclass `Order` and its
  `MarketOrder`, `LimitOrder` and `StopOrder` subclasses. It models the
  checks `__post_init__` runs on time in force, status, direction and the
  optional threshold price, the field defaults, and the `type` tag.
- **The fill predicate** (`order_logic.dfy`): `check_order_fill`, a pure
  table by order class and direction, with its non-number and TypeError
  cases.
- **The order management system** (`order_management.dfy`): a class with
  the open, cancelled and executed dictionaries. It keeps the insertion
  order of the open dictionary, because `get_open_orders_by_symbol` lists
  orders in that order. Submission checks for a duplicate id, and
  cancellation moves an order from open to cancelled.
- **The brokerage account** (`brokerage_account.dfy`): setting, depositing
  and withdrawing cash, and the portfolio valuation, which raises KeyError
  for a held symbol without a price.
- **The legacy order** (`legacy_order.dfy`): the string-tagged `Order`
  class. Its constructor checks the price, and its `check_fill` records an
  execution in place.
- **The legacy account** (`legacy_account.dfy`): a list of open orders
  with append and delete-by-index, and a valuation that adds raw
  quantities.
- **The enum-based order** (`enum_order.dfy`): enum tags, with the
  presence of the price checked against the order type.
- **Cross-version relations** (`cross_version.dfy`): the legacy and enum
  constructors accept the same prices. A legacy order records an execution
  exactly when the brokerage predicate fills the corresponding order. The
  legacy valuation equals the brokerage valuation at unit prices.

`results.dfy` holds the Option, Result and Outcome types used for Python's
`None` and for raised exceptions.

Prices, cash and float quantities are exact `real`s. Dictionaries whose
iteration order matters are kept as sequences in insertion order: the open
order ids of the OMS, and the holdings items of both accounts. Where the
source only prints an error (the OMS methods), the model changes nothing
and returns a boolean that says which branch ran. A raised exception is a
`Failure` or `Fail` result naming the exception.

The model follows the code, which behaves as follows:
- submission rejects only an id already open. It does not check the
  order's status or the cancelled and executed maps. So an id can be both
  open and cancelled (`ResubmitAfterCancel`), and no "exactly one
  partition" invariant is claimed;
- cancelling an unknown id, or submitting a duplicate, is reported by a
  printed message only;
- there is no execute operation, and `executed_orders` is never written;
- a Limit or Stop order may be built without a threshold. The fill
  predicate then raises TypeError for a buy or sell direction
  (`MissingThreshold`);
- the portfolio valuation as written cannot run on non-empty holdings (see
  Findings). The model uses the evident intent: a loop over the
  (symbol, quantity) items.

## Model

| member | source | states |
|---|---|---|
| BrokerageOrder.TypeTag | src/backtester/brokerage/order.py:69-108 | The base class has no type tag. MarketOrder, LimitOrder and StopOrder get "market", "limit" and "stop" respectively, and each tag identifies its class. |
| BrokerageOrder.NewOrder | src/backtester/brokerage/order.py:43-110 | Construction succeeds iff time in force is day/gtc, status is open/executed/cancelled, direction is buy/sell, and any given limit or stop price is positive. Fields are stored as given. The first failing base check is the error reported. The threshold error is reported only when every base check passes. |
| BrokerageOrder.RebuildValid | src/backtester/brokerage/order.py:53-60 | Building an order from the fields of any valid order gives back that same order. |
| BrokerageOrder.NewOrderDefaults | src/backtester/brokerage/order.py:48-51 | With defaults left, a constructed order is not short, has status "open" and no executed price. |
| BrokerageOrder.MissingThresholdAccepted | src/backtester/brokerage/order.py:84-110 | A LimitOrder or StopOrder with no threshold is accepted when its base fields are valid. |
| BrokerageOrder.TestOrdersConstruct | tests/test_order_logic.py:4-21 | The orders built in the unit tests pass construction. |
| OrderLogic.CheckOrderFill | src/backtester/brokerage/order_logic.py:4-38 | A non-number price gives false, whatever the order. For a number price: Market fills; Limit fills iff the price is at the limit or better (buy ≤, sell ≥); Stop fills iff the price has reached the stop (buy ≥, sell ≤). Another direction gives false. The base class raises UnsupportedOrder. A missing threshold raises exactly when the price is a number and the direction is buy or sell. |
| OrderLogic.ConstructedOrdersAnswer | src/backtester/brokerage/order_logic.py:21-38 | Every validly constructed Market, or Limit/Stop with a threshold, gets an answer and no error. |
| OrderLogic.LimitAndStopMeetAtThreshold | src/backtester/brokerage/order_logic.py:24-36 | A limit and a stop with the same threshold and direction: at least one fills at every price. Both fill iff the price equals the threshold. |
| OrderLogic.LimitFillIsMonotone | src/backtester/brokerage/order_logic.py:24-29 | A limit that fills at a price also fills at every price better for the trader. |
| OrderLogic.StopFillIsMonotone | src/backtester/brokerage/order_logic.py:31-36 | A stop that fills at a price also fills at every price further past the stop. |
| OrderLogic.TestVectors | tests/test_order_logic.py:4-21 | Market at 10 fills. Buy limit 10.5 fills at 10 and 10.5 but not at 10.6. Sell limit 100 does not fill at 90. |
| OrderManagement.Without | src/backtester/brokerage/order_management_system.py:39 | Deleting an id keeps exactly the other ids and keeps them distinct. Deleting an id that is absent changes nothing. |
| OrderManagement.WithoutSplit | src/backtester/brokerage/order_management_system.py:39 | Deleting from a concatenation deletes from each part, so the remaining ids keep their relative order. |
| OrderManagement.WithoutRemovesAt | src/backtester/brokerage/order_management_system.py:39 | In distinct ids, deleting an id removes exactly its one position and keeps every other id in order, as `del` on a dict does. |
| OrderManagement.BySymbol | src/backtester/brokerage/order_management_system.py:15 | The selection contains only orders with the symbol that are filed under the ids, and every such order. |
| OrderManagement.BySymbolAppend | src/backtester/brokerage/order_management_system.py:13-28 | Filing an id at the end of the insertion order adds its order at the end of its symbol's list. |
| OrderManagement.BySymbolInOrder | src/backtester/brokerage/order_management_system.py:15 | Every selected order is filed under some id, and of any two selected orders the earlier is filed at an earlier position of the ids: the comprehension keeps the dict's order. |
| OrderManagement.BySymbolSplit | src/backtester/brokerage/order_management_system.py:15 | Selecting over concatenated ids gives the selection over the first part followed by the selection over the second. |
| OrderManagement.BySymbolCancel | src/backtester/brokerage/order_management_system.py:32-39 | Deleting an id from the insertion order and from the open map removes its order from each symbol's list. The other orders keep their order. |
| OrderManagement.BySymbolFrame | src/backtester/brokerage/order_management_system.py:23-28 | Filing an order under a new id does not change what the existing ids select. |
| OrderManagement.Oms.constructor | src/backtester/brokerage/order_management_system.py:8-11 | A fresh OMS has empty open, cancelled and executed maps. |
| OrderManagement.Oms.OpenOrdersBySymbol | src/backtester/brokerage/order_management_system.py:13-21 | The result is exactly the open orders with that symbol. Each is the order filed under its own id. They are listed in insertion order: of any two, the earlier was filed at an earlier position of the open dict. |
| OrderManagement.Oms.NewOpenOrder | src/backtester/brokerage/order_management_system.py:23-30 | The order is added iff its id is not open. If added, it is stored under its id, appended to the insertion order and to the end of its symbol's list. Otherwise the open map is unchanged. The cancelled and executed maps never change. |
| OrderManagement.Oms.CancelOrder | src/backtester/brokerage/order_management_system.py:32-43 | For an open id: the order, with status "cancelled", goes to the cancelled map under that id and the id leaves the open map and the insertion order. For any other id nothing changes. Executed orders never change. After a cancel, every symbol's open-order list is the old list without the cancelled order, the rest in insertion order. |
| OrderManagement.ResubmitAfterCancel | src/backtester/brokerage/order_management_system.py:23-39 | Submit, cancel, resubmit leaves the id in both the open and the cancelled map. |
| OrderManagement.UnitTestScenarios | tests/unit/test_order_management_system.py:4-23 | A submitted order is filed under its id. A cancelled order is in the cancelled map with status "cancelled", and no open order is left. |
| BrokerageAccount.PortfolioValue | src/backtester/brokerage/account.py:32-38 | Succeeds iff every held symbol has a price. The result is then the start value plus the sum of quantity × price. Otherwise it raises KeyError naming the first unpriced symbol in dict order. |
| BrokerageAccount.PositionsValueAppend | src/backtester/brokerage/account.py:33-37 | The value of concatenated holdings is the sum of the parts' values. |
| BrokerageAccount.TestValuations | tests/test_account.py:21-42 | 100 cash + 2×100 + 1×90 gives 390. SPY with no price raises the KeyError naming SPY. |
| BrokerageAccount.PortfolioValueAsWritten | src/backtester/brokerage/account.py:34 | The loop as written returns the cash on empty holdings. |
| BrokerageAccount.AsWrittenFailsOnEveryHolding | src/backtester/brokerage/account.py:32-38 | As written, every non-empty holdings raises, even when all symbols are priced and the intended valuation succeeds. |
| BrokerageAccount.AsWrittenMissesTestValue | tests/test_account.py:21-30 | On the test portfolio, the code as written raises the unpacking ValueError where 390 is expected. |
| BrokerageAccount.Account.constructor | src/backtester/brokerage/account.py:18-21 | A new account has cash 0, no holdings and no activity. |
| BrokerageAccount.Account.SetCash | src/backtester/brokerage/account.py:23-24 | Cash becomes the given value. Holdings and activity are unchanged. |
| BrokerageAccount.Account.DepositCash | src/backtester/brokerage/account.py:26-27 | Cash grows by exactly the amount. Holdings and activity are unchanged. |
| BrokerageAccount.Account.WithdrawCash | src/backtester/brokerage/account.py:29-30 | Cash falls by exactly the amount, with no lower bound. Holdings and activity are unchanged. |
| BrokerageAccount.Account.GetPortfolioValue | src/backtester/brokerage/account.py:32-38 | The loop returns PortfolioValue from the cash over the holdings: the sum, or the KeyError for the first unpriced symbol. |
| BrokerageAccount.DepositThenWithdraw | src/backtester/brokerage/account.py:23-30 | Depositing then withdrawing the same amount restores the cash. Holdings and activity are untouched. |
| BrokerageAccount.UnitTestScenarios | tests/test_account.py:5-19 | A new account has 0 cash. A deposit of 100 gives 100. A withdrawal of 100 from a new account gives -100. |
| LegacyOrder.ExecutionPrice | src/backtester/Order.py:64-90 | Market executes at the current price. Limit executes iff Buy with current ≤ price or Sell with current ≥ price. Stop executes iff Buy with current ≥ price or Sell with current ≤ price. Limit and Stop always execute at their own price. Any other type never executes. |
| LegacyOrder.LimitExecutionNoBetterThanMarket | src/backtester/Order.py:77-83 | A Limit execution is at its own price, which is never below the current price for a buy nor above it for a sell. |
| LegacyOrder.Order.constructor | src/backtester/Order.py:54-61 | The attributes are set as given, with status "Open" and no executed price. |
| LegacyOrder.Order.CheckFill | src/backtester/Order.py:64-90 | When ExecutionPrice gives a price, status becomes "Executed" and executed_price that price, whatever the old status. Otherwise both stay unchanged. Symbol, quantity, direction, type, time in force and price never change. |
| LegacyOrder.NewOrder | src/backtester/Order.py:7-61 | Raises ValueError iff a Limit/Stop has no price, or a Market has one. Otherwise it gives a new order with the given attributes, status "Open" and no executed price. Defaults are Buy, Market, GTC, no price. |
| LegacyOrder.LimitBuyExecutesAtItsLimit | src/backtester/Order.py:77-80 | A buy limit at 11 checked at 10 executes at 11. |
| LegacyOrder.RecheckOverwritesExecution | src/backtester/Order.py:73-76 | A Market order checked at 10 and then at 12 ends with executed price 12. |
| LegacyOrder.UnknownTypeNeverFills | src/backtester/Order.py:49-90 | An unrecognised type is accepted with a price and stays open, with no executed price. |
| LegacyAccount.TotalQuantityAppend | src/backtester/Account/Account.py:44-47 | The raw-quantity total of concatenated holdings is the sum of the parts' totals. |
| LegacyAccount.RemovedPosition | src/backtester/Account/Account.py:78 | `del` on an index in [-n, n) removes the one position in range that is congruent to the index modulo the length n, so a negative index counts from the end. |
| LegacyAccount.Account.constructor | src/backtester/Account/Account.py:11-37 | The new account has the given cash (default 1000), equal buying power, and empty holdings, activity and open orders. |
| LegacyAccount.Account.GetPortfolioValue | src/backtester/Account/Account.py:40-47 | The result is cash plus the sum of the raw holding quantities. |
| LegacyAccount.Account.OrderCreate | src/backtester/Account/Account.py:50-66 | An Order is appended at the end of the open orders. Anything else raises TypeError and changes nothing. Cash, holdings, activity and buying power never change. |
| LegacyAccount.Account.OrderCancel | src/backtester/Account/Account.py:69-78 | An index in [-n, n) removes exactly that element, the rest in order. Any other index raises IndexError and changes nothing. Cash, holdings, activity and buying power never change. |
| LegacyAccount.RemovalKeepsOthers | src/backtester/Account/Account.py:78 | Removing one position shortens the list by one and keeps the other elements in their relative order. |
| LegacyAccount.DefaultAccountScenario | src/backtester/Account/Account.py:11-78 | A default account is worth 1000. Creating one order leaves one open, and cancelling index -1 leaves none. |
| EnumOrder.NewOrder | src/backtester/orders/order.py:30-46 | Construction succeeds iff LIMIT/STOP/STOP_LIMIT have a price and MARKET has none. Fields are stored as given, with price None and status OPEN by default. The error names the type's value or the market-price case. |
| EnumOrder.RebuildValid | src/backtester/orders/order.py:40-46 | Building from the fields of any valid order gives back that same order. |
| EnumOrder.AnyPriceAccepted | src/backtester/orders/order.py:36-46 | A priced type accepts any price, zero and negative included. The order is OPEN by default. |
| EnumOrder.MarketWithoutPriceAccepted | src/backtester/orders/order.py:44-46 | A MARKET order without a price constructs, with status OPEN. |
| EnumOrder.ValuesDistinct | src/backtester/orders/order.py:15-28 | Distinct enum members have distinct values, including the "canceled" spelling. |
| CrossVersion.LegacyAndEnumValidationAgree | src/backtester/orders/order.py:40-46 | For Market, Limit and Stop, the legacy constructor and the enum constructor accept exactly the same prices. |
| CrossVersion.LegacyFillAgreesWithPredicate | src/backtester/Order.py:64-90 | A valid legacy order of a known type and direction executes iff `check_order_fill` fills the matching brokerage order at that price. |
| CrossVersion.LegacyValueIsUnitPriced | src/backtester/Account/Account.py:44-47 | The legacy raw-quantity total equals the brokerage position value when every symbol is priced at 1. |

## Findings

| source | as written | input that shows it | evidently intended | confidence | as-written member | corrected member |
|---|---|---|---|---|---|---|
| src/backtester/brokerage/account.py:34 | `for symbol, quantity in self.holdings` iterates the dict's keys and unpacks each key string into two names | cash 100, holdings {"SPY": 2, "AAPL": 1}, prices {"SPY": 100, "AAPL": 90}: "SPY" does not unpack into two names, so a ValueError is raised | iterate the (symbol, quantity) items and return 100 + 2·100 + 1·90 = 390, as tests/test_account.py:21-30 expects | high; not executed | BrokerageAccount.PortfolioValueAsWritten | BrokerageAccount.PortfolioValue |

## Left out

- Creation timestamps (`datetime.now()` defaults): clock access.
- Object identity: orders are values in the brokerage model. `cancel_order` sets the status on the Python object itself, which every holder of a reference sees. The model stores a copy with the new status in the cancelled map. The unit tests' `is` checks become value equality.
- Printed error messages: each becomes "no change" plus a boolean result.
- The `try`/`except` blocks of the OMS: they catch orders without `order_id` or `symbol`, which typed orders always have.
- Floating point: prices, cash and float quantities are exact reals.
- OrderLogic.CheckOrderFill: every value that is not a `numbers.Number` is one `NotANumber` case. Python booleans and complex numbers count as numbers and are not distinguished.
- LegacyOrder.Order.CheckFill: requires the constructor's guarantee that a Limit or Stop order has a price. Python would raise TypeError if a caller later set the price to None.
- LegacyAccount.Account.OrderCreate: a non-Order argument is any other Dafny object or null. Python values that are not objects of a class are not represented.
- The legacy account imports its Order from `..Orders.Order`, a module that is not part of this model. The model uses the `Order` class of src/backtester/Order.py.
- Brokerage holdings may list a symbol twice, which a dict cannot. No operation of the source writes holdings, so no invariant is kept.
- The activity logs are never written by the source. Their entries are typed as reals.
- Executing an order, applying fills to the ledger, cash and margin account figures (buying power, equity, maintenance requirements) and the simulation driver: the code has no implementation of them.
- The unparseable or stub generations (orders/order_management_system.py, orders/oms.py, orders/OMS.py, OMS.py, Account.py, both backtest_account.py files, orders/order_logic.py) and the pandas data processors are not part of this model.
