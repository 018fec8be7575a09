/**
 * The brokerage package's base `Account`: a cash balance, holdings and an
 * activity log, with cash operations and the portfolio valuation.
 *
 * `holdings` is a dict from symbol to quantity; it is kept here as its
 * items in insertion order, the order the valuation loop visits them in,
 * which decides which missing symbol is reported.
 *
 * The valuation loop as written, `for symbol, quantity in self.holdings`,
 * iterates the dict's keys and fails on every non-empty holdings
 * (PortfolioValueAsWritten). The model follows the evident intent, a loop
 * over the (symbol, quantity) items (PortfolioValue, GetPortfolioValue).
 */
module BrokerageAccount {
  import opened Results

  /** One item of the `holdings` dict: a symbol and the quantity held. */
  type Holding = (string, int)

  /** The exceptions the valuation can raise. */
  datatype PortfolioError =
    | MissingPrice(symbol: string)   // the KeyError naming a held symbol without a price
    | UnpackError                    // ValueError: a key does not unpack into two names
    | OperandTypeError               // TypeError: arithmetic between a string and a number

  predicate AllPriced(holdings: seq<Holding>, prices: map<string, real>)
  {
    forall i :: 0 <= i < |holdings| ==> holdings[i].0 in prices
  }

  /** `symbol` is the first held symbol, in dict order, without a price. */
  predicate FirstUnpriced(holdings: seq<Holding>, prices: map<string, real>, symbol: string)
  {
    exists i :: 0 <= i < |holdings| && holdings[i].0 == symbol && symbol !in prices
      && forall j :: 0 <= j < i ==> holdings[j].0 in prices
  }

  /** The market value of the positions: the sum of quantity times price over the holdings. */
  function PositionsValue(holdings: seq<Holding>, prices: map<string, real>): real
    requires AllPriced(holdings, prices)
  {
    if holdings == [] then 0.0
    else holdings[0].1 as real * prices[holdings[0].0] + PositionsValue(holdings[1..], prices)
  }

  /**
   * The valuation loop over the holdings, from the running total `start`
   * (the cash balance on entry): it fails on the first unpriced symbol and
   * otherwise ends at `start` plus the value of the positions.
   */
  function PortfolioValue(start: real, holdings: seq<Holding>, prices: map<string, real>): (r: Result<real, PortfolioError>)
    ensures r.Success? <==> AllPriced(holdings, prices)
    ensures r.Success? ==> r.value == start + PositionsValue(holdings, prices)
    ensures r.Failure? ==> r.error.MissingPrice? && FirstUnpriced(holdings, prices, r.error.symbol)
    decreases |holdings|
  {
    if holdings == [] then Success(start)
    else if holdings[0].0 !in prices then
      assert FirstUnpriced(holdings, prices, holdings[0].0) by { assert holdings[0].0 == holdings[0].0; }
      Failure(MissingPrice(holdings[0].0))
    else
      var rest := PortfolioValue(start + holdings[0].1 as real * prices[holdings[0].0], holdings[1..], prices);
      assert forall i :: 1 <= i < |holdings| ==> holdings[1..][i - 1] == holdings[i];
      assert rest.Failure? ==> FirstUnpriced(holdings, prices, rest.error.symbol) by {
        if rest.Failure? {
          var k :| 0 <= k < |holdings[1..]| && holdings[1..][k].0 == rest.error.symbol && rest.error.symbol !in prices
            && forall j :: 0 <= j < k ==> holdings[1..][j].0 in prices;
          assert holdings[k + 1].0 == rest.error.symbol;
          assert forall j :: 0 <= j < k + 1 ==> holdings[j].0 in prices by {
            forall j | 0 <= j < k + 1 ensures holdings[j].0 in prices {
              if j > 0 { assert holdings[j] == holdings[1..][j - 1]; }
            }
          }
        }
      }
      rest
  }

  /** One turn of the valuation loop on a priced symbol. */
  lemma PortfolioValueStep(start: real, holdings: seq<Holding>, prices: map<string, real>)
    requires holdings != [] && holdings[0].0 in prices
    ensures PortfolioValue(start, holdings, prices)
         == PortfolioValue(start + holdings[0].1 as real * prices[holdings[0].0], holdings[1..], prices)
  {
  }

  /** The value of a concatenation of holdings is the sum of the values of the parts. */
  lemma {:induction false} PositionsValueAppend(a: seq<Holding>, b: seq<Holding>, prices: map<string, real>)
    requires AllPriced(a, prices) && AllPriced(b, prices)
    ensures AllPriced(a + b, prices)
    ensures PositionsValue(a + b, prices) == PositionsValue(a, prices) + PositionsValue(b, prices)
  {
    assert forall i :: 0 <= i < |a + b| ==> (a + b)[i] == if i < |a| then a[i] else b[i - |a|];
    if a != [] {
      assert (a + b)[1..] == a[1..] + b;
      assert AllPriced(a[1..], prices) by {
        forall i | 0 <= i < |a[1..]| ensures a[1..][i].0 in prices { assert a[1..][i] == a[i + 1]; }
      }
      PositionsValueAppend(a[1..], b, prices);
      assert (a + b)[0] == a[0];
    } else {
      assert a + b == b;
    }
  }

  /** The unit tests: 100 in cash, 2 SPY at 100 and 1 AAPL at 90 are worth 390; SPY without a price is a KeyError. */
  lemma TestValuations()
    ensures PortfolioValue(100.0, [("SPY", 2), ("AAPL", 1)], map["SPY" := 100.0, "AAPL" := 90.0]) == Success(390.0)
    ensures PortfolioValue(0.0, [("SPY", 2)], map[]) == Failure(MissingPrice("SPY"))
  {
  }

  /**
   * The valuation loop as written. Iterating a dict yields its keys, and
   * `symbol, quantity` unpacks the key string itself: a key that is not two
   * characters long raises ValueError; a two-character key gives a
   * one-character symbol, which raises KeyError when unpriced, and otherwise
   * a string quantity whose product with the price cannot be added to the
   * numeric total, a TypeError. Either way the first key ends the loop.
   */
  function PortfolioValueAsWritten(cash: real, holdings: seq<Holding>, prices: map<string, real>): (r: Result<real, PortfolioError>)
    ensures holdings == [] ==> r == Success(cash)
  {
    if holdings == [] then Success(cash)
    else
      var key := holdings[0].0;
      if |key| != 2 then Failure(UnpackError)
      else if [key[0]] !in prices then Failure(MissingPrice([key[0]]))
      else Failure(OperandTypeError)
  }

  /** As written, the valuation fails for every non-empty holdings, priced or not. */
  lemma AsWrittenFailsOnEveryHolding(cash: real, holdings: seq<Holding>, prices: map<string, real>)
    requires holdings != []
    ensures PortfolioValueAsWritten(cash, holdings, prices).Failure?
    ensures AllPriced(holdings, prices) ==> PortfolioValue(cash, holdings, prices).Success?
  {
  }

  /** On the unit test's portfolio the loop as written raises where the intended loop gives 390. */
  lemma AsWrittenMissesTestValue()
    ensures PortfolioValueAsWritten(100.0, [("SPY", 2), ("AAPL", 1)], map["SPY" := 100.0, "AAPL" := 90.0]) == Failure(UnpackError)
    ensures PortfolioValue(100.0, [("SPY", 2), ("AAPL", 1)], map["SPY" := 100.0, "AAPL" := 90.0]) == Success(390.0)
  {
  }

  class Account {
    var cash: real
    /** The items of the holdings dict, in insertion order. */
    var holdings: seq<Holding>
    var activity: seq<real>

    constructor ()
      ensures cash == 0.0 && holdings == [] && activity == []
    {
      cash, holdings, activity := 0.0, [], [];
    }

    method SetCash(amount: real)
      modifies this
      ensures cash == amount
      ensures holdings == old(holdings) && activity == old(activity)
    {
      cash := amount;
    }

    /** Adds the amount, with no check on its sign. */
    method DepositCash(amount: real)
      modifies this
      ensures cash == old(cash) + amount
      ensures holdings == old(holdings) && activity == old(activity)
    {
      cash := cash + amount;
    }

    /** Subtracts the amount; the balance may go below zero. */
    method WithdrawCash(amount: real)
      modifies this
      ensures cash == old(cash) - amount
      ensures holdings == old(holdings) && activity == old(activity)
    {
      cash := cash - amount;
    }

    /** `get_portfolio_value`, with the loop over the holdings' items. */
    method GetPortfolioValue(prices: map<string, real>) returns (r: Result<real, PortfolioError>)
      ensures r == PortfolioValue(cash, holdings, prices)
    {
      var items, value := holdings, cash;
      ghost var total := PortfolioValue(value, items, prices);
      var i := 0;
      while i < |items|
        invariant 0 <= i <= |items|
        invariant total == PortfolioValue(value, items[i..], prices)
      {
        var symbol, quantity := items[i].0, items[i].1;
        if symbol !in prices {
          return Failure(MissingPrice(symbol));
        }
        assert items[i..][0] == items[i] && items[i..][1..] == items[i + 1..];
        PortfolioValueStep(value, items[i..], prices);
        ghost var before := value;
        value := value + quantity as real * prices[symbol];
        assert value == before + items[i..][0].1 as real * prices[items[i..][0].0];
        i := i + 1;
      }
      return Success(value);
    }
  }

  /** Depositing an amount and withdrawing it again restores the balance; nothing else moves. */
  method DepositThenWithdraw(account: Account, amount: real)
    modifies account
    ensures account.cash == old(account.cash)
    ensures account.holdings == old(account.holdings) && account.activity == old(account.activity)
  {
    account.DepositCash(amount);
    account.WithdrawCash(amount);
  }

  /** The unit tests: a new account holds nothing, and withdrawing 100 from it leaves -100. */
  method UnitTestScenarios() returns (fresh0: real, afterDeposit: real, afterWithdraw: real)
    ensures fresh0 == 0.0 && afterDeposit == 100.0 && afterWithdraw == -100.0
  {
    var account := new Account();
    fresh0 := account.cash;
    account.DepositCash(100.0);
    afterDeposit := account.cash;
    account := new Account();
    account.WithdrawCash(100.0);
    afterWithdraw := account.cash;
  }
}
