/**
 * The paper-trading ledger of the trading page: one cash balance, a table of
 * holdings keyed by upper-cased ticker symbol, and an append-only list of
 * transactions.  A buy or a sell either applies all three of its effects
 * (cash, holding, transaction) or, when it is rejected, none of them.
 */
module Trading {
  import opened Optional

  /** Cash balance of a portfolio when it is first created. */
  const InitialCash: real := 150.0

  /** One row of the holdings table: shares held and their average cost. */
  datatype Holding = Holding(symbol: string, quantity: nat, averagePrice: real)

  datatype TxType = BuyTx | SellTx

  /** One row of the transaction log; rows are never changed once written. */
  datatype Transaction = Transaction(symbol: string, kind: TxType, quantity: nat, price: real, totalAmount: real)

  /** What a buy or a sell reports back to the user. */
  datatype Outcome =
    | Done
      /** the symbol field was empty, so the handler returned at once */
    | NoInput
      /** the order costs `needed` but the balance is only `available` */
    | InsufficientFunds(needed: real, available: real)
      /** the order sells more shares than the `owned` ones */
    | InsufficientShares(owned: nat)

  // ----- symbols -----------------------------------------------------------

  predicate IsLowerLetter(c: char) {
    'a' <= c <= 'z'
  }

  /** Upper-case form of one character (ASCII letters only). */
  function UpperChar(c: char): (u: char)
    ensures !IsLowerLetter(u)
    ensures IsLowerLetter(c) ==> 'A' <= u <= 'Z' && u as int + 32 == c as int
    ensures !IsLowerLetter(c) ==> u == c
  {
    if IsLowerLetter(c) then (c as int - 32) as char else c
  }

  predicate IsUpper(s: string) {
    forall k :: 0 <= k < |s| ==> !IsLowerLetter(s[k])
  }

  /** `symbol.toUpperCase()`, on ASCII letters. */
  function Upper(s: string): (r: string)
    ensures |r| == |s| && IsUpper(r)
    ensures forall k :: 0 <= k < |s| ==> r[k] == UpperChar(s[k])
  {
    seq(|s|, k requires 0 <= k < |s| => UpperChar(s[k]))
  }

  /** Upper-casing a symbol that is already upper case leaves it alone. */
  lemma UpperOfUpper(s: string)
    requires IsUpper(s)
    ensures Upper(s) == s
  {
    assert forall k :: 0 <= k < |s| ==> Upper(s)[k] == s[k];
  }

  // ----- the holdings table ------------------------------------------------

  /** Index of the first row for `sym` (`stocks.find`). */
  function Find(stocks: seq<Holding>, sym: string): (r: Option<nat>)
    ensures r.Some? ==> r.value < |stocks| && stocks[r.value].symbol == sym
    ensures r.Some? ==> forall j :: 0 <= j < r.value ==> stocks[j].symbol != sym
    ensures r.None? <==> forall j :: 0 <= j < |stocks| ==> stocks[j].symbol != sym
  {
    if |stocks| == 0 then None
    else if stocks[0].symbol == sym then Some(0)
    else match Find(stocks[1..], sym)
      case None => None
      case Some(k) => Some(k + 1)
  }

  /** The holding for `sym`, if there is one. */
  function Lookup(stocks: seq<Holding>, sym: string): (r: Option<Holding>)
    ensures r.Some? ==> r.value.symbol == sym
    ensures r.None? <==> forall j :: 0 <= j < |stocks| ==> stocks[j].symbol != sym
  {
    match Find(stocks, sym)
    case None => None
    case Some(i) => Some(stocks[i])
  }

  /** The table's invariant: one row per symbol, upper-case symbols, positive
      quantities and positive average prices. */
  predicate ValidHoldings(stocks: seq<Holding>) {
    && (forall i, j :: 0 <= i < j < |stocks| ==> stocks[i].symbol != stocks[j].symbol)
    && (forall i :: 0 <= i < |stocks| ==> ValidRow(stocks[i]))
  }

  predicate ValidRow(h: Holding) {
    h.quantity > 0 && h.averagePrice > 0.0 && IsUpper(h.symbol)
  }

  /** With one row per symbol, the row holding `sym` is the one found. */
  lemma LookupAt(stocks: seq<Holding>, j: int)
    requires ValidHoldings(stocks) && 0 <= j < |stocks|
    ensures Lookup(stocks, stocks[j].symbol) == Some(stocks[j])
  {
    var r := Find(stocks, stocks[j].symbol);
    assert r.Some?;
    assert r.value == j by {
      if r.value < j {
      } else if r.value > j {
      }
    }
  }

  /** `n` shares at `a` each: the product `n * a`, written as `a` added up `n`
      times so that sums of such amounts stay linear for the verifier
      (`TimesIsProduct` shows it is the product). */
  function Times(n: nat, a: real): real {
    if n == 0 then 0.0 else Times(n - 1, a) + a
  }

  lemma {:induction false} TimesIsProduct(n: nat, a: real)
    ensures Times(n, a) == n as real * a
  {
    if n > 0 {
      TimesIsProduct(n - 1, a);
    }
  }

  /** Splitting a block of shares splits its amount. */
  lemma {:induction false} TimesAdd(m: nat, n: nat, a: real)
    ensures Times(m + n, a) == Times(m, a) + Times(n, a)
  {
    if n > 0 {
      TimesAdd(m, n - 1, a);
    }
  }

  lemma {:induction false} TimesPositive(n: nat, a: real)
    requires n > 0 && a > 0.0
    ensures Times(n, a) > 0.0
  {
    if n > 1 {
      TimesPositive(n - 1, a);
    }
  }

  /** Cost basis of one holding: quantity times average price. */
  function Cost(h: Holding): real {
    Times(h.quantity, h.averagePrice)
  }

  /** Sum of a list of amounts, folded from the left as `reduce` does. */
  function Sum(xs: seq<real>): real {
    if |xs| == 0 then 0.0 else Sum(xs[..|xs| - 1]) + xs[|xs| - 1]
  }

  /** The cost basis of every row, in table order. */
  function Costs(stocks: seq<Holding>): seq<real> {
    seq(|stocks|, k requires 0 <= k < |stocks| => Cost(stocks[k]))
  }

  /** Sum of quantity * average price over the table. */
  function HoldingsValue(stocks: seq<Holding>): real {
    Sum(Costs(stocks))
  }

  /** Cash plus the cost basis of all holdings (`totalValue`). */
  function TotalValue(cash: real, stocks: seq<Holding>): real {
    HoldingsValue(stocks) + cash
  }

  lemma {:induction false} SumConcat(a: seq<real>, b: seq<real>)
    ensures Sum(a + b) == Sum(a) + Sum(b)
  {
    if |b| == 0 {
      assert a + b == a;
    } else {
      var b' := b[..|b| - 1];
      assert (a + b)[..|a + b| - 1] == a + b';
      SumConcat(a, b');
    }
  }

  lemma SumAppend(xs: seq<real>, x: real)
    ensures Sum(xs + [x]) == Sum(xs) + x
  {
    assert (xs + [x])[..|xs|] == xs;
  }

  /** Replacing one amount changes the sum by the difference. */
  lemma SumUpdate(xs: seq<real>, i: int, x: real)
    requires 0 <= i < |xs|
    ensures Sum(xs[i := x]) == Sum(xs) - xs[i] + x
  {
    var left, right := xs[..i], xs[i + 1..];
    assert xs[..i + 1] == left + [xs[i]];
    assert xs == xs[..i + 1] + right;
    assert xs[i := x] == (left + [x]) + right;
    SumConcat(left + [xs[i]], right);
    SumConcat(left + [x], right);
    SumAppend(left, xs[i]);
    SumAppend(left, x);
  }

  /** Deleting one amount lowers the sum by it. */
  lemma SumRemove(xs: seq<real>, i: int)
    requires 0 <= i < |xs|
    ensures Sum(xs[..i] + xs[i + 1..]) == Sum(xs) - xs[i]
  {
    var left, right := xs[..i], xs[i + 1..];
    assert xs[..i + 1] == left + [xs[i]];
    assert xs == xs[..i + 1] + right;
    SumConcat(left + [xs[i]], right);
    SumAppend(left, xs[i]);
    SumConcat(left, right);
  }

  lemma ValueAppend(stocks: seq<Holding>, h: Holding)
    ensures HoldingsValue(stocks + [h]) == HoldingsValue(stocks) + Cost(h)
  {
    assert Costs(stocks + [h]) == Costs(stocks) + [Cost(h)];
    SumAppend(Costs(stocks), Cost(h));
  }

  lemma ValueUpdate(stocks: seq<Holding>, i: int, h: Holding)
    requires 0 <= i < |stocks|
    ensures HoldingsValue(stocks[i := h]) == HoldingsValue(stocks) - Cost(stocks[i]) + Cost(h)
  {
    assert Costs(stocks[i := h]) == Costs(stocks)[i := Cost(h)];
    SumUpdate(Costs(stocks), i, Cost(h));
  }

  lemma ValueRemove(stocks: seq<Holding>, i: int)
    requires 0 <= i < |stocks|
    ensures HoldingsValue(stocks[..i] + stocks[i + 1..]) == HoldingsValue(stocks) - Cost(stocks[i])
  {
    var cs := Costs(stocks);
    assert Costs(stocks[..i] + stocks[i + 1..]) == cs[..i] + cs[i + 1..];
    SumRemove(cs, i);
  }

  // ----- buy ---------------------------------------------------------------

  /** What an order of `qty` shares at `price` costs or earns. */
  function OrderTotal(price: real, qty: nat): real {
    Times(qty, price)
  }

  /** The amount of an order is `currentPrice * qty`. */
  lemma OrderTotalIsProduct(price: real, qty: nat)
    ensures OrderTotal(price, qty) == qty as real * price
  {
    TimesIsProduct(qty, price);
  }

  /** A held position after buying `qty` more shares at `price`, with the new
      average price weighted by quantity. */
  function Merge(h: Holding, qty: nat, price: real): Holding
    requires h.quantity + qty > 0
  {
    var newQuantity := h.quantity + qty;
    Holding(h.symbol, newQuantity, (Cost(h) + OrderTotal(price, qty)) / newQuantity as real)
  }

  /** The holdings table after a buy: the row for `sym` is merged, or a new
      row is added. */
  function AfterBuy(stocks: seq<Holding>, sym: string, qty: nat, price: real): seq<Holding>
    requires ValidHoldings(stocks) && qty > 0
  {
    match Find(stocks, sym)
    case Some(i) => stocks[i := Merge(stocks[i], qty, price)]
    case None => stocks + [Holding(sym, qty, price)]
  }

  /** A merged position keeps its cost basis plus what was paid. */
  lemma MergeCost(h: Holding, qty: nat, price: real)
    requires h.quantity > 0 && h.averagePrice > 0.0 && qty > 0 && price > 0.0
    ensures Cost(Merge(h, qty, price)) == Cost(h) + OrderTotal(price, qty)
    ensures Merge(h, qty, price).averagePrice > 0.0
  {
    var n := h.quantity + qty;
    var paid := Cost(h) + OrderTotal(price, qty);
    TimesPositive(h.quantity, h.averagePrice);
    TimesPositive(qty, price);
    TimesIsProduct(n, paid / n as real);
    assert n as real * (paid / n as real) == paid;
  }

  /** A buy keeps the table's invariant. */
  lemma AfterBuyValid(stocks: seq<Holding>, sym: string, qty: nat, price: real)
    requires ValidHoldings(stocks) && IsUpper(sym) && qty > 0 && price > 0.0
    ensures ValidHoldings(AfterBuy(stocks, sym, qty, price))
  {
    match Find(stocks, sym)
    case Some(i) =>
      MergeCost(stocks[i], qty, price);
      assert ValidRow(Merge(stocks[i], qty, price));
    case None =>
      assert ValidRow(Holding(sym, qty, price));
  }

  /** After a buy, the bought symbol holds `qty` more shares at the
      quantity-weighted average price (or `qty` shares at `price` when it was
      not held), and every other symbol holds what it held before. */
  lemma AfterBuyLookup(stocks: seq<Holding>, sym: string, qty: nat, price: real, x: string)
    requires ValidHoldings(stocks) && IsUpper(sym) && qty > 0 && price > 0.0
    ensures Lookup(AfterBuy(stocks, sym, qty, price), x) ==
            if x != sym then Lookup(stocks, x)
            else match Lookup(stocks, sym)
              case Some(h) => Some(Holding(sym, h.quantity + qty,
                                           (Cost(h) + OrderTotal(price, qty)) / (h.quantity + qty) as real))
              case None => Some(Holding(sym, qty, price))
  {
    var after := AfterBuy(stocks, sym, qty, price);
    AfterBuyValid(stocks, sym, qty, price);
    var f := Find(stocks, sym);
    var i := if f.Some? then f.value else |stocks|;
    assert |after| == |stocks| || |after| == |stocks| + 1;
    assert after[i].symbol == sym;
    assert forall j :: 0 <= j < |stocks| && j != i ==> after[j] == stocks[j];
    if x == sym {
      LookupAt(after, i);
    } else if j :| 0 <= j < |stocks| && stocks[j].symbol == x {
      LookupAt(stocks, j);
      LookupAt(after, j);
    }
  }

  /** A buy adds exactly what was paid to the table's cost basis. */
  lemma AfterBuyValue(stocks: seq<Holding>, sym: string, qty: nat, price: real)
    requires ValidHoldings(stocks) && qty > 0 && price > 0.0
    ensures HoldingsValue(AfterBuy(stocks, sym, qty, price)) == HoldingsValue(stocks) + OrderTotal(price, qty)
  {
    match Find(stocks, sym)
    case Some(i) =>
      MergeCost(stocks[i], qty, price);
      ValueUpdate(stocks, i, Merge(stocks[i], qty, price));
    case None =>
      ValueAppend(stocks, Holding(sym, qty, price));
  }

  // ----- sell --------------------------------------------------------------

  /** The holdings table after selling `qty` shares from row `i`: the row
      goes away when all of it is sold, otherwise only its quantity drops. */
  function SellAt(stocks: seq<Holding>, i: int, qty: nat): seq<Holding>
    requires 0 <= i < |stocks| && qty <= stocks[i].quantity
  {
    if stocks[i].quantity == qty then stocks[..i] + stocks[i + 1..]
    else stocks[i := stocks[i].(quantity := stocks[i].quantity - qty)]
  }

  /** The holdings table after selling `qty` shares of `sym`. */
  function AfterSell(stocks: seq<Holding>, sym: string, qty: nat): seq<Holding>
    requires Lookup(stocks, sym).Some? && qty <= Lookup(stocks, sym).value.quantity
  {
    SellAt(stocks, Find(stocks, sym).value, qty)
  }

  /** A sell keeps the table's invariant. */
  lemma AfterSellValid(stocks: seq<Holding>, sym: string, qty: nat)
    requires ValidHoldings(stocks) && qty > 0
    requires Lookup(stocks, sym).Some? && Lookup(stocks, sym).value.quantity >= qty
    ensures ValidHoldings(AfterSell(stocks, sym, qty))
  {
    var i := Find(stocks, sym).value;
    var after := AfterSell(stocks, sym, qty);
    if stocks[i].quantity == qty {
      assert forall j :: 0 <= j < |after| ==> after[j] == stocks[if j < i then j else j + 1];
    } else {
      assert ValidRow(after[i]);
    }
  }

  /** After a sell, a symbol sold in full is gone, otherwise it holds `qty`
      fewer shares at an unchanged average price; every other symbol holds
      what it held before. */
  lemma AfterSellLookup(stocks: seq<Holding>, sym: string, qty: nat, x: string)
    requires ValidHoldings(stocks) && qty > 0
    requires Lookup(stocks, sym).Some? && Lookup(stocks, sym).value.quantity >= qty
    ensures var h := Lookup(stocks, sym).value;
            Lookup(AfterSell(stocks, sym, qty), x) ==
              if x != sym then Lookup(stocks, x)
              else if h.quantity == qty then None
              else Some(Holding(sym, h.quantity - qty, h.averagePrice))
  {
    var i := Find(stocks, sym).value;
    var after := AfterSell(stocks, sym, qty);
    AfterSellValid(stocks, sym, qty);
    if stocks[i].quantity == qty {
      assert forall j :: 0 <= j < |after| ==> after[j] == stocks[if j < i then j else j + 1];
      if j :| 0 <= j < |after| && after[j].symbol == x {
        LookupAt(stocks, if j < i then j else j + 1);
        LookupAt(after, j);
      } else {
        forall k | 0 <= k < |stocks| && k != i
          ensures stocks[k].symbol != x
        {
          assert after[if k < i then k else k - 1] == stocks[k];
        }
      }
    } else {
      if x == sym {
        LookupAt(after, i);
      } else if j :| 0 <= j < |stocks| && stocks[j].symbol == x {
        LookupAt(stocks, j);
        LookupAt(after, j);
      }
    }
  }

  /** Selling `qty` shares of a position lowers its cost basis by their share. */
  lemma ReducedCost(h: Holding, qty: nat)
    requires qty <= h.quantity
    ensures Cost(h.(quantity := h.quantity - qty)) == Cost(h) - Times(qty, h.averagePrice)
  {
    TimesAdd(h.quantity - qty, qty, h.averagePrice);
  }

  /** A sell removes the cost basis of the shares sold from the table. */
  lemma AfterSellValue(stocks: seq<Holding>, sym: string, qty: nat)
    requires Lookup(stocks, sym).Some? && qty <= Lookup(stocks, sym).value.quantity
    ensures HoldingsValue(AfterSell(stocks, sym, qty)) ==
            HoldingsValue(stocks) - Times(qty, Lookup(stocks, sym).value.averagePrice)
  {
    var i := Find(stocks, sym).value;
    assert stocks[i] == Lookup(stocks, sym).value;
    if stocks[i].quantity == qty {
      ValueRemove(stocks, i);
    } else {
      ValueUpdate(stocks, i, stocks[i].(quantity := stocks[i].quantity - qty));
      ReducedCost(stocks[i], qty);
    }
  }

  // ----- the portfolio -----------------------------------------------------

  /** A transaction as the handlers record it: positive quantity and a total
      equal to price times quantity. */
  predicate ValidTransaction(t: Transaction) {
    t.quantity > 0 && t.totalAmount == OrderTotal(t.price, t.quantity) && IsUpper(t.symbol)
  }

  /** The funds check of a buy: an order that costs more than the balance is
      rejected with both amounts. */
  function BuyCheck(cash: real, qty: nat, price: real): (r: Outcome)
    ensures r == Done <==> OrderTotal(price, qty) <= cash
    ensures r != Done ==> r == InsufficientFunds(OrderTotal(price, qty), cash)
  {
    if OrderTotal(price, qty) > cash then InsufficientFunds(OrderTotal(price, qty), cash) else Done
  }

  /** The shares check of a sell: selling a symbol that is not held, or more
      shares than are held, is rejected with the number of shares owned. */
  function SellCheck(stocks: seq<Holding>, sym: string, qty: nat): (r: Outcome)
    ensures r == Done <==> Lookup(stocks, sym).Some? && Lookup(stocks, sym).value.quantity >= qty
    ensures r != Done ==>
              r == InsufficientShares(if Lookup(stocks, sym).Some? then Lookup(stocks, sym).value.quantity else 0)
  {
    match Lookup(stocks, sym)
    case None => InsufficientShares(0)
    case Some(h) => if h.quantity < qty then InsufficientShares(h.quantity) else Done
  }

  /** One user's portfolio: the cash row, the holdings rows and the
      transaction rows, updated together by each successful order. */
  class Portfolio {
    var cash: real
    var stocks: seq<Holding>
    var transactions: seq<Transaction>

    ghost predicate Valid()
      reads this
    {
      && cash >= 0.0
      && ValidHoldings(stocks)
      && forall k :: 0 <= k < |transactions| ==> ValidTransaction(transactions[k])
    }

    /** A new portfolio holds the default cash balance and nothing else. */
    constructor ()
      ensures Valid()
      ensures cash == InitialCash && stocks == [] && transactions == []
    {
      cash := InitialCash;
      stocks := [];
      transactions := [];
    }

    function Value(): real
      reads this
    {
      TotalValue(cash, stocks)
    }

    /** `handleBuy`: buy `qty` shares of `symbol` at `price`. */
    method Buy(symbol: string, qty: nat, price: real) returns (outcome: Outcome)
      requires Valid() && qty > 0 && price > 0.0
      modifies this
      ensures Valid()
      ensures outcome == if symbol == "" then NoInput else BuyCheck(old(cash), qty, price)
      ensures outcome != Done ==>
                cash == old(cash) && stocks == old(stocks) && transactions == old(transactions)
      ensures outcome == Done ==>
                && cash == old(cash) - OrderTotal(price, qty)
                && stocks == AfterBuy(old(stocks), Upper(symbol), qty, price)
                && transactions == old(transactions) +
                     [Transaction(Upper(symbol), BuyTx, qty, price, OrderTotal(price, qty))]
      ensures outcome == Done ==> Value() == old(Value())
    {
      if symbol == "" {
        return NoInput;
      }
      var total := OrderTotal(price, qty);
      if total > cash {
        return InsufficientFunds(total, cash);
      }
      var sym := Upper(symbol);
      AfterBuyValid(stocks, sym, qty, price);
      AfterBuyValue(stocks, sym, qty, price);
      var newStocks: seq<Holding>;
      var existing := Find(stocks, sym);
      match existing {
        case Some(i) =>
          var newQuantity := stocks[i].quantity + qty;
          var newAvgPrice := (Cost(stocks[i]) + total) / newQuantity as real;
          newStocks := stocks[i := Holding(sym, newQuantity, newAvgPrice)];
          assert Holding(sym, newQuantity, newAvgPrice) == Merge(stocks[i], qty, price);
        case None =>
          newStocks := stocks + [Holding(sym, qty, price)];
      }
      assert newStocks == AfterBuy(stocks, sym, qty, price);
      var tx := Transaction(sym, BuyTx, qty, price, total);
      assert ValidTransaction(tx);
      cash := cash - total;
      stocks := newStocks;
      transactions := transactions + [tx];
      outcome := Done;
    }

    /** `handleSell`: sell `qty` shares of `symbol` at `price`. */
    method Sell(symbol: string, qty: nat, price: real) returns (outcome: Outcome)
      requires Valid() && qty > 0 && price > 0.0
      modifies this
      ensures Valid()
      ensures outcome == if symbol == "" then NoInput else SellCheck(old(stocks), Upper(symbol), qty)
      ensures outcome != Done ==>
                cash == old(cash) && stocks == old(stocks) && transactions == old(transactions)
      ensures outcome == Done ==>
                && cash == old(cash) + OrderTotal(price, qty)
                && stocks == AfterSell(old(stocks), Upper(symbol), qty)
                && transactions == old(transactions) +
                     [Transaction(Upper(symbol), SellTx, qty, price, OrderTotal(price, qty))]
      ensures outcome == Done ==>
                Value() == old(Value()) + OrderTotal(price, qty)
                           - Times(qty, Lookup(old(stocks), Upper(symbol)).value.averagePrice)
    {
      if symbol == "" {
        return NoInput;
      }
      var sym := Upper(symbol);
      var existing := Find(stocks, sym);
      if existing.None? {
        return InsufficientShares(0);
      }
      var i := existing.value;
      if stocks[i].quantity < qty {
        return InsufficientShares(stocks[i].quantity);
      }
      AfterSellValid(stocks, sym, qty);
      AfterSellValue(stocks, sym, qty);
      var total := OrderTotal(price, qty);
      TimesPositive(qty, price);
      var newStocks: seq<Holding>;
      if stocks[i].quantity == qty {
        newStocks := stocks[..i] + stocks[i + 1..];
      } else {
        newStocks := stocks[i := stocks[i].(quantity := stocks[i].quantity - qty)];
      }
      assert newStocks == AfterSell(stocks, sym, qty);
      var tx := Transaction(sym, SellTx, qty, price, total);
      assert ValidTransaction(tx);
      cash := cash + total;
      stocks := newStocks;
      transactions := transactions + [tx];
      outcome := Done;
    }
  }

  /** The buying half of the example session on a fresh portfolio: an
      unaffordable buy, a buy that opens a position, and a rejected and an
      accepted buy into it. */
  method ExampleBuys() returns (p: Portfolio, outcomes: seq<Outcome>)
    ensures fresh(p) && p.Valid()
    ensures outcomes == [InsufficientFunds(1784.5, 150.0), Done, InsufficientFunds(200.0, 50.0), Done]
    ensures p.cash == 0.0 && p.stocks == [Holding("AAPL", 2, 75.0)]
    ensures p.transactions == [Transaction("AAPL", BuyTx, 1, 100.0, 100.0), Transaction("AAPL", BuyTx, 1, 50.0, 50.0)]
  {
    p := new Portfolio();
    UpperOfUpper("AAPL");
    assert OrderTotal(178.45, 10) == 1784.5;
    var o1 := p.Buy("AAPL", 10, 178.45);
    assert p.cash == 150.0 && p.stocks == [];
    var o2 := p.Buy("AAPL", 1, 100.0);
    assert p.cash == 50.0 && p.stocks == [Holding("AAPL", 1, 100.0)];
    assert p.transactions == [Transaction("AAPL", BuyTx, 1, 100.0, 100.0)];
    var o3 := p.Buy("AAPL", 1, 200.0);
    assert p.cash == 50.0;
    assert Find(p.stocks, "AAPL") == Some(0);
    assert Merge(Holding("AAPL", 1, 100.0), 1, 50.0) == Holding("AAPL", 2, 75.0);
    var o4 := p.Buy("AAPL", 1, 50.0);
    outcomes := [o1, o2, o3, o4];
  }

  /** The example session continued: an oversell is rejected with the shares
      owned, and selling every share closes the position. */
  method ExampleSession() returns (outcomes: seq<Outcome>, finalCash: real, finalStocks: seq<Holding>,
                                   log: seq<Transaction>)
    ensures outcomes == [InsufficientFunds(1784.5, 150.0), Done, InsufficientFunds(200.0, 50.0),
                         Done, InsufficientShares(2), Done]
    ensures finalCash == 160.0 && finalStocks == []
    ensures log == [Transaction("AAPL", BuyTx, 1, 100.0, 100.0), Transaction("AAPL", BuyTx, 1, 50.0, 50.0),
                    Transaction("AAPL", SellTx, 2, 80.0, 160.0)]
  {
    var p, buys := ExampleBuys();
    UpperOfUpper("AAPL");
    var o5 := p.Sell("AAPL", 3, 80.0);
    assert p.cash == 0.0 && p.stocks == [Holding("AAPL", 2, 75.0)];
    var o6 := p.Sell("AAPL", 2, 80.0);
    outcomes := buys + [o5, o6];
    finalCash := p.cash;
    finalStocks := p.stocks;
    log := p.transactions;
  }
}
