# Paper-trading ledger and synthetic forecast series

A Dafny model of the two pieces of sequential logic in the stock-prediction
web app:

- **The paper-trading ledger** of the trading page (`Trading` module,
  `trading.dfy`). One portfolio holds a cash balance (150.00 when it is
  created), a table of holdings keyed by upper-cased ticker symbol (quantity
  and average price) and an append-only list of transactions. `Portfolio.Buy`
  and `Portfolio.Sell` mirror `handleBuy` and `handleSell`:
  - the early return on an empty symbol;
  - the funds check and the shares check, with the amounts they report;
  - the cash update;
  - the merge, insert, decrement or delete of the holding row;
  - the transaction row.

  Each method states its whole new state in terms of the pure functions
  `AfterBuy`/`AfterSell`. Lemmas then prove what those functions do:
  - the table invariant (one row per symbol, positive quantities and prices);
  - the effect on every symbol, the bought or sold one and the others;
  - the accounting identity of `totalValue`. A buy leaves cash plus cost basis
    unchanged. A sell changes it by the proceeds minus the cost basis of the
    shares sold.
- **The synthetic series generator** `mockStockData` and its prediction table
  (`MockData` module, `mock_data.dfy`). The method builds the 75 chart points
  in the source's two loops: 61 past days, then 14 days ahead. It keeps a
  cursor over the random draws. It is proved equal to the specification
  function `Series`. Lemmas about `Series` state the shape of the chart:
  - order and day offsets;
  - which fields are missing where;
  - band ordering and growth;
  - placement of buy and sell signals;
  - the fallback to AAPL's prediction.

`Math.random`, `Math.sin`, `Math.pow` and `toFixed(2)` are function
parameters (`random`, `sin`, `pow`, `round`). `random(k)` is the k-th value
drawn. Every property holds whatever those functions return, unless its
contract names an assumption, such as a monotonic `round`. Dates are integer
day offsets from today. Prices are exact `real` numbers.

Share counts times prices are written as the repeated sum `Times(n, a)`.
`TimesIsProduct` proves that this equals `n * a`. Keeping the products out of
that form keeps the verifier's arithmetic linear.

A past point more than 14 days old carries a prediction only when its raw
value is non-zero: the code writes `predicted ? … : null`, so an exact 0 is
dropped (`OlderPastPrediction`).

## Model

| member | source | states |
|---|---|---|
| Trading.Portfolio.constructor | src/pages/Trading.tsx:70-76 | a new portfolio has cash 150.00, no holdings, no transactions, and satisfies the invariant |
| Trading.UpperChar | src/pages/Trading.tsx:162 | a lower-case ASCII letter maps to its capital 32 code points lower; every other character is unchanged; the result is never lower case |
| Trading.Upper | src/pages/Trading.tsx:162 | `toUpperCase` keeps the length, upper-cases character by character, and yields an upper-case string |
| Trading.UpperOfUpper | src/pages/Trading.tsx:162 | upper-casing is idempotent on an upper-case symbol |
| Trading.Find | src/pages/Trading.tsx:162 | `stocks.find` returns the first row with the symbol; it finds nothing exactly when no row has it |
| Trading.Lookup | src/pages/Trading.tsx:211 | the row found carries the symbol; it is missing exactly when no row has the symbol |
| Trading.LookupAt | src/pages/Trading.tsx:162 | with one row per symbol, looking up a row's symbol returns that row |
| Trading.TimesIsProduct | src/pages/Trading.tsx:133 | the repeated sum used for share count times price equals the product |
| Trading.TimesAdd | src/pages/Trading.tsx:244 | the amount for m + n shares is the sum of the two amounts |
| Trading.OrderTotalIsProduct | src/pages/Trading.tsx:133 | the amount of an order, stated as a repeated sum, is `currentPrice * qty` |
| Trading.TimesPositive | src/pages/Trading.tsx:133 | a positive number of shares at a positive price costs a positive amount |
| Trading.SumConcat | src/pages/Trading.tsx:271 | the `reduce` fold over a concatenation is the sum of the two folds |
| Trading.SumAppend | src/pages/Trading.tsx:271 | appending an amount adds it to the fold |
| Trading.SumUpdate | src/pages/Trading.tsx:271 | replacing one amount changes the fold by the difference |
| Trading.SumRemove | src/pages/Trading.tsx:271 | deleting one amount lowers the fold by it |
| Trading.ValueAppend | src/pages/Trading.tsx:271 | a new holding row adds its cost basis to the holdings total |
| Trading.ValueUpdate | src/pages/Trading.tsx:271 | rewriting one row changes the holdings total by its change in cost basis |
| Trading.ValueRemove | src/pages/Trading.tsx:271 | deleting a row removes its cost basis from the holdings total |
| Trading.MergeCost | src/pages/Trading.tsx:164-167 | the quantity-weighted average keeps the old cost basis plus what was paid, and stays positive |
| Trading.AfterBuyValid | src/pages/Trading.tsx:162-184 | a buy keeps one row per symbol with positive quantity and price |
| Trading.AfterBuyLookup | src/pages/Trading.tsx:162-184 | after a buy the symbol holds old quantity + qty at `(avg*oldQty + price*qty)/newQty`, or qty at price when it was not held; every other symbol holds what it held |
| Trading.AfterBuyValue | src/pages/Trading.tsx:162-184 | a buy adds exactly price * qty to the holdings total |
| Trading.AfterSellValid | src/pages/Trading.tsx:236-248 | a sell keeps one row per symbol with positive quantity and price |
| Trading.AfterSellLookup | src/pages/Trading.tsx:236-248 | selling the whole position removes it; otherwise quantity drops by qty at an unchanged average price; every other symbol holds what it held |
| Trading.ReducedCost | src/pages/Trading.tsx:244 | decrementing a row lowers its cost basis by qty * average price |
| Trading.AfterSellValue | src/pages/Trading.tsx:236-248 | a sell lowers the holdings total by qty * average price of the sold symbol |
| Trading.BuyCheck | src/pages/Trading.tsx:135-142 | a buy passes exactly when price * qty is within the balance; otherwise it reports both amounts |
| Trading.SellCheck | src/pages/Trading.tsx:211-220 | a sell passes exactly when the symbol is held with at least qty shares; otherwise it reports the shares owned (0 when none) |
| Trading.Portfolio.Buy | src/pages/Trading.tsx:129-205 | an empty symbol or a failed funds check changes nothing; a buy that passes debits price * qty, applies `AfterBuy` to the upper-cased symbol, appends one buy transaction with total price * qty, keeps the invariant and leaves cash + cost basis unchanged |
| Trading.Portfolio.Sell | src/pages/Trading.tsx:207-269 | an empty symbol or a failed shares check changes nothing; a sell that passes credits price * qty, applies `AfterSell`, appends one sell transaction, keeps the invariant and changes cash + cost basis by proceeds minus the sold shares' cost basis |
| Trading.ExampleBuys | src/pages/Trading.tsx:129-205 | on a fresh portfolio: 10 AAPL at 178.45 is refused (1784.50 > 150.00); 1 at 100 is accepted; 1 at 200 is then refused (200.00 > 50.00); 1 at 50 is accepted; the result is cash 0.00, 2 shares at an average of 75, and exactly two buy rows with totals 100.00 and 50.00 |
| Trading.ExampleSession | src/pages/Trading.tsx:207-269 | continuing, selling 3 is refused with 2 owned, and selling 2 at 80 leaves cash 160.00, no holdings, and the two buy rows followed by one sell row with total 160.00 |
| MockData.PredictionFor | src/lib/mockData.ts:56-57 | a listed symbol gets its own entry, any other gets AAPL's; the entry is well formed |
| MockData.TableWellFormed | src/lib/mockData.ts:13-54 | every table entry has positive prices, non-negative volatility and confidence in [0, 1] |
| MockData.FallbackIsApple | src/lib/mockData.ts:57 | an unlisted symbol gets 178.45 / 192.30 / buy / 0.21 |
| MockData.Emit | src/lib/mockData.ts:108-110 | a field is present exactly when its value counts as true (present and non-zero) |
| MockData.DrawsInOrder | src/lib/mockData.ts:75-82 | the draws of one historical point come before those of every later point, so no random value is used twice |
| MockData.Past | src/lib/mockData.ts:62-113 | the historical part has 61 points |
| MockData.Ahead | src/lib/mockData.ts:116-147 | the forecast part has 14 points |
| MockData.Series | src/lib/mockData.ts:56-150 | the series has 75 points |
| MockData.HistoricalStep | src/lib/mockData.ts:63-112 | one pass of the first loop pushes the historical point for offset i and advances the draw cursor by two above offset 14, by one otherwise |
| MockData.ForecastStep | src/lib/mockData.ts:117-146 | one pass of the second loop pushes the forecast point for day i |
| MockData.MockStockData | src/lib/mockData.ts:56-150 | the two loops produce exactly `Series` for the symbol's prediction |
| MockData.SeriesLayout | src/lib/mockData.ts:62-147 | 75 points, point j at day j - 60 (days -60..0, then 1..14); exactly the 61 past points have an actual price |
| MockData.TodayIsCurrentPrice | src/lib/mockData.ts:77-79 | today's point shows the rounded current price and has no signal |
| MockData.RecentPastHasNoPrediction | src/lib/mockData.ts:82-87 | past points within 14 days of today have no prediction and no bounds |
| MockData.OlderPastPrediction | src/lib/mockData.ts:82-108 | older past points show the rounded raw prediction, or none when it is exactly 0 |
| MockData.HistoricalUncertaintyIsZero | src/lib/mockData.ts:85 | the historical half-width `max(0, 14 - i) * ...` is always 0 |
| MockData.HistoricalBandCollapsed | src/lib/mockData.ts:82-110 | on every past point both bounds equal the prediction |
| MockData.HistoricalSignalRule | src/lib/mockData.ts:90-103 | a historical buy needs a buy prediction and offset 0 < i < 42 (momentum above 30); a sell needs a sell prediction and i > 0; never hold |
| MockData.HistoricalSignals | src/lib/mockData.ts:90-103 | across the past points, buys only at positions 19..59 of a buy prediction and sells only before today for a sell prediction |
| MockData.ForecastSignals | src/lib/mockData.ts:132-137 | a forecast buy appears exactly at day 3 of a buy prediction, a sell exactly at day 7 of a sell prediction, and no other forecast signal appears |
| MockData.NoHoldSignals | src/lib/mockData.ts:90-137 | no point has a hold signal; a hold prediction gives no signal anywhere |
| MockData.UncertaintyGrows | src/lib/mockData.ts:129 | the forecast half-width is positive and strictly increasing in the day |
| MockData.ForecastBands | src/lib/mockData.ts:139-146 | forecast points have no actual price, and lower bound <= prediction <= upper bound after rounding |
| MockData.ForecastReachesTarget | src/lib/mockData.ts:121-126 | with `pow(1, 0.8) = 1`, day 14's forecast is the target price |

## Left out

- Remote storage: authentication, the session check, the portfolio, holdings and transaction fetches, and the creation of the portfolio row are I/O against a hosted backend. The model keeps their state in the three fields of `Portfolio`.
- Partial failure: `handleBuy` issues three sequential remote writes and checks only the error of the balance update. Each operation is modelled as atomic, and failed writes are not modelled.
- Stale state: the handlers read the React state (`portfolio`, `stocks`) loaded by the last refetch. The model assumes that state is current; concurrent tabs and sessions are not modelled.
- Message text, toasts, the loading flag and the clearing of the form after an order are user-interface effects and are not modelled.
- Trading.Portfolio.Buy: `qty > 0` and `price > 0` are preconditions. The handler returns early on an empty quantity or a missing price. It never checks the sign of `parseInt(quantity)`; only the input's `min="1"` does. The quote fetch stores only positive prices.
- Trading.Portfolio.Sell: `qty > 0` and `price > 0` are preconditions, for the same reasons as for Buy.
- Trading.Upper: upper-cases ASCII letters only; JavaScript's `toUpperCase` also maps non-ASCII letters, and can lengthen a string.
- Trading.UpperChar: leaves every non-ASCII character unchanged, while JavaScript's `toUpperCase` maps letters such as 'é' to 'É'.
- Transaction display: the transaction list shows the 20 newest rows. The model keeps the whole log in insertion order.
- Floating point: prices are exact reals, so rounding error in the weighted average, the totals and the `reduce` fold is not modelled.
- MockData.PredictionFor: models the table as a map. In JavaScript, a symbol such as `constructor` would hit an inherited property instead of falling back to AAPL.
- Dates: `new Date` and `toLocaleDateString` are modelled as integer day offsets; labels are not modelled.
- MockData.ForecastBands: assumes that `round` keeps order. `toFixed(2)` is monotonic on doubles, but that is not proved here.
- MockData.ForecastReachesTarget: assumes `pow(1, 0.8) = 1`, which `Math.pow` satisfies, rather than proving it.
- MockData.TodayIsCurrentPrice: states the rounded current price. That equals the current price only when rounding to cents leaves it unchanged, as it does for the table's two-decimal prices.
- NaN and infinities of JavaScript numbers are not modelled.
