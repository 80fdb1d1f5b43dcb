# Trade tracker: reconciliation and profit/loss, in Dafny

This project models the trade-reconciliation and profit/loss engine of a
small trade-tracking dashboard (`trade2.py`). Given one asset's daily price
history, a user-chosen date range and a log of buy/sell trades, the engine:

1. keeps the bars whose date lies in the inclusive range `[start, end]`;
2. takes the current price as the adjusted close of the last remaining bar;
3. gives each trade of the selected asset the adjusted close of the bar on
   its exact date. There is no fallback: a trade with no bar on its date
   (a weekend, a holiday or a date out of range) stays unpriced and is skipped;
4. builds one summary row per priced trade, in trade-log order. Each row
   holds the P&L against the current price and a class: "Potential" for a
   buy, "Realized" for a sell.

The model is functional. Bars, trades and rows are immutable datatypes. Dates
are integer day numbers, and prices and amounts are `real`. Every step is a
pure function. Price resolution returns a new sequence of trades, each paired
with an optional price, instead of writing a `price` key into the global trade
list.

Files:

- `optional.dfy`: module `Optional` holds `Option` and `Result`.
- `prices.dfy`: module `Prices` covers bars, the range filter, the latest
  price and exact-date lookup.
- `pnl.dfy`: module `ProfitLoss` covers shares, P&L and classification.
- `reconcile.dfy`: module `Reconcile` covers trades, price resolution, the
  summary and the whole pipeline `Run`.

Two behaviours of the source are kept exactly as written:

- When several bars share a date, lookup takes the first one (`values[0]`).
  The source never deduplicates the series.
- A sell is valued as if the position were bought back at the current price,
  so a sell gains when the price falls.

## Model

| member | source | states |
|---|---|---|
| Prices.FilterRange | trade2.py:82 | a bar is kept iff it is in the series and start ≤ date ≤ end; the result is never longer than the series |
| Prices.FilterRangeAppend | trade2.py:82 | filtering distributes over concatenation, so kept bars keep their relative order |
| Prices.FilterRangeSingle | trade2.py:82 | a single bar is kept exactly when it lies in the range (with FilterRangeAppend this determines the filter) |
| Prices.FilterRangeIdempotent | trade2.py:82 | filtering an already filtered series with the same range changes nothing |
| Prices.FilterRangeAscending | trade2.py:82 | a series with strictly ascending dates stays strictly ascending after filtering |
| Prices.FilterRangeLatest | trade2.py:82-89 | the filtered series has no latest price iff no bar lies in range; otherwise the latest price is that of the last in-range bar of the original series |
| Prices.LatestIsMostRecent | trade2.py:89 | in an ascending non-empty series no bar is later than the one the latest price comes from, and looking up its date gives the latest price |
| Prices.LatestPrice | trade2.py:89 | no price iff the series is empty (where `iloc[-1]` raises IndexError), otherwise the adjusted close of the last bar; the contract is the body, and its partners are FilterRangeLatest and LatestIsMostRecent |
| Prices.Lookup | trade2.py:111 | no price iff no bar has exactly that date; otherwise the price is the adjusted close of the first bar on that date |
| Prices.LookupFilterRange | trade2.py:111 | lookup in the range-filtered series equals lookup in the whole series for a date inside the range, and finds nothing for a date outside it |
| Prices.LookupAscending | trade2.py:111 | in an ascending series, looking up a bar's date gives that very bar's price |
| ProfitLoss.Shares | trade2.py:49 | the number of shares times the trade price gives back the amount in USD |
| ProfitLoss.ProfitOrLoss | trade2.py:48-54 | a buy earns the shares' current value minus the amount paid; a sell earns the amount received minus the shares' current value |
| ProfitLoss.Classify | trade2.py:144 | the class is Potential iff the action is buy, and Realized iff it is sell |
| ProfitLoss.SellMirrorsBuy | trade2.py:50-54 | a buy and a sell with the same amount, trade price and current price have exactly negated P&L |
| ProfitLoss.ProfitSign | trade2.py:50-54 | for a positive amount, a buy profits iff the price rose and loses iff it fell, a sell the reverse; P&L is zero iff the price is unchanged |
| ProfitLoss.WorkedExample | trade2.py:48-54 | 1000 USD at 100 is 10 shares; at 110 a buy gains 100 (Potential) and a sell loses 100 (Realized) |
| Reconcile.Resolve | trade2.py:107-116 | the log keeps its length, order and trades; a trade is priced iff its asset is the selected one and a bar has exactly its date, and then at the first such bar's adjusted close |
| Reconcile.ResolveAppend | trade2.py:107-116 | resolution works trade by trade: resolving a concatenated log resolves each part |
| Reconcile.MakeRow | trade2.py:144-152 | a row copies the trade's date, action and amount, the trade price and the latest price unchanged, carries the trade's P&L and is Potential iff the action is buy |
| Reconcile.Summarize | trade2.py:139-155 | every row comes from a priced trade of the selected asset, and every such trade has its row; no more rows than trades |
| Reconcile.SummarizeAppend | trade2.py:139-153 | summarising a concatenation concatenates the summaries, so rows keep the order of their trades |
| Reconcile.ReconcileTrades | trade2.py:107-155 | no more rows than trades; every row is priced against the latest price and is Potential iff its action is buy |
| Reconcile.ReconcileAppend | trade2.py:107-155 | the rows of a concatenated log are the rows of its parts, in order |
| Reconcile.ReconcileSingle | trade2.py:107-155 | a single trade yields a row iff it belongs to the selected asset and a bar has exactly its date, and otherwise yields nothing; the row is priced at the first such bar |
| Reconcile.ReconcileIgnoresOtherAssets | trade2.py:107-155 | dropping the trades of other assets from the log leaves the summary unchanged |
| Reconcile.Run | trade2.py:82-155 | the pipeline fails iff no bar lies in the range; otherwise the latest price is that of the last in-range bar |
| Reconcile.RunSingle | trade2.py:82-155 | end to end, a trade yields a row iff it belongs to the selected asset, its date is in range and some bar has exactly that date; otherwise it is skipped without failing the run |
| Reconcile.RunAppend | trade2.py:82-155 | end to end, failure and the latest price do not depend on the trades, and the rows of a concatenated log are the rows of its parts in order |
| Reconcile.WorkedReconciliation | trade2.py:48-155 | a concrete run: a buy and a sell at 100 against 110 give +100 Potential and −100 Realized; a Saturday trade and another asset's trade give no row |

## Left out

- Price download and dividends (trade2.py:38-45, 161-189): these are network
  I/O through a charting/finance library. The price series is a parameter of
  `Run`.
- Everything the user interacts with or sees (trade2.py:57-76, 91-105,
  117-132, 157-159): widgets, figures, trade markers, annotations and tables. The
  selected asset and the date range are parameters of `Run`.
- The percentage-change toggle (trade2.py:85-86): it is a dataframe library
  call. It also turns the trade price and the latest price into percentages,
  which is a display quirk, not reconciliation logic.
- Warnings (trade2.py:113, 155): the model skips the trade but does not
  emit any message.
- Display formatting of a row (trade2.py:146-147): the date is not rendered
  with `strftime` and the action is not capitalised. Rows keep the day number
  and the action value.
- Date parsing (trade2.py:33-35) and the name-to-ticker table
  (trade2.py:10-18): dates are day numbers, and tickers only matter for the
  download.
- Action strings: the source treats any action other than `buy` as a sell.
  The model has exactly two actions, which behave the same for the values
  the trade log uses.
- Floating point: numpy division by a zero price gives inf/nan, not an
  error. Prices and amounts are `real`, and `amount_usd` becomes a real
  rather than an int.
- ProfitLoss.ProfitOrLoss: requires a positive trade price. The source
  divides by any price and gets inf/nan for zero.
- Reconcile.Run: requires every bar's adjusted close to be positive, so that
  every resolved trade price can divide the amount. The source has no such
  check.
- Building the series (sorting and deduplication): the source takes the
  downloaded frame as is. Ascending dates are a hypothesis of
  `FilterRangeAscending`, `LookupAscending` and `LatestIsMostRecent`, not a
  guarantee of `Run`.
- trade1.py: it is a second dashboard layout whose only logic is the colour
  of a trade marker.
- Technical indicators (moving averages, MACD, RSI) and forecasting: neither
  source file implements them.
