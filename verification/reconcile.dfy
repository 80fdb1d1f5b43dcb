/** Reconciliation of the trade log against one asset's price series: each
    trade of the selected asset gets the adjusted close of the bar on its
    exact date, and every trade whose price resolved yields a summary row with
    its P&L against the latest price, in trade-log order. */
module Reconcile {
  import opened Optional
  import opened Prices
  import opened ProfitLoss

  /** One entry of the trade log. */
  datatype Trade = Trade(asset: string, date: Day, action: Action, amountUsd: real)

  /** A trade together with the price resolution attached to it (None when
      no price was resolved). */
  datatype Priced = Priced(trade: Trade, price: Option<real>)

  /** One row of the profit/loss summary. */
  datatype Row = Row(
    date: Day,
    action: Action,
    amountUsd: real,
    tradePrice: real,
    currentPrice: real,
    profitOrLoss: real,
    kind: Kind)

  /** The only way the pipeline fails: the range holds no bar, so there is no
      latest price. */
  datatype Error = NoPriceData

  /** The latest price and the summary rows of one pipeline run. */
  datatype Report = Report(latestPrice: real, rows: seq<Row>)

  /** Every resolved price is positive, so it can divide the amount. */
  predicate ValidPrices(ps: seq<Priced>) {
    forall i :: 0 <= i < |ps| && ps[i].price.Some? ==> ps[i].price.value > 0.0
  }

  /** The trade belongs to the selected asset and its price resolved. */
  predicate Reported(p: Priced, asset: string) {
    p.trade.asset == asset && p.price.Some?
  }

  /** Attaches to each trade of the selected asset the adjusted close of the
      first bar on the trade's exact date, leaving trades of other assets and
      trades without a bar on their date unpriced. The log is not changed: a
      new sequence is returned. */
  function Resolve(trades: seq<Trade>, data: Series, asset: string): (r: seq<Priced>)
    ensures |r| == |trades|
    ensures forall i :: 0 <= i < |r| ==> r[i].trade == trades[i]
    ensures forall i :: 0 <= i < |r| ==>
      (r[i].price.Some? <==> trades[i].asset == asset && HasBarOn(data, trades[i].date))
    ensures forall i :: 0 <= i < |r| && r[i].price.Some? ==>
      exists j :: FirstOn(data, trades[i].date, j) && data[j].adjClose == r[i].price.value
  {
    seq(|trades|, i requires 0 <= i < |trades| =>
      Priced(trades[i], if trades[i].asset == asset then Lookup(data, trades[i].date) else None))
  }

  /** The summary row of a trade whose price resolved. */
  function MakeRow(t: Trade, price: real, latest: real): (row: Row)
    requires price > 0.0
    ensures row.date == t.date && row.action == t.action && row.amountUsd == t.amountUsd
    ensures row.tradePrice == price && row.currentPrice == latest
    ensures row.profitOrLoss == ProfitOrLoss(t.action, t.amountUsd, price, latest)
    ensures row.kind == Potential <==> t.action == Buy
  {
    Row(t.date, t.action, t.amountUsd, price, latest,
        ProfitOrLoss(t.action, t.amountUsd, price, latest), Classify(t.action))
  }

  /** The row a priced trade contributes to the summary of asset: one row if
      it is reported, none otherwise. */
  function RowsOf(p: Priced, asset: string, latest: real): seq<Row>
    requires p.price.Some? ==> p.price.value > 0.0
  {
    if Reported(p, asset) then [MakeRow(p.trade, p.price.value, latest)] else []
  }

  /** The profit/loss summary: one row per trade of the selected asset whose
      price resolved, in log order; every other trade is skipped. */
  function Summarize(ps: seq<Priced>, asset: string, latest: real): (rows: seq<Row>)
    requires ValidPrices(ps)
    ensures |rows| <= |ps|
    ensures forall row :: row in rows ==>
      exists i :: 0 <= i < |ps| && Reported(ps[i], asset) && row == MakeRow(ps[i].trade, ps[i].price.value, latest)
    ensures forall i :: 0 <= i < |ps| && Reported(ps[i], asset) ==>
      MakeRow(ps[i].trade, ps[i].price.value, latest) in rows
  {
    if |ps| == 0 then []
    else RowsOf(ps[0], asset, latest) + Summarize(ps[1..], asset, latest)
  }

  /** Prices resolved against a series with positive prices are positive. */
  lemma ResolvedPricesPositive(trades: seq<Trade>, data: Series, asset: string)
    requires PositivePrices(data)
    ensures ValidPrices(Resolve(trades, data, asset))
  {
  }

  /** Resolves the trade log against a series and summarises it for asset
      against the given latest price. Every row is priced against that latest
      price and classified by its action. */
  function ReconcileTrades(trades: seq<Trade>, data: Series, asset: string, latest: real): (rows: seq<Row>)
    requires PositivePrices(data)
    ensures |rows| <= |trades|
    ensures forall row :: row in rows ==>
      row.currentPrice == latest && (row.kind == Potential <==> row.action == Buy)
  {
    ResolvedPricesPositive(trades, data, asset);
    Summarize(Resolve(trades, data, asset), asset, latest)
  }

  /** The whole reconciliation of one asset: restrict the series to
      [start, end], take the latest price and reconcile the trades against the
      restricted series. It fails exactly when no bar lies in range; the
      latest price is that of the last bar in range. */
  function Run(trades: seq<Trade>, bars: Series, start: Day, end: Day, asset: string): (r: Result<Report, Error>)
    requires PositivePrices(bars)
    ensures r.Err? <==> forall i :: 0 <= i < |bars| ==> !InRange(bars[i], start, end)
    ensures r.Ok? ==> exists i :: LastInRange(bars, start, end, i) && bars[i].adjClose == r.value.latestPrice
  {
    var data := FilterRange(bars, start, end);
    match LatestPrice(data)
    case None =>
      FilterRangeLatest(bars, start, end);
      Err(NoPriceData)
    case Some(latest) =>
      FilterRangeLatest(bars, start, end);
      FilterRangePositive(bars, start, end);
      Ok(Report(latest, ReconcileTrades(trades, data, asset, latest)))
  }

  /** Resolution works trade by trade: resolving a concatenated log is
      resolving each part. */
  lemma ResolveAppend(a: seq<Trade>, b: seq<Trade>, data: Series, asset: string)
    ensures Resolve(a + b, data, asset) == Resolve(a, data, asset) + Resolve(b, data, asset)
  {
  }

  /** Summarising a concatenation is concatenating the summaries: rows keep
      the relative order of their trades. */
  lemma {:induction false} SummarizeAppend(a: seq<Priced>, b: seq<Priced>, asset: string, latest: real)
    requires ValidPrices(a) && ValidPrices(b)
    ensures ValidPrices(a + b)
    ensures Summarize(a + b, asset, latest) == Summarize(a, asset, latest) + Summarize(b, asset, latest)
  {
    assert ValidPrices(a + b) by {
      forall i | 0 <= i < |a + b| && (a + b)[i].price.Some?
        ensures (a + b)[i].price.value > 0.0
      {
        if i >= |a| {
          assert (a + b)[i] == b[i - |a|];
        }
      }
    }
    if |a| > 0 {
      assert (a + b)[1..] == a[1..] + b;
      assert ValidPrices(a[1..]) by {
        forall i | 0 <= i < |a[1..]| && a[1..][i].price.Some?
          ensures a[1..][i].price.value > 0.0
        {
          assert a[1..][i] == a[i + 1];
        }
      }
      SummarizeAppend(a[1..], b, asset, latest);
    } else {
      assert a + b == b;
    }
  }

  /** The rows of a concatenated log are the rows of its parts, in order. */
  lemma ReconcileAppend(a: seq<Trade>, b: seq<Trade>, data: Series, asset: string, latest: real)
    requires PositivePrices(data)
    ensures ReconcileTrades(a + b, data, asset, latest)
            == ReconcileTrades(a, data, asset, latest) + ReconcileTrades(b, data, asset, latest)
  {
    ResolveAppend(a, b, data, asset);
    ResolvedPricesPositive(a, data, asset);
    ResolvedPricesPositive(b, data, asset);
    SummarizeAppend(Resolve(a, data, asset), Resolve(b, data, asset), asset, latest);
  }

  /** A trade gets a row exactly when it belongs to asset and the series has
      a bar on its very date; the row carries the price of the first such bar.
      With ReconcileAppend this determines the summary of every log. */
  lemma ReconcileSingle(t: Trade, data: Series, asset: string, latest: real)
    requires PositivePrices(data)
    ensures ReconcileTrades([t], data, asset, latest)
            == if t.asset == asset && HasBarOn(data, t.date)
               then [MakeRow(t, Lookup(data, t.date).value, latest)]
               else []
  {
  }

  /** The trades of the log that belong to asset, in log order. */
  function TradesOf(trades: seq<Trade>, asset: string): (r: seq<Trade>)
    ensures forall t :: t in r <==> t in trades && t.asset == asset
  {
    if |trades| == 0 then []
    else (if trades[0].asset == asset then [trades[0]] else []) + TradesOf(trades[1..], asset)
  }

  /** Trades of other assets have no influence on the summary of asset. */
  lemma {:induction false} ReconcileIgnoresOtherAssets(trades: seq<Trade>, data: Series, asset: string, latest: real)
    requires PositivePrices(data)
    ensures ReconcileTrades(trades, data, asset, latest)
            == ReconcileTrades(TradesOf(trades, asset), data, asset, latest)
  {
    if |trades| > 0 {
      var t := trades[0];
      var rest := trades[1..];
      assert trades == [t] + rest;
      ReconcileAppend([t], rest, data, asset, latest);
      ReconcileIgnoresOtherAssets(rest, data, asset, latest);
      if t.asset == asset {
        assert TradesOf(trades, asset) == [t] + TradesOf(rest, asset);
        ReconcileAppend([t], TradesOf(rest, asset), data, asset, latest);
      } else {
        assert TradesOf(trades, asset) == TradesOf(rest, asset);
        ReconcileSingle(t, data, asset, latest);
      }
    }
  }

  /** End to end, a single trade gets a row exactly when it belongs to asset,
      its date lies in [start, end] and the unrestricted series has a bar on
      that date; the row carries the price of the first such bar. */
  lemma RunSingle(t: Trade, bars: Series, start: Day, end: Day, asset: string)
    requires PositivePrices(bars)
    requires Run([t], bars, start, end, asset).Ok?
    ensures var report := Run([t], bars, start, end, asset).value;
      report.rows ==
        if t.asset == asset && start <= t.date <= end && HasBarOn(bars, t.date)
        then [MakeRow(t, Lookup(bars, t.date).value, report.latestPrice)]
        else []
  {
    var data := FilterRange(bars, start, end);
    FilterRangePositive(bars, start, end);
    LookupFilterRange(bars, start, end, t.date);
    ReconcileSingle(t, data, asset, Run([t], bars, start, end, asset).value.latestPrice);
  }

  /** End to end, whether the run fails and its latest price do not depend
      on the trades, and the rows of a concatenated log are the rows of its
      parts in order. */
  lemma RunAppend(a: seq<Trade>, b: seq<Trade>, bars: Series, start: Day, end: Day, asset: string)
    requires PositivePrices(bars)
    ensures Run(a + b, bars, start, end, asset).Ok? == Run(a, bars, start, end, asset).Ok?
    ensures Run(a, bars, start, end, asset).Ok? == Run(b, bars, start, end, asset).Ok?
    ensures Run(a + b, bars, start, end, asset).Ok? ==>
      var ab := Run(a + b, bars, start, end, asset).value;
      var ra := Run(a, bars, start, end, asset).value;
      var rb := Run(b, bars, start, end, asset).value;
      && ab.latestPrice == ra.latestPrice == rb.latestPrice
      && ab.rows == ra.rows + rb.rows
  {
    var data := FilterRange(bars, start, end);
    if |data| > 0 {
      FilterRangePositive(bars, start, end);
      ReconcileAppend(a, b, data, asset, data[|data| - 1].adjClose);
    }
  }

  // The example lemmas below take their trades and restricted series as
  // parameters fixed by `requires` rather than as literals: with literal
  // arguments the verifier evaluates the resolution of every sub-log eagerly
  // and the proofs become far more expensive.

  /** The example series: Thursday day 4 at 100, Friday day 5 at 110 and a
      later bar on day 12 outside the range of days 1 to 10 used below. */
  function ExampleBars(): Series {
    [Bar(4, 100.0), Bar(5, 110.0), Bar(12, 90.0)]
  }

  /** Over days 1 to 10 the example series restricts to its first two bars
      and has a latest price of 110, whatever the trades. */
  lemma ExampleRun(trades: seq<Trade>, asset: string)
    ensures PositivePrices(ExampleBars())
    ensures FilterRange(ExampleBars(), 1, 10) == [Bar(4, 100.0), Bar(5, 110.0)]
    ensures Run(trades, ExampleBars(), 1, 10, asset)
            == Ok(Report(110.0, ReconcileTrades(trades, [Bar(4, 100.0), Bar(5, 110.0)], asset, 110.0)))
  {
  }

  /** Against the restricted example series a SPY trade of day 4 gets a row
      at the day-4 price of 100. */
  lemma ExampleMatchedTrade(data: Series, t: Trade)
    requires data == [Bar(4, 100.0), Bar(5, 110.0)]
    requires t.asset == "SPY" && t.date == 4
    ensures ReconcileTrades([t], data, "SPY", 110.0) == [MakeRow(t, 100.0, 110.0)]
  {
  }

  /** Against the restricted example series a Saturday trade (day 6, no bar)
      and a trade of IJR get no row in the SPY summary. */
  lemma ExampleSkippedTrade(data: Series, t: Trade)
    requires data == [Bar(4, 100.0), Bar(5, 110.0)]
    requires t.date == 6 || t.asset == "IJR"
    ensures ReconcileTrades([t], data, "SPY", 110.0) == []
  {
  }

  /** Against the restricted example series, of four trades only the two SPY
      trades of day 4 get rows, in log order. */
  lemma ExampleRows(data: Series, t0: Trade, t1: Trade, t2: Trade, t3: Trade)
    requires data == [Bar(4, 100.0), Bar(5, 110.0)]
    requires t0.asset == "SPY" && t0.date == 4 && t3.asset == "SPY" && t3.date == 4
    requires t1.date == 6 && t2.asset == "IJR"
    ensures ReconcileTrades([t0, t1, t2, t3], data, "SPY", 110.0)
            == [MakeRow(t0, 100.0, 110.0), MakeRow(t3, 100.0, 110.0)]
  {
    assert [t0, t1, t2, t3] == [t0] + ([t1] + ([t2] + [t3]));
    ReconcileAppend([t0], [t1] + ([t2] + [t3]), data, "SPY", 110.0);
    ReconcileAppend([t1], [t2] + [t3], data, "SPY", 110.0);
    ReconcileAppend([t2], [t3], data, "SPY", 110.0);
    ExampleMatchedTrade(data, t0);
    ExampleSkippedTrade(data, t1);
    ExampleSkippedTrade(data, t2);
    ExampleMatchedTrade(data, t3);
  }

  /** A worked reconciliation over days 1 to 10 of the example series. The
      buy and the sell of SPY on day 4 at 100 against a latest price of 110
      gain 100 and lose 100; the Saturday trade (day 6) and the trade of the
      other asset produce no row, and the run does not fail. */
  lemma WorkedReconciliation(t0: Trade, t1: Trade, t2: Trade, t3: Trade)
    requires t0 == Trade("SPY", 4, Buy, 1000.0)
    requires t1 == Trade("SPY", 6, Sell, 500.0)
    requires t2 == Trade("IJR", 4, Sell, 1000.0)
    requires t3 == Trade("SPY", 4, Sell, 1000.0)
    ensures Run([t0, t1, t2, t3], ExampleBars(), 1, 10, "SPY").Ok?
    ensures Run([t0, t1, t2, t3], ExampleBars(), 1, 10, "SPY").value.latestPrice == 110.0
    ensures Run([t0, t1, t2, t3], ExampleBars(), 1, 10, "SPY").value.rows == [
              Row(4, Buy, 1000.0, 100.0, 110.0, 100.0, Potential),
              Row(4, Sell, 1000.0, 100.0, 110.0, -100.0, Realized)]
  {
    var data := [Bar(4, 100.0), Bar(5, 110.0)];
    ExampleRun([t0, t1, t2, t3], "SPY");
    ExampleRows(data, t0, t1, t2, t3);
    WorkedExample();
  }
}
