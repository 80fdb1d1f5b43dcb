/** Profit or loss of one trade against the current price, and the class a
    summary row gets from the trade's action. */
module ProfitLoss {

  /** The two actions a trade can carry. */
  datatype Action = Buy | Sell

  /** A buy is an open position (its P&L is potential); a sell is booked. */
  datatype Kind = Potential | Realized

  /** The number of shares a dollar amount bought or sold at the trade price. */
  function Shares(amountUsd: real, tradePrice: real): (n: real)
    requires tradePrice > 0.0
    ensures n * tradePrice == amountUsd
  {
    amountUsd / tradePrice
  }

  /** P&L of a trade against the current price. A buy gains what the shares
      are now worth above the amount paid; a sell is treated as a position
      bought back at the current price, so it gains the amount received above
      what the shares are now worth. */
  function ProfitOrLoss(action: Action, amountUsd: real, tradePrice: real, currentPrice: real): (r: real)
    requires tradePrice > 0.0
    ensures action == Buy ==> r == Shares(amountUsd, tradePrice) * currentPrice - amountUsd
    ensures action == Sell ==> r == amountUsd - Shares(amountUsd, tradePrice) * currentPrice
  {
    var shares := Shares(amountUsd, tradePrice);
    if action == Buy then (currentPrice - tradePrice) * shares
    else (tradePrice - currentPrice) * shares
  }

  /** A summary row is Potential exactly for a buy and Realized otherwise. */
  function Classify(action: Action): (k: Kind)
    ensures k == Potential <==> action == Buy
    ensures k == Realized <==> action == Sell
  {
    match action
    case Buy => Potential
    case Sell => Realized
  }

  /** A buy and a sell with the same amount, trade price and current price
      have exactly opposite P&L. */
  lemma SellMirrorsBuy(amountUsd: real, tradePrice: real, currentPrice: real)
    requires tradePrice > 0.0
    ensures ProfitOrLoss(Sell, amountUsd, tradePrice, currentPrice)
            == -ProfitOrLoss(Buy, amountUsd, tradePrice, currentPrice)
  {
  }

  /** For a positive amount, a buy makes a profit exactly when the price has
      risen since the trade, a loss exactly when it has fallen, and nothing
      when it is unchanged; a sell is the other way round. */
  lemma ProfitSign(action: Action, amountUsd: real, tradePrice: real, currentPrice: real)
    requires tradePrice > 0.0
    requires amountUsd > 0.0
    ensures action == Buy ==>
      && (ProfitOrLoss(action, amountUsd, tradePrice, currentPrice) > 0.0 <==> currentPrice > tradePrice)
      && (ProfitOrLoss(action, amountUsd, tradePrice, currentPrice) < 0.0 <==> currentPrice < tradePrice)
    ensures action == Sell ==>
      && (ProfitOrLoss(action, amountUsd, tradePrice, currentPrice) > 0.0 <==> currentPrice < tradePrice)
      && (ProfitOrLoss(action, amountUsd, tradePrice, currentPrice) < 0.0 <==> currentPrice > tradePrice)
    ensures ProfitOrLoss(action, amountUsd, tradePrice, currentPrice) == 0.0 <==> currentPrice == tradePrice
  {
    var n := Shares(amountUsd, tradePrice);
    assert n > 0.0;
    var d := currentPrice - tradePrice;
    var r := ProfitOrLoss(action, amountUsd, tradePrice, currentPrice);
    if action == Buy {
      assert r == d * n;
    } else {
      assert r == -(d * n);
    }
    assert d > 0.0 ==> d * n > 0.0;
    assert d < 0.0 ==> d * n < 0.0;
    assert d == 0.0 ==> d * n == 0.0;
  }

  /** A worked example: 1000 USD at 100 is 10 shares; at a
      current price of 110 the buy gains 100 and the sell loses 100. */
  lemma WorkedExample()
    ensures Shares(1000.0, 100.0) == 10.0
    ensures ProfitOrLoss(Buy, 1000.0, 100.0, 110.0) == 100.0
    ensures ProfitOrLoss(Sell, 1000.0, 100.0, 110.0) == -100.0
    ensures Classify(Buy) == Potential && Classify(Sell) == Realized
  {
  }
}
