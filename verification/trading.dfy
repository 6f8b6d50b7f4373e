/** The trading simulator of main.py: each simulated market order is priced
    at the mid moved by the analyzer's impact estimate, appended to the
    trade history, and booked into a cash-flow PnL. */
module TradingLedger {
  import opened Common
  import opened LimitOrderBook
  import opened ImpactAnalysis

  /** One simulated trade. The wall-clock timestamp is an input. */
  datatype Trade = Trade(
    timestamp: real,
    side: string,
    quantity: real,
    price: real,
    impact: real,
    cost: real)

  /** The mid moved up by the impact percentage for a buy and down by it
      for any other side. */
  function ExecutionPrice(mid: real, impactPercentage: real, side: string): (r: real)
    ensures side == "buy" ==> r - mid == mid * impactPercentage / 100.0
    ensures side != "buy" ==> mid - r == mid * impactPercentage / 100.0
  {
    if side == "buy" then mid * (1.0 + impactPercentage / 100.0)
    else mid * (1.0 - impactPercentage / 100.0)
  }

  /** With a positive mid and a non-negative impact a buy never executes
      below the mid and a sale never above it, and both sit the same
      distance from it. */
  lemma ImpactWorsensPrice(mid: real, impactPercentage: real)
    requires mid > 0.0 && impactPercentage >= 0.0
    ensures ExecutionPrice(mid, impactPercentage, "buy") >= mid
    ensures ExecutionPrice(mid, impactPercentage, "sell") <= mid
    ensures ExecutionPrice(mid, impactPercentage, "buy") - mid
         == mid - ExecutionPrice(mid, impactPercentage, "sell")
  {
    assert mid * impactPercentage / 100.0 >= 0.0;
  }

  /** Cash paid for a buy is negative, cash received for anything else
      positive. */
  function CashFlow(t: Trade): real
  {
    if t.side == "buy" then -(t.price * t.quantity) else t.price * t.quantity
  }

  /** The PnL a list of trades adds up to, oldest first. */
  function Ledger(trades: seq<Trade>): real
  {
    if trades == [] then 0.0 else Ledger(trades[..|trades| - 1]) + CashFlow(trades[|trades| - 1])
  }

  lemma LedgerAppend(trades: seq<Trade>, t: Trade)
    ensures Ledger(trades + [t]) == Ledger(trades) + CashFlow(t)
  {
    assert (trades + [t])[..|trades|] == trades;
  }

  /** A buy and a sale of the same quantity at the same price cancel out. */
  lemma RoundTripIsFlat(trades: seq<Trade>, buy: Trade, sell: Trade)
    requires buy.side == "buy" && sell.side != "buy"
    requires buy.price == sell.price && buy.quantity == sell.quantity
    ensures Ledger(trades + [buy] + [sell]) == Ledger(trades)
  {
    LedgerAppend(trades, buy);
    LedgerAppend(trades + [buy], sell);
  }

  class TradingSimulator {
    const book: OrderBook
    const analyzer: ImpactAnalyzer
    /** Never filled in by this class. */
    var positions: seq<Trade>
    var trades: seq<Trade>
    var pnl: real

    /** The PnL is exactly the cash flow of the recorded trades. */
    ghost predicate Valid()
      reads this
    {
      pnl == Ledger(trades)
    }

    constructor (book: OrderBook, analyzer: ImpactAnalyzer)
      ensures Valid()
      ensures this.book == book && this.analyzer == analyzer
      ensures positions == [] && trades == [] && pnl == 0.0
    {
      this.book := book;
      this.analyzer := analyzer;
      positions := [];
      trades := [];
      pnl := 0.0;
    }

    /** `simulate_trade(quantity, side)` at time `now`. Without a usable
        mid (no book side empty, mid not zero) nothing happens and None is
        returned. Otherwise the analyzer is asked for the impact (setting
        its default parameters if it had none), one trade is recorded at
        the impacted price and returned, and the PnL moves by its cash
        flow. */
    method SimulateTrade(quantity: real, side: string, now: real) returns (r: Option<Trade>)
      requires Valid()
      modifies this, analyzer
      ensures Valid()
      ensures positions == old(positions)
      ensures old(book.MidPrice()).None? || old(book.MidPrice()) == Some(0.0) ==>
        && r.None?
        && trades == old(trades) && pnl == old(pnl)
        && analyzer.marketParams == old(analyzer.marketParams)
      ensures old(book.MidPrice()).Some? && old(book.MidPrice()) != Some(0.0) ==>
        && analyzer.marketParams.Some?
        && (old(analyzer.marketParams).Some? ==> analyzer.marketParams == old(analyzer.marketParams))
        && (old(analyzer.marketParams).None? ==>
              analyzer.marketParams
              == Some(ParametersFor(DefaultVolatility, DefaultVolume, analyzer.book.asks, analyzer.book.bids)))
        && var mid := old(book.MidPrice()).value;
           var impact := ImpactOf(analyzer.marketParams.value, quantity);
           && r == Some(Trade(now, side, quantity, ExecutionPrice(mid, impact.impactPercentage, side),
                              impact.impactPercentage, impact.estimatedCost))
           && trades == old(trades) + [r.value]
           && pnl == old(pnl) + CashFlow(r.value)
      ensures analyzer.acParams == old(analyzer.acParams)
    {
      var mid := book.MidPrice();
      if mid.None? || mid == Some(0.0) {
        return None;
      }
      var impact := analyzer.EstimateMarketImpact(quantity, side);
      var price := ExecutionPrice(mid.value, impact.impactPercentage, side);
      var trade := Trade(now, side, quantity, price, impact.impactPercentage, impact.estimatedCost);
      Record(trade);
      r := Some(trade);
    }

    /** Appends one trade to the history and books its cash flow into the
        PnL: −price·q for a buy, +price·q for any other side. */
    method Record(trade: Trade)
      requires Valid()
      modifies this
      ensures Valid()
      ensures trades == old(trades) + [trade] && pnl == old(pnl) + CashFlow(trade)
      ensures positions == old(positions)
    {
      var newTrades, newPnl := trades + [trade], pnl + CashFlow(trade);
      assert newPnl == Ledger(newTrades) by {
        LedgerAppend(trades, trade);
      }
      trades, pnl := newTrades, newPnl;
    }
  }
}
