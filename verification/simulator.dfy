/** The basic trade simulator (simulator.py): the price a market order
    would start filling at, read off the book. */
module BasicSimulator {
  import opened Common
  import opened LimitOrderBook

  class TradeSimulator {
    const book: OrderBook

    constructor (book: OrderBook)
      ensures this.book == book
    {
      this.book := book;
    }

    /** `estimate_cost(side, quantity)`: the lowest ask for a buy, the
        highest bid for any other side, None when that side is empty. The
        quantity plays no part. */
    function EstimateCost(side: string, quantity: real): (r: Option<real>)
      reads book
      ensures side == "buy" ==>
        && (r.None? <==> book.asks == map[])
        && (r.Some? ==> r.value in book.asks && forall p :: p in book.asks ==> r.value <= p)
      ensures side != "buy" ==>
        && (r.None? <==> book.bids == map[])
        && (r.Some? ==> r.value in book.bids && forall p :: p in book.bids ==> p <= r.value)
    {
      if side == "buy" then book.BestAsk() else book.BestBid()
    }

    /** The answer does not depend on the quantity. */
    lemma EstimateCostIgnoresQuantity(side: string, q1: real, q2: real)
      ensures EstimateCost(side, q1) == EstimateCost(side, q2)
    {
    }
  }
}
