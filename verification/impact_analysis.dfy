/** The order-book impact analyzer (impact_analysis.py): market parameters
    set once from the live book and the estimators that read them. Every
    estimator first sets default parameters when none were set, and turns a
    division by zero into a fixed neutral answer. */
module ImpactAnalysis {
  import opened Common
  import opened Depth
  import opened LimitOrderBook
  import opened MarketImpactModels

  /** Daily volatility, daily volume, average trade size and dollar depth. */
  datatype MarketParameters = MarketParameters(
    volatility: real,
    volume: real,
    avgTradeSize: real,
    marketDepth: real)

  /** `estimate_market_impact`'s dictionary. */
  datatype ImpactEstimate = ImpactEstimate(
    impactPercentage: real,
    makerProportion: real,
    takerProportion: real,
    estimatedCost: real)

  /** What `optimal_execution_strategy` reports: a schedule with its rates
      and shortfall; a schedule numpy filled with NaN/inf because
      sinh(κT) = 0; or, when Python raised, N + 1 zeros and a zero
      shortfall. */
  datatype StrategyReport =
    | Planned(schedule: Schedule, shortfallBps: Num)
    | NonFinitePlan
    | Fallback(fallbackSchedule: seq<real>, fallbackShortfallBps: real)

  /** The answer when a division by zero is caught. */
  const NeutralImpact: ImpactEstimate := ImpactEstimate(0.0, 0.5, 0.5, 0.0)

  /** The parameters each entry point falls back to when none were set. */
  const DefaultVolatility: real := 0.03
  const DefaultVolume: real := 5000.0

  /** The analyzer's own Almgren-Chriss parameters; S0 is 0 and nothing in
      the analyzer ever changes it. */
  const DefaultAcParams: AcParams := AcParams(0.15, 0.2, 0.6, 1.5, 0.03, 0.0)

  /** `_estimate_market_depth`: the mean of the ten-level depths of the
      ascending ask snapshot and the descending bid snapshot. */
  function BookDepth(asks: Side, bids: Side): (r: real)
    ensures asks == map[] && bids == map[] ==> r == 0.0
    ensures NonNegativeSide(asks) && NonNegativeSide(bids) ==> 0.0 <= r
  {
    var askLevels, bidLevels := AscendingLevels(asks), DescendingLevels(bids);
    assert NonNegativeSide(asks) && NonNegativeSide(bids) ==>
             0.0 <= SideDepth(askLevels) && 0.0 <= SideDepth(bidLevels) by {
      if NonNegativeSide(asks) && NonNegativeSide(bids) {
        SnapshotNonNegative(asks, askLevels);
        SnapshotNonNegative(bids, bidLevels);
        SideDepthNonNegative(askLevels);
        SideDepthNonNegative(bidLevels);
      }
    }
    (SideDepth(askLevels) + SideDepth(bidLevels)) / 2.0
  }

  /** Every price and every quantity on the side is non-negative. */
  ghost predicate NonNegativeSide(side: Side)
  {
    forall p :: p in side ==> 0.0 <= p && 0.0 <= side[p]
  }

  lemma SnapshotNonNegative(side: Side, levels: seq<Level>)
    requires NonNegativeSide(side)
    requires forall l :: l in levels <==> l.price in side && side[l.price] == l.quantity
    ensures NonNegativeLevels(levels)
  {
    forall i | 0 <= i < |levels|
      ensures 0.0 <= levels[i].price && 0.0 <= levels[i].quantity
    {
      assert levels[i] in levels;
    }
  }

  /** Asks (100, 5), (101, 3) and bids (99, 4), (98, 2): (803 + 592) / 2. */
  lemma ExampleBookDepth()
    ensures BookDepth(map[100.0 := 5.0, 101.0 := 3.0], map[99.0 := 4.0, 98.0 := 2.0]) == 697.5
  {
    ExampleAskSnapshot();
    ExampleBidSnapshot();
    SideDepthOfShortSide([Level(100.0, 5.0), Level(101.0, 3.0)]);
    SideDepthOfShortSide([Level(99.0, 4.0), Level(98.0, 2.0)]);
  }

  lemma ExampleAskSnapshot()
    ensures AscendingLevels(map[100.0 := 5.0, 101.0 := 3.0]) == [Level(100.0, 5.0), Level(101.0, 3.0)]
  {
    var asks := map[100.0 := 5.0, 101.0 := 3.0];
    var a := AscendingLevels(asks);
    assert |asks| == 2 by {
      assert asks.Keys == {100.0, 101.0};
    }
    assert a[0] in a && a[1] in a;
    assert a[0].price < a[1].price;
  }

  lemma ExampleBidSnapshot()
    ensures DescendingLevels(map[99.0 := 4.0, 98.0 := 2.0]) == [Level(99.0, 4.0), Level(98.0, 2.0)]
  {
    var bids := map[99.0 := 4.0, 98.0 := 2.0];
    var b := DescendingLevels(bids);
    assert |bids| == 2 by {
      assert bids.Keys == {99.0, 98.0};
    }
    assert b[0] in b && b[1] in b;
    assert b[0].price > b[1].price;
  }

  /** `update_market_parameters`: average trade size is a thousandth of the
      volume, and the depth is the book's current depth. */
  function ParametersFor(volatility: real, volume: real, asks: Side, bids: Side): (mp: MarketParameters)
    ensures mp.volatility == volatility && mp.volume == volume
    ensures mp.avgTradeSize * 1000.0 == volume
    ensures mp.marketDepth == BookDepth(asks, bids)
  {
    MarketParameters(volatility, volume, volume / 1000.0, BookDepth(asks, bids))
  }

  /** `estimate_market_impact` once parameters are set: the impact in
      percent grows with quantity over depth and with volatility; the maker
      share falls by a tenth per average trade, never below 0.2, and the
      taker share is the rest. A zero depth or a zero average trade size
      gives the neutral estimate. */
  function ImpactOf(mp: MarketParameters, quantity: real): (r: ImpactEstimate)
    ensures mp.marketDepth == 0.0 || mp.avgTradeSize == 0.0 ==> r == NeutralImpact
    ensures 0.2 <= r.makerProportion
    ensures r.makerProportion + r.takerProportion == 1.0
    ensures mp.marketDepth != 0.0 && mp.avgTradeSize != 0.0 ==>
      && r.impactPercentage * mp.marketDepth == quantity * 100.0 * (1.0 + 2.0 * mp.volatility)
      && r.estimatedCost * 100.0 == r.impactPercentage * quantity
      && r.makerProportion == Max(0.2, 1.0 - quantity / mp.avgTradeSize * 0.1)
  {
    if mp.marketDepth == 0.0 || mp.avgTradeSize == 0.0 then NeutralImpact
    else
      var impact := quantity / mp.marketDepth * 100.0 * (1.0 + mp.volatility * 2.0);
      var maker := Max(0.2, 1.0 - quantity / mp.avgTradeSize * 0.1);
      ImpactEstimate(impact, maker, 1.0 - maker, impact * quantity / 100.0)
  }

  /** The impact is proportional to the quantity. */
  lemma ImpactProportionalToQuantity(mp: MarketParameters, quantity: real, k: real)
    requires mp.marketDepth != 0.0 && mp.avgTradeSize != 0.0
    ensures ImpactOf(mp, k * quantity).impactPercentage == k * ImpactOf(mp, quantity).impactPercentage
  {
    var d := mp.marketDepth;
    var adj := 1.0 + 2.0 * mp.volatility;
    assert ImpactOf(mp, k * quantity).impactPercentage * d == k * (quantity * 100.0 * adj);
    assert (k * ImpactOf(mp, quantity).impactPercentage) * d == k * (quantity * 100.0 * adj);
    CancelNonZero(ImpactOf(mp, k * quantity).impactPercentage,
                  k * ImpactOf(mp, quantity).impactPercentage, d);
  }

  lemma CancelNonZero(a: real, b: real, d: real)
    requires d != 0.0 && a * d == b * d
    ensures a == b
  {
  }

  /** `estimate_slippage` once parameters are set, in basis points; zero
      for a zero depth. */
  function SlippageOf(mp: MarketParameters, quantity: real): (r: real)
    ensures mp.marketDepth == 0.0 ==> r == 0.0
    ensures mp.marketDepth != 0.0 ==>
      r * mp.marketDepth == quantity * 10000.0 * (1.0 + 100.0 * mp.volatility)
  {
    if mp.marketDepth == 0.0 then 0.0
    else quantity / mp.marketDepth * 10000.0 * (1.0 + mp.volatility * 100.0)
  }

  /** N zeros. */
  function Zeros(n: nat): (r: seq<real>)
    ensures |r| == n
    ensures forall i :: 0 <= i < n ==> r[i] == 0.0
  {
    seq(n, i => 0.0)
  }

  /** `optimal_execution_strategy` for the given parameters: the
      Almgren-Chriss schedule and its shortfall; the fallback of N + 1
      zeros when Python raised on N = 0 or γ = 0. */
  function StrategyOf(p: AcParams, quantity: real, horizon: real, periods: nat,
                      sqrt: real -> real, sinh: real -> real): (r: StrategyReport)
    requires sinh(0.0) == 0.0
    ensures r.Fallback? <==> periods == 0 || p.temporaryImpact == 0.0
    ensures r.Fallback? ==> r.fallbackSchedule == Zeros(periods + 1) && r.fallbackShortfallBps == 0.0
    ensures r.NonFinitePlan? <==>
      periods != 0 && p.temporaryImpact != 0.0 && SinhVanishes(Kappa(p, sqrt), horizon, sinh)
    ensures r.Planned? ==>
      && LiquidatesOrder(r.schedule, quantity, horizon, periods)
      && (r.shortfallBps == NonFinite <==> (quantity == 0.0 || p.initialPrice == 0.0))
  {
    if periods == 0 then Fallback(Zeros(periods + 1), 0.0)
    else if p.temporaryImpact == 0.0 then Fallback(Zeros(periods + 1), 0.0)
    else if SinhVanishes(Kappa(p, sqrt), horizon, sinh) then NonFinitePlan
    else
      var plan := PlanOf(p, quantity, horizon, periods, sqrt, sinh);
      Planned(plan.schedule, plan.shortfallBps)
  }

  /** The Almgren-Chriss plan when nothing divides by zero. */
  function PlanOf(p: AcParams, quantity: real, horizon: real, periods: nat,
                  sqrt: real -> real, sinh: real -> real): (plan: ExecutionPlan)
    requires sinh(0.0) == 0.0
    requires periods != 0 && p.temporaryImpact != 0.0 && !SinhVanishes(Kappa(p, sqrt), horizon, sinh)
    ensures LiquidatesOrder(plan.schedule, quantity, horizon, periods)
    ensures plan.shortfallBps == NonFinite <==> (quantity == 0.0 || p.initialPrice == 0.0)
  {
    var r := OptimalExecutionStrategy(p, quantity, horizon, periods, sqrt, sinh);
    assert r.Ok?;
    assert CostsOf(r.value, p, quantity, horizon / periods as real);
    r.value
  }

  /** With the analyzer's parameters S0 = 0, so a computed plan never has a
      finite shortfall. */
  lemma AnalyzerShortfallNeverFinite(quantity: real, horizon: real, periods: nat,
                                     sqrt: real -> real, sinh: real -> real)
    requires sinh(0.0) == 0.0
    ensures var r := StrategyOf(DefaultAcParams, quantity, horizon, periods, sqrt, sinh);
      r.Planned? ==> r.shortfallBps == NonFinite
  {
  }

  class ImpactAnalyzer {
    const book: OrderBook
    var acParams: AcParams
    var marketParams: Option<MarketParameters>

    constructor (book: OrderBook)
      ensures this.book == book
      ensures acParams == DefaultAcParams && marketParams == None
    {
      this.book := book;
      acParams := DefaultAcParams;
      marketParams := None;
    }

    /** `update_market_parameters`. */
    method UpdateMarketParameters(volatility: real, volume: real)
      modifies this
      ensures marketParams == Some(ParametersFor(volatility, volume, book.asks, book.bids))
      ensures acParams == old(acParams)
    {
      marketParams := Some(ParametersFor(volatility, volume, book.asks, book.bids));
    }

    /** The lazy set-up every entry point starts with: default parameters
        when none were set, otherwise nothing changes. */
    method EnsureMarketParameters()
      modifies this
      ensures old(marketParams).Some? ==> marketParams == old(marketParams)
      ensures old(marketParams).None? ==>
        marketParams == Some(ParametersFor(DefaultVolatility, DefaultVolume, book.asks, book.bids))
      ensures acParams == old(acParams)
    {
      if marketParams.None? {
        UpdateMarketParameters(DefaultVolatility, DefaultVolume);
      }
    }

    /** `estimate_market_impact(quantity, side)`; the side is not used. */
    method EstimateMarketImpact(quantity: real, side: string) returns (r: ImpactEstimate)
      modifies this
      ensures old(marketParams).Some? ==> marketParams == old(marketParams)
      ensures old(marketParams).None? ==>
        marketParams == Some(ParametersFor(DefaultVolatility, DefaultVolume, book.asks, book.bids))
      ensures acParams == old(acParams)
      ensures marketParams.Some? && r == ImpactOf(marketParams.value, quantity)
    {
      EnsureMarketParameters();
      r := ImpactOf(marketParams.value, quantity);
    }

    /** `optimal_execution_strategy(quantity, side, T, N)`, computed with
        the analyzer's own parameters; the side is not used. */
    method OptimalExecutionStrategy(quantity: real, side: string, horizon: real, periods: nat,
                                    sqrt: real -> real, sinh: real -> real)
      returns (r: StrategyReport)
      requires sinh(0.0) == 0.0
      modifies this
      ensures old(marketParams).Some? ==> marketParams == old(marketParams)
      ensures old(marketParams).None? ==>
        marketParams == Some(ParametersFor(DefaultVolatility, DefaultVolume, book.asks, book.bids))
      ensures acParams == old(acParams)
      ensures r == StrategyOf(acParams, quantity, horizon, periods, sqrt, sinh)
    {
      EnsureMarketParameters();
      r := StrategyOf(acParams, quantity, horizon, periods, sqrt, sinh);
    }

    /** `estimate_slippage(quantity, side)`; the side is not used. */
    method EstimateSlippage(quantity: real, side: string) returns (r: real)
      modifies this
      ensures old(marketParams).Some? ==> marketParams == old(marketParams)
      ensures old(marketParams).None? ==>
        marketParams == Some(ParametersFor(DefaultVolatility, DefaultVolume, book.asks, book.bids))
      ensures acParams == old(acParams)
      ensures marketParams.Some? && r == SlippageOf(marketParams.value, quantity)
    {
      EnsureMarketParameters();
      r := SlippageOf(marketParams.value, quantity);
    }
  }
}
