/** The metric helpers of the streaming worker in ui.py: each cycle turns a
    depth message (its ask and bid levels, best first) and the user's
    inputs into slippage, fees, market impact, net cost and the maker/taker
    split. */
module UiMetrics {
  import opened Common
  import opened MarketImpactModels

  /** Maker and taker fee rates of one tier. */
  datatype FeeRates = FeeRates(maker: real, taker: real)

  /** The OKX fee tiers of config.py. */
  const FeeTiers: map<string, FeeRates> := map[
    "Tier 1 (0.08%/0.1%)" := FeeRates(0.0008, 0.001),
    "Tier 2 (0.07%/0.09%)" := FeeRates(0.0007, 0.0009),
    "Tier 3 (0.06%/0.08%)" := FeeRates(0.0006, 0.0008)
  ]

  /** The quantity used when the input does not parse as a number. */
  const DefaultQuantity: real := 100.0

  /** The parameters the worker starts with; only the initial price is
      ever changed. */
  const InitialAcParams: AcParams := AcParams(0.15, 0.2, 0.6, 1.5, 0.03, 0.0)

  /** Every tier charges makers strictly less than takers. */
  lemma MakersPayLessInEveryTier(tier: string)
    requires tier in FeeTiers
    ensures 0.0 < FeeTiers[tier].maker < FeeTiers[tier].taker
  {
  }

  class WebSocketThread {
    var quantity: real
    var acParams: AcParams
    const slippageModel: SlippageModel
    const makerTakerModel: MakerTakerModel

    constructor (quantity: real := DefaultQuantity)
      ensures this.quantity == quantity && acParams == InitialAcParams
      ensures slippageModel == DefaultSlippageModel && makerTakerModel == DefaultMakerTakerModel
    {
      this.quantity := quantity;
      acParams := InitialAcParams;
      slippageModel := DefaultSlippageModel;
      makerTakerModel := DefaultMakerTakerModel;
    }

    /** `update_quantity`: the parsed number, or the default quantity when
        the text is not a number (`parsed` is None). */
    method UpdateQuantity(parsed: Option<real>)
      modifies this
      ensures parsed.Some? ==> quantity == parsed.value
      ensures parsed.None? ==> quantity == DefaultQuantity
      ensures acParams == old(acParams)
    {
      if parsed.Some? {
        quantity := parsed.value;
      } else {
        quantity := DefaultQuantity;
      }
    }

    /** `calculate_slippage`: zero when a side is empty, otherwise the more
        conservative of the two slippage predictions. */
    function CalculateSlippage(asks: seq<Level>, bids: seq<Level>): (r: real)
      ensures asks == [] || bids == [] ==> r == 0.0
      ensures asks != [] && bids != [] ==>
        && r >= slippageModel.Predict(asks, bids).0
        && r >= slippageModel.Predict(asks, bids).1
        && (r == slippageModel.Predict(asks, bids).0 || r == slippageModel.Predict(asks, bids).1)
    {
      if asks == [] || bids == [] then 0.0
      else
        var prediction := slippageModel.Predict(asks, bids);
        Max(prediction.0, prediction.1)
    }

    /** `calculate_fees`: quantity times the maker rate of the tier for a
        limit order and its taker rate for any other order type; zero for a
        tier the table does not know. */
    function CalculateFees(orderType: string, quantity: real, feeTier: string): (r: real)
      ensures feeTier !in FeeTiers ==> r == 0.0
      ensures feeTier in FeeTiers && orderType == "Limit" ==> r == quantity * FeeTiers[feeTier].maker
      ensures feeTier in FeeTiers && orderType != "Limit" ==> r == quantity * FeeTiers[feeTier].taker
    {
      if feeTier !in FeeTiers then 0.0
      else if orderType == "Limit" then quantity * FeeTiers[feeTier].maker
      else quantity * FeeTiers[feeTier].taker
    }

    /** For a positive quantity in a known tier a limit order pays strictly
        less than any other order type, and no fee is negative. */
    lemma LimitOrdersPayLess(otherType: string, quantity: real, feeTier: string)
      requires otherType != "Limit" && feeTier in FeeTiers && quantity > 0.0
      ensures 0.0 < CalculateFees("Limit", quantity, feeTier) < CalculateFees(otherType, quantity, feeTier)
    {
      MakersPayLessInEveryTier(feeTier);
      var rates := FeeTiers[feeTier];
      assert quantity * rates.maker < quantity * rates.taker;
      assert 0.0 < quantity * rates.maker;
    }

    /** `calculate_market_impact` for a one-day horizon in four periods.
        With a side empty it answers zero and changes nothing. Otherwise it
        first records the mid of the best levels as the model's initial
        price, then reports the plan computed with those parameters. */
    method CalculateMarketImpact(asks: seq<Level>, bids: seq<Level>, quantity: real,
                                 sqrt: real -> real, sinh: real -> real)
      returns (r: Num)
      requires sinh(0.0) == 0.0
      modifies this
      ensures this.quantity == old(this.quantity)
      ensures asks == [] || bids == [] ==> r == Finite(0.0) && acParams == old(acParams)
      ensures asks != [] && bids != [] ==>
        && acParams == old(acParams).(initialPrice := (asks[0].price + bids[0].price) / 2.0)
        && r == ImpactOfPlan(OptimalExecutionStrategy(acParams, quantity, 1.0, 4, sqrt, sinh))
    {
      if asks == [] || bids == [] {
        return Finite(0.0);
      }
      acParams := acParams.(initialPrice := (asks[0].price + bids[0].price) / 2.0);
      r := ImpactOfPlan(OptimalExecutionStrategy(acParams, quantity, 1.0, 4, sqrt, sinh));
    }

    /** `calculate_net_cost`: slippage and impact are percentages of the
        quantity, fees are added as they are; a non-finite impact makes the
        net cost non-finite. */
    function CalculateNetCost(slippage: real, fees: real, marketImpact: Num, quantity: real): (r: Num)
      ensures marketImpact.NonFinite? <==> r.NonFinite?
      ensures r.Finite? ==> (r.value - fees) * 100.0 == (slippage + marketImpact.value) * quantity
    {
      if marketImpact.NonFinite? then NonFinite
      else Finite((slippage / 100.0 + marketImpact.value / 100.0) * quantity + fees)
    }

    /** With non-negative inputs the net cost is never below the fees and
        grows with each percentage. */
    lemma NetCostCoversFees(slippage: real, fees: real, impact: real, quantity: real, extra: real)
      requires slippage >= 0.0 && impact >= 0.0 && quantity >= 0.0 && extra >= 0.0
      ensures CalculateNetCost(slippage, fees, Finite(impact), quantity).value >= fees
      ensures CalculateNetCost(slippage + extra, fees, Finite(impact), quantity).value
           >= CalculateNetCost(slippage, fees, Finite(impact), quantity).value
    {
      assert (slippage / 100.0 + impact / 100.0) * quantity >= 0.0;
      assert ((slippage + extra) / 100.0 + impact / 100.0) * quantity
          == (slippage / 100.0 + impact / 100.0) * quantity + (extra / 100.0) * quantity;
    }

    /** `calculate_maker_taker` as written: the maker proportion as a
        percentage, except that an empty side answers the fraction 0.5. */
    function CalculateMakerTaker(asks: seq<Level>, bids: seq<Level>): (r: real)
      ensures asks == [] || bids == [] ==> r == 0.5
      ensures asks != [] && bids != [] ==> 20.0 <= r <= 80.0 && r == 100.0 * makerTakerModel.Predict(asks, bids)
    {
      if asks == [] || bids == [] then 0.5
      else makerTakerModel.Predict(asks, bids) * 100.0
    }

    /** The empty-book answer is off the percentage scale every other book
        is reported on: it lies below the smallest percentage any book with
        both sides can produce. */
    lemma EmptyBookMakerTakerOffScale(asks: seq<Level>, bids: seq<Level>)
      requires asks != [] && bids != []
      ensures CalculateMakerTaker([], bids) < 20.0 <= CalculateMakerTaker(asks, bids)
    {
    }

    /** The maker proportion as a percentage, with the even split reported
        as 50 when a side is empty. */
    function CalculateMakerTakerPercent(asks: seq<Level>, bids: seq<Level>): (r: real)
      ensures 20.0 <= r <= 80.0
      ensures r == 100.0 * makerTakerModel.Predict(asks, bids)
    {
      if asks == [] || bids == [] then 50.0
      else makerTakerModel.Predict(asks, bids) * 100.0
    }
  }

  /** What the worker reports for a planned execution: zero for a caught
      division by zero, non-finite for a non-finite schedule, and otherwise
      the expected shortfall converted from basis points to a fraction. */
  function ImpactOfPlan(plan: Result<ExecutionPlan>): (r: Num)
    ensures plan == Err(ZeroDivision) ==> r == Finite(0.0)
    ensures plan == Err(NonFiniteSchedule) ==> r == NonFinite
    ensures plan.Ok? ==>
      && (r.NonFinite? <==> plan.value.shortfallBps.NonFinite?)
      && (r.Finite? ==> r.value * 10000.0 == plan.value.shortfallBps.value)
  {
    match plan
    case Err(e) => if e == ZeroDivision then Finite(0.0) else NonFinite
    case Ok(p) => if p.shortfallBps.NonFinite? then NonFinite else Finite(p.shortfallBps.value / 10000.0)
  }

  /** The reported impact of a plan whose costs were decomposed (as every
      plan of `OptimalExecutionStrategy` is) is its total cost as a fraction
      of the notional quantity × initial price, and is non-finite exactly
      when that notional is zero. */
  lemma ImpactIsCostOverNotional(plan: ExecutionPlan, p: AcParams, quantity: real, tau: real)
    requires CostsOf(plan, p, quantity, tau)
    ensures var r := ImpactOfPlan(Ok(plan));
      && (r.NonFinite? <==> quantity == 0.0 || p.initialPrice == 0.0)
      && (r.Finite? ==> r.value * (quantity * p.initialPrice) == plan.totalCost)
  {
    if plan.shortfallBps.Finite? {
      FractionOfNotional(plan.shortfallBps.value, plan.totalCost, quantity * p.initialPrice);
    }
  }

  /** Dividing basis points by 10000 turns `bps · n == cost · 10000` into
      `fraction · n == cost`. */
  lemma FractionOfNotional(bps: real, cost: real, notional: real)
    requires bps * notional == cost * 10000.0
    ensures (bps / 10000.0) * notional == cost
  {
    assert (bps / 10000.0) * notional == (bps * notional) / 10000.0;
  }
}
