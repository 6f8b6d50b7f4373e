/** The execution-cost models (market_impact_models.py): the Almgren-Chriss
    optimal liquidation schedule with its cost decomposition, the slippage
    model and the maker/taker model. The estimators read a book given as
    the two level lists of a depth message, in the order they arrive.

    numpy's `sqrt` and `sinh` are parameters `sqrt, sinh: real -> real`;
    the only fact used about them is sinh(0) = 0. */
module MarketImpactModels {
  import opened Common
  import opened Depth

  // ---------------------------------------------------------------------
  // Almgren-Chriss

  /** η, γ, ρ, λ, σ and S0 of the model. ρ is carried but never used. */
  datatype AcParams = AcParams(
    permanentImpact: real,
    temporaryImpact: real,
    temporaryDecay: real,
    riskAversion: real,
    volatility: real,
    initialPrice: real)

  /** How a schedule computation fails: Python raises ZeroDivisionError on
      `T / N` with N = 0 and on `λσ²/γ` with γ = 0; numpy divides by
      sinh(κT) = 0 without raising and leaves an all-NaN/inf schedule. */
  datatype ScheduleError = ZeroDivision | NonFiniteSchedule

  datatype Result<T> = Ok(value: T) | Err(error: ScheduleError)

  /** The remaining holdings x_0..x_N and the trading rates v_0..v_{N-1}. */
  datatype Schedule = Schedule(holdings: seq<real>, rates: seq<real>)

  /** `optimal_execution_strategy`'s dictionary. */
  datatype ExecutionPlan = ExecutionPlan(
    schedule: Schedule,
    marketImpact: real,
    permanentImpact: real,
    volatilityCost: real,
    totalCost: real,
    shortfallBps: Num)

  /** `np.linspace(0, T, N + 1)[i]`: i·(T/N), with the last point set to
      exactly T. */
  function GridPoint(horizon: real, periods: nat, i: nat): real
    requires periods >= 1 && i <= periods
  {
    if i == periods then horizon else i as real * (horizon / periods as real)
  }

  /** sinh(κT) = 0, which happens when κT = 0 (no risk aversion, no
      volatility or no horizon): numpy then divides by zero. */
  predicate SinhVanishes(kappa: real, horizon: real, sinh: real -> real)
  {
    sinh(kappa * horizon) == 0.0
  }

  /** x_i = Q · sinh(κ(T − t_i)) / sinh(κT). */
  function HoldingAt(quantity: real, horizon: real, periods: nat, kappa: real, sinh: real -> real, i: nat): real
    requires periods >= 1 && i <= periods && !SinhVanishes(kappa, horizon, sinh)
  {
    quantity * sinh(kappa * (horizon - GridPoint(horizon, periods, i))) / sinh(kappa * horizon)
  }

  /** The holdings x_0..x_N: the whole order at the start, nothing left at
      the end. */
  function Holdings(quantity: real, horizon: real, periods: nat, kappa: real, sinh: real -> real): (x: seq<real>)
    requires periods >= 1 && !SinhVanishes(kappa, horizon, sinh)
    requires sinh(0.0) == 0.0
    ensures |x| == periods + 1
    ensures x[0] == quantity
    ensures x[periods] == 0.0
  {
    var x := seq(periods + 1, i requires 0 <= i <= periods => HoldingAt(quantity, horizon, periods, kappa, sinh, i));
    assert x[0] == quantity by {
      var full := sinh(kappa * horizon);
      assert full != 0.0;
      assert kappa * (horizon - GridPoint(horizon, periods, 0)) == kappa * horizon;
      assert x[0] == quantity * full / full;
    }
    assert x[periods] == 0.0 by {
      assert x[periods] == HoldingAt(quantity, horizon, periods, kappa, sinh, periods);
      assert kappa * (horizon - GridPoint(horizon, periods, periods)) == 0.0;
    }
    x
  }

  /** `np.diff(x) / τ`: the rate of each step. */
  function Rates(x: seq<real>, tau: real): (v: seq<real>)
    requires x != [] && tau != 0.0
    ensures |v| == |x| - 1
  {
    seq(|x| - 1, i requires 0 <= i < |x| - 1 => (x[i + 1] - x[i]) / tau)
  }

  /** Every element multiplied by c. */
  function Scale(s: seq<real>, c: real): (r: seq<real>)
    ensures |r| == |s|
  {
    if s == [] then [] else [s[0] * c] + Scale(s[1..], c)
  }

  /** numpy's `s**2`. */
  function Squares(s: seq<real>): (r: seq<real>)
    ensures |r| == |s|
    ensures forall i :: 0 <= i < |s| ==> r[i] == s[i] * s[i]
  {
    if s == [] then [] else [s[0] * s[0]] + Squares(s[1..])
  }

  lemma QuotientNonZero(a: real, b: real)
    requires a != 0.0 && b != 0.0
    ensures a / b != 0.0
  {
  }

  lemma QuotientPositive(a: real, b: real)
    requires a > 0.0 && b > 0.0
    ensures a / b > 0.0
  {
  }

  lemma DivideThenMultiply(a: real, c: real)
    requires c != 0.0
    ensures a / c * c == a
  {
  }

  /** Rates of the form (x_{i+1} − x_i)/τ, multiplied back by τ, add up to
      the total change: last holding minus first. */
  lemma {:induction false} StepsTelescope(x: seq<real>, v: seq<real>, tau: real)
    requires x != [] && tau != 0.0 && |v| == |x| - 1
    requires forall i :: 0 <= i < |v| ==> v[i] == (x[i + 1] - x[i]) / tau
    ensures Sum(Scale(v, tau)) == x[|x| - 1] - x[0]
    decreases |x|
  {
    if |x| > 1 {
      var scaled := Scale(v, tau);
      assert scaled[1..] == Scale(v[1..], tau);
      assert Sum(scaled) == v[0] * tau + Sum(Scale(v[1..], tau));
      DivideThenMultiply(x[1] - x[0], tau);
      assert v[0] * tau == x[1] - x[0];
      StepsTelescope(x[1..], v[1..], tau);
      assert x[1..][0] == x[1];
      assert x[1..][|x| - 2] == x[|x| - 1];
    }
  }

  /** The rates of a holdings sequence, multiplied back by τ, add up to
      its last element minus its first. */
  lemma RatesTelescope(x: seq<real>, tau: real)
    requires x != [] && tau != 0.0
    ensures Sum(Scale(Rates(x, tau), tau)) == x[|x| - 1] - x[0]
  {
    StepsTelescope(x, Rates(x, tau), tau);
  }

  lemma SumOfSquaresNonNegative(s: seq<real>)
    ensures 0.0 <= Sum(Squares(s))
  {
    var squares := Squares(s);
    forall i | 0 <= i < |squares|
      ensures 0.0 <= squares[i]
    {
      assert squares[i] == s[i] * s[i];
    }
    SumNonNegative(squares);
  }

  /** γ Σ v_i² τ: the temporary-impact cost of trading at rates v. */
  function TemporaryImpactCost(gamma: real, rates: seq<real>, tau: real): (c: real)
    ensures 0.0 <= gamma && 0.0 <= tau ==> 0.0 <= c
  {
    SumOfSquaresNonNegative(rates);
    gamma * Sum(Squares(rates)) * tau
  }

  /** λσ² Σ x_i² τ: the cost of holding the positions x against price risk. */
  function RiskCost(riskAversion: real, sigmaSquared: real, holdings: seq<real>, tau: real): (c: real)
    ensures 0.0 <= riskAversion && 0.0 <= sigmaSquared && 0.0 <= tau ==> 0.0 <= c
  {
    SumOfSquaresNonNegative(holdings);
    riskAversion * sigmaSquared * Sum(Squares(holdings)) * tau
  }

  /** κ = sqrt(λσ²/γ). Python raises on γ = 0; the schedule reports that
      case before it asks for κ, so the value given here for γ = 0 is
      never used. */
  function Kappa(p: AcParams, sqrt: real -> real): real
  {
    if p.temporaryImpact == 0.0 then 0.0
    else sqrt(p.riskAversion * (p.volatility * p.volatility) / p.temporaryImpact)
  }

  /** What every computed schedule satisfies: N + 1 holdings falling from
      the whole order Q to nothing, N rates v_i = (x_{i+1} − x_i)/τ with
      τ = T/N, and the rates times τ adding up to −Q, so that the schedule
      sells exactly the order. */
  ghost predicate LiquidatesOrder(s: Schedule, quantity: real, horizon: real, periods: nat)
  {
    var x, v := s.holdings, s.rates;
    && periods >= 1 && horizon != 0.0
    && |x| == periods + 1 && |v| == periods
    && x[0] == quantity && x[periods] == 0.0
    && (forall i :: 0 <= i < periods ==> v[i] == (x[i + 1] - x[i]) / (horizon / periods as real))
    && Sum(Scale(v, horizon / periods as real)) == -quantity
  }

  /** The schedule when nothing divides by zero. */
  function ScheduleFor(quantity: real, horizon: real, periods: nat, kappa: real, sinh: real -> real): (s: Schedule)
    requires periods >= 1 && !SinhVanishes(kappa, horizon, sinh)
    requires sinh(0.0) == 0.0
    ensures LiquidatesOrder(s, quantity, horizon, periods)
  {
    var x := Holdings(quantity, horizon, periods, kappa, sinh);
    assert horizon != 0.0;
    HoldingsLiquidate(x, quantity, horizon, periods);
    Schedule(x, Rates(x, horizon / periods as real))
  }

  /** Any N + 1 holdings from Q down to 0, with their rates over steps of
      T/N, liquidate the order. */
  lemma HoldingsLiquidate(x: seq<real>, quantity: real, horizon: real, periods: nat)
    requires periods >= 1 && horizon != 0.0
    requires |x| == periods + 1 && x[0] == quantity && x[periods] == 0.0
    ensures horizon / periods as real != 0.0
    ensures LiquidatesOrder(Schedule(x, Rates(x, horizon / periods as real)), quantity, horizon, periods)
  {
    QuotientNonZero(horizon, periods as real);
    RatesTelescope(x, horizon / periods as real);
  }

  /** `calculate_optimal_schedule(Q, T, N)`: N + 1 holdings from Q down to
      0 and N rates v_i = (x_{i+1} − x_i)/τ with τ = T/N. */
  function OptimalSchedule(p: AcParams, quantity: real, horizon: real, periods: nat,
                           sqrt: real -> real, sinh: real -> real): (r: Result<Schedule>)
    requires sinh(0.0) == 0.0
    ensures r == Err(ZeroDivision) <==> periods == 0 || p.temporaryImpact == 0.0
    ensures r == Err(NonFiniteSchedule) <==>
      periods != 0 && p.temporaryImpact != 0.0 && SinhVanishes(Kappa(p, sqrt), horizon, sinh)
    ensures r.Ok? ==> LiquidatesOrder(r.value, quantity, horizon, periods)
  {
    if periods == 0 || p.temporaryImpact == 0.0 then Err(ZeroDivision)
    else if SinhVanishes(Kappa(p, sqrt), horizon, sinh) then Err(NonFiniteSchedule)
    else Ok(ScheduleFor(quantity, horizon, periods, Kappa(p, sqrt), sinh))
  }

  /** total_cost / (Q·S0) · 10000; numpy gives inf or NaN when Q·S0 = 0. */
  function ShortfallBps(totalCost: real, quantity: real, initialPrice: real): (r: Num)
    ensures r == NonFinite <==> (quantity == 0.0 || initialPrice == 0.0)
    ensures r.Finite? ==> r.value * (quantity * initialPrice) == totalCost * 10000.0
  {
    if quantity == 0.0 || initialPrice == 0.0 then NonFinite
    else Finite(totalCost / (quantity * initialPrice) * 10000.0)
  }

  /** The cost decomposition of a plan traded in steps of τ: temporary
      impact γΣv²τ, permanent impact (η − γ/2)Q², risk λσ²Σ_{i≥1}x_i²τ,
      their sum, and the shortfall in basis points of Q·S0. */
  ghost predicate CostsOf(plan: ExecutionPlan, p: AcParams, quantity: real, tau: real)
  {
    var s := plan.schedule;
    && s.holdings != []
    && plan.marketImpact == TemporaryImpactCost(p.temporaryImpact, s.rates, tau)
    && plan.permanentImpact == (p.permanentImpact - p.temporaryImpact / 2.0) * (quantity * quantity)
    && plan.volatilityCost == RiskCost(p.riskAversion, p.volatility * p.volatility, s.holdings[1..], tau)
    && plan.totalCost == plan.marketImpact + plan.permanentImpact + plan.volatilityCost
    && (plan.shortfallBps == NonFinite <==> (quantity == 0.0 || p.initialPrice == 0.0))
    && (plan.shortfallBps.Finite? ==>
          plan.shortfallBps.value * (quantity * p.initialPrice) == plan.totalCost * 10000.0)
  }

  /** Prices a schedule. */
  function PlanFor(p: AcParams, quantity: real, tau: real, s: Schedule): (plan: ExecutionPlan)
    requires s.holdings != []
    ensures plan.schedule == s
    ensures CostsOf(plan, p, quantity, tau)
    ensures p.temporaryImpact >= 0.0 && p.riskAversion >= 0.0 && tau > 0.0 ==>
      0.0 <= plan.marketImpact && 0.0 <= plan.volatilityCost
  {
    assert 0.0 <= p.volatility * p.volatility;
    var marketImpact := TemporaryImpactCost(p.temporaryImpact, s.rates, tau);
    var permanentImpact := (p.permanentImpact - p.temporaryImpact / 2.0) * (quantity * quantity);
    var volatilityCost := RiskCost(p.riskAversion, p.volatility * p.volatility, s.holdings[1..], tau);
    var total := marketImpact + permanentImpact + volatilityCost;
    ExecutionPlan(s, marketImpact, permanentImpact, volatilityCost, total,
                  ShortfallBps(total, quantity, p.initialPrice))
  }

  /** `optimal_execution_strategy(Q, T, N)`: the optimal schedule and its
      expected costs. With γ ≥ 0, λ ≥ 0 and a positive horizon the
      temporary-impact and risk terms are never negative; the permanent
      term is negative whenever γ/2 > η. */
  function OptimalExecutionStrategy(p: AcParams, quantity: real, horizon: real, periods: nat,
                                    sqrt: real -> real, sinh: real -> real): (r: Result<ExecutionPlan>)
    requires sinh(0.0) == 0.0
    ensures r.Err? <==> OptimalSchedule(p, quantity, horizon, periods, sqrt, sinh).Err?
    ensures r.Err? ==> r.error == OptimalSchedule(p, quantity, horizon, periods, sqrt, sinh).error
    ensures r.Ok? ==>
      && periods >= 1
      && r.value.schedule == OptimalSchedule(p, quantity, horizon, periods, sqrt, sinh).value
      && LiquidatesOrder(r.value.schedule, quantity, horizon, periods)
      && CostsOf(r.value, p, quantity, horizon / periods as real)
    ensures r.Ok? && p.temporaryImpact >= 0.0 && p.riskAversion >= 0.0 && horizon > 0.0 ==>
      0.0 <= r.value.marketImpact && 0.0 <= r.value.volatilityCost
  {
    match OptimalSchedule(p, quantity, horizon, periods, sqrt, sinh)
    case Err(e) => Err(e)
    case Ok(s) =>
      assert periods >= 1 && |s.holdings| == periods + 1;
      assert horizon > 0.0 ==> horizon / periods as real > 0.0 by {
        if horizon > 0.0 {
          QuotientPositive(horizon, periods as real);
        }
      }
      Ok(PlanFor(p, quantity, horizon / periods as real, s))
  }

  // ---------------------------------------------------------------------
  // Book figures read from a depth message

  /** (ask depth + bid depth) / 2 over the first ten levels of each list. */
  function MessageDepth(asks: seq<Level>, bids: seq<Level>): real
  {
    (SideDepth(asks) + SideDepth(bids)) / 2.0
  }

  /** The average of the first ask and the first bid price. */
  function MessageMid(asks: seq<Level>, bids: seq<Level>): real
    requires asks != [] && bids != []
  {
    (asks[0].price + bids[0].price) / 2.0
  }

  // ---------------------------------------------------------------------
  // Slippage

  datatype SlippageModel = SlippageModel(baseSlippage: real)
  {
    /** base · quantity / depth; a zero depth raises ZeroDivisionError,
        which nothing in the method catches. */
    function EstimateSlippage(quantity: real, marketDepth: real): (r: Result<real>)
      ensures r.Err? <==> marketDepth == 0.0
      ensures r.Err? ==> r.error == ZeroDivision
      ensures r.Ok? ==> r.value * marketDepth == baseSlippage * quantity
    {
      if marketDepth == 0.0 then Err(ZeroDivision)
      else Ok(baseSlippage * (quantity / marketDepth))
    }

    /** (linear, quantile) slippage in basis points: a depth-proportional
        figure for 100 units and the base plus the relative spread; both
        zero for an empty side or when a division by zero is caught. */
    function Predict(asks: seq<Level>, bids: seq<Level>): (r: (real, real))
      ensures asks == [] || bids == [] ==> r == (0.0, 0.0)
      ensures asks != [] && bids != [] && (MessageDepth(asks, bids) == 0.0 || MessageMid(asks, bids) == 0.0)
        ==> r == (0.0, 0.0)
      ensures asks != [] && bids != [] && MessageDepth(asks, bids) != 0.0 && MessageMid(asks, bids) != 0.0 ==>
        && r.0 * MessageDepth(asks, bids) == baseSlippage * 1000000.0
        && (r.1 / 10000.0 - baseSlippage) * MessageMid(asks, bids) == asks[0].price - bids[0].price
    {
      if asks == [] || bids == [] then (0.0, 0.0)
      else
        var depth := MessageDepth(asks, bids);
        var mid := MessageMid(asks, bids);
        if depth == 0.0 || mid == 0.0 then (0.0, 0.0)
        else
          var linear := baseSlippage * (100.0 / depth) * 10000.0;
          var spread := (asks[0].price - bids[0].price) / mid;
          var quantile := (baseSlippage + spread) * 10000.0;
          (linear, quantile)
    }
  }

  const DefaultSlippageModel: SlippageModel := SlippageModel(0.0001)

  // ---------------------------------------------------------------------
  // Maker/taker

  function Clamp(x: real, lo: real, hi: real): real
  {
    Max(lo, Min(hi, x))
  }

  datatype MakerTakerModel = MakerTakerModel(makerFee: real, takerFee: real)
  {
    /** quantity × the maker or the taker rate. */
    function EstimateFees(quantity: real, isMaker: bool): real
    {
      quantity * (if isMaker then makerFee else takerFee)
    }

    /** Fees are linear in the quantity: splitting an order into two parts
        of the same kind costs the same as filling it whole, and a zero
        quantity costs nothing. */
    lemma FeesAreLinear(q1: real, q2: real, isMaker: bool)
      ensures EstimateFees(q1 + q2, isMaker) == EstimateFees(q1, isMaker) + EstimateFees(q2, isMaker)
      ensures EstimateFees(0.0, isMaker) == 0.0
    {
      var rate := if isMaker then makerFee else takerFee;
      assert (q1 + q2) * rate == q1 * rate + q2 * rate;
    }

    /** With a maker rate no higher than the taker rate, a maker fill of a
        non-negative quantity never costs more than a taker fill, and the
        two differ by the quantity times the rate gap. */
    lemma MakerFillCostsNoMore(quantity: real)
      requires 0.0 <= makerFee <= takerFee && 0.0 <= quantity
      ensures 0.0 <= EstimateFees(quantity, true) <= EstimateFees(quantity, false)
      ensures EstimateFees(quantity, false) - EstimateFees(quantity, true) == quantity * (takerFee - makerFee)
    {
      assert quantity * makerFee <= quantity * takerFee;
    }

    /** Whether `predict` computes a figure rather than falling back: both
        sides present, and neither the mid nor the larger depth is zero. */
    predicate Computable(asks: seq<Level>, bids: seq<Level>)
    {
      asks != [] && bids != [] && MessageMid(asks, bids) != 0.0
      && Max(SideDepth(asks), SideDepth(bids)) != 0.0
    }

    /** 0.5 + 10 · relative spread · depth balance, before the clamp. */
    function RawMakerProportion(asks: seq<Level>, bids: seq<Level>): real
      requires Computable(asks, bids)
    {
      var spread := (asks[0].price - bids[0].price) / MessageMid(asks, bids);
      var askDepth, bidDepth := SideDepth(asks), SideDepth(bids);
      var depthRatio := Min(askDepth, bidDepth) / Max(askDepth, bidDepth);
      0.5 + (spread * 10.0) * depthRatio
    }

    /** The predicted maker proportion: the raw figure clamped to
        [0.2, 0.8], and 0.5 when a side is empty or a division by zero is
        caught. */
    function Predict(asks: seq<Level>, bids: seq<Level>): (r: real)
      ensures 0.2 <= r <= 0.8
      ensures !Computable(asks, bids) ==> r == 0.5
      ensures Computable(asks, bids) ==>
        var raw := RawMakerProportion(asks, bids);
        && (raw < 0.2 ==> r == 0.2)
        && (0.2 <= raw <= 0.8 ==> r == raw)
        && (0.8 < raw ==> r == 0.8)
    {
      if asks == [] || bids == [] then 0.5
      else if !Computable(asks, bids) then 0.5
      else Clamp(RawMakerProportion(asks, bids), 0.2, 0.8)
    }
  }

  const DefaultMakerTakerModel: MakerTakerModel := MakerTakerModel(0.001, 0.002)

  /** With the default rates a maker fill costs half a taker fill. */
  lemma DefaultMakerFeeIsHalfTheTakerFee(quantity: real)
    ensures 2.0 * DefaultMakerTakerModel.EstimateFees(quantity, true)
         == DefaultMakerTakerModel.EstimateFees(quantity, false)
  {
  }

  /** When the first ask equals the first bid the relative spread is zero
      and the prediction is exactly one half. */
  lemma ZeroSpreadPredictsHalf(m: MakerTakerModel, asks: seq<Level>, bids: seq<Level>)
    requires asks != [] && bids != [] && asks[0].price == bids[0].price
    ensures m.Predict(asks, bids) == 0.5
  {
    if m.Computable(asks, bids) {
      var spread := (asks[0].price - bids[0].price) / MessageMid(asks, bids);
      assert spread == 0.0;
    }
  }
}
