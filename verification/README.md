# Trade-Simulator core in Dafny

A model of the estimation core of Trade-Simulator. The core keeps a live
limit-order book and, on every depth update, computes execution-quality
metrics for a market order:

- slippage, fees, market impact, the maker/taker split and net cost;
- an Almgren-Chriss optimal liquidation schedule with its cost
  decomposition;
- latency statistics over a bounded window.

Each Python file of the core becomes one Dafny module:

| file | module | form |
|---|---|---|
| orderbook.py | `LimitOrderBook` | the delta merge, best prices, sorted snapshots, spread and mid as functions; `class OrderBook` whose `Update` merges the deltas in place in two loops |
| performance_monitor.py | `PerformanceMonitoring` | `class PerformanceMonitor`, the per-cycle state machine over a bounded history; statistics as functions |
| market_impact_models.py | `MarketImpactModels` | the Almgren-Chriss model, the slippage model and the maker/taker model, all pure |
| impact_analysis.py | `ImpactAnalysis` | the analyzer's formulas as functions; `class ImpactAnalyzer` for the lazily set market parameters |
| main.py (`TradingSimulator.simulate_trade`) | `TradingLedger` | `class TradingSimulator` with its trade list and PnL |
| simulator.py | `BasicSimulator` | `class TradeSimulator`, one read of the book |
| ui.py (the metric helpers of `WebSocketThread`) and the fee table of config.py | `UiMetrics` | `class WebSocketThread` with its quantity and Almgren-Chriss parameters |

Two more modules hold shared pieces:

- `Common`: `Option`, the `Num` type (a finite real or numpy's inf/NaN), one `Level`, and `Min`, `Max` and `Sum`.
- `Depth`: the dollar depth of a book side over its first ten levels.

How the model treats the environment:

- Floating point is modelled as `real`.
- A Python `ZeroDivisionError` becomes an explicit error result, or the fallback value where the code catches it.
- A numpy division by zero does not raise. It leaves inf or NaN behind, which is the `NonFinite` value.
- numpy's `sqrt` and `sinh` are function parameters. The only fact assumed about them is sinh(0) = 0.
- `statistics.quantiles` is a parameter `cutPoint`.
- Clock readings (`time.time()`, `datetime.now()`) are method parameters.

Where the code and its documented design differ, the model follows the code:

- `OrderBookImpactAnalyzer` never refreshes its `initial_price`. It stays 0.0 (impact_analysis.py:38-47). Every schedule it computes therefore has a non-finite shortfall: `ImpactAnalysis.AnalyzerShortfallNeverFinite`.
- An initial price of 0, or a quantity of 0, gives numpy's inf/NaN shortfall, not 0 (market_impact_models.py:93).
- `num_periods = 0` in the analyzer gives the caught-exception fallback of zeros, not a reported error (impact_analysis.py:97-102). The model class itself raises, which is the `Err(ZeroDivision)` result (market_impact_models.py:66).

## Model

| member | source | states |
|---|---|---|
| `Depth.Take` | market_impact_models.py:120-121 | `levels[:n]` keeps the first min(n, len) levels, unchanged and in order |
| `Depth.NotionalNonNegative` | market_impact_models.py:120-121 | with non-negative prices and sizes, Σ price·size is non-negative |
| `Depth.NotionalAppend` | impact_analysis.py:32-33 | the notional of two level lists joined is the sum of their notionals |
| `Depth.SideDepthOfShortSide` | impact_analysis.py:32-33 | a side with at most ten levels contributes all of them |
| `Depth.SideDepthIgnoresDeepLevels` | impact_analysis.py:32-33 | levels past the tenth never change a side's depth |
| `Depth.SideDepthNonNegative` | market_impact_models.py:120-121 | a side with non-negative levels has non-negative depth |
| `Common.SumBounds` | performance_monitor.py:94 | a sum of n values, each between lo and hi, lies between n·lo and n·hi |
| `LimitOrderBook.ApplyDeltasAt` | orderbook.py:24-46 | price by price: a price no delta names keeps its level; otherwise the last delta for it decides alone (present with that quantity when positive, absent otherwise, and no error when absent already) |
| `LimitOrderBook.ApplyDeltasIdempotent` | orderbook.py:25-46 | merging the same delta list twice gives the same side as merging it once |
| `LimitOrderBook.ApplyDeltasKeepsPositive` | orderbook.py:29-34 | after a merge every stored quantity is strictly positive |
| `LimitOrderBook.MinPrice` | orderbook.py:48-52 | None iff the side is empty; otherwise a stored price no greater than any other |
| `LimitOrderBook.MaxPrice` | orderbook.py:54-58 | None iff the side is empty; otherwise a stored price no smaller than any other |
| `LimitOrderBook.AscendingLevels` | orderbook.py:60-62 | the ask snapshot lists each stored level exactly once (same length, same levels), prices strictly ascending |
| `LimitOrderBook.DescendingLevels` | orderbook.py:64-66 | the bid snapshot lists each stored level exactly once, prices strictly descending |
| `LimitOrderBook.SpreadOf` | orderbook.py:68-76 | defined iff both sides are non-empty; equals some ask minus some bid and is at most every ask minus every bid |
| `LimitOrderBook.MidOf` | orderbook.py:78-86 | defined iff both sides are non-empty; sits half a spread above the best bid and half a spread below the best ask |
| `LimitOrderBook.CrossedBookSpread` | orderbook.py:68-76 | a crossed book (a bid at or above an ask) has a spread ≤ 0 and nothing rejects it |
| `LimitOrderBook.OrderBook.constructor` | orderbook.py:11-14 | both sides start empty |
| `LimitOrderBook.OrderBook.Update` | orderbook.py:16-46 | asks become the ask deltas merged into the old asks and bids the bid deltas merged into the old bids, neither touching the other; all quantities stay positive |
| `LimitOrderBook.OrderBook.BestAsk` | orderbook.py:48-52 | the minimum ask price, None iff there are no asks |
| `LimitOrderBook.OrderBook.BestBid` | orderbook.py:54-58 | the maximum bid price, None iff there are no bids |
| `LimitOrderBook.OrderBook.Asks` | orderbook.py:60-62 | an ascending listing of exactly the stored asks |
| `LimitOrderBook.OrderBook.Bids` | orderbook.py:64-66 | a descending listing of exactly the stored bids |
| `LimitOrderBook.OrderBook.Spread` | orderbook.py:68-76 | None unless both sides have a level; otherwise exactly best ask minus best bid, which is no more than any ask minus any bid |
| `LimitOrderBook.OrderBook.MidPrice` | orderbook.py:78-86 | None unless both sides have a level; otherwise best bid + spread/2 = best ask − spread/2 |
| `PerformanceMonitoring.BoundedAppend` | performance_monitor.py:69 | appending to a full deque drops its oldest entry; the length never exceeds the window |
| `PerformanceMonitoring.LastWindow` | performance_monitor.py:22 | the window of a record stream is its last min(len, w) entries, in order |
| `PerformanceMonitoring.BoundedAppendWindow` | performance_monitor.py:68-69 | one bounded append keeps the deque equal to the window of everything appended |
| `PerformanceMonitoring.AppendAllFromEmpty` | performance_monitor.py:22 | after k appends to an empty deque it holds the last min(k, window) records, in order |
| `PerformanceMonitoring.Minimum` | performance_monitor.py:98 | `min(values)` is an element no greater than any other |
| `PerformanceMonitoring.Maximum` | performance_monitor.py:99 | `max(values)` is an element no smaller than any other |
| `PerformanceMonitoring.Insert` | performance_monitor.py:95 | inserting into an ascending list keeps it ascending and adds exactly that element |
| `PerformanceMonitoring.SortAscending` | performance_monitor.py:95 | the median's sorted copy is an ascending permutation of the window |
| `PerformanceMonitoring.Mean` | performance_monitor.py:94 | `statistics.mean`: n copies of the mean add up to the sum of the n values |
| `PerformanceMonitoring.Median` | performance_monitor.py:95 | `statistics.median`: one of the values for an odd count, the midpoint of two of the values for an even count |
| `PerformanceMonitoring.MeanBetweenExtremes` | performance_monitor.py:94-99 | min ≤ mean ≤ max |
| `PerformanceMonitoring.MeanBounds` | performance_monitor.py:94 | values all within [lo, hi] have their mean within [lo, hi] |
| `PerformanceMonitoring.MedianBetweenExtremes` | performance_monitor.py:95-99 | min ≤ median ≤ max |
| `PerformanceMonitoring.Summarize` | performance_monitor.py:93-100 | min and max are values of the window bounding all of them, and they bracket mean and median |
| `PerformanceMonitoring.StatisticsOf` | performance_monitor.py:74-102 | empty iff the history is empty; otherwise exactly the three stage names |
| `PerformanceMonitoring.StatisticsOrdered` | performance_monitor.py:91-100 | every stage's statistics have min ≤ mean ≤ max and min ≤ median ≤ max |
| `PerformanceMonitoring.EndToEndWithinExtremes` | performance_monitor.py:86-99 | every recorded cycle's end-to-end time lies between the reported min and max, and both are attained by some cycle |
| `PerformanceMonitoring.PerformanceMonitor.constructor` | performance_monitor.py:20-25 | empty history of the given window size, no cycle in flight |
| `PerformanceMonitoring.PerformanceMonitor.StartMeasurement` | performance_monitor.py:34-42 | a cycle in flight with all durations 0 and timestamp = start time; history untouched |
| `PerformanceMonitoring.PerformanceMonitor.RecordDataProcessing` | performance_monitor.py:44-50 | no-op when idle; otherwise data-processing time = now − start, nothing else changes |
| `PerformanceMonitoring.PerformanceMonitor.RecordUiUpdate` | performance_monitor.py:52-58 | no-op when idle; otherwise UI-update time = now − start, nothing else changes |
| `PerformanceMonitoring.PerformanceMonitor.EndMeasurement` | performance_monitor.py:60-72 | no-op when idle; otherwise stamps end-to-end = now − start, appends exactly that record to the bounded history and returns to idle; the history stays the window of all recorded cycles |
| `PerformanceMonitoring.PerformanceMonitor.GetStatistics` | performance_monitor.py:74-102 | the columns filled in one loop give exactly the statistics of the window |
| `PerformanceMonitoring.PerformanceMonitor.CheckPerformanceThresholds` | performance_monitor.py:116-136 | keys are exactly the thresholds that name a stage (none without statistics), each mapped to p95 ≤ threshold |
| `PerformanceMonitoring.PerformanceMonitor.RecentMetrics` | performance_monitor.py:138-141 | Python's `[-n:]`: the last n cycles in order, the whole history for n = 0 |
| `PerformanceMonitoring.PerformanceMonitor.ClearHistory` | performance_monitor.py:143-146 | the history is empty; an open cycle stays open |
| `MarketImpactModels.Holdings` | market_impact_models.py:43-44 | N + 1 holdings, x_0 = Q (sinh(κT) ≠ 0) and x_N = 0 (the last grid point is T and sinh(0) = 0) |
| `MarketImpactModels.Rates` | market_impact_models.py:47 | `np.diff(x)/τ` has one element fewer than x |
| `MarketImpactModels.StepsTelescope` | market_impact_models.py:77 | Σ v_i·τ = x_N − x_0 when v_i = (x_{i+1} − x_i)/τ |
| `MarketImpactModels.RatesTelescope` | market_impact_models.py:47 | the rates of a holdings sequence, times τ, add up to its last minus its first element |
| `MarketImpactModels.SumOfSquaresNonNegative` | market_impact_models.py:80 | Σ s_i² ≥ 0 |
| `MarketImpactModels.TemporaryImpactCost` | market_impact_models.py:80 | γΣv²τ is non-negative when γ ≥ 0 and τ ≥ 0 |
| `MarketImpactModels.RiskCost` | market_impact_models.py:82 | λσ²Σx²τ is non-negative when λ ≥ 0 and τ ≥ 0 |
| `MarketImpactModels.ScheduleFor` | market_impact_models.py:43-47 | the computed schedule liquidates the order: N + 1 holdings from Q to 0, N rates with v_i = (x_{i+1} − x_i)/(T/N), and Σ v_i·τ = −Q |
| `MarketImpactModels.HoldingsLiquidate` | market_impact_models.py:47 | any N + 1 holdings from Q to 0 together with their `np.diff(x)/τ` rates liquidate the order |
| `MarketImpactModels.OptimalSchedule` | market_impact_models.py:34-49 | a division by zero iff N = 0 or γ = 0; an inf/NaN schedule iff sinh(κT) = 0 otherwise; else a schedule that liquidates the order |
| `MarketImpactModels.ShortfallBps` | market_impact_models.py:93 | non-finite iff Q·S0 = 0; otherwise shortfall · Q·S0 = total cost · 10000 |
| `MarketImpactModels.PlanFor` | market_impact_models.py:79-94 | the cost decomposition: total = temporary + permanent + risk, with permanent = (η − γ/2)Q², the shortfall relation, and non-negative temporary and risk terms when γ, λ ≥ 0 and τ > 0 |
| `MarketImpactModels.OptimalExecutionStrategy` | market_impact_models.py:51-94 | fails exactly as the schedule does; otherwise the plan carries the optimal schedule (which liquidates the order) and its cost decomposition with τ = T/N, and with γ, λ ≥ 0 and T > 0 the temporary and risk costs are non-negative |
| `MarketImpactModels.SlippageModel.EstimateSlippage` | market_impact_models.py:102-104 | a ZeroDivisionError exactly when the depth is 0; otherwise slippage · depth = base · quantity |
| `MarketImpactModels.MakerTakerModel.FeesAreLinear` | market_impact_models.py:149-151 | `estimate_fees` is linear in the quantity: split orders cost the same as whole ones, and nothing is charged for 0 |
| `MarketImpactModels.MakerTakerModel.MakerFillCostsNoMore` | market_impact_models.py:149-151 | with 0 ≤ maker rate ≤ taker rate, a maker fill of q ≥ 0 costs no more than a taker fill, and less by exactly q · (taker − maker) |
| `MarketImpactModels.SlippageModel.Predict` | market_impact_models.py:106-140 | (0, 0) on an empty side or a zero depth or mid; otherwise linear · depth = base · 10⁶ and (quantile/10⁴ − base) · mid = best ask − best bid |
| `MarketImpactModels.MakerTakerModel.Predict` | market_impact_models.py:153-186 | always within [0.2, 0.8]; 0.5 on an empty side or a zero divisor; otherwise the raw 0.5 + 10·spread·depth ratio clamped to [0.2, 0.8] |
| `MarketImpactModels.DefaultMakerFeeIsHalfTheTakerFee` | market_impact_models.py:145-151 | with the default rates a maker fill costs half a taker fill |
| `MarketImpactModels.ZeroSpreadPredictsHalf` | market_impact_models.py:168-182 | equal best ask and best bid predict exactly 0.5 |
| `ImpactAnalysis.BookDepth` | impact_analysis.py:28-36 | an empty book has depth 0.0 (not the exception fallback); a book with non-negative levels has non-negative depth |
| `ImpactAnalysis.SnapshotNonNegative` | impact_analysis.py:30-31 | the sorted snapshots of a non-negative side have non-negative levels |
| `ImpactAnalysis.ExampleBookDepth` | impact_analysis.py:28-34 | asks (100, 5), (101, 3) and bids (99, 4), (98, 2) give depth 697.5 |
| `ImpactAnalysis.ExampleAskSnapshot` | orderbook.py:60-62 | the example asks snapshot to [(100, 5), (101, 3)] |
| `ImpactAnalysis.ExampleBidSnapshot` | orderbook.py:64-66 | the example bids snapshot to [(99, 4), (98, 2)] |
| `ImpactAnalysis.ParametersFor` | impact_analysis.py:20-26 | average trade size · 1000 = volume, and the depth is the book's current depth |
| `ImpactAnalysis.ImpactOf` | impact_analysis.py:53-71 | neutral {0, 0.5, 0.5, 0} on a zero depth or average trade size; otherwise impact · depth = q·100·(1 + 2σ), cost · 100 = impact · q, maker = max(0.2, 1 − 0.1·q/avg); always maker ≥ 0.2 and maker + taker = 1 |
| `ImpactAnalysis.ImpactProportionalToQuantity` | impact_analysis.py:53-55 | scaling the quantity by k scales the impact by k |
| `ImpactAnalysis.SlippageOf` | impact_analysis.py:104-114 | 0 on a zero depth; otherwise slippage · depth = q·10⁴·(1 + 100σ) |
| `ImpactAnalysis.Zeros` | impact_analysis.py:100 | n zeros |
| `ImpactAnalysis.StrategyOf` | impact_analysis.py:73-102 | the fallback (N + 1 zeros, shortfall 0) iff N = 0 or γ = 0; an inf/NaN plan iff sinh(κT) = 0 otherwise; else a schedule that liquidates the order, its shortfall non-finite iff Q·S0 = 0 |
| `ImpactAnalysis.PlanOf` | impact_analysis.py:78-96 | with no division by zero the plan's schedule liquidates the order and its shortfall is non-finite iff Q·S0 = 0 |
| `ImpactAnalysis.AnalyzerShortfallNeverFinite` | impact_analysis.py:38-47 | with the analyzer's own parameters (S0 = 0) no computed plan has a finite shortfall |
| `ImpactAnalysis.ImpactAnalyzer.constructor` | impact_analysis.py:14-18 | default Almgren-Chriss parameters, no market parameters |
| `ImpactAnalysis.ImpactAnalyzer.UpdateMarketParameters` | impact_analysis.py:20-26 | the market parameters become those computed from the current book; the AC parameters stay |
| `ImpactAnalysis.ImpactAnalyzer.EnsureMarketParameters` | impact_analysis.py:51-52 | unset market parameters become volatility 0.03, volume 5000 on the current book; set ones stay |
| `ImpactAnalysis.ImpactAnalyzer.EstimateMarketImpact` | impact_analysis.py:49-71 | lazy initialisation, then the impact estimate of the (possibly new) parameters |
| `ImpactAnalysis.ImpactAnalyzer.OptimalExecutionStrategy` | impact_analysis.py:73-102 | lazy initialisation, then the strategy report for the analyzer's unchanged AC parameters |
| `ImpactAnalysis.ImpactAnalyzer.EstimateSlippage` | impact_analysis.py:104-114 | lazy initialisation, then the slippage of the (possibly new) parameters |
| `BasicSimulator.TradeSimulator.constructor` | simulator.py:2-3 | keeps the given book |
| `BasicSimulator.TradeSimulator.EstimateCost` | simulator.py:5-9 | for 'buy' the minimum ask, for any other side the maximum bid; None iff that side is empty; reads the book and changes nothing |
| `BasicSimulator.TradeSimulator.EstimateCostIgnoresQuantity` | simulator.py:5-9 | the answer does not depend on the quantity |
| `TradingLedger.ExecutionPrice` | main.py:98-99 | a buy executes the impact percentage of mid above mid, any other side the same amount below |
| `TradingLedger.ImpactWorsensPrice` | main.py:98-99 | with mid > 0 and impact ≥ 0 a buy pays at least mid, a sale gets at most mid, symmetrically |
| `TradingLedger.LedgerAppend` | main.py:111-114 | one more trade moves the PnL by exactly its cash flow |
| `TradingLedger.RoundTripIsFlat` | main.py:111-114 | a buy and a sale of the same quantity at the same price leave the PnL unchanged |
| `TradingLedger.TradingSimulator.constructor` | main.py:82-87 | no positions, no trades, PnL 0 |
| `TradingLedger.TradingSimulator.Record` | main.py:108-114 | appends exactly the trade and moves the PnL by its cash flow, so the PnL stays the ledger of the trades; positions untouched |
| `TradingLedger.TradingSimulator.SimulateTrade` | main.py:89-120 | no usable mid (None or 0): None and nothing recorded; otherwise the analyzer keeps its market parameters or gets the defaults computed from its book, and the one record appended is returned, priced at the impacted mid with the analyzer's impact and cost, and PnL moves by −price·q for a buy and +price·q otherwise; positions never change; PnL always equals the cash flow of the trades |
| `UiMetrics.MakersPayLessInEveryTier` | config.py:25-40 | every fee tier charges makers strictly less than takers |
| `UiMetrics.WebSocketThread.constructor` | ui.py:21-45 | the given quantity (100 by default), default slippage and maker/taker models, and AC parameters (0.15, 0.2, 0.6, 1.5, 0.03, 0) |
| `UiMetrics.WebSocketThread.UpdateQuantity` | ui.py:47-52 | the parsed number, or 100 when the input does not parse |
| `UiMetrics.WebSocketThread.CalculateSlippage` | ui.py:54-68 | 0 on an empty side; otherwise one of the two predictions and at least both |
| `UiMetrics.WebSocketThread.CalculateFees` | ui.py:70-84 | 0 for an unknown tier; q · maker rate for 'Limit' and q · taker rate for any other order type |
| `UiMetrics.WebSocketThread.LimitOrdersPayLess` | ui.py:77-79 | for q > 0 in a known tier a limit order pays a positive fee, strictly less than any other order type |
| `UiMetrics.WebSocketThread.CalculateMarketImpact` | ui.py:86-108 | 0 on an empty side with nothing changed; otherwise the initial price becomes the mid of the best levels, and the answer is that of the plan for T = 1, N = 4 |
| `UiMetrics.ImpactOfPlan` | ui.py:99-108 | 0 for a caught division by zero, non-finite for an inf/NaN schedule, otherwise the shortfall as a fraction (value · 10⁴ = bps) |
| `UiMetrics.ImpactIsCostOverNotional` | ui.py:104 | for any plan carrying the cost decomposition (as every successful `OptimalExecutionStrategy` plan does) the reported impact is total cost / (Q·S0), non-finite iff Q·S0 = 0 |
| `UiMetrics.WebSocketThread.CalculateNetCost` | ui.py:110-123 | non-finite iff the impact is; otherwise (net − fees) · 100 = (slippage + impact) · q |
| `UiMetrics.WebSocketThread.NetCostCoversFees` | ui.py:116 | with non-negative inputs the net cost is at least the fees and grows with the slippage |
| `UiMetrics.WebSocketThread.CalculateMakerTaker` | ui.py:125-137 | 0.5 on an empty side; otherwise 100 · the model's prediction, within [20, 80] |
| `UiMetrics.WebSocketThread.EmptyBookMakerTakerOffScale` | ui.py:128-129 | the empty-book answer lies below every answer for a book with both sides |
| `UiMetrics.WebSocketThread.CalculateMakerTakerPercent` | ui.py:125-137 | corrected: always 100 · the prediction, so always within [20, 80], 50 on an empty side |

## Left out

- String-to-float parsing (`float(price)`, `float(quantity)`): prices and sizes are reals, and `update_quantity` receives the parse result as an `Option`.
- Floating-point rounding, and the distinction between inf and NaN: both are `NonFinite`.
- numpy's `sqrt` of a negative argument is not modelled. `sqrt` is an arbitrary function parameter.
- A negative `num_periods` is not modelled: it is a `nat`.
- `MarketImpactModels.ShortfallBps`: it does not require Q·S0 ≠ 0. The numpy division is modelled as a `NonFinite` result instead.
- `statistics.quantiles` (p95, p99) stays an abstract parameter: its interpolation and its exception on a window of one point are library behaviour.
- Thread locks, logging, `log_statistics` and every `print` are left out.
- The 1,000,000 fallback of `_estimate_market_depth` is not modelled. Nothing inside its `try` can raise once the book holds reals.
- The 50.0 answer on the failure path of `calculate_maker_taker` is not modelled. The maker/taker model catches its own errors, so that path is never taken.
- `MarketImpactModels.MakerTakerModel.EstimateFees` has no contract of its own. Its properties are the lemmas `FeesAreLinear` and `MakerFillCostsNoMore`.
- `PerformanceMonitoring.Median`: the contract says the median is a value or the midpoint of two values, and `MedianBetweenExtremes` bounds it by min and max. It does not state that it is the middle order statistic, with half the values on either side.
- The rest of `WebSocketThread` is not part of this model: its websocket loop, message handling, performance monitor, latency and signals are concurrency and I/O. So are `MainWindow`, ws_client.py, app.py and the printing and plotting in main.py.
- The sklearn and pandas imports are not part of this model: the code never uses them.
- `TradingLedger.TradingSimulator.SimulateTrade`: the timestamp is an input rather than `datetime.now()`.
- The temporary decay ρ is carried in `AcParams` but never used, as in the code.

## Findings

| source | as written | input that shows it | evidently intended | confidence | as-written member | corrected member |
|---|---|---|---|---|---|---|
| ui.py:128-129 | an empty book side makes `calculate_maker_taker` return 0.5 while every other answer is a percentage in [20, 80] | `calculate_maker_taker([], bids)` with any bids returns 0.5, which reads as a 0.5 % maker share. The defect is latent: `on_message` returns early on an empty side (ui.py:168-170), before it calls `calculate_maker_taker` (ui.py:185) | 50.0, the even split on the percentage scale (the comment says 50/50) | medium, not executed | `UiMetrics.WebSocketThread.CalculateMakerTaker` (see `UiMetrics.WebSocketThread.EmptyBookMakerTakerOffScale`) | `UiMetrics.WebSocketThread.CalculateMakerTakerPercent` |
