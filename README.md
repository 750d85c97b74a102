# trading-system, modelled in Dafny

This project models the deterministic core of the `trading-system`
repository, a long-only trading backtester for Euronext shares and crypto
pairs. The modelled parts are:

- **The bar-by-bar trade simulator of both backtesting engines.**
  - The current engine checks the exits in the order SELL signal, then stop-loss ratio, then take-profit ratio.
  - The legacy engine checks the stop-loss fraction, then the take-profit fraction, then the SELL signal.
  - On each bar the simulator enters on a floor-sized BUY and then logs one portfolio snapshot.
- **The performance metrics.**
  - Total return, annualized return, drawdown from the running peak, the Sharpe ratio loops, the composite `strategy_score` and the paired trade statistics.
  - The legacy summary divides float64 values without guards: a zero divisor gives NaN or an infinity, and only the integer division `365 / days` raises.
  - A run over no bars raises KeyError when it indexes its empty log by date.
- **The classical strategy.**
  - The RSI / MACD / Bollinger signal rule.
  - The strategy object's eight parameters with `get_parameters` and `set_parameters`.
- **The parameter sweeps of the optimisation scripts.**
  - The `itertools.product` enumeration.
  - The add-only indicator cache `update_cache`, which is updated in place.
  - The failure sentinel of `backtest_wrapper`.
  - The best-score reduction, where a strictly greater score is needed to win so the first maximum stays.
  - The `idxmax`/`idxmin` best-row selection.
- **The validity check `is_valid`.**
- **The ticker list.**
  - The Euronext CSV cleaning pipeline.
  - The column check of `bulk_upsert`.
  - The market filters.
  - The ccxt pair list.

Modules, one per file:

| file | module | models |
|---|---|---|
| `common.dfy` | `Common` | `Option`, `Result`, `Signal`, the extended reals `Ext` used for the `±inf` sentinels, float64 division and the Python exceptions a run can raise |
| `simulator.dfy` | `Simulator` | the shared bar step of both engines, which takes the exit order as a parameter, and its invariants |
| `metrics.dfy` | `Metrics` | running peak, float64 drawdown, the NaN-skipping maximum, and the `_max_drawdown` and `_sharpe_ratio` loops |
| `engine.dfy` | `Engine` | the current engine's `run`, `_calculate_performance`, `strategy_score` and `_compute_trade_metrics` |
| `legacy_engine.dfy` | `LegacyEngine` | the legacy engine's `run` and `_calculate_performance` |
| `classical.dfy` | `Classical` | `ClassicalStrategy` |
| `indicator_cache.dfy` | `IndicatorCache` | `update_cache`, both versions |
| `sweep.dfy` | `Sweep` | `backtest_wrapper`, `optimize_parameters_parallel` and the best-row selection of the three scripts |
| `validator.dfy` | `Validator` | `is_valid` |
| `tickers.dfy` | `Tickers` | the `TickersRepository` pure parts |

Prices and money are `real`. `//` is `.Floor`. A float64 result that may be
NaN or infinite is an `Option<Ext>`, with `None` for NaN. `np.tanh` is a function parameter that is
required to be strictly increasing with values in (-1, 1).

Each piece of code that works step by step is a method proved against a
specification function. These are:
- the two `run` loops;
- the drawdown and Sharpe loops;
- `set_parameters` on a class;
- `update_cache` on a class whose `entries` map is updated in place;
- the sweep loops;
- `is_valid`, which flips the flag and grows the reason list step by step.

The properties are lemmas about those specification functions.

## Model

| member | source | states |
|---|---|---|
| Common.FloatDiv | src/backtesting/engine.py:132 | float64 division: a number for a non-zero divisor; +inf, -inf or NaN for a zero divisor according to the sign of the dividend; nothing raises |
| Simulator.EnterOnBuy | src/trading_system/backtesting/engine.py:87-103 | a BUY happens only on a BUY signal with no position and positive capital, buying `capital*position_size // price` shares when that is at least one; it debits `shares*price*(1+fee)` and sets the entry price; otherwise the book is unchanged |
| Simulator.SimulateConsistent | src/trading_system/backtesting/engine.py:36-103 | after every bar the position is non-negative; trades alternate BUY, SELL, ... starting with BUY; a position is open exactly when the log ends on a BUY, whose shares and price it holds; every SELL sells the shares of the BUY before it |
| Simulator.NoTwoBuysInARow | src/trading_system/backtesting/engine.py:50-103 | a BUY in the trade log is followed by a SELL or ends the log |
| Simulator.StepAppends | src/trading_system/backtesting/engine.py:105-112 | a bar only appends to the trade log and appends exactly its own snapshot `capital + position*price` to the portfolio log |
| Simulator.LogsGrow | src/trading_system/backtesting/engine.py:45-112 | the log after m bars is a prefix of the log after n >= m bars, for both trades and portfolio |
| Simulator.OneSnapshotPerBar | src/trading_system/backtesting/engine.py:105-112 | exactly one snapshot per bar; snapshot k has bar k's date and close and the value of the book right after bar k's trades |
| Simulator.EntryRule | src/trading_system/backtesting/engine.py:87-103 | a BUY is recorded exactly when the signal is BUY, the position is flat after the exit check, capital is positive and the floor-sized order is at least one share; the cost including the fee is debited; otherwise nothing changes |
| Simulator.ExitRule | src/trading_system/backtesting/engine.py:50-83 | with a position open and an exit firing, every share is sold at the close, `position*price*(1-fee)` is credited, the position is set to 0 and the trade is tagged with the reason; otherwise the book is unchanged |
| Simulator.ReentryOnSameBar | src/trading_system/backtesting/engine.py:50-103 | a threshold exit on a BUY bar re-enters on the same bar when the proceeds buy a share |
| Simulator.AllHoldIsIdle | src/trading_system/backtesting/engine.py:45-112 | with all-HOLD signals there are no trades, no position, and every snapshot is worth the initial capital |
| Simulator.SingleEntry | src/trading_system/backtesting/engine.py:50-103 | with no SELL signal and both thresholds off, the log holds at most the first BUY, and the position stays open after it |
| Simulator.BuyIsAffordable | src/trading_system/backtesting/engine.py:88-93 | when `position_size*(1+fee) <= 1`, an order of at least one share costs no more than the capital |
| Simulator.CapitalNonNegative | src/trading_system/backtesting/engine.py:36-103 | under that sizing condition the capital and the position stay non-negative through the whole run |
| Simulator.StepKeepsSolvent | src/trading_system/backtesting/engine.py:50-103 | under that sizing condition, one bar of either engine keeps capital and position non-negative |
| Simulator.ExitOrdersAgree | src/backtesting/engine.py:49-84 | with equivalent thresholds (ratio r is fraction 1-r for the stop-loss and r-1 for the take-profit) the two exit orders close a position in the same cases; they disagree only on the reason, and only on a SELL bar that also breaches a threshold |
| Simulator.VariantsDifferOnlyInReasons | src/backtesting/engine.py:49-84 | with equivalent thresholds the two engines produce the same capital, position, portfolio log and trades up to the reason tags |
| Simulator.StepAgreesWithoutSell | src/backtesting/engine.py:49-84 | on a bar without a SELL signal and with equivalent thresholds, the two engines' steps are identical |
| Simulator.VariantsAgreeWithoutSellSignals | src/backtesting/engine.py:49-84 | without SELL signals the two engines' runs are identical, reasons included |
| Metrics.RunningPeak | src/trading_system/backtesting/engine.py:141 | the running peak at k bounds the first k+1 values |
| Metrics.PeakMonotone | src/trading_system/backtesting/engine.py:141 | the running peak never decreases |
| Metrics.Drawdowns | src/trading_system/backtesting/engine.py:142 | the drawdown column has one entry per value |
| Metrics.DrawdownsAt | src/trading_system/backtesting/engine.py:141-142 | entry k of the drawdown column is the float64 `(peak_k - v_k)/peak_k` |
| Metrics.DrawdownAtCases | src/trading_system/backtesting/engine.py:141-142 | a value never exceeds its running peak, so a drawdown is never -inf: it is NaN exactly at a zero value under a zero peak, +inf exactly at a negative value under a zero peak, and non-negative under a positive peak |
| Metrics.FirstDrawdown | src/trading_system/backtesting/engine.py:141-142 | a non-zero first value is its own peak, with drawdown 0 |
| Metrics.NanMax | src/trading_system/backtesting/engine.py:143 | `Series.max()` skips NaN: it is NaN exactly when every entry is, and otherwise an entry that no entry exceeds |
| Metrics.NanMaxAppend | src/trading_system/backtesting/engine.py:143 | appending NaN leaves the maximum alone; appending a value makes it compete with the maximum so far |
| Metrics.ZeroPeakDrawdowns | src/trading_system/backtesting/engine.py:141-143 | `[0, 100]` has maximum drawdown 0, `[0, -5]` has +inf, and `[0, 0]` has NaN, where the loop reports 0.0 |
| Metrics.VectorisedDrawdownNonNegative | src/trading_system/backtesting/engine.py:141-143 | the vectorised maximum drawdown, when it is not NaN, is never below 0 |
| Metrics.LoopMatchesVectorised | src/trading_system/backtesting/engine.py:141-143 | from a non-zero first value the vectorised maximum and the `_max_drawdown` loop agree |
| Metrics.MaxDrawdownLoop | src/backtesting/engine.py:145-157 | on float64 values the loop never raises: it ends at the accumulated worst drawdown, which skips NaN drawdowns and is never below 0 |
| Metrics.DrawdownMatchesLoop | src/trading_system/backtesting/engine.py:141-143 | the `_max_drawdown` loop ends at the larger of 0.0 and the vectorised NaN-skipping maximum, and at 0.0 when every drawdown is NaN |
| Metrics.WorstIsLargest | src/backtesting/engine.py:145-157 | the worst drawdown bounds every drawdown that is not NaN, is never below 0, and is 0 or one of the drawdowns |
| Metrics.PositiveDrawdownBounds | src/backtesting/engine.py:145-157 | for positive values the worst drawdown is a number in [0, 1) |
| Metrics.DrawdownExample | src/backtesting/engine.py:145-157 | `[100, 120, 90, 130]` has worst drawdown 0.25, by the loop and by the vectorised maximum |
| Metrics.Returns | src/backtesting/engine.py:161-164 | n values give n-1 simple returns `(v[i]-v[i-1])/v[i-1]` |
| Metrics.SharpeOf | src/backtesting/engine.py:166-172 | a non-zero Sharpe ratio divides by a positive variance |
| Metrics.SharpeRatio | src/backtesting/engine.py:159-172 | on float64 values: 0 for fewer than two values, NaN exactly when a value before the last is 0 (an infinite or NaN return turns the mean and the deviation into NaN), and otherwise the mean over the population deviation of the returns |
| Metrics.ConstantReturnsGiveZero | src/backtesting/engine.py:166-172 | returns that are all equal have no deviation, so the ratio is 0 |
| Engine.Run | src/trading_system/backtesting/engine.py:33-121 | no bars raise KeyError at `set_index('date')`; otherwise the loop's trades and portfolio equal the specification run of the current exit order, and its performance is `_calculate_performance` of that portfolio |
| Engine.PctChange | src/trading_system/backtesting/engine.py:146 | `pct_change().dropna()` gives at most n-1 changes, exactly the simple returns when no value before the last is 0 |
| Engine.TwoSnapshotsZeroSharpe | src/trading_system/backtesting/engine.py:146-157 | two snapshots give a single change, whose sample deviation is NaN, so the Sharpe ratio is 0 |
| Engine.FlatChanges | src/trading_system/backtesting/engine.py:146 | a flat series changes by 0 everywhere, and has no changes at all when it is flat at 0 |
| Engine.FlatLogZeroSharpe | src/trading_system/backtesting/engine.py:146-157 | a log whose value never moves has Sharpe ratio 0 |
| Engine.AllHoldPerformance | src/trading_system/backtesting/engine.py:136-157 | a run of HOLD signals only reports a total return of 0 and a Sharpe ratio of 0 |
| Engine.ManagePosition | src/trading_system/backtesting/engine.py:50-83 | the exit block equals the exit step with the order SELL signal, stop-loss `price <= entry*stop_loss`, take-profit `price >= entry*take_profit` |
| Engine.DegeneratePerformance | src/trading_system/backtesting/engine.py:125-131 | fewer than two snapshots report 0 for all four metrics |
| Engine.TotalReturnGrowth | src/trading_system/backtesting/engine.py:136-138 | `start*(1+return) == end` for a non-zero start; a zero start reports 0 |
| Engine.AnnualizedGuard | src/trading_system/backtesting/engine.py:150-151 | the annualized return is compounded exactly when there are two snapshots at least a day apart |
| Engine.DrawdownOfPositiveLog | src/trading_system/backtesting/engine.py:140-143 | for positive portfolio values the reported drawdown is the loop's worst drawdown, a number in [0, 1) |
| Engine.TradesNorm | src/trading_system/backtesting/engine.py:217 | a zero reference raises ZeroDivisionError; otherwise the trade term is at most 1, is `n/max_trades_ref` when below 1, and is non-negative for non-negative counts |
| Engine.ScoreFallsWithDrawdown | src/trading_system/backtesting/engine.py:214-226 | both scores raise ZeroDivisionError exactly on a zero reference; otherwise, with a positive drawdown weight, a deeper drawdown strictly lowers the score |
| Engine.ScoreRisesWithReturn | src/trading_system/backtesting/engine.py:214-226 | both scores raise exactly on a zero reference; otherwise, with a positive return weight, a higher return strictly raises the score |
| Engine.DefaultScoreBounds | src/trading_system/backtesting/engine.py:196-228 | with the default weights, a non-negative trade count and a win rate in [0, 1], the score is computed and lies in (-0.7, 1.0) |
| Engine.TradeStatsBounds | src/trading_system/backtesting/engine.py:252-258 | the profits are kept, wins and losses together are at most all trades, and the ratios are consistent with the counts: the win rate is in [0, 1] (0 without decisive trades) and times the decisive trades gives the wins; the win/loss ratio is infinite exactly when there is no loss, and otherwise times the losses gives the wins |
| Engine.RateBounds | src/trading_system/backtesting/engine.py:257-258 | ratios computed from a record's own counts are consistent with them, as above |
| Engine.WinsAndLossesDisjoint | src/trading_system/backtesting/engine.py:255-256 | winning and losing trades together are at most all trades |
| Engine.PairedProfits | src/trading_system/backtesting/engine.py:242-252 | with as many sells as buys the summary succeeds with one profit per pair, profit i being `sell_i*(1-fee) - buy_i*(1+fee)` |
| Engine.ShapeMismatchExactly | src/trading_system/backtesting/engine.py:242-252 | the summary fails exactly when the buy and sell counts differ and neither is 1 (numpy broadcasting) |
| Engine.NetProfitsShape | src/trading_system/backtesting/engine.py:248-252 | the net profit array fails to broadcast exactly on unequal lengths neither of which is 1, and is element by element on equal lengths |
| Engine.BasicScenario | tests/integration/test_backtest.py:7-48 | the basic test run gives four trades and ends above 10000 |
| Engine.BasicFirstRoundTrip | tests/integration/test_backtest.py:42-48 | its first trades are a BUY at 102 and a SELL at 103 |
| Engine.PositionSizingScenario | tests/integration/test_backtest.py:50-73 | 50% of 10000 at 100 buys 50 shares |
| Engine.StopLossScenario | tests/integration/test_backtest.py:75-100 | with the ratio thresholds 0.9 and 1.1 the second trade is a stop-loss SELL at 90 |
| Engine.FullSizeOverdraws | src/trading_system/backtesting/engine.py:88-93 | buying with the whole capital and a positive fee overdraws: capital becomes -50 |
| LegacyEngine.LegacyRun | src/backtesting/engine.py:32-121 | no bars raise KeyError at `set_index('date')`; otherwise the legacy loop's trades and portfolio equal the specification run of the legacy exit order, and the run raises ZeroDivisionError exactly when the legacy summary does |
| LegacyEngine.ManagePositionLegacy | src/backtesting/engine.py:49-84 | the exit block equals the exit step with the order stop-loss fraction, take-profit fraction, SELL signal |
| LegacyEngine.CalculatePerformance | src/backtesting/engine.py:123-172 | the summary is empty for no snapshots and raises ZeroDivisionError exactly when the dates span no day; otherwise it gives the float64 total return (NaN or infinite from a zero start), the compounded return, the loop's drawdown and the loop's Sharpe ratio |
| LegacyEngine.SummaryFailsOnlyOnSameDay | src/backtesting/engine.py:138-143 | a non-empty log's summary raises exactly when its first and last dates coincide |
| LegacyEngine.SingleSnapshotFails | src/backtesting/engine.py:138-143 | one snapshot makes `365 / days` divide by zero, where the current engine reports no span |
| LegacyEngine.ReportBounds | src/backtesting/engine.py:145-172 | a legacy report's drawdown is never below 0 (it may be +inf) and its Sharpe variance is positive |
| LegacyEngine.AgreesWithCurrent | src/backtesting/engine.py:123-157 | from a non-zero first value, where the legacy summary succeeds on two or more snapshots it agrees with the current engine on return and drawdown, and on the annualized return when the dates ascend |
| LegacyEngine.ZeroStartDiffers | src/backtesting/engine.py:128-132 | from a zero first value the current engine reports a total return of 0, the legacy one NaN (last value 0) or an infinity signed like the last value |
| LegacyEngine.ZeroCapitalSummary | src/backtesting/engine.py:123-172 | a log flat at 0 over one day gives a NaN return and annualized return, a drawdown of 0.0 and a NaN Sharpe ratio |
| LegacyEngine.StopLossScenarioNeverExits | tests/integration/test_backtest.py:75-100 | in the legacy engine the test's thresholds 0.9 and 1.1, read as fractions, never fire: the log holds only the BUY |
| Classical.Signals | src/trading_system/strategies/classical.py:23-52 | one signal per row, each decided by that row alone |
| Classical.SellOverridesBuy | src/trading_system/strategies/classical.py:33-50 | SELL exactly on the sell mask; BUY exactly on the buy mask without the sell mask; HOLD otherwise |
| Classical.OrderedThresholdsKeepBuys | src/trading_system/strategies/classical.py:36-50 | with `rsi_buy <= rsi_sell` every row meeting the buy condition is a BUY |
| Classical.CrossedThresholdsLoseBuys | src/trading_system/strategies/classical.py:36-50 | with `rsi_buy > rsi_sell` a buy row can be overridden to SELL |
| Classical.RsiAloneSells | src/trading_system/strategies/classical.py:43-47 | `&` binds tighter than `|`: an RSI above `rsi_sell` sells on its own |
| Classical.MissingIndicatorsHold | src/trading_system/strategies/classical.py:33-50 | NaN indicators compare false, so the row is HOLD |
| Classical.AppliedLastWins | src/trading_system/strategies/classical.py:67-71 | applying items keeps the set of parameters, and each ends with the value of the last item naming it, or keeps its own |
| Classical.ClassicalStrategy.constructor | src/trading_system/strategies/classical.py:10-21 | the eight fields hold the arguments |
| Classical.ClassicalStrategy.GenerateSignals | src/trading_system/strategies/classical.py:23-52 | one signal per row, using the object's thresholds |
| Classical.ClassicalStrategy.GetParameters | src/trading_system/strategies/classical.py:54-65 | exactly the eight parameter names, with the current thresholds |
| Classical.ClassicalStrategy.SetParameter | src/trading_system/strategies/classical.py:69-71 | one item sets the parameter it names and changes nothing else; a key that is not a parameter changes nothing |
| Classical.ClassicalStrategy.SetParameters | src/trading_system/strategies/classical.py:67-71 | the new parameters are the old ones with the items applied in order, keys that are not parameters being ignored |
| IndicatorCache.Plan | scripts/profile_optimisation.py:15-53 | the plan of guarded stores for a parameter set, in source order |
| IndicatorCache.Cache.constructor | scripts/profile_optimisation.py:122 | a cache starts empty |
| IndicatorCache.Cache.Update | scripts/profile_optimisation.py:15-53 | the in-place update leaves exactly the cache and the exception of the plan's interpretation: every block copies its columns when the checked key is absent, and an exception keeps the writes made before it |
| IndicatorCache.Cache.UpdateFirstBlocks | scripts/profile_optimisation.py:15-38 | the RSI, MACD, ATR, Bollinger and EMA blocks end where the plan stops on an exception, and otherwise leave the cache from which the remaining blocks run |
| IndicatorCache.Cache.UpdateLastBlocks | scripts/profile_optimisation.py:39-52 | the ADX, OBV, volume-average, PVT and daily-return blocks leave the cache and exception of the rest of the plan |
| IndicatorCache.Cache.UpdateRsi | scripts/profile_optimisation.py:17-18 | the RSI column is stored under its window's key when that key is absent |
| IndicatorCache.Cache.UpdateBollinger | scripts/profile_optimisation.py:29-32 | the three band columns are stored when the upper-band key is absent |
| IndicatorCache.Cache.UpdateSingle | scripts/profile_optimisation.py:40-52 | a one-key block (ADX, OBV, volume average, PVT, daily return) copies its column when its key is absent |
| IndicatorCache.Cache.UpdateMacd | scripts/profile_optimisation.py:20-24 | both MACD keys are formatted first, so a missing MACD parameter raises; otherwise both columns are stored when the MACD key is absent |
| IndicatorCache.Cache.UpdateAtr | scripts/profile_optimisation.py:26-27 | the block is checked under `ATR_{atr_window}` and writes under `ATR_{rsi_window}` |
| IndicatorCache.Cache.UpdateEma | scripts/profile_optimisation.py:34-38 | each listed EMA window's column is stored when its key is absent; a non-iterable value raises |
| IndicatorCache.KeysOnlyGrow | scripts/profile_optimisation.py:15-53 | no key disappears, and every value left is the old one or a copy of its own column |
| IndicatorCache.UpdateIsIdempotent | scripts/profile_optimisation.py:15-53 | a second update with the same data and parameters after one without exception changes nothing |
| IndicatorCache.RetryAfterFailureMovesOn | scripts/profile_optimisation.py:20-24 | when `MACD_Signal` data is missing, the retry does not repeat the first run: it skips MACD and stores `Daily_Return` |
| IndicatorCache.AtrCheckNeverHits | scripts/profile_optimisation.py:26-27 | with `atr_window != rsi_window` the checked key is never written, so the check never hits |
| IndicatorCache.AtrStoredUnderRsiWindow | scripts/optimize_classical_parameters_crypto.py:31-32 | with `atr_window=10` and `rsi_window=14` the ATR column overwrites `ATR_14` |
| IndicatorCache.MissingMacdParamFails | scripts/optimize_classical_parameters_crypto.py:25-29 | a missing MACD parameter makes every update fail after the RSI block and before any other block |
| IndicatorCache.NoneParameters | scripts/profile_optimisation.py:29-50 | with the Bollinger, volume and EMA parameters set to None: the Bollinger columns are stored under `None_None` keys, the falsy volume flags store nothing, and iterating the EMA windows raises TypeError |
| Sweep.ProductCount | scripts/profile_optimisation.py:117 | the product has `prod(len(v))` combinations |
| Sweep.ProductOrder | scripts/profile_optimisation.py:132 | combination `i*|rest|+j` is the i-th first value in front of the j-th combination of the rest (`itertools.product` order) |
| Sweep.ProductMembers | scripts/profile_optimisation.py:132 | a sequence is a combination exactly when it picks one candidate from each list |
| Sweep.ProductDistinct | scripts/profile_optimisation.py:132 | candidate lists without repeats give every combination exactly once |
| Sweep.ZipLookup | scripts/profile_optimisation.py:133 | with distinct names, `dict(zip(...))` maps each name to its own value |
| Sweep.Combinations | scripts/reporting_time_consumption.py:76-77 | one parameter dictionary per product combination |
| Sweep.Sentinel | scripts/profile_optimisation.py:83-94 | a failing evaluation gives score 0, no trades, `-inf` sharpe, return and annualized return, `+inf` drawdown, and the error |
| Sweep.CachedEvalRow | scripts/profile_optimisation.py:60-94 | every row carries its params; a row has an error exactly when it is the sentinel |
| Sweep.CachedEvalGrowsCache | scripts/profile_optimisation.py:60-94 | the threaded cache only grows, even when the evaluation fails |
| Sweep.CachedWrapper | scripts/profile_optimisation.py:55-94 | the wrapper's row and cache equal the evaluation function's |
| Sweep.RowsFollowCombinations | scripts/optimize_classical_parameters_crypto.py:124-130 | one row per combination, in order, each with its combination's params |
| Sweep.BestIsFirstMaximum | scripts/profile_optimisation.py:123-137 | the strict-`>` reduction returns the initial record exactly when there are no rows, and otherwise the first row of maximal score |
| Sweep.AllFailuresReturnFirst | scripts/profile_optimisation.py:83-94 | when every evaluation fails, the first failure is returned, since 0 beats `-inf` |
| Sweep.ProfileSweep | scripts/profile_optimisation.py:97-137 | the loop returns the reduction of the rows of all combinations, with the cache threaded from a fresh one |
| Sweep.EmptyCandidatesKeepInitial | scripts/profile_optimisation.py:123-137 | an empty candidate list returns the initial record |
| Sweep.EmptyListEmptyCount | scripts/profile_optimisation.py:117 | one empty candidate list makes the product empty |
| Sweep.ExtendFirstMaximum | scripts/profile_optimisation.py:132-136 | one more row replaces the best exactly when it scores strictly higher |
| Sweep.CryptoSweep | scripts/optimize_classical_parameters_crypto.py:100-130 | the results are the rows of all combinations, in order, with the cache threaded |
| Sweep.FirstExtreme | scripts/optimize_classical_parameters_crypto.py:167-170 | a position exactly when the column is non-empty, and always inside it |
| Sweep.FirstExtremeIsFirst | scripts/optimize_classical_parameters_crypto.py:167-170 | `idxmax`/`idxmin` return a position no other beats, and every earlier position is worse |
| Sweep.SelectBestRows | scripts/optimize_classical_parameters_crypto.py:167-170 | the strategy row is the first of maximal score; no row has a smaller drawdown than the drawdown row |
| Sweep.BestRowAgreesWithReduction | scripts/reporting_time_consumption.py:141-145 | on a non-empty sweep, the `idxmax` strategy row is the record the strict-`>` reduction keeps |
| Sweep.PlainEval | scripts/reporting_time_consumption.py:16-54 | a row carries its params; a failure gives score 0 and no trades |
| Sweep.ReportingSweep | scripts/reporting_time_consumption.py:57-84 | as many rows as combinations, `prod(len(v))`, each the wrapper's row for its combination |
| Sweep.ReportingRowsCarryCombination | scripts/reporting_time_consumption.py:76-84 | row k's params give each name the value of the k-th product combination |
| Validator.IsValid | scripts/run_backtest_validator.py:14-28 | valid exactly when the return, drawdown and trade count pass, exactly when no reason was recorded; the reason is the reason list's text |
| Validator.Failing | scripts/run_backtest_validator.py:17-25 | a label is recorded exactly when it is checked and fails; no more labels than checks |
| Validator.LabelsFireOnTheirChecks | scripts/run_backtest_validator.py:17-25 | each label is recorded exactly when its own comparison fails (NaN drawdown never fails) |
| Validator.ReasonsInCheckOrder | scripts/run_backtest_validator.py:17-25 | the labels come in the order Low Return, High Drawdown, Not enough trades |
| Validator.OkExactlyWhenValid | scripts/run_backtest_validator.py:27 | the reason is "OK" exactly when no check failed |
| Validator.JoinLength | scripts/run_backtest_validator.py:27 | the joined text holds every part and one separator between neighbours |
| Validator.ReasonTextLength | scripts/run_backtest_validator.py:27 | the reason text's length for each combination of failures: 2 for "OK", else the label lengths plus 2 per separator |
| Validator.ReasonTextDeterminesFailures | scripts/run_backtest_validator.py:17-27 | two outcomes with the same reason text failed the same checks |
| Validator.DefaultThresholds | scripts/run_backtest_validator_crypto.py:13-21 | at the defaults: Low Return iff return < 0.02, High Drawdown iff drawdown < -20.0, Not enough trades iff fewer than 2 trades |
| Validator.EarnRateIgnored | scripts/run_backtest_validator.py:14 | `min_trades_earn_rate` never changes the reasons |
| Validator.EngineDrawdownNeverHigh | scripts/run_backtest_validator_crypto.py:16-18 | the engine's drawdown is NaN (which compares false) or never negative, so at a non-positive threshold such as -20.0 High Drawdown never fires |
| Tickers.LeadingSpace | src/trading_system/database/tickers.py:255-257 | the whitespace run that opens a string, ending at a non-space |
| Tickers.StripCutsOnlySpace | src/trading_system/database/tickers.py:255-257 | `strip` keeps a middle piece of the string and removes only whitespace |
| Tickers.StripIsTrimmed | src/trading_system/database/tickers.py:255-257 | the stripped string neither starts nor ends with whitespace |
| Tickers.StripIdempotent | src/trading_system/database/tickers.py:255-257 | stripping twice is stripping once |
| Tickers.StripPadded | src/trading_system/database/tickers.py:255-257 | one space around a trimmed non-empty string is removed |
| Tickers.MissingCsvColumnsRejected | src/trading_system/database/tickers.py:236-239 | the load fails exactly when a required column is missing, naming the missing ones |
| Tickers.NormalizedMembers | src/trading_system/database/tickers.py:242-265 | a normalised row comes from a row that passed the raw compartment filter and `dropna`, and every such row gives one |
| Tickers.DedupeKeepsLast | src/trading_system/database/tickers.py:268 | de-duplication keeps exactly the rows that no later row shares a ticker with |
| Tickers.DedupeUnique | src/trading_system/database/tickers.py:268 | after de-duplication the tickers are unique |
| Tickers.DedupeCoversTickers | src/trading_system/database/tickers.py:268 | de-duplication loses no ticker |
| Tickers.LoadedListings | src/trading_system/database/tickers.py:242-268 | every loaded row comes from a kept CSV row, its ticker is a stripped code plus ".PA", and tickers are unique |
| Tickers.DefaultMarketsAreEuronext | src/trading_system/database/tickers.py:261-265 | with the default compartments every market is one of the five Euronext markets |
| Tickers.DefaultCompartmentRelabels | src/trading_system/database/tickers.py:261-265 | each default compartment is relabelled into a Euronext market |
| Tickers.FilterPrecedesStrip | src/trading_system/database/tickers.py:242-257 | a compartment opening with whitespace is filtered out before any strip, while padding around the name and code is trimmed |
| Tickers.DuplicateKeepsLater | src/trading_system/database/tickers.py:268 | of two kept rows with the same stripped code, only the later is loaded |
| Tickers.BulkUpsertRows | src/trading_system/database/tickers.py:112-117 | fails exactly when Ticker, Company or Market is missing, naming the missing ones, before any row is taken; otherwise one triple per row |
| Tickers.TickersInMembers | src/trading_system/database/tickers.py:160-187 | a ticker is selected exactly when some row carries it under a listed market |
| Tickers.TickersInAppend | src/trading_system/database/tickers.py:160-187 | the filters keep table order |
| Tickers.AllListedSelectsAll | src/trading_system/database/tickers.py:172-173 | a table whose every market is listed gives its whole ticker column |
| Tickers.NoneListedSelectsNone | src/trading_system/database/tickers.py:172-173 | a table with no listed market gives nothing |
| Tickers.LoadedEuronextIsSelected | src/trading_system/database/tickers.py:170-173 | a default-loaded frame is selected in full by the Euronext filter and not at all by the crypto filter |
| Tickers.PairsEndingWith | src/trading_system/database/tickers.py:280-282 | the pairs kept are exactly those ending with the suffix |
| Tickers.CryptoPairsOrder | src/trading_system/database/tickers.py:283-287 | the ticker column is all `/EUR` pairs, then all `/USDT` pairs, and the company column repeats the ticker |
| Tickers.CryptoPairsMarkets | src/trading_system/database/tickers.py:283-287 | market `Crypto_EUR` is on exactly the first positions, each under a `/EUR` pair, and `Crypto_USDT` on the rest, each under a `/USDT` pair |
| Tickers.CryptoPairsSelected | src/trading_system/database/tickers.py:175-187 | the ccxt frame is selected in full by the crypto filter and not at all by the Euronext filter |

## Left out

- Indicator computation (`calculate_indicators`, the `ta` library) and the backtest call inside the wrappers are function parameters returning `None` on an exception. `run_numba` is not part of this model: it is not defined in the engine file, so the model covers the case where every evaluation fails (`Sweep.AllFailuresReturnFirst`). `calculate_indicators` receives the cache through `**kwargs` and is assumed not to write to it.
- Data loading, the network (yfinance, ccxt `load_markets`, krakenex), clocks (`datetime.now()`), printing, and JSON, CSV and SQLite I/O are left out. The CSV file is given as its column names and rows. The `upsert`, `create_table` and `fetch_all` SQL and the actual `executemany` write of `bulk_upsert` are also left out. The ticker table is given as rows.
- The parallel sweeps (`ProcessPoolExecutor`) and the `__main__` drivers are left out. So is the `max_workers` keyword the reporting driver passes to a function that does not accept it.
- Python's shared mutable default `cache={}` of `backtest_wrapper`: the model always passes the cache explicitly, as every modelled caller does.
- Cache keys are structured values, not formatted strings. `RSI_14` and `RSI_14.0` are different strings in Python but one key here.
- Engine.CalculatePerformance: the sample (`ddof=1`) Sharpe ratio of pandas and the power `(1+r)**(365/days)` are kept symbolic (`SampleOf`, `Compounded`). Their numeric values are not modelled, because they are square roots and real powers. The zero-deviation case is decided on reals: changes that are equal only up to float rounding are not modelled.
- Engine.PctChange: signed zeros are not modelled. A change from 0 to 0 is NaN and dropped, and a change away from 0 is an infinity signed like the new value.
- Metrics.SharpeRatio: the loop's result `mean / sqrt(variance)` is kept as the pair (mean, variance), because there is no square root on `real`. Any zero value before the last yields NaN as a whole; which NaN or infinity numpy would carry through the mean is not modelled.
- Metrics.MaxDrawdownLoop, Metrics.SharpeRatio: model the float64 values the legacy run passes them. The copies of these helpers in src/trading_system/backtesting/engine.py:162-194 are never called; on plain Python floats they would raise ZeroDivisionError instead.
- Common.FloatDiv: a zero divisor is taken as +0.0, because signed zeros are not modelled.
- Prices are required to be positive in the runs. Numpy's division by a zero price (infinite share counts) is not modelled.
- `ClassicalStrategy` fields are all `real`, and the constructor's default values are not modelled. Python's dynamic typing is not modelled. `hasattr` is true for any attribute, methods included, but only the eight parameters are settable here.
- The ML trainer, the hybrid strategy, notifications and the strategy-parameter repositories are left out: they lie outside this core.
- Tickers.IsSpace follows Python's `str.isspace` set. `strip` on a non-string cell (a code that pandas reads as a number) is not modelled: every cell is a string or missing.

## Findings

| source | as written | input that shows it | evidently intended | confidence | as-written member | corrected member |
|---|---|---|---|---|---|---|
| src/backtesting/engine.py:138-143 | the legacy `_annualized_return` divides `365 / days` without a guard | a portfolio log of one snapshot (or two on the same day): `days == 0` raises ZeroDivisionError | report no annualized return when the dates span no day, as the current engine does at src/trading_system/backtesting/engine.py:150-151 | not executed | LegacyEngine.SingleSnapshotFails | Engine.AnnualizedGuard |
| tests/integration/test_backtest.py:75-100 | the test passes `stop_loss=0.9` and `take_profit=1.1` to the legacy engine, which reads them as fractions (`entry*(1-0.9)`, `entry*(1+1.1)`) | closes 100, 95, 90, 115, 110 with BUY first: the exits sit at 10 and 210, so no stop-loss SELL at 90 occurs | thresholds as ratios of the entry price (`entry*0.9`, `entry*1.1`), as the current engine reads them, giving a stop-loss SELL at 90 | not executed | LegacyEngine.StopLossScenarioNeverExits | Engine.StopLossScenario |
