# Trading-decision core of a Binance trading bot, in Dafny

This project models the part of the bot that turns a candle series into a
buy or sell decision and then gates that decision before it reaches the
exchange:

- **Strategies** (`IchimokuStrategy`, `BaseStrategy`): the Ichimoku Kinko Hyo
  lines, the cloud, the lagging span, the four-condition buy rule and its
  mirrored sell rule. Stops and targets are anchored on the Kijun line. The
  base class generates no signals and provides the risk-based position size.
- **Aggregation** (`StrategyManagement`): a registry filled from a static
  name-to-module table, with class names derived from snake_case names. Signal
  generation runs every enabled, registered strategy and keeps each
  strategy's failure to itself. The collected signals are stably sorted by
  confidence, and a 60% majority vote combines them.
- **Risk gate** (`RiskManagement`): the account state is refreshed from an
  exchange snapshot. `validate_trade` then applies its fixed sequence of
  checks, which write the clamped quantity and the backfilled stop-loss and
  take-profit into the signal. A trailing-stop ratchet adjusts the open
  trades in place.
- **Market data** (`DataProcessing`): a per-key cache with a freshness rule
  and a fall-back to the last good frame, per-day VWAP, lagged floor pivots
  and gap flags.
- **Utilities** (`Utils`): the risk:reward ratio and the trade-history record.

Modelling conventions:

- Prices are exact reals.
- An undefined indicator cell (pandas NaN) is `NaN` in a `Cell`, or `None`
  when read as an `Option<real>`. Python's comparisons with NaN are false,
  and the model's comparisons are too.
- An exception that escapes an operation becomes a `Failure(Fault)` result.
  One that the source catches and logs is modelled as the state the handler
  leaves behind.
- The exchange is an input: balances, open orders, klines, the clock and the
  current price are parameters.
- Frames are objects whose column map is reassigned, because the indicator
  code adds columns to the frame it is given.
- The risk manager, the strategy manager, the data processor and the book of
  open trades are classes whose methods update their fields.
- Decision logic is written as functions, and each method is proved equal to
  the function that specifies it.

Modules: `Wrappers` (Option, Result), `Text` (Python string helpers),
`Settings` (configuration defaults), `Frames`, `Signals`, `Utils`,
`BaseStrategy`, `IchimokuStrategy`, `DataProcessing`, `RiskManagement`,
`StrategyManagement`.

## Model

| member | source | states |
|---|---|---|
| RiskManagement.OrdersByIdKeys | risk_manager.py:32 | the open-order map's keys are exactly the ids of the listed orders |
| RiskManagement.OrdersByIdLastWins | risk_manager.py:32 | an id maps to the last order listed with it |
| RiskManagement.ExposureOfSymbol | risk_manager.py:40-56 | for the configured symbol the exposure is the base currency's total at price 1.0, or 0 when none is held |
| RiskManagement.ExposureNonNegative | risk_manager.py:44-54 | with non-negative totals the exposure is non-negative |
| RiskManagement.MaxPositionSize | risk_manager.py:121-133 | fails exactly when the balances were never set or the price is 0; otherwise the result is the smaller of account value × risk / price and the configured maximum |
| RiskManagement.LevelsStraddlePrice | risk_manager.py:100-111 | with a positive price and percentages in (0,1), a buy's backfilled stop is below the price and its target above; for any other side the other way round |
| RiskManagement.RejectsAtTradeLimit | risk_manager.py:72-74 | at the open-trade limit every signal is rejected unchanged, before any other check |
| RiskManagement.OppositePositionRule | risk_manager.py:77-83 | a position held on the opposite side rejects the signal unchanged; a same-side position does not affect the decision |
| RiskManagement.ClampedToMax | risk_manager.py:86-90 | past the position checks the quantity never exceeds the maximum size, and it is rewritten only when it exceeded it |
| RiskManagement.WritesOnlySizeAndProtection | risk_manager.py:58-119 | only quantity, stop-loss and take-profit are ever written, and an existing stop-loss or take-profit is kept |
| RiskManagement.BackfilledWhenReached | risk_manager.py:85-117 | once the room, position, sizing and minimum-size checks pass, the signal is the backfill of the clamped signal whatever the exposure check decides; a signal stopped earlier keeps its own stop-loss and take-profit |
| RiskManagement.AcceptedIsProtected | risk_manager.py:99-111 | an accepted signal without a stop-loss gets price × (1 ∓ stop%) only when stops are in use; one without a take-profit always gets price × (1 ± target%) |
| RiskManagement.AcceptIff | risk_manager.py:58-119 | a signal is accepted iff all hold: room in the book, no opposite position, sizing succeeds, the clamped quantity is at least 0.00001, and exposure + quantity × price ≤ 0.9 × account value |
| RiskManagement.DecideFaults | risk_manager.py:86-117 | exceptions escape only from a zero or missing price, unset balances, or an exposure never computed |
| RiskManagement.ExposureCeilingExample | risk_manager.py:113-117 | a trade that would take exposure past 90% of a 10000 account is clamped and still rejected |
| RiskManagement.RatchetMonotone | risk_manager.py:156-169 | a buy's stop never decreases, any other side's never increases, and no other trade field changes |
| RiskManagement.RatchetIdempotent | risk_manager.py:156-169 | a second tick at the same price changes nothing |
| RiskManagement.RatchetTwoTicks | risk_manager.py:156-161 | after two ticks a buy's stop is the highest of the old stop and both candidates, whatever the order of the ticks |
| RiskManagement.TrailingStopExample | risk_manager.py:156-161 | a tick at 50500 lifts a 49000 stop to 49995, and a later tick at 50000 leaves it there |
| RiskManagement.RiskManager.constructor | risk_manager.py:13-22 | no open positions, and one refresh of the account state |
| RiskManagement.RiskManager.UpdateAccountState | risk_manager.py:24-38 | a failed balance fetch changes nothing; a failed order fetch keeps the new balances and the old orders and exposure; otherwise orders and exposure are recomputed |
| RiskManagement.RiskManager.CalculateExposure | risk_manager.py:40-56 | the loop computes the exposure of the configured symbol and changes no other field |
| RiskManagement.RiskManager.ValidateTrade | risk_manager.py:58-119 | refreshes the state as UpdateAccountState does, leaves open positions unchanged, and returns the verdict and signal of the decision function on the refreshed state |
| RiskManagement.RiskManager.CheckSizeAndExposure | risk_manager.py:85-119 | the clamp, minimum-size, backfill and exposure steps equal their specification function |
| RiskManagement.RiskManager.AddProtection | risk_manager.py:99-111 | the stop-loss and take-profit steps produce the backfilled signal |
| RiskManagement.RiskManager.AdjustStops | risk_manager.py:144-172 | with trailing stops off the trades are unchanged; otherwise every trade becomes its ratchet at the current price, same ids in the same order |
| RiskManagement.RiskManager.AdjustStop | risk_manager.py:150-172 | one trade is replaced by its ratchet and no other trade changes |
| DataProcessing.DaySumsWithoutDay | data_processor.py:145-149 | rows of other days add nothing to a day's cumulative sums |
| DataProcessing.VwapResetsOnNewDay | data_processor.py:145-152 | on the first row of a day VWAP is that candle's typical price: the sums reset at each date |
| DataProcessing.TurnoverBounds | data_processor.py:148-149 | with non-negative volumes a day's turnover lies between its volume times the lowest and times the highest typical price |
| DataProcessing.VwapWithinDayRange | data_processor.py:145-155 | with non-negative volumes VWAP lies within the range of the day's typical prices so far |
| DataProcessing.CalculateVwap | data_processor.py:131-163 | a new frame with the same rows and exactly the input columns plus `vwap`, where row i holds the day's cumulative turnover over cumulative volume |
| DataProcessing.FillDay | data_processor.py:145-155 | one day group's pass writes that day's running VWAP at its rows and leaves every other row alone |
| DataProcessing.LevelsSymmetric | data_processor.py:176-182 | r2 + s2 = 2·pivot; r1 − s1 and r3 − s3 are once and three times the lagged range |
| DataProcessing.LevelsOrdered | data_processor.py:176-182 | for a close within its candle's range, s3 ≤ s2 ≤ s1 ≤ pivot ≤ r1 ≤ r2 ≤ r3 |
| DataProcessing.PivotLag | data_processor.py:173-176 | the levels are undefined exactly for i < lookback, and otherwise pivot = (H+L+C)/3 at row i − lookback |
| DataProcessing.PivotColumnsAt | data_processor.py:176-182 | the pivot, r2 and s2 columns of the result hold those levels, or NaN where they are undefined |
| DataProcessing.CalculatePivotPoints | data_processor.py:165-184 | a new frame: the input's rows and columns with the seven level columns written over |
| DataProcessing.GapFlagsMatchSize | data_processor.py:189-191 | for a positive previous close, gap up iff the gap exceeds 0.5% and gap down iff it is below −0.5% |
| DataProcessing.GapFlagsExclusive | data_processor.py:189-191 | no candle gaps both ways, and row 0 never gaps |
| DataProcessing.DetectGaps | data_processor.py:186-193 | the three gap columns are added to the frame it is given, which is returned |
| DataProcessing.CalculateIndicators | data_processor.py:92-129 | an empty frame comes back as it is; otherwise a new frame with VWAP and the pivot levels added |
| DataProcessing.CacheKeysCollide | data_processor.py:34 | two different (symbol, timeframe) pairs can share a cache key |
| DataProcessing.DataProcessor.constructor | data_processor.py:15-22 | both caches start empty |
| DataProcessing.DataProcessor.GetLatestData | data_processor.py:24-68 | a fresh entry is served and nothing changes; an unknown timeframe on a cached key raises KeyError; a fetched series is processed and written to both caches; a failed fetch returns the cached frame or a new frame with no rows and no columns, leaving both caches unchanged |
| IchimokuStrategy.HighestHighIsMax | ichimoku.py:26 | the rolling maximum bounds every high of its window and is one of them |
| IchimokuStrategy.LowestLowIsMin | ichimoku.py:27 | the rolling minimum bounds every low of its window and is one of them |
| IchimokuStrategy.Midpoint | ichimoku.py:26-33 | the trailing-window midpoint is defined exactly from row period − 1 on |
| IchimokuStrategy.MidpointWithinWindow | ichimoku.py:26-33 | the midpoint lies between the window's lowest low and highest high |
| IchimokuStrategy.TenkanColumnAt | ichimoku.py:26-28 | row i of `tenkan_sen` is the tenkan-window midpoint |
| IchimokuStrategy.KijunColumnAt | ichimoku.py:31-33 | row i of `kijun_sen` is the kijun-window midpoint |
| IchimokuStrategy.SpanAColumnAt | ichimoku.py:36 | row i of `senkou_span_a` is the mean of the two lines d rows earlier |
| IchimokuStrategy.SpanBColumnAt | ichimoku.py:39-41 | row i of `senkou_span_b` is the senkou-window midpoint d rows earlier |
| IchimokuStrategy.ChikouColumnAt | ichimoku.py:44 | row i of `chikou_span` is the close d rows later, undefined past the end |
| IchimokuStrategy.CalculateIchimoku | ichimoku.py:23-46 | the five columns are added to the frame it is given; the rows are unchanged |
| IchimokuStrategy.ReadingOverFrame | ichimoku.py:50-73 | columns the input frame already has do not change what is read |
| IchimokuStrategy.ReadingLines | ichimoku.py:64-73 | the values read are the lines at the last two rows and the cloud at the last row |
| IchimokuStrategy.RulesExclusive | ichimoku.py:85-101 | the buy and sell rules never hold together |
| IchimokuStrategy.ChikouIsCurrentClose | ichimoku.py:64-91 | the value compared as the lagging span is the current close, and it is compared with the close 2d rows back |
| IchimokuStrategy.LaggingSpanCompare | ichimoku.py:88-101 | a buy needs the close to have risen over the last 2d candles, and a sell needs it to have fallen |
| IchimokuStrategy.CalculatePositionSize | ichimoku.py:130-150 | fails (ZeroDivision) iff the price is 0; otherwise a whole number of millionths within half a millionth of min(10000 × risk per trade / price, maximum position size) |
| IchimokuStrategy.SignalsOfSpec | ichimoku.py:48-128 | no signal on short history; at most one signal; a buy iff the buy rule holds, else a sell iff the sell rule holds; stops and targets anchored on Kijun; failures only from a missing row or a zero price |
| IchimokuStrategy.GenerateSignals | ichimoku.py:48-128 | equals the signal function on the frame, and modifies no existing object (it works on a copy) |
| IchimokuStrategy.FrameSignalsSpec | ichimoku.py:23-59 | a frame without columns raises KeyError('high') before the length guard; malformed parameters raise ValueError; otherwise the outcome is that of the candle series, whose only failures are a missing row or a zero price |
| IchimokuStrategy.SignalsAt | ichimoku.py:75-128 | the rule checks and the appended signal equal the signal function of the reading |
| IchimokuStrategy.ShortHistoryExample | ichimoku.py:59-61 | 30 candles against the default 52 + 26 give no signal |
| IchimokuStrategy.BuyRewardRisk | ichimoku.py:104-114 | a buy above a positive Kijun plans a reward:risk strictly between 0 and 2 |
| BaseStrategy.GenerateSignals | base_strategy.py:17-28 | the default strategy generates no signals for any input |
| BaseStrategy.Round6 | base_strategy.py:52 | rounding lands on a whole number of millionths within half a millionth of its input |
| BaseStrategy.RoundMicro | base_strategy.py:52 | a whole number of millionths rounds to itself |
| BaseStrategy.RoundBelowMicro | base_strategy.py:52 | rounding never moves a value past a whole number of millionths above it |
| BaseStrategy.PositionSize | base_strategy.py:30-54 | fails exactly on a zero price; otherwise within half a millionth of min(balance × risk / price, maximum) |
| BaseStrategy.PositionSizeIgnoresSide | base_strategy.py:30-54 | the side never changes the size |
| BaseStrategy.PositionSizeWithinMax | base_strategy.py:48-52 | a maximum that is a whole number of millionths is never exceeded after rounding |
| BaseStrategy.PositionSizeExample | base_strategy.py:42-52 | 10000 at 1% risk, price 50000, maximum 0.01 gives 0.002 |
| BaseStrategy.PositionSizeCanExceedRiskBound | base_strategy.py:42-52 | rounding can move the size above the risk bound |
| BaseStrategy.GetAccountBalance | base_strategy.py:56-66 | 10000 with no connection; with one, the quote currency's free balance, or 10000 when it is absent |
| StrategyManagement.ClassNameOneWord | strategy_manager.py:51 | a one-word name becomes its title case followed by "Strategy" |
| StrategyManagement.ClassNameTwoWords | strategy_manager.py:51 | a two-word name becomes both words title-cased and run together, followed by "Strategy" |
| StrategyManagement.PivotPointClassName | strategy_manager.py:51 | `pivot_point` becomes `PivotPointStrategy` |
| StrategyManagement.IchimokuClassName | strategy_manager.py:51 | `ichimoku` becomes `IchimokuStrategy` |
| StrategyManagement.LoadedSpec | strategy_manager.py:41-68 | after loading, the registry holds its old keys plus exactly the listed names that load; those map to their instance and the others are kept; names missing from the table never enter |
| StrategyManagement.IchimokuOnlyLoads | strategy_manager.py:27-57 | when only the Ichimoku module is importable, a name loads iff it is `ichimoku`, and it builds the Ichimoku strategy |
| StrategyManagement.IchimokuOnlyRegistry | strategy_manager.py:25-68 | when only the Ichimoku module is importable, loading registers Ichimoku, built with the manager's configuration, exactly when it is enabled, and nothing else |
| StrategyManagement.IchimokuOnlyDefaultRegistry | strategy_manager.py:13-23 | with the default configuration and only the Ichimoku module importable, the registry holds Ichimoku alone |
| StrategyManagement.CollectedAppend | strategy_manager.py:84-94 | collection follows the enabled list: a list's signals are those of its first part followed by those of the rest |
| StrategyManagement.FailureIsolated | strategy_manager.py:90-94 | a strategy that raises contributes exactly what an unregistered one does, and all the others still contribute |
| StrategyManagement.DisabledNotRun | strategy_manager.py:84-87 | a registered strategy that is not enabled is never run |
| StrategyManagement.InsertPermutes | strategy_manager.py:98 | insertion adds the element and nothing else |
| StrategyManagement.InsertStable | strategy_manager.py:98 | insertion keeps the order of equal confidences |
| StrategyManagement.InsertSorted | strategy_manager.py:98 | insertion into a descending list keeps it descending |
| StrategyManagement.SortDescSpec | strategy_manager.py:98 | the sort is a permutation, descending by confidence (missing = 0), and stable |
| StrategyManagement.OrderedSpec | strategy_manager.py:96-98 | the result is sorted exactly when the first collected signal has a confidence, and is otherwise left in order; nothing is added or dropped |
| StrategyManagement.OnSideMembers | strategy_manager.py:108-109 | a side's list holds exactly the input signals on that side |
| StrategyManagement.SidesDisjoint | strategy_manager.py:108-109 | the two sides together are no larger than the input |
| StrategyManagement.FirstMaxSpec | strategy_manager.py:125 | the chosen index has the highest confidence and no earlier index has it |
| StrategyManagement.MajorityIff | strategy_manager.py:116-121 | count / total > 0.6 iff 5 × count > 3 × total |
| StrategyManagement.CombineSpec | strategy_manager.py:102-135 | no signals give none; otherwise at most one input signal is returned, a buy iff more than 3 in 5 are buys, a sell iff more than 3 in 5 are sells, and it is the first of its side when that lacks a confidence, else one of the highest confidence |
| StrategyManagement.CombineCases | strategy_manager.py:116-133 | at most one side holds a majority, and the result is that side's best signal |
| StrategyManagement.BestInGroup | strategy_manager.py:125 | the chosen signal belongs to its side and is the side's first when that lacks a confidence, else of the highest confidence |
| StrategyManagement.BestIsFirstOfHighest | strategy_manager.py:125 | Python's `max` picks the first signal of the highest confidence |
| StrategyManagement.TwoBuysOneSellExample | strategy_manager.py:102-135 | two buys and a sell, none with a confidence, combine to the first buy |
| StrategyManagement.StrategyManager.constructor | strategy_manager.py:13-23 | the configured list is loaded into an empty registry |
| StrategyManagement.StrategyManager.LoadStrategies | strategy_manager.py:25-68 | the loading loop equals the loading function on top of the current registry |
| StrategyManagement.StrategyManager.SetEnabledStrategies | strategy_manager.py:70-74 | replaces the enabled list and loads it without clearing earlier entries |
| StrategyManagement.StrategyManager.RunStrategy | strategy_manager.py:89-91 | one strategy's generation on the frame equals its specification |
| StrategyManagement.StrategyManager.GenerateSignals | strategy_manager.py:80-100 | the signals collected in list order from enabled, registered, non-failing strategies, ordered as OrderedSpec states |
| Text.SplitJoin | strategy_manager.py:51 | splitting on `_` recovers words that contain no `_` |
| Text.JoinSplit | strategy_manager.py:51 | joining the parts of a split recovers the string |
| Utils.RiskRewardRatio | utils.py:39-62 | never negative; 0 with no risk distance; otherwise ratio × risk distance = reward distance |
| Utils.RatioIgnoresSide | utils.py:52-57 | the side never changes the ratio |
| Utils.MakeTradeRecord | utils.py:74-90 | the record copies the trade's fields; its ratio is never negative, is 0 when price and stop-loss are missing, and is reward over risk otherwise |

## Left out

- Network, clock and file I/O are parameters or absent. Balances, open orders, klines, the clock reading and the current price are inputs. The exchange client (binance_connection.py) is not part of this model.
- The main polling loop (main.py), logging and the trade-history file are not part of this model. Nor is configuration loading from a file (config.py); the defaults are `Settings.Default`.
- The `ta`-library indicators (SMA, EMA, MACD, RSI, Bollinger bands, OBV) are not modelled. This is also why `DataProcessing.CalculateIndicators` does not write into the frame it is given: those indicator columns were the only in-place writes.
- The kline-to-frame conversion is not modelled. Each candle carries an integer day key in place of its parsed open time.
- Prices are exact reals. IEEE rounding is not modelled, including how the 0.6 threshold and 0.5% gaps behave on binary floats. `round(x, 6)` is exact half-even at 1e-6.
- Python's `inf` from a division by zero is collapsed into NaN (undefined).
- `importlib` and `getattr` are replaced by a map from module path to class name to construction outcome (`Importable`). The strategy modules other than Ichimoku are not part of this model: they are abstract strategies that may return any signals or raise. The `IchimokuOnly` lemmas describe an environment in which only the Ichimoku module is importable; they make no claim about which modules the real program ships.
- StrategyManagement.GenerateSignals: a signal with a confidence key set to None is taken as having no confidence. Sorting such a list would raise in Python.
- StrategyManagement.OrderedSpec: the comment at strategy_manager.py:96 speaks of sorting signals "if they have that attribute", but the test on the next lines looks only at the FIRST collected signal. The model follows the test: when only some signals carry a confidence, the list is still sorted, and a missing confidence counts as 0.
- Signals are values. The aliasing of the same signal dictionary between a strategy, the manager and the risk gate is not captured; `RiskManagement.RiskManager.ValidateTrade` returns the signal as the checks left it.
- `open_positions` is read but never written by any code of the core, so the model never writes it either.
- `get_current_price` returns a placeholder of 50000; `RiskManagement.RiskManager.AdjustStops` takes the price as a parameter.
- RiskManagement.RiskManager.AdjustStops: the only exception modelled in the loop is the KeyError of a trade without a price or stop-loss. Symbol and side are always present in a `Signal`.
- IchimokuStrategy.FrameSignals: Ichimoku parameters outside `WellFormed` (a window below one candle or a negative displacement) are modelled as a `Raised("ValueError")` failure. pandas raises that only for a negative window. It accepts a window of 0 and a negative displacement (`shift` takes any integer) and would compute columns and possibly emit signals; the model does not follow those configurations. The strategy's own column functions require well-formed parameters.
- Utils.MakeTradeRecord: the record's timestamp is the clock parameter, not an ISO string. Side is always present on a signal, so the "BUY" default for a missing side does not arise.
- DataProcessing.CalculateVwap, DataProcessing.CalculatePivotPoints, DataProcessing.DetectGaps and IchimokuStrategy.CalculateIchimoku require a frame with the candle columns. On the column-less frame they would raise KeyError. Only the fall-back of `get_latest_data` produces such a frame, and only `generate_signals` receives it, where the failure is modelled (`IchimokuStrategy.FrameSignals`).
- Signal fields `price`, `stop_loss` and `take_profit` are `Option`s, so a key that is absent and a key present with the value None are the same. The source distinguishes them (`'stop_loss' not in signal` at risk_manager.py:100 and 107; `trade.get("price", 0)` in utils.py). The Ichimoku strategy always sets all three to numbers.
- StrategyManagement.Strategy.Other: a strategy not part of this model is a pure function of a snapshot of the frame. One that writes columns into the shared frame in place, as `detect_gaps` does, is not captured; the following strategies would see those columns in the source but not in the model.
