# Quant engine: replay, sensitivity, features and scheduler

A Dafny model of four stateful parts of the quant engine, each proved against a plain specification,
and of two smaller ones beside them.

* **Candidate market replay.** `Market`, `Simulation` and `Replay` follow the replay engine: candidates
  are filtered, sorted and walked in time order; each admitted one is simulated bar by bar. The four
  collections the loop prunes and overwrites are fields of the class `Book`. The specification keeps
  no such state: it scans all earlier rows. `AdmissionLaws` and `TradeLaws` say in numbers what that
  specification decides; `ExitRules`, `Economics`, `CostLaws`, `MirrorLaws`, `BracketLaws` and
  `ReplayLaws` say what holds of single trades, of whole runs and between runs.
* **Metrics.** `Metrics` relates both drawdown algorithms to the least sum of a stretch of returns;
  `Ledger` proves that breakdowns, daily totals and counts add up; `Labels` is the label backtest.
* **Feature engine.** `FeatureRows` states each row as a function of its series up to its bar;
  `FeatureEngine` is the streaming build with its windows and running sums. `FeatureTable`,
  `FeatureColumns` and `RelativeStrength` read the finished table off the input, row by row and column
  by column; `FeatureLaws` is about leakage, `FeatureBounds` about the meaning of single columns.
* **Sensitivity grid.** `Grid` plans the four-way product, `Sensitivity` is one resumable invocation,
  `InvocationLaws` writes out what it selects, runs and reports, `SensitivityLaws` is about sequences of
  invocations, `ConfluenceLaws` about when they agree,
  `ActivationLaws` about the activation flag.
* **Scheduler leases.** `Scheduler` has the job table as a class whose locked methods are atomic steps;
  `QueueLaws` is about the lists of jobs, `SchedulerLaws` about arbitrary interleavings of steps.
* **Fingerprints.** `Audit` covers redaction, canonical text and independence of order, `AuditLaws` what
  counts as secret and which fields are hashed.

`Common` and `Sorting` hold shared vocabulary. `dafny verify dfyconfig.toml` checks everything.

Prices, R and costs are reals; instants are integers in microseconds. The minute of the day in New York
time and the UTC day of an exit come with the bar or follow from the instant; time-zone rules are not
modelled. Hashes are parameters, as is the metric computation inside a sensitivity scenario. The
`datetime.min` and year-1900 defaults of the dictionaries are absent keys.

## What the code does not keep

Where a promise turned out to hold only under a condition, the condition is proved to be exact.

* **Confluence.** Resumed sensitivity runs end with the single-call list if and only if the selected
  scenario ids are pairwise distinct (`ConfluentExactly`). A value listed twice in a grid gives two rows
  one id but two indices, and which of them survives depends on where the run was cut:
  `RepeatedValueDisagrees` produces such calls for every such grid and any hash,
  `SlippageTwiceDisagrees` for the grid with slippage 1 twice. For the whole grid that is the only way
  (`GridConfluentExactly`), given a hash without collisions on the planned configurations; a cut or
  sampled selection is judged by its own configurations (`ConfluentByConfigs`).
* **No leakage.** The flag for unsorted input is computed over the whole input and put on every row, so a
  bar that arrives late marks rows of the past. `NoLeakageExactly` and `LeaksExactly` are the exact
  condition for a cut, `LeaksSomewhereExactly` for an input; `LateArrivalLeaks` gives the smallest inputs
  that leak, `SortedInputNeverLeaks` the usual case.
* **Ownership.** Releasing with status RUNNING, or leasing to an empty owner name, leaves a running job
  nobody owns; `OwnedExactly` shows these are the only ways, `OrphansExist` that both happen.
* **Costs never help.** Higher slippage or spread can improve a trade. `CostsExactly` has the condition for
  any commission: reward-to-risk rises exactly when the candidate's second target lies beyond its own stop
  on the losing side and the risk grows; realised R rises exactly when the exit price lies less than the
  round-trip commission beyond the stop and the risk grows, or, for exits at a close, when a weighted sum
  of two such distances is negative and the cost rate grows. So for candidates that aim on their own side
  and no positive commission costs never help (`CostsNeverHelp`). `CostsCanHelp` is a trade without
  commission that gains, and may even be taken only at the higher cost (`AcceptedCheaplyExactly`);
  `CommissionCanHelp` one that aims on its own side. Requiring a reward-to-risk of at least -1 admits only
  candidates that do (`RequiredRewardAims`).

Two promises hold more widely than the code's shape suggests: where costs never help, they do not
whatever the net exit price, because a trade that was not stopped out never touched its stop; and the
label backtest keeps trades apart even when an exit precedes its entry, because labels are sorted first.

## Model

| member | source | states |
|---|---|---|
| `Simulation.ExitLoop` | services/quant-engine/app/backtesting/replay.py:547-601 | The bar-by-bar loop with its running excursions and exit variables returns the fill of the declarative rule: close on the first exiting bar of the window, else on its last bar as `end_of_data` |
| `Simulation.ExcursionsAreExact` | services/quant-engine/app/backtesting/replay.py:547-565 | MFE and MAE bound every bar held, are attained on one of them or are zero, and never change sign |
| `Economics.NetRIsMoneyAtRisk` | services/quant-engine/app/backtesting/replay.py:603-610 | Realised R times the risk is the money gained per share less two commissions, so R is non-negative exactly when the gain covers them; it is at most the gross R exactly when the commission is not negative |
| `Simulation.SimulateCandidate` | services/quant-engine/app/backtesting/replay.py:504-654 | The whole simulation, refusals in the order of the source, equals its specification for every candidate, series, feature row and configuration |
| `ExitRules.WindowShape` | services/quant-engine/app/backtesting/replay.py:524-529 | With bars in time order the window is the run of bars from the entry bar on that the deadline admits: each of them in turn, ending only with the bars or before one past the deadline |
| `ExitRules.NoFutureBarsMeansNegativeHold` | services/quant-engine/app/backtesting/replay.py:525-531 | `no_future_bars` can only come from a negative maximum hold, and such a hold takes no trade at all |
| `ExitRules.TimesInOrder` | services/quant-engine/app/backtesting/replay.py:518-611 | signal <= entry <= exit <= entry + maximum hold, the exit time is that of the `bars_held`-th bar of the window, and the minutes held are never clamped |
| `ExitRules.ExitRule` | services/quant-engine/app/backtesting/replay.py:547-601 | A taken trade exits on the first bar of its window that meets an exit condition, with the priority of same-bar policy, stop, target, session, time; a time exit happens on a bar exactly at the deadline |
| `ExitRules.LaterBarsDoNotMatter` | services/quant-engine/app/backtesting/replay.py:518-611 | Unless data ran out, a trade is unchanged by any change to the bars after its exit bar |
| `ExitRules.NearestBelowIsNearest` | services/quant-engine/app/backtesting/replay.py:813-860 | The stop chosen for a long is the highest known level strictly below the entry, and there is one whenever any level is |
| `ExitRules.NearestAboveIsNearest` | services/quant-engine/app/backtesting/replay.py:813-860 | The mirror statement for shorts |
| `ExitRules.ContextStopIsTightest` | services/quant-engine/app/backtesting/replay.py:813-860 | Without an explicit stop a positive entry price always gets a stop on the losing side, and no known level lies strictly between stop and entry |
| `TradeLaws.SkippedBeforePlanning` | services/quant-engine/app/backtesting/replay.py:518-531 | A candidate is refused for want of context exactly when asked for and more than three flags say so; for want of an entry bar exactly when no bar follows the first one stamped at the signal; for want of future bars exactly when the maximum hold is negative |
| `TradeLaws.SkippedByPlan` | services/quant-engine/app/backtesting/replay.py:532-545 | Past these, the risk plan is invalid exactly when there is no stop or it is not on the losing side, the reward insufficient exactly when the second target is nearer than the required multiple of the risk, and the trade taken in all other cases |
| `TradeLaws.TradePlan` | services/quant-engine/app/backtesting/replay.py:535-542 | Every trade enters at the open of the bar after the first one stamped at the signal, moved against it by slippage and half the spread; its stop is the candidate's, half a percent away in the fixed mode, or the nearest known level, the range and the last ten bars included; its targets are the named ones or multiples of the risk |
| `TradeLaws.TradeExit` | services/quant-engine/app/backtesting/replay.py:547-601 | Every bar before the exit bar touches neither stop nor second target, is not the last of the regular session (960 less the bar's minutes) and is before the deadline; the exit bar gives reason, price and ambiguity, each reason exactly |
| `TradeLaws.TradeWorth` | services/quant-engine/app/backtesting/replay.py:603-611 | Realised R times the risk is the price gained less two commissions; MFE and MAE times the risk bound the gain on every bar held and are reached on one or zero |
| `Economics.DefaultTargetsAreMultiples` | services/quant-engine/app/backtesting/replay.py:540-545 | Targets a candidate does not name lie at the configured multiples of risk on either side, so the plan is accepted exactly when the second multiple meets the minimum reward-to-risk |
| `Economics.RewardRiskFalls` | services/quant-engine/app/backtesting/replay.py:871-872 | With stop and target fixed, a larger risk never raises reward-to-risk if and only if the risk is unchanged or the target is not beyond the stop on the losing side |
| `CostLaws.FixedPriceCompares` | services/quant-engine/app/backtesting/replay.py:567-589 | At a stop or target price a higher cost level is no better in realised R, for any commission, if and only if the risk is the same or the price lies at least the round-trip commission beyond the stop |
| `CostLaws.CloseCompares` | services/quant-engine/app/backtesting/replay.py:590-601 | At a close it is no better, for any commission, if and only if the cost rate is the same or a weighted sum of how far close (commission taken off) and open lie beyond the stop is not negative |
| `CostLaws.CostsExactly` | services/quant-engine/app/backtesting/replay.py:504-654 | For explicit stop and targets, well-formed bars and any commission, a trade taken at two cost levels keeps entry bar, exit bar, reason and ambiguity; the higher level is no better in reward-to-risk if and only if the candidate aims on its own side of the stop or the risk is unchanged, and no better in realised R if and only if the condition of its kind of exit holds |
| `CostLaws.CostsWithoutCommission` | services/quant-engine/app/backtesting/replay.py:504-654 | Without commission that condition reads: the candidate aims on its own side, or the risk is unchanged, or the exit is not the target |
| `CostLaws.CostsNeverHelp` | services/quant-engine/app/backtesting/replay.py:504-654 | For a candidate that aims on its own side of the stop and no positive commission, whatever the required reward-to-risk: what is taken at the higher cost is taken at the lower once its risk is positive there, with the same bars and no worse reward-to-risk or realised R, for both sides and whatever the net exit price |
| `CostLaws.CommissionSoftensStops` | services/quant-engine/app/backtesting/replay.py:603-610 | With a positive commission every trade stopped out at both cost levels loses less R at the higher one when costs widened its risk |
| `CostLaws.CommissionCanHelp` | services/quant-engine/app/backtesting/replay.py:504-654 | A long that aims on its own side and is stopped out under a commission of half a unit per share: -6/5 R free of slippage, -7/6 R at 100 basis points |
| `CostLaws.AcceptedCheaply` | services/quant-engine/app/backtesting/replay.py:535-545 | A plan of such a candidate accepted at the higher cost is accepted at the lower one once its risk is positive there |
| `CostLaws.AcceptedCheaplyExactly` | services/quant-engine/app/backtesting/replay.py:535-545 | Cheaper trading accepts whatever dearer trading accepts, for every required reward-to-risk, if and only if the candidate aims on its own side of the stop or the risk is the same |
| `CostLaws.RequiredRewardAims` | services/quant-engine/app/backtesting/replay.py:543-545 | A required reward-to-risk of at least -1 admits only such candidates |
| `CostLaws.CostsCanHelp` | services/quant-engine/app/backtesting/replay.py:504-654 | A long that aims below its stop: with a minimum of -2 or less it earns -2 R at no cost and -11/6 R at 100 basis points; with a minimum between the two it is taken only at the higher cost |
| `CostLaws.StopIsMinusOne` | services/quant-engine/app/backtesting/replay.py:578-583 | A stop exit is exactly -1 R before commission at every cost level |
| `CostLaws.RoundTripCost` | services/quant-engine/app/backtesting/replay.py:805-811 | Entering and leaving at one unchanged price costs two slippages and one full spread of that price on either side |
| `MirrorLaws.MirrorTrade` | services/quant-engine/app/backtesting/replay.py:504-654 | At zero cost and with an explicit stop, a candidate on price-reflected bars gets the same decision and the reflected trade: same bars, reason, ambiguity, R, MFE and MAE with sides exchanged |
| `BracketLaws.TradeBracket` | services/quant-engine/app/backtesting/replay.py:539-610 | For well-formed bars, zero slippage and spread and a non-negative minimum reward-to-risk, R before commission lies in [-1, reward-to-risk] and in [MAE, MFE], with MAE <= 0 <= MFE |
| `Replay.Book.PreflightSkip` | services/quant-engine/app/backtesting/replay.py:656-697 | The admission test over pruned lists and overwritten maps gives the decision and reason of the test that scans every earlier row, for every candidate no earlier than the last |
| `Replay.Book.FileOpen` | services/quant-engine/app/backtesting/replay.py:366-368 | Appending the exit to both open lists keeps them equal to the history for every later instant |
| `Replay.Book.FileSetup` | services/quant-engine/app/backtesting/replay.py:369 | Overwriting the setup's last exit keeps the map equal to the history |
| `Replay.Book.FileCooldown` | services/quant-engine/app/backtesting/replay.py:370-377 | Writing the cooldown at admission, by loss or by trade, keeps the map equal to the history |
| `Replay.Book.Record` | services/quant-engine/app/backtesting/replay.py:366-377 | Filing an admitted trade keeps all four collections equal to the history including it |
| `Replay.Book.Turn` | services/quant-engine/app/backtesting/replay.py:310-377 | One turn of the loop produces the specified next row and leaves the collections tracking the longer history |
| `Replay.SetupGrows` | services/quant-engine/app/backtesting/replay.py:369 | An admitted trade is the latest exit of its symbol and setup, so the overwritten one is never missed |
| `Replay.CooldownGrows` | services/quant-engine/app/backtesting/replay.py:376-377 | Whatever cooldown an admitted trade overwrites has already run out, for any per-symbol limit |
| `Replay.FilterCandidates` | services/quant-engine/app/backtesting/replay.py:746-767 | The selection loop keeps exactly the candidates passing every configured filter, in order |
| `Replay.SelectedInOrder` | services/quant-engine/app/backtesting/replay.py:769-778 | Candidates are walked in signal time order |
| `AdmissionLaws.WalkedByPriority` | services/quant-engine/app/backtesting/replay.py:769-778 | At one time the candidate with the higher score comes first, the score being the confidence unless missing or zero and else the signal score; then the higher expected R; then symbol and setup alphabetically |
| `AdmissionLaws.SelectedExactly` | services/quant-engine/app/backtesting/replay.py:746-767 | A candidate is selected as often as it was given if it passes every filter written out, and not at all otherwise |
| `AdmissionLaws.FeatureIsLastFiled` | services/quant-engine/app/backtesting/replay.py:788-793 | The feature row of a candidate is the last one given for its symbol, interval and time, and missing only if there is none |
| `AdmissionLaws.RowLabels` | services/quant-engine/app/backtesting/replay.py:795-803 | Regime and time bucket of a row are the own text of its candidate, failing that the text of its feature row, failing that `unknown` |
| `AdmissionLaws.SkippedForItself` | services/quant-engine/app/backtesting/replay.py:320-345 | Repeats, sides other than long and short, regular hours from minute 570 up to 960, regime and bucket filters and the minimum score: each reason is given exactly when it applies and none before it does, and a trade passed them all |
| `AdmissionLaws.SkippedForOthers` | services/quant-engine/app/backtesting/replay.py:682-697 | Cooldown, trades open on the symbol, trades open overall and a busy setup, counted over the trades among all earlier rows: each reason exactly, in this order; a candidate nothing stands against gets the outcome of its own simulation |
| `AdmissionLaws.BlockedExactly` | services/quant-engine/app/backtesting/replay.py:321-345 | A row is marked as blocked by the portfolio exactly for repeats, overlap, limit and cooldown, and not marked at all exactly when it was simulated |
| `Replay.BarsByKey` | services/quant-engine/app/backtesting/replay.py:780-786 | The grouping holds, for every symbol and interval, that series sorted by time |
| `Replay.Walk` | services/quant-engine/app/backtesting/replay.py:310-377 | The loop over ordered candidates returns the rows of the history-scanning specification and one matching decision per row |
| `Replay.Replay` | services/quant-engine/app/backtesting/replay.py:287-388 | The whole run, from unsorted candidates and bars to rows and decisions, equals the specification |
| `ReplayLaws.NeverOverTheLimit` | services/quant-engine/app/backtesting/replay.py:682-696 | At every instant, not only at signals, the taken trades with signal <= t < exit stay within the per-symbol and the portfolio limit when those are enforced |
| `ReplayLaws.TakenTradesAreSeparated` | services/quant-engine/app/backtesting/replay.py:366-377 | Any two taken trades of one symbol and setup have the later signal strictly after the earlier exit; on one symbol every later signal comes strictly after every earlier cooldown |
| `ReplayLaws.SameTrades` | services/quant-engine/app/backtesting/replay.py:504-654 | Purpose, enforcement flags and portfolio limits have no influence on how a trade unfolds |
| `ReplayLaws.PortfolioRefinesCounterfactual` | services/quant-engine/app/backtesting/replay.py:310-377 | On the same inputs the rows of a portfolio and a counterfactual run align one to one and differ only where a portfolio rule blocked; every trade the portfolio takes is the observed one, field for field |
| `ReplayLaws.PayloadRunsRefine` | services/quant-engine/app/backtesting/replay.py:97-116 | The same for the configurations read from two payloads that differ only in asking for the counterfactual purpose, through any of the three keys |
| `ReplayLaws.ObservedAsIfAlone` | services/quant-engine/app/backtesting/replay.py:310-377 | A counterfactual row is that of replaying its candidate alone, unless the candidate repeats an earlier one |
| `ReplayLaws.OrderDoesNotMatter` | services/quant-engine/app/backtesting/replay.py:296-299 | Reordering candidates with distinct priorities, and bars with distinct times within each series, changes no row |
| `Metrics.Equity` | services/quant-engine/app/backtesting/replay.py:407-411 | The running equity is the sequence of prefix sums of the returns |
| `Metrics.DrawdownSeries` | services/quant-engine/app/backtesting/replay.py:906-912 | Each entry is the equity less its peak so far, zero included |
| `Metrics.SeriesMinimumIsWorstStretch` | services/quant-engine/app/backtesting/replay.py:465 | The minimum of the drawdown series is the least sum of any contiguous stretch of returns, the empty one included |
| `Metrics.MaxDrawdown` | services/quant-engine/app/backtesting/engine.py:139-145 | The single pass over the equity returns that same least stretch sum |
| `Metrics.MaxDrawdownR` | services/quant-engine/app/backtesting/replay.py:407-412 | The replay metric returns it too, for empty and non-empty runs |
| `Metrics.WorstStretchIsUnique` | services/quant-engine/app/backtesting/engine.py:139-145 | There is only one such number, so both engines agree |
| `Metrics.EveryReturnAboveMinusOne` | services/quant-engine/app/backtesting/replay.py:403 | In a cost-free run over well-formed bars every row counts for at least -1 R |
| `Metrics.DrawdownBound` | services/quant-engine/app/backtesting/replay.py:465 | Such a run never draws down by more than one R per trade taken |
| `Ledger.Breakdown` | services/quant-engine/app/backtesting/replay.py:880-895 | The buckets by one field: distinct keys, every taken trade in the bucket of its own value, in order |
| `Ledger.PartitionConserves` | services/quant-engine/app/backtesting/replay.py:880-895 | Totals over any distinct, covering keys add up to the total |
| `Ledger.BreakdownConserves` | services/quant-engine/app/backtesting/replay.py:880-895 | Whatever the field, trade counts and total R of the buckets add up to the run's |
| `Ledger.DayTotals` | services/quant-engine/app/backtesting/replay.py:897-903 | R summed by exit day |
| `Ledger.DailyR` | services/quant-engine/app/backtesting/replay.py:897-904 | The daily series: every exit day once, in calendar order, with the sum of its trades |
| `Ledger.DailyConserves` | services/quant-engine/app/backtesting/replay.py:897-904 | The daily series adds up to the run's total R |
| `Ledger.CountsAddUp` | services/quant-engine/app/backtesting/replay.py:379-413 | One row and one matching decision per selected candidate; taken and skipped, and valid and invalid, split the total; skip counts by reason add up to the rows skipped |
| `Ledger.MaxConsecutive` | services/quant-engine/app/backtesting/replay.py:921-928 | The longest unbroken run of wins or of losses: attained, and never exceeded |
| `Labels.SimulateLabels` | services/quant-engine/app/backtesting/engine.py:14-61 | The one-entry-per-symbol map makes the same choice as a scan of all earlier trades, label by label |
| `Labels.OverwriteIsHarmless` | services/quant-engine/app/backtesting/engine.py:60 | Overwriting the exit of a symbol never changes a later answer, whether or not exits follow entries |
| `Labels.OneOpenTradePerSymbol` | services/quant-engine/app/backtesting/engine.py:22-24 | Any two trades on one symbol are apart, and a label is left out only if it falls inside one |
| `Labels.ExitPriceCarriesR` | services/quant-engine/app/backtesting/engine.py:28-31 | The exit price, measured in the label's own risk, is its realised R on either side |
| `Labels.TradesAreRight` | services/quant-engine/app/backtesting/engine.py:25-31 | Every trade lasts the time to its target, failing that to its stop, failing that the maximum hold, a zero counting as missing; it ends at its own exit time or that many minutes on, at the price its R stands for; without the rule every label has one |
| `FeatureEngine.BuildSession` | services/quant-engine/app/features/engine.py:138-428 | The streaming pass over a session, with deques, running sums, extremes and the exponential average, writes for each bar the row recomputed directly from the session prefix |
| `FeatureEngine.DuplicateKeys` | services/quant-engine/app/features/engine.py:489-493 | The keys counted more than once are exactly the keys carried by more than one bar |
| `FeatureEngine.RecordVolumes` | services/quant-engine/app/features/engine.py:130-133 | Volumes per minute of the day hold the last ones of earlier sessions |
| `FeatureEngine.AttachRelativeStrength` | services/quant-engine/app/features/engine.py:586-628 | Each row is judged against the returns of its own interval, date and moment, last write winning |
| `FeatureEngine.BuildFeatures` | services/quant-engine/app/features/engine.py:96-136 | The whole build, with its cross-session state, equals the table in which each row is a function of its own series up to its bar |
| `FeatureTable.TableRow` | services/quant-engine/app/features/engine.py:138-428 | Every row of the table is that of one place of one session, the bars of its symbol, interval and date in time order; its columns are as written out for that place, its previous-day levels and same-time volumes those of earlier dates, and it carries exactly the flags due |
| `FeatureTable.PreviousDayExactly` | services/quant-engine/app/features/engine.py:114-128 | Previous-day levels are missing exactly in the first session of a series; else high and low bound, and are attained in, the session of the latest earlier date, and the close is its last |
| `FeatureTable.SameTimeExactly` | services/quant-engine/app/features/engine.py:111-132 | Same-time volumes are the last ones traded at that minute of the day in sessions of earlier dates, in order of date and time |
| `FeatureTable.OneRowPerBar` | services/quant-engine/app/features/engine.py:96-136 | The rows of the table are those of the bars, one each |
| `FeatureTable.TableInOrder` | services/quant-engine/app/features/engine.py:134 | The table is ordered by symbol, interval and time |
| `FeatureColumns.ColumnsHold` | services/quant-engine/app/features/engine.py:160-428 | Returns, rolling, day, premarket and opening levels, volume-weighted price, true and average range, relative volume, volume change and acceleration, average and slopes, trend quality and gap, each from the bars of the session by index: quotients by multiplication, extremes bounding and attained, windows by their first and last bar |
| `RelativeStrength.TableStrength` | services/quant-engine/app/features/engine.py:586-628 | SPY and QQQ are each the benchmark of their own columns at the moment of the row, replaced for themselves by IWM or by the upper median of the other symbols; strength is own return less benchmark, leadership the mean of what is known |
| `FeatureLaws.RowsSeeNoLaterBar` | services/quant-engine/app/features/engine.py:96-136 | With session dates following time, building on the bars up to t gives the full table up to t: previous-day levels, same-time volumes and relative strength included, the input-order flag aside |
| `FeatureLaws.NoLeakageExactly` | services/quant-engine/app/features/engine.py:96-136 | The no-leakage contract holds for a cut at t if and only if the dropped bars do not change whether the input counts as out of order, or every remaining bar already carried that flag |
| `FeatureLaws.SortedInputNeverLeaks` | services/quant-engine/app/features/engine.py:101-103 | Input sorted by symbol, interval and time never leaks |
| `FeatureLaws.LeaksExactly` | services/quant-engine/app/features/engine.py:101-103 | A cut leaks if and only if the input is out of order, the kept bars are in order, and one of them does not carry the flag already |
| `FeatureLaws.LeaksSomewhereExactly` | services/quant-engine/app/features/engine.py:101-103 | An input leaks at some cut if and only if it is out of order and some unflagged bar comes with everything up to its time in order |
| `FeatureLaws.LateArrivalLeaks` | services/quant-engine/app/features/engine.py:168-169 | The smallest such inputs: two unflagged bars of a series in the wrong order |
| `FeatureBounds.VwapStaysWithinDay` | services/quant-engine/app/features/engine.py:191-194 | For well-formed bars the volume-weighted price lies between session low and session high at every bar, with or without volume |
| `FeatureBounds.EmaStaysWithinCloses` | services/quant-engine/app/features/engine.py:248-255 | The exponential average lies between the lowest and the highest close so far |
| `FeatureBounds.TrueRangeSpansTheGap` | services/quant-engine/app/features/engine.py:495-498 | The true range is the range of the bar stretched to its previous close |
| `FeatureBounds.GapHoldsUntilFilled` | services/quant-engine/app/features/engine.py:529-559 | The fill is a fraction, and outside the flat band a gap holds exactly while it is not entirely filled |
| `FeatureBounds.RollingLevelsNest` | services/quant-engine/app/features/engine.py:206-207 | Rolling highs and lows never leave the range of the session |
| `FeatureBounds.SlopeFitsBest` | services/quant-engine/app/features/engine.py:72-80 | For two or more values the regression slope exists, and the line with that slope through the mean has a strictly smaller sum of squared misses than every other line |
| `FeatureBounds.SlopeOfALine` | services/quant-engine/app/features/engine.py:72-80 | On equally spaced points of a line it is the slope of the line |
| `Grid.PlanScenarios` | services/quant-engine/app/backtesting/sensitivity.py:326-341 | The four nested loops produce the product of the grids |
| `Grid.PlannedSize` | services/quant-engine/app/backtesting/sensitivity.py:326-341 | There are as many scenarios as the product of the grid sizes |
| `Grid.PlannedAt` | services/quant-engine/app/backtesting/sensitivity.py:326-362 | The scenario at a mixed-radix position has exactly the four settings of its digits |
| `Grid.PlannedSettings` | services/quant-engine/app/backtesting/sensitivity.py:326-341 | Position and number written as products, the four settings of a scenario as fields, everything else that of the base configuration |
| `Grid.PositionsAreDistinct` | services/quant-engine/app/backtesting/sensitivity.py:343-362 | Different choices have different positions |
| `Grid.PositionsCover` | services/quant-engine/app/backtesting/sensitivity.py:343-362 | Every index of the plan is the position of some choice |
| `Sensitivity.DedupeExisting` | services/quant-engine/app/backtesting/sensitivity.py:407-417 | Supplied results are reduced to the first of each selected, non-empty id |
| `Sensitivity.RunRows` | services/quant-engine/app/backtesting/sensitivity.py:191-229 | Rows run in order until done or until the clock stops the loop, never before the first |
| `Sensitivity.RunSensitivity` | services/quant-engine/app/backtesting/sensitivity.py:159-324 | One invocation, from plan to merged scenarios, partial reason, completion status and activation flag, equals its specification |
| `InvocationLaws.SelectionExactly` | services/quant-engine/app/backtesting/sensitivity.py:343-385 | The rows of a plan are numbered from one and named by the digest of their configuration; selected are the first of them, up to the cap, in order of the plan or, when sampling, of the hashes |
| `InvocationLaws.KeptExactly` | services/quant-engine/app/backtesting/sensitivity.py:407-417 | An earlier result is kept exactly when its id is selected, not empty and not that of an earlier entry |
| `InvocationLaws.RunExactly` | services/quant-engine/app/backtesting/sensitivity.py:183-228 | A call runs the first rows without a kept result that the group wants, up to its cap, until the clock is found past the limit before a row other than the first; each is reported with the metrics of its configuration and passed exactly when trades, average R, profit factor and drawdown meet the thresholds, average R strictly |
| `InvocationLaws.ScenariosExactly` | services/quant-engine/app/backtesting/sensitivity.py:230-233 | The scenarios returned are the kept results and the reports of this call, each id once, in order of the plan |
| `InvocationLaws.JudgedExactly` | services/quant-engine/app/backtesting/sensitivity.py:233-263 | Remaining rows, completeness, reason of a partial result and status of the call, each exactly |
| `SensitivityLaws.CallResumes` | services/quant-engine/app/backtesting/sensitivity.py:176-240 | A call keeps every earlier result, recomputes none, and computes at least one whenever a matching row is missing and the cap is at least one |
| `SensitivityLaws.ProductiveCallsEnd` | services/quant-engine/app/backtesting/sensitivity.py:183-198 | Productive calls number at most the selected rows, whatever the time limits do |
| `SensitivityLaws.ResumedRunsAgree` | services/quant-engine/app/backtesting/sensitivity.py:176-240 | However a run is cut into capped, timed or grouped calls, once nothing selected remains its scenario list is that of a single call |
| `SensitivityLaws.SameIdentityAgrees` | services/quant-engine/app/backtesting/sensitivity.py:107-112 | The same for calls that merely have equal identity payloads, which is what the run id is hashed from |
| `SensitivityLaws.RepeatedIdsDisagree` | services/quant-engine/app/backtesting/sensitivity.py:230-232 | When two selected rows share an id, some way of cutting the run ends with a different list |
| `SensitivityLaws.ConfluentExactly` | services/quant-engine/app/backtesting/sensitivity.py:176-240 | So runs are confluent if and only if the selected rows have pairwise distinct ids |
| `ConfluenceLaws.ConfluentByConfigs` | services/quant-engine/app/backtesting/sensitivity.py:364-395 | For full, cut and sampled selections alike: a configuration selected twice breaks confluence with any hash, and without one runs are confluent when the hash tells the selected configurations apart |
| `ConfluenceLaws.PlannedOnceExactly` | services/quant-engine/app/backtesting/sensitivity.py:326-341 | No configuration is planned twice if and only if no grid lists a value twice, or some grid is empty |
| `ConfluenceLaws.DistinctIdsExactly` | services/quant-engine/app/backtesting/sensitivity.py:387-395 | Planned ids are distinct only if no grid lists a value twice, with any hash; and then they are, when the hash tells the planned configurations apart |
| `ConfluenceLaws.GridConfluentExactly` | services/quant-engine/app/backtesting/sensitivity.py:176-240 | Runs of the whole grid are confluent if and only if no grid lists a value twice, when the hash tells the planned configurations apart |
| `ConfluenceLaws.RepeatedValueDisagrees` | services/quant-engine/app/backtesting/sensitivity.py:230-232 | With any hash, for every grid that lists a value twice there are calls of one run that finish with a list other than the single call gives |
| `ConfluenceLaws.SlippageTwiceDisagrees` | services/quant-engine/app/backtesting/sensitivity.py:230-232 | One such grid: slippage 1 written down twice |
| `ConfluenceLaws.CollisionFreeExists` | services/quant-engine/app/backtesting/sensitivity.py:387-395 | For every plan there is a hash that tells its configurations apart |
| `ActivationLaws.ActivationExactly` | services/quant-engine/app/backtesting/sensitivity.py:241-281 | Whatever results are supplied, the activation flag is set if and only if the grid is the default one in an activation mode, its ids are distinct and every one of them is in the result, where each is present once |
| `ActivationLaws.CostGroupsPartition` | services/quant-engine/app/backtesting/sensitivity.py:419-427 | On the default grid each scenario is in exactly one of the two cost groups |
| `Scheduler.SchedulerJobs.LeaseJob` | services/quant-engine/app/db/repositories.py:3790-3848 | A lease succeeds exactly on a queued, due job with attempts left, and then sets status, owner, clamped expiry and counter of that row only |
| `Scheduler.SchedulerJobs.HeartbeatJob` | services/quant-engine/app/db/repositories.py:3872-3912 | A heartbeat takes effect exactly on a running job of the same owner, and moves the expiry only when asked to |
| `Scheduler.SchedulerJobs.ReleaseJob` | services/quant-engine/app/db/repositories.py:3914-3953 | A release takes effect exactly on a running job of the same owner and clears owner and expiry |
| `Scheduler.StepsExactly` | services/quant-engine/app/db/repositories.py:3787-3953 | Lease, heartbeat and release field by field: who may, what the job then holds, and that nothing else changes in it or in the table |
| `Scheduler.SchedulerJobs.LeaseNext` | services/quant-engine/app/db/repositories.py:3850-3870 | The pending list is read first and its jobs are leased one by one, with any steps of other workers before each lease and the clock read afresh for it; the table is that of the interleaved history, and returned are exactly the jobs whose own lease took effect in it |
| `Scheduler.SlotsHoldOwnSteps` | services/quant-engine/app/db/repositories.py:3861-3867 | In the interleaved history each lease of the call stands at its own position |
| `SchedulerLaws.OwnedExactly` | services/quant-engine/app/db/repositories.py:3790-3953 | A step keeps every running job owned by a non-empty name if and only if it neither leases to an empty name nor releases back into RUNNING |
| `SchedulerLaws.OrphansExist` | services/quant-engine/app/db/repositories.py:3790-3953 | Both happen: a fresh job leased to nobody, and a held job its owner releases into RUNNING |
| `SchedulerLaws.TableShowsHolder` | services/quant-engine/app/db/repositories.py:3790-3953 | After any interleaving of proper steps, a job is running exactly when it is held, and its owner column is the holder |
| `SchedulerLaws.OnlyTheHolderSucceeds` | services/quant-engine/app/db/repositories.py:3872-3953 | A heartbeat or release succeeds if and only if its owner is the holder |
| `SchedulerLaws.LeasesAreExclusive` | services/quant-engine/app/db/repositories.py:3802-3848 | Between two successful leases of a job lies a successful release of it |
| `SchedulerLaws.LeasedInPlace` | services/quant-engine/app/db/repositories.py:3850-3870 | What a call leases in its own history is what its steps lease where they stand in a common one |
| `SchedulerLaws.CallsLeaseDisjointJobs` | services/quant-engine/app/db/repositories.py:3850-3870 | Two calls anywhere in a common history, interleaved in any way with each other and with further workers, return no common job unless it was successfully released between their successful leases of it |
| `SchedulerLaws.FirstReleaseIsTheLessees` | services/quant-engine/app/db/repositories.py:3914-3953 | The first release after a lease is the lessee's own |
| `SchedulerLaws.AttemptsCountLeases` | services/quant-engine/app/db/repositories.py:3812-3837 | The attempt counter grows by exactly the successful leases and never passes the limit it started below |
| `SchedulerLaws.FreshJobLeaseLimit` | services/quant-engine/app/db/repositories.py:3812-3815 | A fresh job is leased at most max(1, max_attempts) times, ever |
| `SchedulerLaws.StaleExactly` | services/quant-engine/app/db/repositories.py:3966-3969 | A held job counts as stale at t if and only if t has reached the deadline of its last lease or extending heartbeat |
| `SchedulerLaws.ListedExactly` | services/quant-engine/app/db/repositories.py:3955-3975 | So an owner that beats within its clamped lease is never listed; past the deadline the job is listed, or the limit is used up by stale jobs ordered no later |
| `SchedulerLaws.StaleAreFirst` | services/quant-engine/app/db/repositories.py:3955-3975 | The stale list holds stale jobs only, as many as the limit allows, and none left out comes before one listed |
| `SchedulerLaws.PendingAreFirst` | services/quant-engine/app/db/repositories.py:3767-3785 | The pending list holds due jobs only, as many as the limit allows, and none left out comes before one listed |
| `QueueLaws.PendingInOrder` | services/quant-engine/app/db/repositories.py:3767-3785 | On the fields of the jobs: the pending list, position by position and against every due job left out, has unscheduled jobs first, then earlier schedules, then smaller priority numbers, then older jobs |
| `QueueLaws.StaleInOrder` | services/quant-engine/app/db/repositories.py:3955-3975 | The stale list the same way: earlier ends of lease, then smaller priority numbers, then older jobs |
| `Audit.ScrubValue` | services/quant-engine/app/backtesting/audit.py:161-176 | The dictionary- and list-filling loops compute the redaction of any value |
| `Audit.ScrubCleans` | services/quant-engine/app/backtesting/audit.py:161-176 | Redaction leaves no sensitive key with its value and no text with a secret, at any depth |
| `Audit.ScrubFixesExactlyTheClean` | services/quant-engine/app/backtesting/audit.py:161-176 | Redaction leaves a value alone if and only if it holds no secret |
| `Audit.ScrubIsIdempotent` | services/quant-engine/app/backtesting/audit.py:161-176 | Redacting twice is redacting once |
| `Audit.KeyOrderDoesNotMatter` | services/quant-engine/app/backtesting/audit.py:29-30 | The canonical text of a value does not depend on the order of keys in any of its objects, at any depth |
| `Audit.PermutedKeysDoNotMatter` | services/quant-engine/app/backtesting/audit.py:29-30 | In particular permuting the keys of one object leaves its text unchanged |
| `Audit.RowOrderDoesNotMatter` | services/quant-engine/app/backtesting/audit.py:66 | The hashed text does not depend on the order of the rows, ties included, because rows that tie have equal text |
| `Audit.CandidateFingerprintText` | services/quant-engine/app/backtesting/audit.py:41-66 | The row-appending loop yields the text that is hashed for the candidates |
| `Audit.CandidateOrderDoesNotMatter` | services/quant-engine/app/backtesting/audit.py:41-66 | A candidate fingerprint is the same for any order of the candidates |
| `Audit.BarOrderDoesNotMatter` | services/quant-engine/app/backtesting/audit.py:69-86 | A bar fingerprint is the same for any order of the bars |
| `AuditLaws.SensitiveKeyExactly` | services/quant-engine/app/backtesting/audit.py:18-26 | A key is sensitive exactly when it mentions one of the seven words in any case |
| `AuditLaws.SensitiveTextExactly` | services/quant-engine/app/backtesting/audit.py:173-175 | A text is sensitive exactly when it mentions one of the three in any case |
| `AuditLaws.JoinAppends` | services/quant-engine/app/backtesting/audit.py:29-30 | Parts of an array or object are separated by single commas |
| `AuditLaws.ObjectInOrder` | services/quant-engine/app/backtesting/audit.py:29-30 | The text of an object lists each of its fields once, in alphabetical order of their names |
| `AuditLaws.PermutedAreAlike` | services/quant-engine/app/backtesting/audit.py:29-30 | Objects that are permutations of each other are alike |
| `AuditLaws.CandidateFields` | services/quant-engine/app/backtesting/audit.py:41-66 | The thirteen fields a candidate contributes to its fingerprint, each the first value under its own name or, when blank, its replacement |
| `AuditLaws.BarFields` | services/quant-engine/app/backtesting/audit.py:69-85 | The eleven fields of a bar |
| `Sorting.SortStable` | services/quant-engine/app/backtesting/replay.py:299 | Sorting by key keeps the order of elements with equal keys |
| `Sorting.CatIsSort` | services/quant-engine/app/features/engine.py:107-119 | Grouping by key and laying the groups out in key order is the stable sort by that key |

## Left out

- Floating point: prices and R are reals, so rounding, infinities and NaN are not modelled.
- Time zones and daylight saving: the New York minute of a bar, a label or a candidate is given data.
- ISO text order: the scheduler compares timestamps as text and the feature rows sort by it; here instants are compared as integers.
- SHA-256, trade, run, candidate and scenario ids: hashes are arbitrary functions; where a law needs one without collisions, it asks so only of the configurations planned or selected.
- Reading candidates, features and payloads from dictionaries: fields are typed, and defaults that do not affect a decision are not modelled.
- Interval names: an interval is a name with a non-negative number of minutes; parsing it is not modelled.
- Overlap groups, concurrency buckets and the other metadata of a trade: copied into rows, never read by a decision.
- The intrabar path policy: only copied into metadata, it changes no exit.
- Averages, medians, win rates, profit factor and the data quality summary of a run: quotients of the totals that are modelled.
- Order of candidates that tie on priority: the stable sort keeps the input order, so `OrderDoesNotMatter` asks for distinct priorities.
- Decisions free of future information in portfolio runs: not true of the design, since exits and losses of open trades decide admission; `LaterBarsDoNotMatter` is what holds for a trade.
- Feature columns beyond those of `FeatureRow`: wick, body and location ratios, volume z-score, absorption, sweep, failed-breakout and reversal flags, distances to levels and time-bucket booleans are functions of the same accumulators.
- Normalisation of incoming bars: symbols, sessions and quality flags arrive normalised.
- Conversion to JSON values, non-ASCII lower-casing and string escaping: the canonical text takes the escape function as a parameter.
- The feature fingerprint: it hashes nested hashes in the same row scheme as the other two.
- Parsing scenario group names: a group is a value of a datatype, unknown names meaning all rows.
- Quality ranking, fragility flags, robustness score, warnings and resume token of a sensitivity run: reports over the scenario list.
- Wall clock: the time elapsed after each scenario is an arbitrary function, so every time-limit behaviour is covered; runtimes are not stored in scenarios.
- Mutual exclusion across processes: the lock is inside one process and the update is guarded by job id only, so each locked method is one atomic step of one process.
- Negative limits of the job lists, which SQLite reads as none: a limit is a natural number.
- Liveness of leasing: a queued job without attempts left keeps filling the pending list, so that an eligible job is eventually leased does not follow.
- Saving, listing, cancelling jobs and their events: table updates without a protocol of their own.
- Input, output, routes, the data provider, the user interface and all other repositories.
