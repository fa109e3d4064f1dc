# SMC scalper: pattern detection and backtest replay

A model of the core of a "Smart Money Concepts" scalping bot: the live
pattern pipeline in `engine.py` and the historical replay in
`backtester.py`.

The live pipeline works on a candle frame whose last row is still forming:

- it detects a market-structure shift (MSS) and its stop level;
- it locates the order block (the last candle of the opposite colour) and the
  three-candle fair-value gap (FVG);
- it measures their overlap (confluence) and refines the entry price;
- it scores the setup (25 points per signal plus 15/20/25 for confluence);
- it adds the multi-timeframe trend alignment bonus and the breaker-block
  confluence.

The backtester re-implements the detectors per scan index, replays every
planned limit order bar by bar (fill within 60 bars, then stop before target
within 200 bars), books closed trades into the balance, equity curve and trade
log, and summarises the run.

Modules:

- `Candles` (candles.dfy): the candle record and the pandas idioms both
  programs rely on: `iloc` slicing with Python's bound normalisation
  (`iloc[-0:]` is the whole frame), boolean filtering as the positions a mask
  selects, and the one-neighbour swing test built on `shift(±1)` (the first and
  last rows are never swings, because the comparison with NaN is false).
- `Patterns` (patterns.dfy): `detect_mss_and_sl` (with the swing columns it
  writes into the caller's frame, modelled by the `Frame` class), `find_fvg`,
  `find_order_block`, `check_confluence`, `get_refined_entry` and
  `analyze_setup_quality`.
- `Mtf` (mtf.dfy): `detect_trend`, `check_mtf_alignment` (a loop, proved
  against `AlignmentOf`) and `calculate_mtf_score_bonus`.
- `Breakers` (breakers.dfy): `find_historical_order_blocks`,
  `detect_breaker_block`, `check_price_in_breaker_block` and
  `enhance_setup_with_breaker_blocks`. The loops are methods proved against
  functions.
- `Backtest` (backtest.dfy): the per-index detectors, the simulator and the
  `Backtester` class.
  - The simulator is the methods `FindFill`, `FindExit` and
    `Backtester.SimulateTrade`, proved against `SimulateSpec`.
  - The scan (`Backtester.RunBacktest`) is proved against `ScanUpTo`, a fold of
    the per-bar decision `BarOutcomeAt` over bars 50 up to `len - 200`.
  - The ledger invariant (`Ledger`) ties the equity curve, the balance and
    the trade log together at every step.
  - Equity stays positive whenever the base risk fraction is below 2/3.
  - `MetricsOf` computes the summary figures.

Two behaviours of the source stand out in the proofs:

- `Backtest.StopBeyondEntryLosesOnFill`: the backtester takes the stop from the
  signal candle's extreme and the entry from the order block's body. It never
  checks that the stop lies on the losing side of the entry. When a bullish
  entry sits below its stop (or a bearish entry above it), the bar that fills
  the order already touches the stop. Such a trade therefore either expires or
  is lost on its fill bar. It can never win.
- `Patterns.MssAndSl`: `df[mask].iloc[:-2]` drops the last two *selected*
  swing rows, not the last two candles. The live detector therefore compares
  the close against the swing that has exactly two later swings of its kind,
  not against the most recent one. The backtester's `detect_mss` uses the most
  recent swing in a 20-bar window (`Backtest.DetectMss`). The two detectors
  can therefore disagree on the same data.

Where the prose description of the system and the code differ, the model
follows the code:

- Order-block window: both detectors' windows end with the signal candle
  itself. The description says the window excludes it
  (`Patterns.ObWindowEndsWithSignalCandle`).
- Order-block lookback: the backtester uses 20 bars, not 30.
- Backtester entry: the backtester's entry uses the overlap midpoint only for
  a high confluence. Otherwise it uses the order block's body edge (its low
  for a buy, its high for a sell). The live engine's finer priority list is
  `Patterns.RefinedEntry`.
- POOR alignment bonus: an aligned analysis with POOR strength earns 5 bonus
  points, not 0 (`Mtf.MtfScoreBonus`, `Mtf.EmptyAnalysisEarnsFive`).
- Reward ratio: the ratio is the fixed 3.0/2.5/2.0 tiering, with no further
  scaling for tight stops.

## Model

| member | source | states |
|---|---|---|
| Candles.CountMeaning | engine.py:623 | the count of a boolean column is zero exactly when no row is selected and two or more exactly when two distinct rows are |
| Patterns.MssAndSl | engine.py:76-103 | a shift needs a reference swing high and low; bullish (stop at the signal candle's low) when the signal candle closes above the reference high, else bearish (stop at its high) when it closes below the reference low; bullish is tested first |
| Patterns.DetectMssAndSl | engine.py:71-103 | writes the `swing_high`/`swing_low` columns of every row into the frame and returns the shift of `MssAndSl`; the rows are left unchanged |
| Patterns.ShiftBreaksEarlierSwing | engine.py:83-101 | the swing a shift breaks is a genuine swing lying before the signal candle, and the candle's close is beyond it |
| Patterns.RisingHighsGiveNoShift | engine.py:76-87 | on a frame whose highs rise strictly there is no swing high and hence no shift |
| Patterns.GapOf | engine.py:115-123 | bullish gap [c1.high, c3.low] when c3.low > c1.high, else bearish [c3.high, c1.low] when c3.high < c1.low, else none; a gap is never empty |
| Patterns.FindFvg | engine.py:105-123 | the gap over rows -4 and -2: bullish exactly when row -2's low is above row -4's high, none exactly when the ranges touch |
| Patterns.GapIsUntraded | engine.py:115-121 | between well-formed candles, the gap lies above (bullish) or below (bearish) both candles' ranges |
| Patterns.BlockOf | engine.py:155-166 | the block copies the candle's range and time, its body is the ordered open/close, and for a well-formed candle the body lies inside the range |
| Patterns.LastOpposingBlock | engine.py:147-176 | none exactly when no candle of the window opposes the shift; otherwise the block of the last opposing candle |
| Patterns.ObWindow | engine.py:145 | the window is `iloc[-lookback-1:-1]`, the lookback rows before the forming one, clamped at the start |
| Patterns.ObWindowEndsWithSignalCandle | engine.py:144-145 | the window's last row is the signal candle (row -2) |
| Patterns.FindOrderBlock | engine.py:125-189 | none without a shift or without an opposing candle; otherwise the last opposing candle of the window as a block of the shift's kind, and no later candle opposes |
| Patterns.TierOf | engine.py:235 | high from 70%, medium from 50%, low below |
| Patterns.CheckConfluence | engine.py:191-236 | none when a side is missing, the kinds differ, the ranges do not overlap or the share is below the minimum; otherwise the overlap zone, its share of the gap and its tier |
| Patterns.OverlapIsShareOfGap | engine.py:217-222 | a non-empty overlap no wider than the gap is a share of it in (0, 100] |
| Patterns.RefinedEntry | engine.py:238-282 | the entry by priority: overlap midpoint (high), overlap top or bottom (medium), body midpoint (low), body edge without confluence, gap edge without a block; none only when all three inputs are absent |
| Patterns.EntryLiesInItsZone | engine.py:256-282 | the refined entry always lies in the zone that produced it: the overlap, the block's body or the gap |
| Patterns.SetupScore | engine.py:291-319 | the score lies in [0, 100] |
| Patterns.RatingOf | engine.py:322-329 | EXCELLENT from 90, GOOD from 75, FAIR from 60, POOR below, each as an if-and-only-if |
| Patterns.FactorsOf | engine.py:294-317 | one line per present signal: the shift, block and gap lines exactly when those are present, and the strong, medium or weak confluence line exactly for a confluence of that tier |
| Patterns.AnalyzeSetupQuality | engine.py:284-335 | score, rating and one factor line per signal that scored: the shift, block and gap lines exactly when those are present, and the strong, medium or weak confluence line exactly when the confluence has that tier |
| Patterns.ScoreNeverDropsWhenSignalAdded | engine.py:294-319 | adding a signal or raising the confluence tier never lowers the score |
| Patterns.ExcellentIffCompleteSetup | engine.py:294-329 | EXCELLENT exactly when shift, block and gap are all present and there is confluence |
| Patterns.ConfluentShiftIsExcellent | engine.py:294-329 | a shift with a confluent block and gap always rates EXCELLENT |
| Mtf.LastTwo | engine.py:357-369 | the rows of `values[-2]` and `values[-1]`: none exactly when fewer than two rows are selected |
| Mtf.TrendFromSwings | engine.py:360-376 | ranging when fewer than two swing highs or lows exist |
| Mtf.DetectTrend | engine.py:337-376 | the trend of `iloc[-lookback:]` (the whole frame for 0) as read from its swing columns |
| Mtf.TrendFollowsLastSwings | engine.py:364-376 | bullish exactly when the last two swing highs and lows both rise, bearish exactly when both fall, ranging otherwise |
| Mtf.StanceOf | engine.py:454-462 | aligned when the trend or the timeframe's own shift matches the signal, ranging when the trend is ranging and not aligned, misaligned otherwise |
| Mtf.NamesWith | engine.py:445-462 | a name is in the list exactly when some timeframe of that name has the stance; the list is never longer than the analysis |
| Mtf.StrengthOf | engine.py:480-487 | PERFECT from 100%, STRONG from 50%, WEAK from 30%, POOR below |
| Mtf.CheckMtfAlignment | engine.py:430-497 | the loop's report equals `AlignmentOf`: no report without a signal, and the three lists, count, share, strength and aligned flag for a signal; the share lies in [0, 100] |
| Mtf.StancesPartition | engine.py:449-462 | the three lists together hold every timeframe name exactly once |
| Mtf.StanceCounts | engine.py:464-468 | the three list lengths add up to the number of timeframes |
| Mtf.AllWithStance | engine.py:449-472 | a list is complete exactly when every timeframe has that stance |
| Mtf.PctFullIffAllAgree | engine.py:477-481 | the share reaches 100% exactly when a non-empty analysis is fully aligned |
| Mtf.AlignmentPctInRange | engine.py:477-481 | the aligned share of any analysis is a percentage in [0, 100] |
| Mtf.AlignedIffFewAgainst | engine.py:473-475 | without require-all, aligned exactly when aligned plus ranging is at least half |
| Mtf.RequireAllMeansEveryTimeframe | engine.py:471-472 | with require-all, aligned exactly when every timeframe is aligned |
| Mtf.MtfScoreBonus | engine.py:499-521 | 0 exactly when there is no signal or no alignment; for an aligned report 20, 15, 10 and 5 exactly for PERFECT, STRONG, WEAK and POOR strength |
| Mtf.FullBonusIffAllAgree | engine.py:477-515 | 20 points exactly when a non-empty analysis is fully aligned |
| Mtf.EmptyAnalysisEarnsFive | engine.py:464-521 | an empty analysis counts as aligned with POOR strength and earns 5 |
| Breakers.NextCandles | engine.py:616 | the up to five candles after row i, in order |
| Breakers.BlockAt | engine.py:608-651 | a block copies row i's prices and time and has at least two candles after it |
| Breakers.BlockAtMeaning | engine.py:612-651 | bullish exactly for a bearish candle followed by at least two bullish ones out of the next up to five, the last of which makes a higher high; bearish mirrored |
| Breakers.BlocksBefore | engine.py:608-653 | every block found is genuine, lies in rows 2 to n-1, and the blocks are in row order |
| Breakers.BlocksBeforeComplete | engine.py:608-653 | no genuine block in rows 2 to n-1 is missed |
| Breakers.FindHistoricalOrderBlocks | engine.py:593-653 | the loop returns exactly `HistoricalBlocks` |
| Breakers.HistoricalBlocksAreGenuine | engine.py:605-653 | the blocks found over `iloc[-lookback:]` are exactly its genuine blocks of rows 2 to len-2 |
| Breakers.BreakMask | engine.py:560 | marks the candles that close through the block against its direction |
| Breakers.BreakerOf | engine.py:551-589 | a breaker exactly when some candle breaks the block; it flips the kind, keeps the range, carries the last break's time, is high quality exactly with two or more breaks, and its relevance follows the current price |
| Breakers.BreakersOf | engine.py:551-591 | the breakers are exactly those of the broken blocks |
| Breakers.DetectBreakerBlock | engine.py:523-591 | none without blocks; otherwise the breakers over `iloc[-lookback:]` judged at the last close |
| Breakers.BreakerFlipsDirection | engine.py:557-589 | every breaker points opposite to its original block |
| Breakers.CheckPriceInBreakerBlock | engine.py:655-680 | inside exactly within the range, near exactly within the tolerance band and not inside, outside otherwise |
| Breakers.WiderToleranceKeepsNearPrices | engine.py:667-678 | widening the tolerance never moves an inside or near price outside |
| Breakers.RelevantOf | engine.py:698-712 | exactly the blocks of the setup's kind whose band holds the entry, with their positions |
| Breakers.HighOnes | engine.py:718 | the high-quality half of the sort key |
| Breakers.OtherOnes | engine.py:718 | the other half of the sort key |
| Breakers.FirstHighIndex | engine.py:718 | the index of the first high-quality block: every block before it is of lower quality, and it is high quality unless it is the length |
| Breakers.HighOnesStartAtFirstHigh | engine.py:718 | the stable sort puts the first high-quality block at the front of the high-quality half |
| Breakers.OtherOnesStartAtFirst | engine.py:718 | the stable sort keeps a leading lower-quality block at the front of the lower-quality half |
| Breakers.SplitIsPermutation | engine.py:718 | the two halves together are a permutation of the list |
| Breakers.SortByQualityIsOrderedPermutation | engine.py:718-720 | the sort permutes the list and puts every high-quality block before the others |
| Breakers.EnhanceSetupWithBreakerBlocks | engine.py:682-728 | the loop returns exactly `BbConfluenceOf` |
| Breakers.BbConfluenceMeaning | engine.py:694-728 | a confluence exactly when some block of the setup's kind holds the entry; the count is all of them; the bonus is 15 exactly when one of them is of high quality, else 10 |
| Breakers.BestBreakerIsFirstPreferred | engine.py:718-727 | the best block is the first high-quality relevant block in list order, else the first relevant block, and the reported position and quality are that block's |
| Backtest.MssWindow | backtester.py:61-62 | the window is `iloc[max(0, index-20):index]` |
| Backtest.DetectMss | backtester.py:57-58 | no shift before index 3 |
| Backtest.DetectMssMeaning | backtester.py:61-86 | a shift needs a swing high and a swing low in the window; bullish (stop at candle index-1's low) exactly when that candle closes above the last swing high; bearish (stop at its high) exactly when it does not and closes below the last swing low |
| Backtest.DetectMssSeesOnlyItsWindow | backtester.py:61-70 | the shift depends only on the 20 candles before the index |
| Backtest.RisingLowsGiveNoShift | backtester.py:65-76 | strictly rising lows in the window mean no swing low and no shift |
| Backtest.ObWindowAt | backtester.py:93 | the window is the lookback candles before the index |
| Backtest.FindOrderBlock | backtester.py:90-91 | none without a shift or before the lookback is available |
| Backtest.FindOrderBlockMeaning | backtester.py:93-118 | none exactly when no candle of the window opposes the shift; otherwise the last opposing candle's block of the shift's kind |
| Backtest.OrderBlockMatchesLiveDetector | backtester.py:88-118 | equals the live detector's block on the series cut just after the index |
| Backtest.FindFvg | backtester.py:120-134 | none before index 4; bullish exactly when candle index-2's low is above candle index-4's high; none exactly when their ranges touch |
| Backtest.FvgMatchesLiveDetector | backtester.py:120-134 | equals the live detector's gap on the series cut at the index |
| Backtest.ConfluenceMatchesLiveEngine | backtester.py:136-158 | present exactly when the live engine's is; same share and tier; the share is at least the minimum and at most 100 |
| Backtest.CalculateSetupQuality | backtester.py:160-180 | score in [0, 100], rated by the 90/75/60 thresholds |
| Backtest.ScoreMatchesLiveEngine | backtester.py:160-180 | the replay's score and rating equal the live engine's |
| Backtest.GetEntryPrice | backtester.py:182-193 | the overlap midpoint for a high confluence; otherwise the body low (buy) or body high (sell) of the block, none without a block |
| Backtest.EntryLiesInOrderBlock | backtester.py:182-193 | on the replay's own confluence, there is an entry exactly when there is a block; it lies within the block's range, and for a high confluence also within the gap |
| Backtest.RiskMultiplier | backtester.py:203 | 1.5 exactly from 90, 1.3 exactly for 85-89, 1.1 exactly for 75-84, 1.0 exactly below 75 |
| Backtest.RrRatio | backtester.py:382 | 3.0 exactly from 90, 2.5 exactly for 75-89, 2.0 exactly below 75 |
| Backtest.BetterScoreNeverRisksOrAimsLess | backtester.py:203 | both the multiplier and the ratio are monotone in the score |
| Backtest.TakeProfit | backtester.py:381-387 | the target is rr stop distances from the entry, above it exactly for a buy |
| Backtest.FirstFill | backtester.py:227-240 | the fill bar lies in the window |
| Backtest.FirstFillMeaning | backtester.py:227-240 | no fill exactly when no bar of the window reaches the entry; otherwise the first bar that does |
| Backtest.FirstFillIs | backtester.py:227-240 | the first bar that reaches the entry is the fill bar |
| Backtest.FirstExit | backtester.py:253-303 | the exit bar lies in the window |
| Backtest.FirstExitMeaning | backtester.py:253-303 | no exit exactly when no bar touches the stop or the target; otherwise the first bar that does |
| Backtest.FirstExitIs | backtester.py:253-303 | the first bar that touches a level is the exit bar |
| Backtest.FindFill | backtester.py:227-248 | the fill loop returns `FirstFill` |
| Backtest.FindExit | backtester.py:253-305 | the exit loop, stop tested before target, returns `FirstExit` |
| Backtest.SimulateSpec | backtester.py:207-217 | a stop closer than one point expires; expired and timed-out trades have zero profit and pips |
| Backtest.SimulationPayoff | backtester.py:258-303 | a loss costs the amount at risk and exits at the stop; a win pays target distance over stop distance times that amount and exits at the target; pips are 10000 per unit |
| Backtest.SimulationTiming | backtester.py:223-303 | when the order fills, the fill bar is the first of the 60 to reach the entry; when the trade closes, the exit bar is the first of the 200 to touch the stop or the target; a loss exactly when the exit bar touches the stop |
| Backtest.SimulationSearchesWholeWindows | backtester.py:206-303 | the order expires exactly when the stop is closer than one point or no bar of the 60 from the signal reaches the entry; a trade times out only when it filled and no bar of the 200 from the fill touches the stop or the target |
| Backtest.UntouchedEntryExpires | backtester.py:227-248 | an entry untouched for 60 bars expires with no profit, whatever follows |
| Backtest.StopWinsTies | backtester.py:257-292 | an exit bar touching both levels is a loss |
| Backtest.TargetOnNextBarWins | backtester.py:253-280 | a target first touched one bar after the fill is a win after one bar held, paying rr times the amount at risk |
| Backtest.StopBeyondEntryLosesOnFill | backtester.py:227-268 | with the stop on the wrong side of the entry a trade never wins: it expires or is lost on its fill bar |
| Backtest.WinPaysRewardRatio | backtester.py:271 | with the target from `TakeProfit`, a win pays exactly rr times the amount at risk |
| Backtest.PlanAtMeaning | backtester.py:360-387 | a shift is planned exactly when it passes the confluence gate (when required), the score gate and the present, non-zero entry gate; the plan trades that entry at that quality, and its target and ratio follow from its score |
| Backtest.BarOutcomeAt | backtester.py:392 | only won or lost trades are logged |
| Backtest.BarOutcomeMeaning | backtester.py:350-411 | a signal exactly when a shift is detected; an unplanned shift is skipped; a planned shift is logged exactly when its simulation wins or loses, and the record carries the bar's time, the shift's direction and stop, the plan's entry, target, score, rating and ratio, and the simulation against the current balance |
| Backtest.Apply | backtester.py:354-411 | a bar without a shift changes nothing; a skipped signal only counts; a trade counts and moves the balance, extends the equity curve by the new balance and is logged |
| Backtest.ScanUpToStep | backtester.py:350-411 | scanning one more bar applies that bar's decision to the state so far |
| Backtest.ScanEnd | backtester.py:350 | the scan reaches past bar 50 exactly when the series is longer than 250 bars |
| Backtest.ApplyKeepsLedger | backtester.py:392-411 | booking a bar keeps the ledger: one equity point per trade, each equal to the initial balance plus the profit so far, the balance equal to the last point, and signals at least trades |
| Backtest.ScanKeepsLedger | backtester.py:342-411 | any scan whose decisions log only closed trades keeps the ledger |
| Backtest.StrategyLogsOnlyClosedTrades | backtester.py:392 | the strategy logs only won or lost trades |
| Backtest.StrategyKeepsLedger | backtester.py:342-411 | the backtest's state keeps the ledger after every bar |
| Backtest.RiskBelowBalance | backtester.py:203-206 | with a base risk below 2/3 the amount at risk is non-negative and below the balance |
| Backtest.LossBoundedByRisk | backtester.py:258-259 | no trade loses more than its amount at risk |
| Backtest.StrategyKeepsBalancePositive | backtester.py:392-397 | from a positive balance a logged trade leaves it positive |
| Backtest.ScanKeepsEquityPositive | backtester.py:342-397 | under that condition every equity point and the balance stay positive |
| Backtest.StrategyKeepsEquityPositive | backtester.py:342-397 | the backtest's equity stays positive from a positive start with base risk below 2/3 |
| Backtest.SeqMax | backtester.py:447 | the best trade is one of the profits and no profit exceeds it |
| Backtest.SeqMin | backtester.py:448 | the worst trade is one of the profits and no profit is below it |
| Backtest.SumBetween | backtester.py:441 | a sum of values in [lo, hi] lies between n*lo and n*hi |
| Backtest.MeanBetweenExtremes | backtester.py:445-448 | the mean lies between the worst and the best value |
| Backtest.Average | backtester.py:445-446 | the mean of a column, 0 for an empty column; a mean lies between the column's smallest and largest value |
| Backtest.ProfitFactor | backtester.py:451-453 | 0 when the losses sum to zero; otherwise the factor times the gross loss is the gross profit |
| Backtest.Share | backtester.py:438 | the win rate lies in [0, 100], is 100 exactly when every trade won, and times the trade count is 100 times the win count |
| Backtest.Growth | backtester.py:442 | the return times the initial balance is 100 times the gain |
| Backtest.Pnls | backtester.py:441 | the profit column, row by row |
| Backtest.PnlsWith | backtester.py:433-434 | a profit is in the column exactly when some trade with that outcome made it; never more rows than trades |
| Backtest.WinsAndLossesCount | backtester.py:432-437 | wins and losses never outnumber the trades, and account for all of them when every trade is closed |
| Backtest.Peak | backtester.py:457 | the running maximum: no earlier point exceeds it and some earlier point attains it |
| Backtest.DrawdownAt | backtester.py:456-458 | a drawdown is never positive and, for a non-negative point, never below -100% |
| Backtest.MaxDrawdown | backtester.py:459 | the maximum drawdown is at most every point's drawdown and never positive |
| Backtest.MaxDrawdownIsAttained | backtester.py:456-459 | the maximum drawdown is attained at some point |
| Backtest.RisingEquityHasNoDrawdown | backtester.py:456-459 | an equity curve that never falls has zero drawdown |
| Backtest.PeakOfRisingIsLast | backtester.py:457 | on a non-falling curve the running peak is the current point |
| Candles.PercentOfWhole | backtester.py:438 | a win rate lies in [0, 100] and is 100 exactly when every trade won |
| Backtest.Scores | backtester.py:466 | the quality-score column, row by row |
| Backtest.Rrs | backtester.py:484 | the reward-ratio column, row by row |
| Backtest.MetricsOf | backtester.py:424-485 | no report exactly without trades; the counts; the win rate is the `Share` of wins; total profit; the return is the `Growth` of the balance; best and worst are attained and bound every trade's profit; the drawdown is the deepest of any point and attained; the profit factor is `ProfitFactor` of the win and loss columns; the average win, loss, score and reward ratio are each their column's `Average` |
| Backtest.ReportAgreesWithLedger | backtester.py:426-459 | on a ledger-keeping state there is a report exactly when a trade was taken; its total profit is the balance's gain, its return is the balance's growth over the initial balance, and wins plus losses are all the trades taken |
| Backtest.Backtester.constructor | backtester.py:14-30 | the fields start as given: balance at the initial balance, empty trade log, equity curve and returns |
| Backtest.Backtester.SimulateTrade | backtester.py:195-311 | the imperative simulation with the current balance returns `SimulateSpec` |
| Backtest.Backtester.CalculateMetrics | backtester.py:424-485 | the report of the object's log: none exactly while no trade is logged; otherwise it counts the logged trades, reports the current balance and the log's total profit, bounds every trade's profit between worst and best, and bounds every equity point's drawdown from below |
| Backtest.Backtester.ScanBar | backtester.py:352-411 | the gates run in the source's order and return `BarOutcomeAt` against the current balance |
| Backtest.Backtester.Record | backtester.py:392-411 | the fields and counters after booking a bar are `Apply` of those before |
| Backtest.Backtester.RunBacktest | backtester.py:313-422 | after the run the balance, trade log and equity curve are `ScanUpTo` at `len - 200`, the ledger holds, and the result is the report plus the signal and trade counts |

## Left out

- Data fetching (`fetch_historical_data`, the MetaTrader calls in `engine.py`), `get_mtf_structure`, `get_timeframe_name`, ATR and volume helpers, `print_results`, `export_results` and progress printing are I/O and are left out. The candle series and the timeframe analyses are parameters.
- The Sharpe ratio and `daily_returns` are left out: they need square roots and floating-point sample statistics. `avg_quality_score` and `avg_rr_ratio` are kept as means.
- `lot_size` in `simulate_trade` is computed and never used, so it is not modelled.
- The configuration dictionary's `.get` defaults are modelled as `DefaultConfig`. A missing key and a `None` config are not distinguished.
- The model uses exact arithmetic. It does not model floating-point rounding, NaN or infinity, including pandas' NaN from a zero running maximum and Python's `ZeroDivisionError`.
- Backtest.Backtester.RunBacktest: requires a positive initial balance. The source divides by it in `total_return_pct`, and the drawdown divides by the running maximum of the equity curve.
- Backtest.MetricsOf: requires a positive first equity point whenever there are trades, for the same drawdown division.
- Breakers.EnhanceSetupWithBreakerBlocks: Python's in-place `list.sort` is modelled on values, as the stable partition `SortByQuality`.
- Patterns.RefinedEntry: requires an order block whenever the confluence is low. The source reads the block's body there, and a low confluence cannot arise without one.
- Backtest.GetEntryPrice: requires a block and a gap for a high confluence. The source reads both there.
- The `factors` lines of `analyze_setup_quality` are modelled as tags, not as their display strings.
- Timestamps are integers and tick volume is not used by the core.
- Patterns.MssAndSl, Patterns.DetectMssAndSl, Patterns.FindFvg, Breakers.DetectBreakerBlock, Backtest.DetectMss and Backtest.FindFvg: their requires exclude the short frames on which the source raises `IndexError`. These are `df.iloc[-2]` with fewer than two rows, `df.iloc[-4]` with fewer than four, `df.iloc[-1]` on an empty frame while blocks are given, `df.iloc[index-1]` past the end, and `df.iloc[index-2]` past the end. The error itself is not modelled; the backtest scan never reaches these inputs.
- Mtf: the source keys the timeframe analysis by name, so names are unique. The model's sequence of `TimeframeStructure` allows repeated names, and the lemmas hold for those too.
