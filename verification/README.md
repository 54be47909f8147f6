# Trading simulator model

A Dafny model of the numeric core of a Monte Carlo trading simulator
(`TradingSimulator` in `python.py`). The simulator is built with a start
equity, a win probability, a win/loss ratio, a risk per trade, a number of
trades and a number of simulations. For each simulation it generates one
equity curve. Each trade risks a fixed fraction of the *current* equity. A
won trade adds the risked amount times the win/loss ratio; a lost trade
subtracts the risked amount. From the curves it then computes a summary:

- the Kelly fraction and the expectation per unit risked;
- the biggest and the average maximum drawdown;
- the minimum and maximum final equity;
- the average performance;
- the return on the biggest drawdown;
- the longest winning and losing streaks over all paths.

The model has five modules, one per file:

- `Aggregates` (`aggregates.dfy`): the maximum, minimum and mean of a list
  of per-path results, as numpy computes them.
- `EquityPath` (`equity_path.dfy`): the parameters (`Config`), one trade
  (`Step`), and what it means to be the equity curve of a sequence of
  draws (`IsEquityCurve`). It also holds the path generator
  `SimulateSinglePath`, a loop. Proved here: the compounding closed form,
  positivity, the all-win and all-loss curves, and determinism.
- `Drawdown` (`drawdown.dfy`): the running peak, the drawdown at each
  point and the maximum drawdown as specification functions. The scanning
  loop `CalculateMaxDrawdown` is proved equal to them. Also proved: bounds,
  the largest-drawdown characterisation, and rising and falling curves.
- `Streak` (`streak.dfy`): the streak ending at each point and the longest
  streak as specification functions. The scanning loop
  `CalculateConsecutiveWinsOrLosses` is proved equal to them. Also proved:
  the longest streak is the longest run of counted moves, the winning and
  losing streaks share no move, and curve moves match trade outcomes.
- `Simulator` (`simulator.dfy`): the expectation, the Kelly fraction, the
  `Summary` record of statistics, and the per-path lists in path order.
  It also holds the class `TradingSimulator`, whose `RunSimulation`
  replaces the stored paths and statistics. Proved here: facts about the
  Kelly fraction, and ensemble statistics (bounds, membership, no-ruin,
  all-win and all-loss runs).

The random generator is not modelled as a generator. A run takes the draws
it would have consumed as input: one block of `nTrades` uniform draws per
path, in the order the sequential loop takes them. Floating point numbers
are modelled as exact reals.

## Model

| member | source | states |
|---|---|---|
| Aggregates.Max | python.py:42 | the result is an element of the non-empty list and no element exceeds it |
| Aggregates.Min | python.py:44 | the result is an element of the non-empty list and no element is below it |
| Aggregates.MaxNat | python.py:49-50 | the result is one of the counts and no count exceeds it |
| Aggregates.Mean | python.py:43 | the mean of a non-empty list lies between its minimum and its maximum |
| EquityPath.Step | python.py:61-67 | one trade multiplies the current equity by the win factor 1 + risk·ratio or the loss factor 1 − risk, so risk is taken on current equity |
| EquityPath.IsEquityCurve | python.py:56-71 | the reference definition of a curve: n_trades + 1 points, the first is the start equity, each next point is `Step` of the previous point and its draw; `SimulateSinglePath` is proved against it |
| EquityPath.SimulateSinglePath | python.py:56-71 | the returned list is the equity curve of the draws: n_trades + 1 points, the first is the start equity, each next point is one trade applied to the previous one |
| EquityPath.CurveIsDetermined | python.py:56-71 | two curves of the same parameters and draws are equal: the draws determine the path |
| EquityPath.OutcomesPartition | python.py:63-67 | every trade is either a win or a loss: wins plus losses among the first n trades is n |
| EquityPath.StepAt | python.py:61-69 | each recorded point is the previous point times the factor of that trade's outcome |
| EquityPath.CurveIsCompounded | python.py:57-69 | point i is the start equity times the product of the first i trade factors (compounding) |
| EquityPath.GrowthByCount | python.py:61-67 | that product is the win factor to the number of wins times the loss factor to the number of losses, whatever the order |
| EquityPath.StaysPositive | python.py:61-67 | while every factor is positive, a positive start keeps every point positive |
| EquityPath.NeverRuined | python.py:61-67 | with risk in [0, 1), a non-negative ratio and a positive start, every point of the curve is positive |
| EquityPath.AllWinsRise | python.py:63-65 | with positive start, risk and ratio, an all-win path rises strictly at every trade |
| EquityPath.AllLossesFall | python.py:66-67 | with a positive start and risk in (0, 1), an all-loss path falls strictly at every trade |
| EquityPath.LossesStayNonNegative | python.py:66-67 | when every trade is lost with risk in [0, 1], a non-negative start keeps every point non-negative |
| EquityPath.AllLossesNeverRise | python.py:66-67 | when every trade is lost with risk in [0, 1] and a non-negative start, no point lies above the one before it |
| EquityPath.CertainWinWinsEveryTrade | python.py:63 | with win probability 1 every uniform draw in [0, 1) is a win |
| EquityPath.CertainLossLosesEveryTrade | python.py:63 | with win probability 0 every uniform draw is a loss |
| EquityPath.WinThenLossExample | python.py:56-71 | start 100, risk 1%, ratio 3: a win then a loss gives the curve 100, 103, 101.97 |
| Drawdown.PeakAt | python.py:74-78 | the running peak is never below the first point nor the current point |
| Drawdown.PeakIsHighest | python.py:74-78 | the running peak is the highest point visited so far: it bounds each of them and is one of them |
| Drawdown.DrawdownAt | python.py:79 | the drawdown at a point is at least 0; at most 1 when the point is non-negative, below 1 when it is positive |
| Drawdown.MaxDrawdownUpToIsLargest | python.py:76-81 | the fold up to point i bounds every drawdown up to i and equals one of them |
| Drawdown.MaxDrawdownOf | python.py:73-82 | the reference definition of the maximum drawdown: the largest `DrawdownAt` over the points, folded left to right from 0 (the first point always has drawdown 0, as the scan's initial 0); requires a non-empty curve with a positive first point; `CalculateMaxDrawdown` is proved equal to it |
| Drawdown.MaxDrawdownIsLargest | python.py:73-82 | the maximum drawdown is the drawdown of some point, and no point draws down further |
| Drawdown.MaxDrawdownBounds | python.py:74-82 | the maximum drawdown is at least 0; at most 1 when no point is negative; below 1 when all points are positive |
| Drawdown.CalculateMaxDrawdown | python.py:73-82 | the scan with a running peak returns the maximum drawdown of the curve |
| Drawdown.RisingPeak | python.py:76-78 | on a strictly rising curve every point is its own running peak |
| Drawdown.RisingCurveHasNoDrawdown | python.py:73-82 | a strictly rising curve has maximum drawdown 0 |
| Drawdown.DrawdownAtPeak | python.py:79 | a point equal to its running peak has drawdown 0 |
| Drawdown.FallingPeak | python.py:74-78 | on a strictly falling curve the running peak stays at the first point |
| Drawdown.FallingCurveDrawdown | python.py:73-82 | a strictly falling curve keeps its peak at the start and draws down most at its last point |
| Drawdown.WinThenLossDrawdown | python.py:73-82 | the curve 100, 103, 101.97 has maximum drawdown exactly 0.01 |
| Streak.StreakEndingAt | python.py:88-94 | the streak ending at point i is at most i moves long |
| Streak.LongestStreakUpTo | python.py:88-94 | the longest streak up to point i is at most i and at least every streak ending at or before i |
| Streak.LongestStreak | python.py:87-95 | the result is 0 for a path of at most one point and at most len(path) − 1 otherwise |
| Streak.CalculateConsecutiveWinsOrLosses | python.py:87-95 | the scan with a current and a longest counter returns the longest streak of the curve |
| Streak.StreakIsRun | python.py:89-94 | the streak ending at a point is a run of consecutive counted moves |
| Streak.RunWithinStreak | python.py:89-94 | no run ending at a point is longer than the streak ending there |
| Streak.LongestStreakIsLongestRun | python.py:87-95 | some run of counted moves has exactly the longest-streak length and no run is longer |
| Streak.RisingStreaks | python.py:89-94 | a strictly rising curve is one winning streak through every move and has no losing streak |
| Streak.NeverRisingStreaks | python.py:89-94 | a curve that never rises is one losing streak through every move and has no winning streak |
| Streak.NoMoveIsBoth | python.py:90 | each move counts as exactly one of a win or a loss |
| Streak.DisjointRuns | python.py:90 | a winning run and a losing run together span at most the number of moves |
| Streak.StreaksShareMoves | python.py:87-95 | the longest winning plus the longest losing streak of a curve is at most len(path) − 1 |
| Streak.ZeroRiskReadsAsLosses | python.py:90 | with zero risk the curve is flat and every trade, won or lost, reads as a loss |
| Streak.MovesMatchOutcomes | python.py:63-90 | with a positive start, risk in (0, 1) and a positive ratio, a move rises exactly when its trade is won |
| Streak.AlternatingStreaks | python.py:87-95 | on the win, loss, win curve 100, 103, 101.97, 105.0291 both longest streaks are 1 |
| Simulator.ExpectedStep | python.py:41 | the probability-weighted next equity is the equity plus the risked amount times the expectation |
| Simulator.Expectation | python.py:41 | defines p·R − (1 − p), the expected result of one trade per unit risked; its meaning is stated by `ExpectedStep` |
| Simulator.DefaultEdge | python.py:7-13 | the default parameters give an expectation of 2 and a Kelly fraction of 2/3 |
| Simulator.Kelly | python.py:84-85 | defines p − (1 − p)/R; requires R ≠ 0; its meaning is stated by `KellyScalesToExpectation`, `KellySign` and `KellyBalancesGrowth` |
| Simulator.KellyScalesToExpectation | python.py:84-85 | the Kelly fraction times the win/loss ratio is the expectation |
| Simulator.KellySign | python.py:84-85 | for a positive ratio the Kelly fraction is positive, zero or negative exactly when the expectation is |
| Simulator.KellyBalancesGrowth | python.py:84-85 | at the Kelly fraction k, p·R·(1 − k) = (1 − p)·(1 + k·R): the slope of the expected log-growth is zero |
| Simulator.EdgeDependsOnOddsOnly | python.py:41 | Kelly and the expectation depend only on the win probability and the ratio |
| Simulator.FinalEquities | python.py:31 | one final equity per path |
| Simulator.FinalEquitiesAt | python.py:28-31 | entry k of the final equities is the last point of path k |
| Simulator.MaxDrawdowns | python.py:32 | one maximum drawdown per path |
| Simulator.MaxDrawdownsAt | python.py:28-32 | entry k of the drawdowns is the maximum drawdown of path k |
| Simulator.Streaks | python.py:49-50 | one longest streak per path |
| Simulator.StreaksAt | python.py:49-50 | entry k of the streaks is the longest streak of path k |
| Simulator.Performance | python.py:46 | defines mean/start − 1, the average performance as a fraction; requires start > 0; stated by `PerformanceScalesToGain` |
| Simulator.PerformanceScalesToGain | python.py:46 | the average performance times the start equity is the average gain |
| Simulator.ReturnOnDrawdown | python.py:48 | there is no return on drawdown exactly when the biggest drawdown amount is 0 |
| Simulator.ReturnScalesToGain | python.py:48 | when there is one, the return on drawdown times the drawdown amount is the average gain |
| Simulator.Summarize | python.py:39-50 | the raw statistics from the per-path lists: Kelly, expectation, biggest drawdown and its amount, average drawdown, min and max final equity, average performance and gain, return on drawdown (None when the amount is 0), longest winner and loser; the median performance is left out; its properties are the three Summary lemmas below |
| Simulator.SummaryOf | python.py:39-50 | the statistics of a set of paths: `Summarize` of their final equities, maximum drawdowns and longest streaks, in path order; requires at least one path, each starting positive, start > 0 and R ≠ 0 |
| Simulator.SummaryEquityBounds | python.py:44-46 | every final equity lies between the reported min and max, both of which are final equities, and the average gain lies between the smallest and the largest gain |
| Simulator.SummaryDrawdownBounds | python.py:42-48 | the biggest drawdown is one of the drawdowns and bounds them all, the average lies in [0, biggest], and a return is reported exactly when the biggest is nonzero |
| Simulator.SummaryStreaks | python.py:49-50 | the reported longest winner and loser are the largest of the per-path streaks |
| Simulator.SummaryOfDrawdowns | python.py:42-48 | over any valid paths the biggest drawdown is some path's maximum drawdown and bounds every path's, the average lies in [0, biggest], and a return is reported exactly when some path drew down |
| Simulator.AllWinsNoDrawdown | python.py:42-48 | the paths are valid and, when every trade of every path is won, the biggest drawdown is 0 and no return on drawdown is reported |
| Simulator.AllLossesLongestLoser | python.py:49-50 | the paths are valid and, when every trade is lost with risk in [0, 1], the longest losing streak is n_trades and the longest winning streak 0 (flat moves at risk 0 or after ruin at risk 1 count as losses) |
| Simulator.CertainWinNoDrawdown | python.py:63 | with win probability 1 and uniform draws, every path rises strictly and has maximum drawdown 0, the biggest drawdown is 0 and no return on drawdown is reported |
| Simulator.CertainLossLongestLoser | python.py:63 | with win probability 0 and uniform draws: every path falls strictly when risk is in (0, 1); for any risk in [0, 1] the longest losing streak is n_trades and the longest winning streak 0 |
| Simulator.CurvesAreValid | python.py:56-71 | equity curves of a positive start equity are valid paths: non-empty, first point positive |
| Simulator.NoRuinMinEquity | python.py:44 | with risk in [0, 1) and a positive ratio the minimum final equity is positive |
| Simulator.NoRuinDrawdown | python.py:42 | under the same conditions the biggest maximum drawdown is below 1 |
| Simulator.PathNotRuined | python.py:56-82 | under the same conditions one path ends positive and its maximum drawdown is in [0, 1) |
| Simulator.SimulatePaths | python.py:28-32 | one curve per block of draws, each the equity curve of its draws; the final equities and drawdowns are those of the curves, in path order |
| Simulator.ConsecutiveStreaks | python.py:49-50 | the per-path longest streaks, in path order |
| Simulator.Simulate | python.py:23-51 | n_simulations curves, each the equity curve of its draws, and the summary of exactly those curves |
| Simulator.TradingSimulator.constructor | python.py:7-21 | stores the parameters, with no paths and no statistics |
| Simulator.TradingSimulator.RunSimulation | python.py:23-51 | replaces the stored paths with one equity curve per block of draws and the statistics with their summary |

## Left out

- Plotting of the paths, mean and median curves (python.py:97-110): graphics only.
- HTML rendering of the statistics (python.py:112-118) and the interactive slider front end (python.py:121-181): user interface only.
- The per-index mean and median curves (python.py:35-36): they only feed the plot.
- The median performance (python.py:47): the median is display-only and needs a sort that the rest of the model does not use.
- String formatting of the statistics (python.py:42-48): the summary holds the raw numbers. Fractions stay fractions; the displayed percentages are these times 100, rounded to two places.
- The random number generator (python.py:63): replaced by the draws a run consumes, passed in as input. `IsUniformDraw` states the range the generator draws from.
- Floating point: all arithmetic is on exact reals. Rounding and IEEE infinities and NaNs are not modelled.
- script.js is not part of this model: it is a browser chart with its own cruder random walk.
- Simulator.ReturnOnDrawdown: returns `None` when the biggest drawdown is zero. Python instead divides by zero and yields an infinity or NaN.
- Drawdown.CalculateMaxDrawdown: requires a positive first point, so every running peak is positive. With a zero or negative start, Python divides by a non-positive peak.
- Simulator.Kelly: requires a nonzero win/loss ratio. Python raises a division error for a zero ratio.
- Simulator.TradingSimulator.RunSimulation: requires at least one simulation, because numpy's max of an empty list raises an error. It also requires a positive start equity and a nonzero ratio, for the two divisions above.
- Simulator.TradingSimulator.RunSimulation: assigns the list of paths once instead of appending to it in place. The resulting state is the same.
- Streak.CalculateConsecutiveWinsOrLosses: counts moves of the curve, as the source does, not trade outcomes. A flat move counts as a loss. `Streak.MovesMatchOutcomes` gives the conditions under which the two agree; `Streak.ZeroRiskReadsAsLosses` shows where they differ.
- EquityPath.CurveIsCompounded: the closed form start · win^wins · loss^losses is stated in two steps. It follows by combining this lemma with `EquityPath.GrowthByCount`.
- Simulator.Summarize: the identities behind performance, return on drawdown and Kelly are proved on the component functions. They are not restated as fields of the summary.
