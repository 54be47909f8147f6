/** The Monte Carlo trading simulator: it holds its parameters, runs
    `nSimulations` equity curves, and summarises them (Kelly fraction,
    expectation, drawdowns, final equities, performance, return on drawdown
    and the longest winning and losing streaks). */
module Simulator {
  import opened Aggregates
  import opened EquityPath
  import opened Drawdown
  import opened Streak

  datatype Option<T> = None | Some(value: T)

  /** The parameters a simulator gets when none are given. */
  const DefaultConfig := Config(100.0, 0.75, 3.0, 0.01, 100, 100)

  /** Expected result of one trade per unit risked: a win pays the ratio
      with probability p, a loss costs the unit otherwise. */
  function Expectation(cfg: Config): real
  {
    cfg.winProbability * cfg.winLossRatio - (1.0 - cfg.winProbability)
  }

  /** Over the two outcomes of a trade, weighted by their probabilities, the
      equity grows by the risked amount times the expectation. */
  lemma ExpectedStep(cfg: Config, equity: real)
    ensures cfg.winProbability * (equity * Factor(cfg, true)) + (1.0 - cfg.winProbability) * (equity * Factor(cfg, false))
         == equity + equity * cfg.riskPerTrade * Expectation(cfg)
  {
    var p, r, f := cfg.winProbability, cfg.winLossRatio, cfg.riskPerTrade;
    calc {
      p * (equity * (1.0 + f * r)) + (1.0 - p) * (equity * (1.0 - f));
      equity * (p * (1.0 + f * r) + (1.0 - p) * (1.0 - f));
      equity * (1.0 + f * (p * r - (1.0 - p)));
      equity + equity * f * (p * r - (1.0 - p));
    }
  }

  /** The default parameters have an expectation of 2 units per unit risked
      and a Kelly fraction of two thirds. */
  lemma DefaultEdge()
    ensures Expectation(DefaultConfig) == 2.0
    ensures Kelly(DefaultConfig) == 2.0 / 3.0
  {
  }

  /** Kelly fraction of equity to risk per trade. */
  function Kelly(cfg: Config): real
    requires cfg.winLossRatio != 0.0
  {
    cfg.winProbability - (1.0 - cfg.winProbability) / cfg.winLossRatio
  }

  /** Scaled by the win/loss ratio, the Kelly fraction is the expectation. */
  lemma KellyScalesToExpectation(cfg: Config)
    requires cfg.winLossRatio != 0.0
    ensures Kelly(cfg) * cfg.winLossRatio == Expectation(cfg)
  {
    var p, r := cfg.winProbability, cfg.winLossRatio;
    assert (1.0 - p) / r * r == 1.0 - p;
  }

  /** For a positive ratio, the Kelly fraction has the sign of the
      expectation: risk only on an edge. */
  lemma KellySign(cfg: Config)
    requires cfg.winLossRatio > 0.0
    ensures Kelly(cfg) > 0.0 <==> Expectation(cfg) > 0.0
    ensures Kelly(cfg) == 0.0 <==> Expectation(cfg) == 0.0
    ensures Kelly(cfg) < 0.0 <==> Expectation(cfg) < 0.0
  {
    var k, r := Kelly(cfg), cfg.winLossRatio;
    KellyScalesToExpectation(cfg);
    if k > 0.0 {
      assert k * r > 0.0 * r;
    } else if k < 0.0 {
      assert k * r < 0.0 * r;
    }
  }

  /** The Kelly fraction zeroes the slope of the expected log-growth
      p log(1 + k R) + (1 - p) log(1 - k): at k the two weighted marginal
      terms p R / (1 + k R) and (1 - p) / (1 - k) balance. */
  lemma KellyBalancesGrowth(cfg: Config)
    requires cfg.winLossRatio != 0.0
    ensures cfg.winProbability * cfg.winLossRatio * (1.0 - Kelly(cfg))
         == (1.0 - cfg.winProbability) * (1.0 + Kelly(cfg) * cfg.winLossRatio)
  {
    var p, r, k := cfg.winProbability, cfg.winLossRatio, Kelly(cfg);
    KellyScalesToExpectation(cfg);
    calc {
      (1.0 - p) * (1.0 + k * r);
      (1.0 - p) * (p * r + p);
      p * ((1.0 - p) * r + (1.0 - p));
      p * (r - (p * r - (1.0 - p)));
      p * (r - k * r);
      p * r * (1.0 - k);
    }
  }

  /** Kelly and the expectation depend only on the win probability and the
      win/loss ratio, not on the equity, the risk or the run sizes. */
  lemma EdgeDependsOnOddsOnly(cfg1: Config, cfg2: Config)
    requires cfg1.winProbability == cfg2.winProbability
    requires cfg1.winLossRatio == cfg2.winLossRatio != 0.0
    ensures Expectation(cfg1) == Expectation(cfg2)
    ensures Kelly(cfg1) == Kelly(cfg2)
  {
  }

  /** The statistics one run produces, as numbers: fractions stay
      fractions (the displayed percentages are these times 100) and amounts
      are in currency units. */
  datatype Summary = Summary(
    kelly: real,
    expectation: real,
    biggestMaxDrawdown: real,
    biggestMaxDrawdownAmount: real,
    avgMaxDrawdown: real,
    minEquity: real,
    maxEquity: real,
    avgPerformance: real,
    avgPerformanceAmount: real,
    returnOnMaxDrawdown: Option<real>,
    maxConsecutiveWinner: nat,
    maxConsecutiveLoser: nat)

  /** At least one path, each starting from a positive equity. */
  predicate ValidPaths(paths: seq<seq<real>>)
  {
    |paths| > 0 && forall i :: 0 <= i < |paths| ==> |paths[i]| > 0 && paths[i][0] > 0.0
  }

  /** The last point of every path, in the order of the paths. */
  function FinalEquities(paths: seq<seq<real>>): (fs: seq<real>)
    requires forall i :: 0 <= i < |paths| ==> |paths[i]| > 0
    ensures |fs| == |paths|
  {
    if |paths| == 0 then []
    else
      var last := paths[|paths| - 1];
      FinalEquities(paths[..|paths| - 1]) + [last[|last| - 1]]
  }

  /** The maximum drawdown of every path, in the order of the paths. */
  function MaxDrawdowns(paths: seq<seq<real>>): (dds: seq<real>)
    requires forall i :: 0 <= i < |paths| ==> |paths[i]| > 0 && paths[i][0] > 0.0
    ensures |dds| == |paths|
  {
    if |paths| == 0 then []
    else MaxDrawdowns(paths[..|paths| - 1]) + [MaxDrawdownOf(paths[|paths| - 1])]
  }

  /** The longest streak of the given kind on every path, in the order of
      the paths. */
  function Streaks(paths: seq<seq<real>>, isWins: bool): (ns: seq<nat>)
    ensures |ns| == |paths|
  {
    if |paths| == 0 then []
    else Streaks(paths[..|paths| - 1], isWins) + [LongestStreak(paths[|paths| - 1], isWins)]
  }

  /** Entry i of the final equities is the last point of path i. */
  lemma {:induction false} FinalEquitiesAt(paths: seq<seq<real>>, i: nat)
    requires forall j :: 0 <= j < |paths| ==> |paths[j]| > 0
    requires i < |paths|
    ensures FinalEquities(paths)[i] == paths[i][|paths[i]| - 1]
  {
    if i < |paths| - 1 {
      FinalEquitiesAt(paths[..|paths| - 1], i);
    }
  }

  /** Entry i of the maximum drawdowns is the maximum drawdown of path i. */
  lemma {:induction false} MaxDrawdownsAt(paths: seq<seq<real>>, i: nat)
    requires forall j :: 0 <= j < |paths| ==> |paths[j]| > 0 && paths[j][0] > 0.0
    requires i < |paths|
    ensures MaxDrawdowns(paths)[i] == MaxDrawdownOf(paths[i])
  {
    if i < |paths| - 1 {
      MaxDrawdownsAt(paths[..|paths| - 1], i);
    }
  }

  /** Entry i of the streaks is the longest streak on path i. */
  lemma {:induction false} StreaksAt(paths: seq<seq<real>>, isWins: bool, i: nat)
    requires i < |paths|
    ensures Streaks(paths, isWins)[i] == LongestStreak(paths[i], isWins)
  {
    if i < |paths| - 1 {
      StreaksAt(paths[..|paths| - 1], isWins, i);
    }
  }

  /** Average performance as a fraction of the starting equity. */
  function Performance(meanEquity: real, startEquity: real): real
    requires startEquity > 0.0
  {
    meanEquity / startEquity - 1.0
  }

  /** Times the starting equity, the performance fraction is the average
      gain. */
  lemma PerformanceScalesToGain(meanEquity: real, startEquity: real)
    requires startEquity > 0.0
    ensures Performance(meanEquity, startEquity) * startEquity == meanEquity - startEquity
  {
    assert meanEquity / startEquity * startEquity == meanEquity;
  }

  /** Average gain per unit of the biggest drawdown amount; there is none
      when no path ever drew down. */
  function ReturnOnDrawdown(gain: real, drawdownAmount: real): (r: Option<real>)
    ensures r.None? <==> drawdownAmount == 0.0
  {
    if drawdownAmount == 0.0 then None else Some(gain / drawdownAmount)
  }

  /** The return on drawdown, times the drawdown amount, is the gain. */
  lemma ReturnScalesToGain(gain: real, drawdownAmount: real)
    requires ReturnOnDrawdown(gain, drawdownAmount).Some?
    ensures ReturnOnDrawdown(gain, drawdownAmount).value * drawdownAmount == gain
  {
    assert gain / drawdownAmount * drawdownAmount == gain;
  }

  /** The summary of a run from its per-path results: the final equities,
      the maximum drawdowns and the longest winning and losing streaks. */
  function Summarize(cfg: Config, finals: seq<real>, dds: seq<real>, winners: seq<nat>, losers: seq<nat>): Summary
    requires |finals| > 0 && |dds| > 0 && |winners| > 0 && |losers| > 0
    requires cfg.startEquity > 0.0 && cfg.winLossRatio != 0.0
  {
    var meanEquity := Mean(finals);
    var biggest := Max(dds);
    var amount := biggest * cfg.startEquity;
    Summary(
      Kelly(cfg),
      Expectation(cfg),
      biggest,
      amount,
      Mean(dds),
      Min(finals),
      Max(finals),
      Performance(meanEquity, cfg.startEquity),
      meanEquity - cfg.startEquity,
      ReturnOnDrawdown(meanEquity - cfg.startEquity, amount),
      MaxNat(winners),
      MaxNat(losers))
  }

  /** The summary of a set of paths. */
  function SummaryOf(cfg: Config, paths: seq<seq<real>>): Summary
    requires ValidPaths(paths) && cfg.startEquity > 0.0 && cfg.winLossRatio != 0.0
  {
    Summarize(cfg, FinalEquities(paths), MaxDrawdowns(paths), Streaks(paths, true), Streaks(paths, false))
  }

  /** Every final equity lies between the reported minimum and maximum, and
      the average gain between the smallest and the largest gain. */
  lemma SummaryEquityBounds(cfg: Config, finals: seq<real>, dds: seq<real>, winners: seq<nat>, losers: seq<nat>)
    requires |finals| > 0 && |dds| > 0 && |winners| > 0 && |losers| > 0
    requires cfg.startEquity > 0.0 && cfg.winLossRatio != 0.0
    ensures var s := Summarize(cfg, finals, dds, winners, losers);
      && (forall i :: 0 <= i < |finals| ==> s.minEquity <= finals[i] <= s.maxEquity)
      && s.minEquity in finals && s.maxEquity in finals
      && s.minEquity - cfg.startEquity <= s.avgPerformanceAmount <= s.maxEquity - cfg.startEquity
  {
  }

  /** The biggest maximum drawdown is the largest path's, the average lies
      between 0 and it, and there is a return on drawdown exactly when some
      path drew down. */
  lemma SummaryDrawdownBounds(cfg: Config, finals: seq<real>, dds: seq<real>, winners: seq<nat>, losers: seq<nat>)
    requires |finals| > 0 && |dds| > 0 && |winners| > 0 && |losers| > 0
    requires cfg.startEquity > 0.0 && cfg.winLossRatio != 0.0
    requires forall i :: 0 <= i < |dds| ==> 0.0 <= dds[i]
    ensures var s := Summarize(cfg, finals, dds, winners, losers);
      && (forall i :: 0 <= i < |dds| ==> dds[i] <= s.biggestMaxDrawdown)
      && s.biggestMaxDrawdown in dds
      && 0.0 <= s.avgMaxDrawdown <= s.biggestMaxDrawdown
      && (s.returnOnMaxDrawdown.None? <==> s.biggestMaxDrawdown == 0.0)
  {
    var s := Summarize(cfg, finals, dds, winners, losers);
    NoAmountWithoutDrawdown(s.biggestMaxDrawdown, cfg.startEquity);
  }

  /** A drawdown fraction of a positive equity is a zero amount only when the
      fraction is zero. */
  lemma NoAmountWithoutDrawdown(fraction: real, equity: real)
    requires equity > 0.0
    ensures fraction * equity == 0.0 <==> fraction == 0.0
  {
    if fraction != 0.0 {
      assert fraction * equity != 0.0;
    }
  }

  /** The reported streaks are the longest over all paths. */
  lemma SummaryStreaks(cfg: Config, finals: seq<real>, dds: seq<real>, winners: seq<nat>, losers: seq<nat>)
    requires |finals| > 0 && |dds| > 0 && |winners| > 0 && |losers| > 0
    requires cfg.startEquity > 0.0 && cfg.winLossRatio != 0.0
    ensures var s := Summarize(cfg, finals, dds, winners, losers);
      && (forall i :: 0 <= i < |winners| ==> winners[i] <= s.maxConsecutiveWinner)
      && s.maxConsecutiveWinner in winners
      && (forall i :: 0 <= i < |losers| ==> losers[i] <= s.maxConsecutiveLoser)
      && s.maxConsecutiveLoser in losers
  {
  }

  /** For any set of paths: the biggest maximum drawdown is the largest of
      the paths' maximum drawdowns, the average lies between 0 and it, and
      a return on drawdown is reported exactly when some path drew down. */
  lemma SummaryOfDrawdowns(cfg: Config, paths: seq<seq<real>>)
    requires ValidPaths(paths) && cfg.startEquity > 0.0 && cfg.winLossRatio != 0.0
    ensures var s := SummaryOf(cfg, paths);
      && (forall i :: 0 <= i < |paths| ==> MaxDrawdownOf(paths[i]) <= s.biggestMaxDrawdown)
      && (exists i :: 0 <= i < |paths| && MaxDrawdownOf(paths[i]) == s.biggestMaxDrawdown)
      && 0.0 <= s.avgMaxDrawdown <= s.biggestMaxDrawdown
      && (s.returnOnMaxDrawdown.None? <==> s.biggestMaxDrawdown == 0.0)
  {
    var dds := MaxDrawdowns(paths);
    forall i | 0 <= i < |paths|
      ensures dds[i] == MaxDrawdownOf(paths[i]) && 0.0 <= dds[i]
    {
      MaxDrawdownsAt(paths, i);
      MaxDrawdownBounds(paths[i]);
    }
    SummaryDrawdownBounds(cfg, FinalEquities(paths), dds, Streaks(paths, true), Streaks(paths, false));
    var k :| 0 <= k < |dds| && dds[k] == SummaryOf(cfg, paths).biggestMaxDrawdown;
  }

  /** Equity curves from a positive start are valid paths. */
  lemma CurvesAreValid(cfg: Config, draws: seq<seq<real>>, paths: seq<seq<real>>)
    requires |paths| == |draws| > 0
    requires forall i :: 0 <= i < |paths| ==> IsEquityCurve(cfg, draws[i], paths[i])
    requires cfg.startEquity > 0.0
    ensures ValidPaths(paths)
  {
  }

  /** When every trade of every path is won, no path draws down, so there is
      no return on drawdown to report. */
  lemma AllWinsNoDrawdown(cfg: Config, draws: seq<seq<real>>, paths: seq<seq<real>>)
    requires |paths| == |draws| > 0
    requires forall i :: 0 <= i < |paths| ==> IsEquityCurve(cfg, draws[i], paths[i])
    requires cfg.startEquity > 0.0 && cfg.riskPerTrade > 0.0 && cfg.winLossRatio > 0.0
    requires forall i, k :: 0 <= i < |draws| && 0 <= k < |draws[i]| ==> IsWin(cfg, draws[i][k])
    ensures ValidPaths(paths)
    ensures SummaryOf(cfg, paths).biggestMaxDrawdown == 0.0
    ensures SummaryOf(cfg, paths).returnOnMaxDrawdown == None
  {
    CurvesAreValid(cfg, draws, paths);
    var dds := MaxDrawdowns(paths);
    forall i | 0 <= i < |paths|
      ensures dds[i] == 0.0
    {
      MaxDrawdownsAt(paths, i);
      AllWinsRise(cfg, draws[i], paths[i]);
      RisingCurveHasNoDrawdown(paths[i]);
    }
    SummaryDrawdownBounds(cfg, FinalEquities(paths), dds, Streaks(paths, true), Streaks(paths, false));
  }

  /** When every trade of every path is lost (and at most the whole equity
      is risked), the longest losing streak is the whole path and there is no
      winning streak: flat moves count as losses too. */
  lemma AllLossesLongestLoser(cfg: Config, draws: seq<seq<real>>, paths: seq<seq<real>>)
    requires |paths| == |draws| > 0
    requires forall i :: 0 <= i < |paths| ==> |draws[i]| == cfg.nTrades
    requires forall i :: 0 <= i < |paths| ==> IsEquityCurve(cfg, draws[i], paths[i])
    requires cfg.startEquity > 0.0 && 0.0 <= cfg.riskPerTrade <= 1.0 && cfg.winLossRatio != 0.0
    requires forall i, k :: 0 <= i < |draws| && 0 <= k < |draws[i]| ==> !IsWin(cfg, draws[i][k])
    ensures ValidPaths(paths)
    ensures SummaryOf(cfg, paths).maxConsecutiveLoser == cfg.nTrades
    ensures SummaryOf(cfg, paths).maxConsecutiveWinner == 0
  {
    CurvesAreValid(cfg, draws, paths);
    var winners, losers := Streaks(paths, true), Streaks(paths, false);
    forall i | 0 <= i < |paths|
      ensures winners[i] == 0 && losers[i] == cfg.nTrades
    {
      StreaksAt(paths, true, i);
      StreaksAt(paths, false, i);
      AllLossesNeverRise(cfg, draws[i], paths[i]);
      NeverRisingStreaks(paths[i]);
    }
    SummaryStreaks(cfg, FinalEquities(paths), MaxDrawdowns(paths), winners, losers);
  }

  /** With win probability 1 every uniform draw is a win: every path rises
      strictly and has no drawdown, and no return on drawdown is reported. */
  lemma CertainWinNoDrawdown(cfg: Config, draws: seq<seq<real>>, paths: seq<seq<real>>)
    requires |paths| == |draws| > 0
    requires forall i :: 0 <= i < |paths| ==> IsEquityCurve(cfg, draws[i], paths[i])
    requires cfg.startEquity > 0.0 && cfg.riskPerTrade > 0.0 && cfg.winLossRatio > 0.0
    requires cfg.winProbability == 1.0
    requires forall i, k :: 0 <= i < |draws| && 0 <= k < |draws[i]| ==> IsUniformDraw(draws[i][k])
    ensures ValidPaths(paths)
    ensures forall i :: 0 <= i < |paths| ==> Rising(paths[i]) && MaxDrawdownOf(paths[i]) == 0.0
    ensures SummaryOf(cfg, paths).biggestMaxDrawdown == 0.0
    ensures SummaryOf(cfg, paths).returnOnMaxDrawdown == None
  {
    CurvesAreValid(cfg, draws, paths);
    forall i | 0 <= i < |draws|
      ensures forall k :: 0 <= k < |draws[i]| ==> IsWin(cfg, draws[i][k])
      ensures Rising(paths[i]) && MaxDrawdownOf(paths[i]) == 0.0
    {
      CertainWinWinsEveryTrade(cfg, draws[i]);
      AllWinsRise(cfg, draws[i], paths[i]);
      RisingCurveHasNoDrawdown(paths[i]);
    }
    AllWinsNoDrawdown(cfg, draws, paths);
  }

  /** With win probability 0 every uniform draw is a loss: every path falls
      strictly while less than the whole equity is risked, and whatever the
      risk in [0, 1] the longest losing streak is every trade of a path and
      there is no winning streak. */
  lemma CertainLossLongestLoser(cfg: Config, draws: seq<seq<real>>, paths: seq<seq<real>>)
    requires |paths| == |draws| > 0
    requires forall i :: 0 <= i < |paths| ==> |draws[i]| == cfg.nTrades
    requires forall i :: 0 <= i < |paths| ==> IsEquityCurve(cfg, draws[i], paths[i])
    requires cfg.startEquity > 0.0 && 0.0 <= cfg.riskPerTrade <= 1.0 && cfg.winLossRatio != 0.0
    requires cfg.winProbability == 0.0
    requires forall i, k :: 0 <= i < |draws| && 0 <= k < |draws[i]| ==> IsUniformDraw(draws[i][k])
    ensures ValidPaths(paths)
    ensures 0.0 < cfg.riskPerTrade < 1.0 ==> forall i :: 0 <= i < |paths| ==> Falling(paths[i])
    ensures SummaryOf(cfg, paths).maxConsecutiveLoser == cfg.nTrades
    ensures SummaryOf(cfg, paths).maxConsecutiveWinner == 0
  {
    forall i | 0 <= i < |draws|
      ensures forall k :: 0 <= k < |draws[i]| ==> !IsWin(cfg, draws[i][k])
      ensures 0.0 < cfg.riskPerTrade < 1.0 ==> Falling(paths[i])
    {
      CertainLossLosesEveryTrade(cfg, draws[i]);
      if 0.0 < cfg.riskPerTrade < 1.0 {
        AllLossesFall(cfg, draws[i], paths[i]);
      }
    }
    AllLossesLongestLoser(cfg, draws, paths);
  }

  /** With less than the whole equity at risk and a positive ratio, every
      path ends above zero. */
  lemma NoRuinMinEquity(cfg: Config, draws: seq<seq<real>>, paths: seq<seq<real>>)
    requires |paths| == |draws| > 0
    requires forall i :: 0 <= i < |paths| ==> IsEquityCurve(cfg, draws[i], paths[i])
    requires cfg.startEquity > 0.0 && 0.0 <= cfg.riskPerTrade < 1.0 && cfg.winLossRatio > 0.0
    ensures ValidPaths(paths)
    ensures SummaryOf(cfg, paths).minEquity > 0.0
  {
    CurvesAreValid(cfg, draws, paths);
    var finals := FinalEquities(paths);
    forall i | 0 <= i < |paths|
      ensures finals[i] > 0.0
    {
      FinalEquitiesAt(paths, i);
      PathNotRuined(cfg, draws[i], paths[i]);
    }
    SummaryEquityBounds(cfg, finals, MaxDrawdowns(paths), Streaks(paths, true), Streaks(paths, false));
  }

  /** Under the same conditions no path loses all of its peak. */
  lemma NoRuinDrawdown(cfg: Config, draws: seq<seq<real>>, paths: seq<seq<real>>)
    requires |paths| == |draws| > 0
    requires forall i :: 0 <= i < |paths| ==> IsEquityCurve(cfg, draws[i], paths[i])
    requires cfg.startEquity > 0.0 && 0.0 <= cfg.riskPerTrade < 1.0 && cfg.winLossRatio > 0.0
    ensures ValidPaths(paths)
    ensures SummaryOf(cfg, paths).biggestMaxDrawdown < 1.0
  {
    CurvesAreValid(cfg, draws, paths);
    var dds := MaxDrawdowns(paths);
    forall i | 0 <= i < |paths|
      ensures 0.0 <= dds[i] < 1.0
    {
      MaxDrawdownsAt(paths, i);
      PathNotRuined(cfg, draws[i], paths[i]);
    }
    SummaryDrawdownBounds(cfg, FinalEquities(paths), dds, Streaks(paths, true), Streaks(paths, false));
  }

  /** One path under the same conditions ends above zero and draws down less
      than its whole peak. */
  lemma PathNotRuined(cfg: Config, draws: seq<real>, curve: seq<real>)
    requires IsEquityCurve(cfg, draws, curve)
    requires cfg.startEquity > 0.0 && 0.0 <= cfg.riskPerTrade < 1.0 && cfg.winLossRatio >= 0.0
    ensures curve[|curve| - 1] > 0.0
    ensures 0.0 <= MaxDrawdownOf(curve) < 1.0
  {
    NeverRuined(cfg, draws, curve);
    MaxDrawdownBounds(curve);
  }

  /** Simulates one path per block of draws, in order, recording each
      path's final equity and maximum drawdown as it goes. */
  method SimulatePaths(cfg: Config, draws: seq<seq<real>>) returns (curves: seq<seq<real>>, finalEquities: seq<real>, maxDrawdowns: seq<real>)
    requires forall i :: 0 <= i < |draws| ==> |draws[i]| == cfg.nTrades
    requires cfg.startEquity > 0.0
    ensures |curves| == |draws|
    ensures forall i :: 0 <= i < |draws| ==> IsEquityCurve(cfg, draws[i], curves[i])
    ensures forall i :: 0 <= i < |curves| ==> |curves[i]| > 0 && curves[i][0] > 0.0
    ensures finalEquities == FinalEquities(curves)
    ensures maxDrawdowns == MaxDrawdowns(curves)
  {
    curves, finalEquities, maxDrawdowns := [], [], [];
    for s := 0 to |draws|
      invariant |curves| == s
      invariant forall i :: 0 <= i < s ==> IsEquityCurve(cfg, draws[i], curves[i])
      invariant forall i :: 0 <= i < s ==> |curves[i]| > 0 && curves[i][0] > 0.0
      invariant finalEquities == FinalEquities(curves)
      invariant maxDrawdowns == MaxDrawdowns(curves)
    {
      var equityCurve := SimulateSinglePath(cfg, draws[s]);
      ghost var before := curves;
      curves := curves + [equityCurve];
      assert curves[..s] == before;
      finalEquities := finalEquities + [equityCurve[|equityCurve| - 1]];
      var maxDrawdown := CalculateMaxDrawdown(equityCurve);
      maxDrawdowns := maxDrawdowns + [maxDrawdown];
    }
  }

  /** The longest streak of the given kind on each path, path by path. */
  method ConsecutiveStreaks(paths: seq<seq<real>>, isWins: bool) returns (ns: seq<nat>)
    ensures ns == Streaks(paths, isWins)
  {
    ns := [];
    for s := 0 to |paths|
      invariant ns == Streaks(paths[..s], isWins)
    {
      var n := CalculateConsecutiveWinsOrLosses(paths[s], isWins);
      assert paths[..s + 1][..s] == paths[..s];
      ns := ns + [n];
    }
    assert paths[..|paths|] == paths;
  }

  /** One run of the simulator: the paths for the given draws and their
      summary. */
  method Simulate(cfg: Config, draws: seq<seq<real>>) returns (curves: seq<seq<real>>, summary: Summary)
    requires |draws| == cfg.nSimulations > 0
    requires forall i :: 0 <= i < |draws| ==> |draws[i]| == cfg.nTrades
    requires cfg.startEquity > 0.0 && cfg.winLossRatio != 0.0
    ensures |curves| == |draws|
    ensures forall i :: 0 <= i < |draws| ==> IsEquityCurve(cfg, draws[i], curves[i])
    ensures ValidPaths(curves)
    ensures summary == SummaryOf(cfg, curves)
  {
    var finalEquities, maxDrawdowns;
    curves, finalEquities, maxDrawdowns := SimulatePaths(cfg, draws);
    var winners := ConsecutiveStreaks(curves, true);
    var losers := ConsecutiveStreaks(curves, false);
    summary := Summarize(cfg, finalEquities, maxDrawdowns, winners, losers);
  }

  /** The simulator: its parameters, the paths of the last run and the
      statistics of the last run (none before the first run). */
  class TradingSimulator {
    const config: Config
    var paths: seq<seq<real>>
    var stats: Option<Summary>

    constructor(config: Config)
      ensures this.config == config
      ensures paths == [] && stats == None
    {
      this.config := config;
      paths := [];
      stats := None;
    }

    /** Runs `nSimulations` paths, one block of `nTrades` draws each, and
        records the paths and their summary. */
    method RunSimulation(draws: seq<seq<real>>)
      requires |draws| == config.nSimulations > 0
      requires forall i :: 0 <= i < |draws| ==> |draws[i]| == config.nTrades
      requires config.startEquity > 0.0 && config.winLossRatio != 0.0
      modifies this
      ensures |paths| == |draws|
      ensures forall i :: 0 <= i < |draws| ==> IsEquityCurve(config, draws[i], paths[i])
      ensures ValidPaths(paths)
      ensures stats == Some(SummaryOf(config, paths))
    {
      var curves, summary := Simulate(config, draws);
      paths := curves;
      stats := Some(summary);
    }
  }
}
