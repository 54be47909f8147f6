/** The path generator: one equity curve of a binary-outcome trading model.
    Every trade risks a fixed fraction of the current equity; a win adds the
    risked amount times the win/loss ratio, a loss subtracts the risked
    amount. The uniform random draws that decide each trade are an input. */
module EquityPath {

  /** The six parameters a simulator is built with. */
  datatype Config = Config(
    startEquity: real,
    winProbability: real,
    winLossRatio: real,
    riskPerTrade: real,
    nTrades: nat,
    nSimulations: nat)

  /** A uniform draw in [0, 1), as the random generator produces. */
  predicate IsUniformDraw(u: real)
  {
    0.0 <= u < 1.0
  }

  /** A trade is won exactly when its draw falls below the win probability. */
  predicate IsWin(cfg: Config, u: real)
  {
    u < cfg.winProbability
  }

  /** The factor by which one trade multiplies the equity. */
  function Factor(cfg: Config, win: bool): real
  {
    if win then 1.0 + cfg.riskPerTrade * cfg.winLossRatio else 1.0 - cfg.riskPerTrade
  }

  /** Equity after one trade taken at `equity` with draw `u`: the risk is a
      fraction of the current equity, so every trade scales the equity. */
  function Step(cfg: Config, equity: real, u: real): (next: real)
    ensures next == equity * Factor(cfg, IsWin(cfg, u))
  {
    var riskAmount := equity * cfg.riskPerTrade;
    if IsWin(cfg, u) then equity + riskAmount * cfg.winLossRatio else equity - riskAmount
  }

  /** `curve` is the equity curve the draws produce: one point per trade plus
      the starting equity, each point obtained from the previous one. */
  predicate IsEquityCurve(cfg: Config, draws: seq<real>, curve: seq<real>)
  {
    && |curve| == |draws| + 1
    && curve[0] == cfg.startEquity
    && forall i {:trigger Step(cfg, curve[i], draws[i])} :: 0 <= i < |draws| ==> curve[i + 1] == Step(cfg, curve[i], draws[i])
  }

  /** Simulates one path of `cfg.nTrades` trades, consuming one draw per trade. */
  method SimulateSinglePath(cfg: Config, draws: seq<real>) returns (curve: seq<real>)
    requires |draws| == cfg.nTrades
    ensures IsEquityCurve(cfg, draws, curve)
  {
    var equity := cfg.startEquity;
    curve := [equity];
    for t := 0 to cfg.nTrades
      invariant |curve| == t + 1
      invariant curve[0] == cfg.startEquity && curve[t] == equity
      invariant forall i :: 0 <= i < t ==> curve[i + 1] == Step(cfg, curve[i], draws[i])
    {
      var riskAmount := equity * cfg.riskPerTrade;
      if draws[t] < cfg.winProbability {
        var profit := riskAmount * cfg.winLossRatio;
        equity := equity + profit;
      } else {
        equity := equity - riskAmount;
      }
      curve := curve + [equity];
    }
  }

  /** The same draws always give the same curve: a curve is determined by
      its parameters and its draws. */
  lemma {:induction false} CurveIsDetermined(cfg: Config, draws: seq<real>, c1: seq<real>, c2: seq<real>)
    requires IsEquityCurve(cfg, draws, c1) && IsEquityCurve(cfg, draws, c2)
    ensures c1 == c2
  {
    forall i | 0 <= i < |c1|
      ensures c1[i] == c2[i]
    {
      PointIsDetermined(cfg, draws, c1, c2, i);
    }
  }

  lemma {:induction false} PointIsDetermined(cfg: Config, draws: seq<real>, c1: seq<real>, c2: seq<real>, i: nat)
    requires IsEquityCurve(cfg, draws, c1) && IsEquityCurve(cfg, draws, c2)
    requires i < |c1|
    ensures c1[i] == c2[i]
  {
    if i > 0 {
      PointIsDetermined(cfg, draws, c1, c2, i - 1);
      StepAt(cfg, draws, c1, i - 1);
      StepAt(cfg, draws, c2, i - 1);
    }
  }

  function Pow(x: real, n: nat): real
  {
    if n == 0 then 1.0 else Pow(x, n - 1) * x
  }

  /** Number of trades among the first n whose outcome is `win`. */
  function CountOutcome(cfg: Config, draws: seq<real>, n: nat, win: bool): (c: nat)
    requires n <= |draws|
    ensures c <= n
  {
    if n == 0 then 0
    else CountOutcome(cfg, draws, n - 1, win) + (if IsWin(cfg, draws[n - 1]) == win then 1 else 0)
  }

  /** Product of the factors of the first n trades. */
  function Growth(cfg: Config, draws: seq<real>, n: nat): real
    requires n <= |draws|
  {
    if n == 0 then 1.0 else Growth(cfg, draws, n - 1) * Factor(cfg, IsWin(cfg, draws[n - 1]))
  }

  /** Every trade is either won or lost. */
  lemma {:induction false} OutcomesPartition(cfg: Config, draws: seq<real>, n: nat)
    requires n <= |draws|
    ensures CountOutcome(cfg, draws, n, true) + CountOutcome(cfg, draws, n, false) == n
  {
    if n > 0 {
      OutcomesPartition(cfg, draws, n - 1);
    }
  }

  /** One step of a curve, as a multiplication of the previous point. */
  lemma StepAt(cfg: Config, draws: seq<real>, curve: seq<real>, j: nat)
    requires IsEquityCurve(cfg, draws, curve)
    requires j < |draws|
    ensures curve[j + 1] == curve[j] * Factor(cfg, IsWin(cfg, draws[j]))
  {
    assert curve[j + 1] == Step(cfg, curve[j], draws[j]);
  }

  /** Point i is the starting equity times the growth of the first i trades. */
  ghost predicate CompoundedAt(cfg: Config, draws: seq<real>, curve: seq<real>, i: nat)
    requires i <= |draws| && i < |curve|
  {
    curve[i] == cfg.startEquity * Growth(cfg, draws, i)
  }

  lemma StepExtendsCompounded(cfg: Config, draws: seq<real>, curve: seq<real>, i: nat)
    requires 0 < i <= |draws| && i < |curve|
    requires CompoundedAt(cfg, draws, curve, i - 1)
    requires curve[i] == curve[i - 1] * Factor(cfg, IsWin(cfg, draws[i - 1]))
    ensures CompoundedAt(cfg, draws, curve, i)
  {
    var f := Factor(cfg, IsWin(cfg, draws[i - 1]));
    ExtendProduct(curve[i - 1], curve[i], Growth(cfg, draws, i - 1), Growth(cfg, draws, i), cfg.startEquity, f);
  }

  /** Risk compounds on the current equity: after i trades the equity is the
      starting equity times the product of the first i trade factors. */
  lemma {:induction false} CurveIsCompounded(cfg: Config, draws: seq<real>, curve: seq<real>, i: nat)
    requires IsEquityCurve(cfg, draws, curve)
    requires i <= |draws|
    ensures CompoundedAt(cfg, draws, curve, i)
  {
    if i > 0 {
      CurveIsCompounded(cfg, draws, curve, i - 1);
      StepAt(cfg, draws, curve, i - 1);
      StepExtendsCompounded(cfg, draws, curve, i);
    }
  }

  /** Multiplying a product by f multiplies one of its factors by f. */
  lemma ExtendProduct(g: real, g': real, a: real, a': real, b: real, f: real)
    requires g == a * b || g == b * a
    requires g' == g * f && a' == a * f
    ensures g' == a' * b && g' == b * a'
  {
  }

  /** The growth of the first n trades equals the win factor raised to the
      number of wins times the loss factor raised to the number of losses. */
  ghost predicate GrowthByCountAt(cfg: Config, draws: seq<real>, n: nat)
    requires n <= |draws|
  {
    Growth(cfg, draws, n)
      == Pow(Factor(cfg, true), CountOutcome(cfg, draws, n, true))
       * Pow(Factor(cfg, false), CountOutcome(cfg, draws, n, false))
  }

  lemma WinExtendsGrowthByCount(cfg: Config, draws: seq<real>, n: nat)
    requires 0 < n <= |draws| && IsWin(cfg, draws[n - 1])
    requires GrowthByCountAt(cfg, draws, n - 1)
    ensures GrowthByCountAt(cfg, draws, n)
  {
    var w, l := CountOutcome(cfg, draws, n - 1, true), CountOutcome(cfg, draws, n - 1, false);
    var win, loss := Factor(cfg, true), Factor(cfg, false);
    ExtendProduct(Growth(cfg, draws, n - 1), Growth(cfg, draws, n), Pow(win, w), Pow(win, w + 1), Pow(loss, l), win);
  }

  lemma LossExtendsGrowthByCount(cfg: Config, draws: seq<real>, n: nat)
    requires 0 < n <= |draws| && !IsWin(cfg, draws[n - 1])
    requires GrowthByCountAt(cfg, draws, n - 1)
    ensures GrowthByCountAt(cfg, draws, n)
  {
    var w, l := CountOutcome(cfg, draws, n - 1, true), CountOutcome(cfg, draws, n - 1, false);
    var win, loss := Factor(cfg, true), Factor(cfg, false);
    ExtendProduct(Growth(cfg, draws, n - 1), Growth(cfg, draws, n), Pow(loss, l), Pow(loss, l + 1), Pow(win, w), loss);
  }

  /** The order of the outcomes does not matter, only how many were won and
      how many lost: together with CurveIsCompounded this is the closed form
      startEquity * winFactor^wins * lossFactor^losses of every curve point. */
  lemma {:induction false} GrowthByCount(cfg: Config, draws: seq<real>, n: nat)
    requires n <= |draws|
    ensures GrowthByCountAt(cfg, draws, n)
  {
    if n > 0 {
      GrowthByCount(cfg, draws, n - 1);
      if IsWin(cfg, draws[n - 1]) {
        WinExtendsGrowthByCount(cfg, draws, n);
      } else {
        LossExtendsGrowthByCount(cfg, draws, n);
      }
    }
  }

  /** While every trade's factor is positive, a positive starting equity stays
      positive at every point of the curve. */
  lemma {:induction false} StaysPositive(cfg: Config, draws: seq<real>, curve: seq<real>, i: nat)
    requires IsEquityCurve(cfg, draws, curve)
    requires cfg.startEquity > 0.0
    requires forall k :: 0 <= k < |draws| ==> Factor(cfg, IsWin(cfg, draws[k])) > 0.0
    requires i < |curve|
    ensures curve[i] > 0.0
  {
    if i > 0 {
      StaysPositive(cfg, draws, curve, i - 1);
      StepAt(cfg, draws, curve, i - 1);
    }
  }

  /** With a risk below the whole equity and a non-negative ratio, no path is
      ever ruined: every point is positive. */
  lemma NeverRuined(cfg: Config, draws: seq<real>, curve: seq<real>)
    requires IsEquityCurve(cfg, draws, curve)
    requires cfg.startEquity > 0.0
    requires 0.0 <= cfg.riskPerTrade < 1.0 && cfg.winLossRatio >= 0.0
    ensures forall i :: 0 <= i < |curve| ==> curve[i] > 0.0
  {
    forall i | 0 <= i < |curve|
      ensures curve[i] > 0.0
    {
      StaysPositive(cfg, draws, curve, i);
    }
  }

  /** Strictly increasing, point by point. */
  predicate Rising(curve: seq<real>)
  {
    forall i :: 0 <= i < |curve| - 1 ==> curve[i] < curve[i + 1]
  }

  /** Strictly decreasing, point by point. */
  predicate Falling(curve: seq<real>)
  {
    forall i :: 0 <= i < |curve| - 1 ==> curve[i] > curve[i + 1]
  }

  /** When every trade is won, the curve rises strictly. */
  lemma AllWinsRise(cfg: Config, draws: seq<real>, curve: seq<real>)
    requires IsEquityCurve(cfg, draws, curve)
    requires cfg.startEquity > 0.0 && cfg.riskPerTrade > 0.0 && cfg.winLossRatio > 0.0
    requires forall k :: 0 <= k < |draws| ==> IsWin(cfg, draws[k])
    ensures Rising(curve)
  {
    forall i | 0 <= i < |curve| - 1
      ensures curve[i] < curve[i + 1]
    {
      StaysPositive(cfg, draws, curve, i);
      StepAt(cfg, draws, curve, i);
    }
  }

  /** When every trade is lost and less than the whole equity is risked, the
      curve falls strictly (and stays positive). */
  lemma AllLossesFall(cfg: Config, draws: seq<real>, curve: seq<real>)
    requires IsEquityCurve(cfg, draws, curve)
    requires cfg.startEquity > 0.0 && 0.0 < cfg.riskPerTrade < 1.0
    requires forall k :: 0 <= k < |draws| ==> !IsWin(cfg, draws[k])
    ensures Falling(curve)
  {
    forall i | 0 <= i < |curve| - 1
      ensures curve[i] > curve[i + 1]
    {
      StaysPositive(cfg, draws, curve, i);
      StepAt(cfg, draws, curve, i);
    }
  }

  /** When every trade is lost and at most the whole equity is risked, a
      non-negative start keeps every point non-negative (a risk of 1 takes
      the equity to 0 and keeps it there). */
  lemma {:induction false} LossesStayNonNegative(cfg: Config, draws: seq<real>, curve: seq<real>, i: nat)
    requires IsEquityCurve(cfg, draws, curve)
    requires cfg.startEquity >= 0.0 && 0.0 <= cfg.riskPerTrade <= 1.0
    requires forall k :: 0 <= k < |draws| ==> !IsWin(cfg, draws[k])
    requires i < |curve|
    ensures curve[i] >= 0.0
  {
    if i > 0 {
      LossesStayNonNegative(cfg, draws, curve, i - 1);
      StepAt(cfg, draws, curve, i - 1);
      assert curve[i - 1] * (1.0 - cfg.riskPerTrade) >= 0.0 * (1.0 - cfg.riskPerTrade);
    }
  }

  /** When every trade is lost and at most the whole equity is risked, the
      curve never rises: each move falls, or stays flat at a risk of 0 or
      once the equity is 0. */
  lemma AllLossesNeverRise(cfg: Config, draws: seq<real>, curve: seq<real>)
    requires IsEquityCurve(cfg, draws, curve)
    requires cfg.startEquity >= 0.0 && 0.0 <= cfg.riskPerTrade <= 1.0
    requires forall k :: 0 <= k < |draws| ==> !IsWin(cfg, draws[k])
    ensures forall i :: 0 <= i < |curve| - 1 ==> curve[i + 1] <= curve[i]
  {
    forall i | 0 <= i < |curve| - 1
      ensures curve[i + 1] <= curve[i]
    {
      LossesStayNonNegative(cfg, draws, curve, i);
      StepAt(cfg, draws, curve, i);
      assert curve[i] * (1.0 - cfg.riskPerTrade) <= curve[i] * 1.0;
    }
  }

  /** A certain win (probability 1) wins every uniform draw. */
  lemma CertainWinWinsEveryTrade(cfg: Config, draws: seq<real>)
    requires cfg.winProbability == 1.0
    requires forall k :: 0 <= k < |draws| ==> IsUniformDraw(draws[k])
    ensures forall k :: 0 <= k < |draws| ==> IsWin(cfg, draws[k])
  {
  }

  /** A certain loss (probability 0) loses every uniform draw. */
  lemma CertainLossLosesEveryTrade(cfg: Config, draws: seq<real>)
    requires cfg.winProbability == 0.0
    requires forall k :: 0 <= k < |draws| ==> IsUniformDraw(draws[k])
    ensures forall k :: 0 <= k < |draws| ==> !IsWin(cfg, draws[k])
  {
  }

  /** The scenario with start 100, win probability 0.75, ratio 3, risk 1% and
      the draws 0.1 (a win) and 0.9 (a loss). */
  lemma WinThenLossExample()
    ensures IsEquityCurve(Config(100.0, 0.75, 3.0, 0.01, 2, 1), [0.1, 0.9], [100.0, 103.0, 101.97])
  {
  }
}
