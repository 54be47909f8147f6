/** Longest run of consecutive winning (or losing) trades read off an equity
    curve. A move from one point to the next counts as a win when the curve
    rises strictly and as a loss otherwise, so a flat move is a loss. */
module Streak {
  import opened EquityPath

  /** Whether the move into point i is of the kind being counted. */
  predicate Counts(path: seq<real>, isWins: bool, i: nat)
    requires 0 < i < |path|
  {
    (path[i] > path[i - 1]) == isWins
  }

  /** Number of counted moves in a row ending with the move into point i. */
  function StreakEndingAt(path: seq<real>, isWins: bool, i: nat): (n: nat)
    requires i < |path|
    ensures n <= i
  {
    if i == 0 then 0
    else if Counts(path, isWins, i) then StreakEndingAt(path, isWins, i - 1) + 1
    else 0
  }

  /** Longest streak ending at or before point i. */
  function LongestStreakUpTo(path: seq<real>, isWins: bool, i: nat): (n: nat)
    requires i < |path|
    ensures n <= i
    ensures forall j :: 0 <= j <= i ==> StreakEndingAt(path, isWins, j) <= n
  {
    if i == 0 then 0
    else
      var rest := LongestStreakUpTo(path, isWins, i - 1);
      var here := StreakEndingAt(path, isWins, i);
      if here > rest then here else rest
  }

  /** Longest streak of the counted kind over the whole curve; a curve of
      n + 1 points holds n moves and so a streak of at most n. */
  function LongestStreak(path: seq<real>, isWins: bool): (n: nat)
    ensures |path| <= 1 ==> n == 0
    ensures |path| > 0 ==> n <= |path| - 1
  {
    if |path| == 0 then 0 else LongestStreakUpTo(path, isWins, |path| - 1)
  }

  /** Scans the moves once, keeping the current streak and the longest one
      seen so far. */
  method CalculateConsecutiveWinsOrLosses(path: seq<real>, isWins: bool) returns (maxConsecutive: nat)
    ensures maxConsecutive == LongestStreak(path, isWins)
  {
    var consecutive: nat := 0;
    maxConsecutive := 0;
    var i := 1;
    while i < |path|
      invariant |path| == 0 ==> i == 1 && maxConsecutive == 0
      invariant |path| > 0 ==> 1 <= i <= |path|
      invariant |path| > 0 ==> consecutive == StreakEndingAt(path, isWins, i - 1)
      invariant |path| > 0 ==> maxConsecutive == LongestStreakUpTo(path, isWins, i - 1)
    {
      if (path[i] > path[i - 1]) == isWins {
        consecutive := consecutive + 1;
        maxConsecutive := if consecutive > maxConsecutive then consecutive else maxConsecutive;
      } else {
        consecutive := 0;
      }
      i := i + 1;
    }
  }

  /** The moves into points lo + 1 .. hi all count: a streak of hi - lo. */
  predicate IsRun(path: seq<real>, isWins: bool, lo: nat, hi: nat)
  {
    lo <= hi < |path| && forall i :: lo < i <= hi ==> Counts(path, isWins, i)
  }

  /** The streak ending at point i is a run. */
  lemma {:induction false} StreakIsRun(path: seq<real>, isWins: bool, i: nat)
    requires i < |path|
    ensures IsRun(path, isWins, i - StreakEndingAt(path, isWins, i), i)
  {
    if i > 0 && Counts(path, isWins, i) {
      StreakIsRun(path, isWins, i - 1);
    }
  }

  /** No run ending at point hi is longer than the streak ending there. */
  lemma {:induction false} RunWithinStreak(path: seq<real>, isWins: bool, lo: nat, hi: nat)
    requires IsRun(path, isWins, lo, hi)
    ensures hi - lo <= StreakEndingAt(path, isWins, hi)
  {
    if lo < hi {
      assert Counts(path, isWins, hi);
      RunWithinStreak(path, isWins, lo, hi - 1);
    }
  }

  /** The longest streak up to point i is the streak ending at some point. */
  lemma {:induction false} LongestIsAttained(path: seq<real>, isWins: bool, i: nat)
    requires i < |path|
    ensures exists j :: 0 <= j <= i && StreakEndingAt(path, isWins, j) == LongestStreakUpTo(path, isWins, i)
  {
    if i == 0 {
      assert StreakEndingAt(path, isWins, 0) == LongestStreakUpTo(path, isWins, 0);
    } else if StreakEndingAt(path, isWins, i) <= LongestStreakUpTo(path, isWins, i - 1) {
      LongestIsAttained(path, isWins, i - 1);
    } else {
      assert StreakEndingAt(path, isWins, i) == LongestStreakUpTo(path, isWins, i);
    }
  }

  /** The longest streak is exactly the length of the longest run of counted
      moves: some run has that length and none is longer. */
  lemma LongestStreakIsLongestRun(path: seq<real>, isWins: bool)
    requires |path| > 0
    ensures exists lo: nat, hi: nat :: IsRun(path, isWins, lo, hi) && hi - lo == LongestStreak(path, isWins)
    ensures forall lo: nat, hi: nat :: IsRun(path, isWins, lo, hi) ==> hi - lo <= LongestStreak(path, isWins)
  {
    var last := |path| - 1;
    LongestIsAttained(path, isWins, last);
    var j :| 0 <= j <= last && StreakEndingAt(path, isWins, j) == LongestStreakUpTo(path, isWins, last);
    StreakIsRun(path, isWins, j);
    forall lo: nat, hi: nat | IsRun(path, isWins, lo, hi)
      ensures hi - lo <= LongestStreak(path, isWins)
    {
      RunWithinStreak(path, isWins, lo, hi);
    }
  }

  /** Every move is a loss when no point lies above the one before it. */
  predicate NeverRising(path: seq<real>)
  {
    forall i :: 0 <= i < |path| - 1 ==> path[i + 1] <= path[i]
  }

  /** On a curve whose moves all count, the whole curve is one run. */
  lemma {:induction false} AllCountStreak(path: seq<real>, isWins: bool, i: nat)
    requires i < |path|
    requires forall k :: 0 < k < |path| ==> Counts(path, isWins, k)
    ensures StreakEndingAt(path, isWins, i) == i
    ensures LongestStreakUpTo(path, isWins, i) == i
  {
    if i > 0 {
      AllCountStreak(path, isWins, i - 1);
    }
  }

  /** On a curve none of whose moves count, there is no streak. */
  lemma {:induction false} NoneCountStreak(path: seq<real>, isWins: bool, i: nat)
    requires i < |path|
    requires forall k :: 0 < k < |path| ==> !Counts(path, isWins, k)
    ensures LongestStreakUpTo(path, isWins, i) == 0
  {
    if i > 0 {
      NoneCountStreak(path, isWins, i - 1);
    }
  }

  /** A strictly rising curve is one winning streak through every move and
      has no losing streak. */
  lemma RisingStreaks(path: seq<real>)
    requires |path| > 0 && Rising(path)
    ensures LongestStreak(path, true) == |path| - 1
    ensures LongestStreak(path, false) == 0
  {
    forall k | 0 < k < |path|
      ensures Counts(path, true, k) && !Counts(path, false, k)
    {
      assert path[k - 1] < path[(k - 1) + 1];
    }
    AllCountStreak(path, true, |path| - 1);
    NoneCountStreak(path, false, |path| - 1);
  }

  /** A curve that never rises (falling or flat moves alike) is one losing
      streak through every move and has no winning streak. */
  lemma NeverRisingStreaks(path: seq<real>)
    requires |path| > 0 && NeverRising(path)
    ensures LongestStreak(path, false) == |path| - 1
    ensures LongestStreak(path, true) == 0
  {
    forall k | 0 < k < |path|
      ensures Counts(path, false, k) && !Counts(path, true, k)
    {
      assert path[(k - 1) + 1] <= path[k - 1];
    }
    AllCountStreak(path, false, |path| - 1);
    NoneCountStreak(path, true, |path| - 1);
  }

  /** A winning run and a losing run share no move, so together they span
      at most the number of moves on the curve. */
  lemma DisjointRuns(path: seq<real>, lo1: nat, hi1: nat, lo2: nat, hi2: nat)
    requires IsRun(path, true, lo1, hi1) && IsRun(path, false, lo2, hi2)
    ensures (hi1 - lo1) + (hi2 - lo2) <= |path| - 1
  {
    if lo1 < hi1 && lo2 < hi2 && lo2 < hi1 && lo1 < hi2 {
      var shared := if hi1 < hi2 then hi1 else hi2;
      NoMoveIsBoth(path, shared);
      assert false;
    }
  }

  /** A move is either a win or a loss, never both. */
  lemma NoMoveIsBoth(path: seq<real>, i: nat)
    requires 0 < i < |path|
    ensures Counts(path, true, i) != Counts(path, false, i)
  {
  }

  /** The longest winning and the longest losing streak of one curve
      together never exceed its number of moves. */
  lemma StreaksShareMoves(path: seq<real>)
    requires |path| > 0
    ensures LongestStreak(path, true) + LongestStreak(path, false) <= |path| - 1
  {
    LongestStreakIsLongestRun(path, true);
    LongestStreakIsLongestRun(path, false);
    var lo1: nat, hi1: nat :| IsRun(path, true, lo1, hi1) && hi1 - lo1 == LongestStreak(path, true);
    var lo2: nat, hi2: nat :| IsRun(path, false, lo2, hi2) && hi2 - lo2 == LongestStreak(path, false);
    DisjointRuns(path, lo1, hi1, lo2, hi2);
  }

  /** With nothing at risk the curve stays flat, and every trade, won or
      lost, is read as a loss. */
  lemma ZeroRiskReadsAsLosses(cfg: Config, draws: seq<real>, curve: seq<real>)
    requires IsEquityCurve(cfg, draws, curve) && cfg.riskPerTrade == 0.0
    ensures LongestStreak(curve, false) == |draws|
    ensures LongestStreak(curve, true) == 0
  {
    forall i | 0 <= i < |curve| - 1
      ensures curve[i + 1] <= curve[i]
    {
      StepAt(cfg, draws, curve, i);
    }
    NeverRisingStreaks(curve);
  }

  /** While the equity stays positive and a win pays a positive amount, the
      curve rises on exactly the trades that are won: the streaks read off
      the curve are the streaks of won and lost trades. */
  lemma MovesMatchOutcomes(cfg: Config, draws: seq<real>, curve: seq<real>)
    requires IsEquityCurve(cfg, draws, curve)
    requires cfg.startEquity > 0.0 && 0.0 < cfg.riskPerTrade < 1.0 && cfg.winLossRatio > 0.0
    ensures forall i :: 0 <= i < |draws| ==> (Counts(curve, true, i + 1) <==> IsWin(cfg, draws[i]))
  {
    NeverRuined(cfg, draws, curve);
    forall i | 0 <= i < |draws|
      ensures Counts(curve, true, i + 1) <==> IsWin(cfg, draws[i])
    {
      StepAt(cfg, draws, curve, i);
      var e := curve[i];
      assert e > 0.0;
      if IsWin(cfg, draws[i]) {
        assert cfg.riskPerTrade * cfg.winLossRatio > 0.0;
        assert e * Factor(cfg, true) > e * 1.0;
      } else {
        assert e * Factor(cfg, false) < e * 1.0;
      }
    }
  }

  /** Win, loss, win: the longest streak of either kind is one trade. */
  lemma AlternatingStreaks()
    ensures LongestStreak([100.0, 103.0, 101.97, 105.0291], true) == 1
    ensures LongestStreak([100.0, 103.0, 101.97, 105.0291], false) == 1
  {
    var path := [100.0, 103.0, 101.97, 105.0291];
    assert StreakEndingAt(path, true, 1) == 1 && StreakEndingAt(path, false, 1) == 0;
    assert StreakEndingAt(path, true, 2) == 0 && StreakEndingAt(path, false, 2) == 1;
    assert StreakEndingAt(path, true, 3) == 1 && StreakEndingAt(path, false, 3) == 0;
  }
}
