/** The maximum drawdown of one equity curve: the largest fall, as a
    fraction of the running peak, from that peak to a later point. */
module Drawdown {
  import opened EquityPath

  /** The running peak once point i has been visited: it starts at the
      first point and moves only when a point rises strictly above it. */
  function PeakAt(curve: seq<real>, i: nat): (peak: real)
    requires i < |curve|
    ensures peak >= curve[0] && peak >= curve[i]
  {
    if i == 0 then curve[0]
    else
      var previous := PeakAt(curve, i - 1);
      if curve[i] > previous then curve[i] else previous
  }

  /** The running peak is the highest point visited so far: no point up to
      i lies above it, and it is one of those points. */
  lemma {:induction false} PeakIsHighest(curve: seq<real>, i: nat)
    requires i < |curve|
    ensures forall j :: 0 <= j <= i ==> curve[j] <= PeakAt(curve, i)
    ensures exists j :: 0 <= j <= i && curve[j] == PeakAt(curve, i)
  {
    if i > 0 {
      PeakIsHighest(curve, i - 1);
    }
  }

  /** A fall of x from a positive peak at or above x is a fraction in [0, 1]
      when x is non-negative, and below 1 when x is positive. */
  lemma FallFraction(peak: real, x: real)
    requires peak > 0.0 && x <= peak
    ensures 0.0 <= (peak - x) / peak
    ensures x >= 0.0 ==> (peak - x) / peak <= 1.0
    ensures x > 0.0 ==> (peak - x) / peak < 1.0
  {
    var d := (peak - x) / peak;
    assert d * peak == peak - x;
    if x >= 0.0 {
      assert d * peak <= 1.0 * peak;
    }
    if x > 0.0 {
      assert d * peak < 1.0 * peak;
    }
  }

  /** Drawdown at point i: its fall below the running peak, as a fraction of
      that peak. The first point being positive keeps every peak positive. */
  function DrawdownAt(curve: seq<real>, i: nat): (d: real)
    requires i < |curve| && curve[0] > 0.0
    ensures 0.0 <= d
    ensures curve[i] >= 0.0 ==> d <= 1.0
    ensures curve[i] > 0.0 ==> d < 1.0
  {
    var peak := PeakAt(curve, i);
    FallFraction(peak, curve[i]);
    (peak - curve[i]) / peak
  }

  /** Largest drawdown among points 0..i, folded left to right. */
  function MaxDrawdownUpTo(curve: seq<real>, i: nat): real
    requires i < |curve| && curve[0] > 0.0
  {
    if i == 0 then DrawdownAt(curve, 0)
    else
      var rest := MaxDrawdownUpTo(curve, i - 1);
      var here := DrawdownAt(curve, i);
      if here > rest then here else rest
  }

  /** Maximum drawdown of a curve: the largest drawdown over its points. */
  function MaxDrawdownOf(curve: seq<real>): real
    requires |curve| > 0 && curve[0] > 0.0
  {
    MaxDrawdownUpTo(curve, |curve| - 1)
  }

  /** The fold up to point i is the largest of the drawdowns at points
      0..i: it bounds each of them and is one of them. */
  lemma {:induction false} MaxDrawdownUpToIsLargest(curve: seq<real>, i: nat)
    requires i < |curve| && curve[0] > 0.0
    ensures forall j :: 0 <= j <= i ==> DrawdownAt(curve, j) <= MaxDrawdownUpTo(curve, i)
    ensures exists j :: 0 <= j <= i && DrawdownAt(curve, j) == MaxDrawdownUpTo(curve, i)
  {
    if i == 0 {
      assert DrawdownAt(curve, 0) == MaxDrawdownUpTo(curve, 0);
    } else if DrawdownAt(curve, i) > MaxDrawdownUpTo(curve, i - 1) {
      MaxDrawdownUpToIsLargest(curve, i - 1);
      assert DrawdownAt(curve, i) == MaxDrawdownUpTo(curve, i);
    } else {
      MaxDrawdownUpToIsLargest(curve, i - 1);
    }
  }

  /** The maximum drawdown is the drawdown of some point, and no point draws
      down further. */
  lemma MaxDrawdownIsLargest(curve: seq<real>)
    requires |curve| > 0 && curve[0] > 0.0
    ensures exists i :: 0 <= i < |curve| && DrawdownAt(curve, i) == MaxDrawdownOf(curve)
    ensures forall i :: 0 <= i < |curve| ==> DrawdownAt(curve, i) <= MaxDrawdownOf(curve)
  {
    MaxDrawdownUpToIsLargest(curve, |curve| - 1);
  }

  /** The maximum drawdown is never negative; it is at most 1 while no point
      is negative, and below 1 while every point is positive. */
  lemma MaxDrawdownBounds(curve: seq<real>)
    requires |curve| > 0 && curve[0] > 0.0
    ensures 0.0 <= MaxDrawdownOf(curve)
    ensures (forall i :: 0 <= i < |curve| ==> curve[i] >= 0.0) ==> MaxDrawdownOf(curve) <= 1.0
    ensures (forall i :: 0 <= i < |curve| ==> curve[i] > 0.0) ==> MaxDrawdownOf(curve) < 1.0
  {
    MaxDrawdownIsLargest(curve);
    var k :| 0 <= k < |curve| && DrawdownAt(curve, k) == MaxDrawdownOf(curve);
  }

  /** Scans the curve once, keeping the running peak and the largest
      drawdown seen so far. */
  method CalculateMaxDrawdown(curve: seq<real>) returns (maxDrawdown: real)
    requires |curve| > 0 && curve[0] > 0.0
    ensures maxDrawdown == MaxDrawdownOf(curve)
  {
    var peak := curve[0];
    maxDrawdown := 0.0;
    for i := 0 to |curve|
      invariant peak == PeakAt(curve, if i == 0 then 0 else i - 1)
      invariant maxDrawdown == if i == 0 then 0.0 else MaxDrawdownUpTo(curve, i - 1)
    {
      var equity := curve[i];
      if equity > peak {
        peak := equity;
      }
      var drawdown := (peak - equity) / peak;
      assert drawdown == DrawdownAt(curve, i);
      if drawdown > maxDrawdown {
        maxDrawdown := drawdown;
      }
    }
  }

  /** On a strictly rising curve every point is its own running peak. */
  lemma {:induction false} RisingPeak(curve: seq<real>, i: nat)
    requires Rising(curve) && i < |curve|
    ensures PeakAt(curve, i) == curve[i]
  {
    if i > 0 {
      RisingPeak(curve, i - 1);
    }
  }

  /** A strictly rising curve never draws down. */
  lemma RisingCurveHasNoDrawdown(curve: seq<real>)
    requires |curve| > 0 && curve[0] > 0.0
    requires Rising(curve)
    ensures MaxDrawdownOf(curve) == 0.0
  {
    MaxDrawdownIsLargest(curve);
    var k :| 0 <= k < |curve| && DrawdownAt(curve, k) == MaxDrawdownOf(curve);
    RisingPeak(curve, k);
    DrawdownAtPeak(curve, k);
  }

  /** A point that is its own running peak has no drawdown. */
  lemma DrawdownAtPeak(curve: seq<real>, i: nat)
    requires i < |curve| && curve[0] > 0.0
    requires PeakAt(curve, i) == curve[i]
    ensures DrawdownAt(curve, i) == 0.0
  {
  }

  /** On a falling curve the peak stays at the first point. */
  lemma {:induction false} FallingPeak(curve: seq<real>, i: nat)
    requires Falling(curve) && i < |curve|
    ensures PeakAt(curve, i) == curve[0]
  {
    if i > 0 {
      FallingPeak(curve, i - 1);
      FallingBelowStart(curve, i);
    }
  }

  lemma {:induction false} FallingBelowStart(curve: seq<real>, i: nat)
    requires Falling(curve) && 0 < i < |curve|
    ensures curve[i] < curve[0]
  {
    if i > 1 {
      FallingBelowStart(curve, i - 1);
    }
  }

  /** A strictly falling curve draws down most at its last point, and its
      running peak never leaves the first point: the maximum drawdown is the
      total fall as a fraction of the starting equity. */
  lemma FallingCurveDrawdown(curve: seq<real>)
    requires |curve| > 0 && curve[0] > 0.0
    requires Falling(curve)
    ensures PeakAt(curve, |curve| - 1) == curve[0]
    ensures MaxDrawdownOf(curve) == DrawdownAt(curve, |curve| - 1)
  {
    var last := |curve| - 1;
    FallingPeak(curve, last);
    MaxDrawdownIsLargest(curve);
    var k :| 0 <= k < |curve| && DrawdownAt(curve, k) == MaxDrawdownOf(curve);
    assert DrawdownAt(curve, k) <= DrawdownAt(curve, last) by {
      FallingPeak(curve, k);
      FallingBelow(curve, k, last);
      DeeperFall(curve[0], curve[k], curve[last]);
      DrawdownFromPeak(curve, k, curve[0]);
      DrawdownFromPeak(curve, last, curve[0]);
    }
  }

  /** The drawdown at a point whose running peak is known. */
  lemma DrawdownFromPeak(curve: seq<real>, i: nat, peak: real)
    requires i < |curve| && curve[0] > 0.0
    requires PeakAt(curve, i) == peak
    ensures DrawdownAt(curve, i) == (peak - curve[i]) / peak
  {
  }

  /** The lower the point, the deeper the fall from a fixed positive peak. */
  lemma DeeperFall(peak: real, x: real, y: real)
    requires peak > 0.0 && y <= x
    ensures (peak - x) / peak <= (peak - y) / peak
  {
    var a, b := (peak - x) / peak, (peak - y) / peak;
    assert a * peak == peak - x && b * peak == peak - y;
    PositiveMultiple(b - a, peak);
  }

  lemma PositiveMultiple(u: real, p: real)
    requires p > 0.0 && u * p >= 0.0
    ensures u >= 0.0
  {
  }

  lemma {:induction false} FallingBelow(curve: seq<real>, i: nat, j: nat)
    requires Falling(curve) && i <= j < |curve|
    ensures curve[j] <= curve[i]
  {
    if i < j {
      FallingBelow(curve, i, j - 1);
    }
  }

  /** The win-then-loss path 100, 103, 101.97 draws down exactly 1%. */
  lemma WinThenLossDrawdown()
    ensures MaxDrawdownOf([100.0, 103.0, 101.97]) == 0.01
  {
    var curve := [100.0, 103.0, 101.97];
    assert DrawdownAt(curve, 0) == 0.0;
    assert DrawdownAt(curve, 1) == 0.0;
    assert DrawdownAt(curve, 2) == 0.01;
  }
}
