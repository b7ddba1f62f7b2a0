/** Ordinary least-squares trend over the most recent readings of one
    sensor channel (enhanced_sensor_system.py, `_perform_trend_analysis`):
    value against reading index, slope in value units per reading and the
    coefficient of determination clamped to `[0, 1]`. */
module Regression {
  import opened Common

  datatype Trend = Trend(slope: real, rSquared: real)

  /** The trend every channel starts with. */
  const Neutral: Trend := Trend(0.0, 0.0)

  /** At most this many of the newest readings enter the fit. */
  const WindowSize: nat := 20

  /** A channel's trend is refitted only once it has this many readings. */
  const MinPoints: nat := 10

  /** `sum(range(n))` */
  function SumX(n: nat): int
  {
    if n == 0 then 0 else SumX(n - 1) + (n - 1)
  }

  /** `sum(i * i for i in range(n))` */
  function SumXX(n: nat): int
  {
    if n == 0 then 0 else SumXX(n - 1) + (n - 1) * (n - 1)
  }

  /** `n * sum_xx - sum_x * sum_x`, computed on integers as the source does. */
  function Denominator(n: nat): int
  {
    n * SumXX(n) - SumX(n) * SumX(n)
  }

  function SumY(ys: seq<real>): real
  {
    if ys == [] then 0.0 else SumY(ys[..|ys| - 1]) + ys[|ys| - 1]
  }

  function SumXY(ys: seq<real>): real
  {
    if ys == [] then 0.0 else SumXY(ys[..|ys| - 1]) + (|ys| - 1) as real * ys[|ys| - 1]
  }

  /** Total sum of squares about `mean`. */
  function SumSqDev(ys: seq<real>, mean: real): real
  {
    if ys == [] then 0.0
    else SumSqDev(ys[..|ys| - 1], mean) + (ys[|ys| - 1] - mean) * (ys[|ys| - 1] - mean)
  }

  /** Residual sum of squares about the line `slope * i + intercept`. */
  function SumSqRes(ys: seq<real>, slope: real, intercept: real): real
  {
    if ys == [] then 0.0
    else
      var e := ys[|ys| - 1] - (slope * (|ys| - 1) as real + intercept);
      SumSqRes(ys[..|ys| - 1], slope, intercept) + e * e
  }

  /** Sum of the residuals `y_i - (slope * i + intercept)`. */
  function SumRes(ys: seq<real>, slope: real, intercept: real): real
  {
    if ys == [] then 0.0
    else SumRes(ys[..|ys| - 1], slope, intercept) + (ys[|ys| - 1] - (slope * (|ys| - 1) as real + intercept))
  }

  /** Sum of the residuals weighted by their reading index. */
  function SumXRes(ys: seq<real>, slope: real, intercept: real): real
  {
    if ys == [] then 0.0
    else
      var x := (|ys| - 1) as real;
      SumXRes(ys[..|ys| - 1], slope, intercept) + x * (ys[|ys| - 1] - (slope * x + intercept))
  }

  function Mean(ys: seq<real>): real
    requires |ys| > 0
  {
    SumY(ys) / |ys| as real
  }

  /** `(n * sum_xy - sum_x * sum_y) / denominator` */
  function SlopeFrom(n: real, sx: real, sy: real, sxy: real, den: real): real
    requires den != 0.0
  {
    (n * sxy - sx * sy) / den
  }

  /** `(sum_y - slope * sum_x) / n` */
  function InterceptFrom(n: real, sx: real, sy: real, slope: real): real
    requires n != 0.0
  {
    (sy - slope * sx) / n
  }

  /** `1 - ss_res / ss_tot`, or 0 when the window has no variance. */
  function RSquaredFrom(ssTot: real, ssRes: real): real
  {
    if ssTot > 0.0 then 1.0 - ssRes / ssTot else 0.0
  }

  function Slope(ys: seq<real>): real
    requires Denominator(|ys|) != 0
  {
    var n := |ys|;
    SlopeFrom(n as real, SumX(n) as real, SumY(ys), SumXY(ys), Denominator(n) as real)
  }

  function Intercept(ys: seq<real>): real
    requires Denominator(|ys|) != 0
  {
    var n := |ys|;
    InterceptFrom(n as real, SumX(n) as real, SumY(ys), Slope(ys))
  }

  function RawRSquared(ys: seq<real>): real
    requires Denominator(|ys|) != 0
  {
    RSquaredFrom(SumSqDev(ys, Mean(ys)), SumSqRes(ys, Slope(ys), Intercept(ys)))
  }

  /** The fit of one window, or `None` when the denominator vanishes (the
      source then leaves the channel's previous trend in place). */
  function Fit(ys: seq<real>): (r: Option<Trend>)
    ensures r.Some? <==> |ys| >= 2
    ensures r.Some? ==> 0.0 <= r.value.rSquared <= 1.0
  {
    DenominatorSign(|ys|);
    if Denominator(|ys|) == 0 then None
    else Some(Trend(Slope(ys), Clamp(RawRSquared(ys), 0.0, 1.0)))
  }

  /** The per-channel step: with at least `MinPoints` readings, refit over the
      newest `WindowSize` of them; otherwise keep the previous trend. */
  function Refit(previous: Trend, values: seq<real>): (r: Trend)
    ensures |values| < MinPoints ==> r == previous
    ensures |values| >= MinPoints ==>
      Fit(Newest(values, WindowSize)).Some? && r == Fit(Newest(values, WindowSize)).value
    ensures 0.0 <= previous.rSquared <= 1.0 ==> 0.0 <= r.rSquared <= 1.0
  {
    if |values| >= MinPoints then
      match Fit(Newest(values, WindowSize))
      case Some(t) => t
      case None => previous
    else previous
  }

  // ---------------------------------------------------------------------
  // Closed forms of the index sums

  lemma {:induction false} SumXClosedForm(n: nat)
    ensures 2 * SumX(n) == n * (n - 1)
  {
    if n > 0 {
      SumXClosedForm(n - 1);
    }
  }

  lemma {:induction false} SumXXClosedForm(n: nat)
    ensures 6 * SumXX(n) == (n - 1) * n * (2 * n - 1)
  {
    if n > 0 {
      SumXXClosedForm(n - 1);
      var m := n - 1;
      assert 6 * SumXX(m) == (m - 1) * m * (2 * m - 1);
      assert (m - 1) * m * (2 * m - 1) + 6 * (m * m) == m * n * (2 * n - 1);
    }
  }

  /** `12 * (n * sum_xx - sum_x^2) == n^2 (n - 1) (n + 1)`. */
  lemma DenominatorClosedForm(n: nat)
    ensures 12 * Denominator(n) == (n * (n - 1)) * (n * (n + 1))
  {
    SumXClosedForm(n);
    SumXXClosedForm(n);
    var sx, sxx := SumX(n), SumXX(n);
    Scale12(n, sx, sxx);
    DenominatorAlgebra(n, 2 * sx, 6 * sxx);
  }

  lemma Scale12(n: int, sx: int, sxx: int)
    ensures 12 * (n * sxx - sx * sx) == 2 * n * (6 * sxx) - 3 * ((2 * sx) * (2 * sx))
  {
  }

  lemma DenominatorAlgebra(n: int, sx2: int, sxx6: int)
    requires sx2 == n * (n - 1)
    requires sxx6 == (n - 1) * n * (2 * n - 1)
    ensures 2 * n * sxx6 - 3 * (sx2 * sx2) == (n * (n - 1)) * (n * (n + 1))
  {
    var p := n * (n - 1);
    assert sxx6 == p * (2 * n - 1);
    assert 2 * n * sxx6 == p * (2 * n * (2 * n - 1));
    assert 3 * (sx2 * sx2) == p * (3 * p);
    assert 2 * n * (2 * n - 1) - 3 * p == n * (n + 1);
    assert p * (2 * n * (2 * n - 1)) - p * (3 * p) == p * (2 * n * (2 * n - 1) - 3 * p);
  }

  /** The denominator vanishes exactly for windows of fewer than two points. */
  lemma DenominatorSign(n: nat)
    ensures Denominator(n) == 0 <==> n < 2
    ensures n >= 2 ==> Denominator(n) > 0
  {
    DenominatorClosedForm(n);
    if n >= 2 {
      PositiveProduct(n, n - 1);
      PositiveProduct(n, n + 1);
      PositiveProduct(n * (n - 1), n * (n + 1));
    } else {
      assert n * (n - 1) == 0;
    }
  }

  lemma PositiveProduct(a: int, b: int)
    requires a > 0 && b > 0
    ensures a * b > 0
  {
  }

  // ---------------------------------------------------------------------
  // The fit recovers an exact line

  ghost predicate OnLine(ys: seq<real>, a: real, b: real)
  {
    forall i :: 0 <= i < |ys| ==> ys[i] == a + b * i as real
  }

  lemma {:induction false} OnLinePrefix(ys: seq<real>, a: real, b: real, k: nat)
    requires OnLine(ys, a, b) && k <= |ys|
    ensures OnLine(ys[..k], a, b)
  {
    forall i | 0 <= i < k ensures ys[..k][i] == a + b * i as real {
      assert ys[..k][i] == ys[i];
    }
  }

  lemma {:induction false} SumYOnLine(ys: seq<real>, a: real, b: real)
    requires OnLine(ys, a, b)
    ensures SumY(ys) == |ys| as real * a + b * SumX(|ys|) as real
  {
    if ys != [] {
      var n := |ys|;
      OnLinePrefix(ys, a, b, n - 1);
      SumYOnLine(ys[..n - 1], a, b);
      StepSumY((n - 1) as real, a, b, SumX(n - 1) as real);
    }
  }

  lemma StepSumY(x: real, a: real, b: real, sx: real)
    ensures x * a + b * sx + (a + b * x) == (x + 1.0) * a + b * (sx + x)
  {
  }

  lemma {:induction false} SumXYOnLine(ys: seq<real>, a: real, b: real)
    requires OnLine(ys, a, b)
    ensures SumXY(ys) == a * SumX(|ys|) as real + b * SumXX(|ys|) as real
  {
    if ys != [] {
      var n := |ys|;
      OnLinePrefix(ys, a, b, n - 1);
      SumXYOnLine(ys[..n - 1], a, b);
      var x := (n - 1) as real;
      assert ((n - 1) * (n - 1)) as real == x * x;
      StepSumXY(x, a, b, SumX(n - 1) as real, SumXX(n - 1) as real);
    }
  }

  lemma StepSumXY(x: real, a: real, b: real, sx: real, sxx: real)
    ensures a * sx + b * sxx + x * (a + b * x) == a * (sx + x) + b * (sxx + x * x)
  {
  }

  lemma {:induction false} ResidualsOnLine(ys: seq<real>, a: real, b: real)
    requires OnLine(ys, a, b)
    ensures SumSqRes(ys, b, a) == 0.0
  {
    if ys != [] {
      var n := |ys|;
      OnLinePrefix(ys, a, b, n - 1);
      ResidualsOnLine(ys[..n - 1], a, b);
      var e := ys[n - 1] - (b * (n - 1) as real + a);
      assert e == 0.0;
    }
  }

  /** Every term of the total sum of squares is non-negative, so the sum is
      at least the sum over any prefix. */
  lemma {:induction false} SumSqDevOfPrefix(ys: seq<real>, mean: real, k: nat)
    requires k <= |ys|
    ensures SumSqDev(ys, mean) >= SumSqDev(ys[..k], mean)
    decreases |ys|
  {
    if k < |ys| {
      var init := ys[..|ys| - 1];
      SumSqDevOfPrefix(init, mean, k);
      assert init[..k] == ys[..k];
      SquareNonNegative(ys[|ys| - 1] - mean);
    } else {
      assert ys[..k] == ys;
    }
  }

  lemma {:induction false} SumSqDevZeroAtMean(ys: seq<real>, a: real)
    requires forall i :: 0 <= i < |ys| ==> ys[i] == a
    ensures SumSqDev(ys, a) == 0.0
  {
    if ys != [] {
      SumSqDevZeroAtMean(ys[..|ys| - 1], a);
    }
  }

  lemma SquareNonNegative(d: real)
    ensures d * d >= 0.0
  {
    if d < 0.0 {
      var e := -d;
      assert e * e == d * d;
    }
  }

  lemma SquarePositive(d: real)
    requires d != 0.0
    ensures d * d > 0.0
  {
    if d < 0.0 {
      var e := -d;
      assert e * e == d * d;
      assert e * e > 0.0;
    }
  }

  lemma TwoSquaresPositive(d0: real, d1: real)
    requires d0 != d1
    ensures d0 * d0 + d1 * d1 > 0.0
  {
    SquareNonNegative(d0);
    SquareNonNegative(d1);
    if d0 != 0.0 {
      SquarePositive(d0);
    } else {
      SquarePositive(d1);
    }
  }

  /** Two different values cannot both sit at the mean. */
  lemma TwoPointsSpread(ys: seq<real>, mean: real)
    requires |ys| >= 2 && ys[0] != ys[1]
    ensures SumSqDev(ys, mean) > 0.0
  {
    SumSqDevOfPrefix(ys, mean, 2);
    var p := ys[..2];
    var d0, d1 := ys[0] - mean, ys[1] - mean;
    assert p[..1] == [ys[0]] && p[..1][..0] == [];
    assert SumSqDev(p[..1], mean) == d0 * d0;
    assert SumSqDev(p, mean) == d0 * d0 + d1 * d1;
    hide SumSqDev;
    TwoSquaresPositive(d0, d1);
    assert SumSqDev(ys, mean) >= SumSqDev(p, mean);
  }

  lemma SlopeAlgebra(n: real, sx: real, sxx: real, a: real, b: real, sy: real, sxy: real, den: real)
    requires sy == n * a + b * sx
    requires sxy == a * sx + b * sxx
    requires den == n * sxx - sx * sx && den != 0.0
    ensures SlopeFrom(n, sx, sy, sxy, den) == b
  {
    assert n * sxy == n * a * sx + n * b * sxx;
    assert sx * sy == n * a * sx + b * sx * sx;
    assert n * sxy - sx * sy == b * den;
  }

  lemma InterceptAlgebra(n: real, sx: real, a: real, b: real, sy: real)
    requires n > 0.0 && sy == n * a + b * sx
    ensures InterceptFrom(n, sx, sy, b) == a
  {
  }

  lemma {:induction false} SlopeOnLine(ys: seq<real>, a: real, b: real)
    requires |ys| >= 2 && OnLine(ys, a, b)
    ensures Denominator(|ys|) != 0 && Slope(ys) == b
  {
    hide SumX, SumXX, SumY, SumXY, Denominator, SlopeFrom;
    var n := |ys|;
    DenominatorSign(n);
    SumYOnLine(ys, a, b);
    SumXYOnLine(ys, a, b);
    DenominatorAsReal(n);
    SlopeAlgebra(n as real, SumX(n) as real, SumXX(n) as real, a, b, SumY(ys), SumXY(ys),
                 Denominator(n) as real);
  }

  lemma DenominatorAsReal(n: nat)
    ensures Denominator(n) as real
         == n as real * SumXX(n) as real - SumX(n) as real * SumX(n) as real
  {
    CastProduct(n, SumXX(n));
    CastProduct(SumX(n), SumX(n));
  }

  lemma CastProduct(x: int, y: int)
    ensures (x * y) as real == x as real * y as real
  {
  }

  lemma {:induction false} InterceptOnLine(ys: seq<real>, a: real, b: real)
    requires |ys| >= 2 && OnLine(ys, a, b)
    ensures Denominator(|ys|) != 0 && Intercept(ys) == a
  {
    hide SumX, SumXX, SumY, SumXY, Denominator, SlopeFrom, InterceptFrom, Slope, Intercept;
    var n := |ys|;
    DenominatorSign(n);
    FitFormulas(ys);
    SlopeOnLine(ys, a, b);
    SumYOnLine(ys, a, b);
    InterceptStep(n, SumX(n) as real, SumY(ys), Slope(ys), a, b);
  }

  lemma InterceptStep(n: nat, sx: real, sy: real, slope: real, a: real, b: real)
    requires n > 0 && slope == b && sy == n as real * a + b * sx
    ensures InterceptFrom(n as real, sx, sy, slope) == a
  {
    InterceptAlgebra(n as real, sx, a, b, sy);
  }

  lemma {:induction false} RSquaredOnLine(ys: seq<real>, a: real, b: real)
    requires |ys| >= 2 && OnLine(ys, a, b)
    ensures Denominator(|ys|) != 0
    ensures RawRSquared(ys) == if b == 0.0 then 0.0 else 1.0
  {
    SlopeOnLine(ys, a, b);
    InterceptOnLine(ys, a, b);
    if b == 0.0 {
      SumYOnLine(ys, a, b);
      assert Mean(ys) == a;
      SumSqDevZeroAtMean(ys, a);
    } else {
      TwoPointsSpread(ys, Mean(ys));
      ResidualsOnLine(ys, a, b);
    }
  }

  /** When the window lies exactly on the line `a + b * i`, the fit returns
      slope `b`, with a perfect fit (`r_squared == 1`) when the line rises or
      falls and the zero-variance answer (`r_squared == 0`) when it is flat. */
  lemma {:induction false} ExactLineFit(ys: seq<real>, a: real, b: real)
    requires |ys| >= 2 && OnLine(ys, a, b)
    ensures Fit(ys) == Some(Trend(b, if b == 0.0 then 0.0 else 1.0))
  {
    SlopeOnLine(ys, a, b);
    RSquaredOnLine(ys, a, b);
  }

  /** A window with no variance has the neutral trend. */
  lemma {:induction false} ConstantWindowIsNeutral(ys: seq<real>, c: real)
    requires |ys| >= 2
    requires forall i :: 0 <= i < |ys| ==> ys[i] == c
    ensures Fit(ys) == Some(Neutral)
  {
    assert OnLine(ys, c, 0.0);
    ExactLineFit(ys, c, 0.0);
  }

  /** The residual sum in terms of the sums the source accumulates. */
  lemma {:induction false} SumResClosedForm(ys: seq<real>, slope: real, intercept: real)
    ensures SumRes(ys, slope, intercept)
         == SumY(ys) - slope * SumX(|ys|) as real - |ys| as real * intercept
  {
    if ys != [] {
      var n := |ys| - 1;
      SumResClosedForm(ys[..n], slope, intercept);
      assert SumX(n + 1) as real == SumX(n) as real + n as real;
    }
  }

  /** The index-weighted residual sum in terms of the accumulated sums. */
  lemma {:induction false} SumXResClosedForm(ys: seq<real>, slope: real, intercept: real)
    ensures SumXRes(ys, slope, intercept)
         == SumXY(ys) - slope * SumXX(|ys|) as real - intercept * SumX(|ys|) as real
  {
    hide SumXRes, SumXY, SumX, SumXX;
    if ys == [] {
      EmptySums(slope, intercept);
    } else {
      var n := |ys| - 1;
      SumXResClosedForm(ys[..n], slope, intercept);
      WeightedSumsStep(ys, slope, intercept);
      IndexSumsStep(|ys|);
      StepXRes(SumXRes(ys[..n], slope, intercept), SumXRes(ys, slope, intercept), SumXY(ys[..n]), SumXY(ys),
               SumXX(n) as real, SumXX(|ys|) as real, SumX(n) as real, SumX(|ys|) as real,
               n as real, ys[n], slope, intercept);
    }
  }

  lemma EmptySums(slope: real, intercept: real)
    ensures SumXRes([], slope, intercept) == 0.0 && SumXY([]) == 0.0 && SumXX(0) == 0 && SumX(0) == 0
  {
  }

  /** One more reading adds one term to each index-weighted sum. */
  lemma WeightedSumsStep(ys: seq<real>, slope: real, intercept: real)
    requires ys != []
    ensures var n := |ys| - 1; var x, y := n as real, ys[n];
      SumXRes(ys, slope, intercept) == SumXRes(ys[..n], slope, intercept) + x * (y - (slope * x + intercept))
      && SumXY(ys) == SumXY(ys[..n]) + x * y
  {
  }

  /** One more index adds one term to the index sums. */
  lemma IndexSumsStep(m: nat)
    requires m > 0
    ensures SumX(m) as real == SumX(m - 1) as real + (m - 1) as real
    ensures SumXX(m) as real == SumXX(m - 1) as real + (m - 1) as real * (m - 1) as real
  {
    CastProduct(m - 1, m - 1);
  }

  lemma StepXRes(r: real, r': real, sxy: real, sxy': real, sxx: real, sxx': real, sx: real, sx': real,
                 x: real, y: real, slope: real, intercept: real)
    requires r == sxy - slope * sxx - intercept * sx
    requires r' == r + x * (y - (slope * x + intercept))
    requires sxy' == sxy + x * y && sxx' == sxx + x * x && sx' == sx + x
    ensures r' == sxy' - slope * sxx' - intercept * sx'
  {
  }

  /** The slope and intercept formulas solve the two normal equations. */
  lemma NormalAlgebra(n: real, sx: real, sxx: real, sy: real, sxy: real, den: real)
    requires n > 0.0 && den == n * sxx - sx * sx && den != 0.0
    ensures var b := SlopeFrom(n, sx, sy, sxy, den);
      var a := InterceptFrom(n, sx, sy, b);
      sy - b * sx - n * a == 0.0 && sxy - b * sxx - a * sx == 0.0
  {
    var b := SlopeFrom(n, sx, sy, sxy, den);
    var a := InterceptFrom(n, sx, sy, b);
    assert b * den == n * sxy - sx * sy;
    assert n * a == sy - b * sx;
    calc {
      n * (sxy - b * sxx - a * sx);
      n * sxy - b * (n * sxx) - sx * (n * a);
      n * sxy - b * (n * sxx) - sx * sy + b * (sx * sx);
      (n * sxy - sx * sy) - b * den;
      0.0;
    }
  }

  /** The fitted line satisfies the normal equations of least squares:
      its residuals sum to zero, and so do the residuals weighted by
      reading index. */
  lemma NormalEquations(ys: seq<real>)
    requires |ys| >= 2
    ensures Denominator(|ys|) != 0
    ensures SumRes(ys, Slope(ys), Intercept(ys)) == 0.0
    ensures SumXRes(ys, Slope(ys), Intercept(ys)) == 0.0
  {
    hide SumX, SumXX, SumY, SumXY, Denominator, SlopeFrom, InterceptFrom, Slope, Intercept, SumRes, SumXRes;
    var n := |ys|;
    DenominatorSign(n);
    FitFormulas(ys);
    var b, a := Slope(ys), Intercept(ys);
    SumResClosedForm(ys, b, a);
    SumXResClosedForm(ys, b, a);
    DenominatorAsReal(n);
    NormalAlgebra(n as real, SumX(n) as real, SumXX(n) as real, SumY(ys), SumXY(ys), Denominator(n) as real);
  }

  /** The slope and the intercept are the source's formulas over the sums. */
  lemma FitFormulas(ys: seq<real>)
    requires |ys| >= 2 && Denominator(|ys|) != 0
    ensures var n := |ys|; var sx, sy := SumX(n) as real, SumY(ys);
      Slope(ys) == SlopeFrom(n as real, sx, sy, SumXY(ys), Denominator(n) as real)
      && Intercept(ys) == InterceptFrom(n as real, sx, sy, Slope(ys))
  {
  }
}
