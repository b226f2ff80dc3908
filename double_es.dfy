/**
 * Double exponential smoothing (`doubleES`, Holt's linear method): a level
 * and a trend, each smoothed with its own constant, seeded from the first
 * two observations; the forecast for period t + 1 is level plus trend at t.
 */
module DoubleSmoothing {
  import opened Series

  /** The three lists `doubleES` returns. */
  datatype Holt = Holt(level: seq<real>, trend: seq<real>, forecast: seq<Val>)

  /**
   * The lists as the source's loop has them after processing periods 0..k:
   * level and trend start with one seed entry each, the forecasts with two
   * placeholders, and each iteration appends one entry to all three.
   */
  function Des(x: seq<real>, alpha: real, beta: real, k: nat): (h: Holt)
    requires 2 <= |x| && k < |x|
    ensures |h.level| == k + 1 && |h.trend| == k + 1 && |h.forecast| == k + 2
  {
    if k == 0 then Holt([x[0]], [x[1] - x[0]], NAs(2))
    else
      var p := Des(x, alpha, beta, k - 1);
      var level := Smooth(alpha, x[k], p.level[k - 1] + p.trend[k - 1]);
      var trend := Smooth(beta, level - p.level[k - 1], p.trend[k - 1]);
      Holt(p.level + [level], p.trend + [trend], p.forecast + [Num(level + trend)])
  }

  /** Holt's method index by index, as lines 21-29 of forecastModels.py compute it, for an input of N periods. */
  predicate IsHoltRun(x: seq<real>, alpha: real, beta: real, h: Holt)
  {
    2 <= |x| && |h.level| == |x| && |h.trend| == |x| && |h.forecast| == |x| + 1 &&
    h.level[0] == x[0] && h.trend[0] == x[1] - x[0] &&
    h.forecast[0] == NA && h.forecast[1] == NA &&
    forall t :: 1 <= t < |x| ==> HoltStepAt(x, alpha, beta, h, t)
  }

  /** The updates of period t (forecastModels.py:25-29): level, trend, and the forecast for period t + 1. */
  predicate HoltStepAt(x: seq<real>, alpha: real, beta: real, h: Holt, t: nat)
    requires 1 <= t < |x| && t < |h.level| && t < |h.trend| && t + 1 < |h.forecast|
  {
    h.level[t] == Smooth(alpha, x[t], h.level[t - 1] + h.trend[t - 1]) &&
    h.trend[t] == Smooth(beta, h.level[t] - h.level[t - 1], h.trend[t - 1]) &&
    h.forecast[t + 1] == Num(h.level[t] + h.trend[t])
  }

  /** Appending never changes entries already in the lists. */
  lemma {:induction false} DesPrefix(x: seq<real>, alpha: real, beta: real, j: nat, k: nat)
    requires 2 <= |x| && j <= k < |x|
    ensures Des(x, alpha, beta, k).level[..j + 1] == Des(x, alpha, beta, j).level
    ensures Des(x, alpha, beta, k).trend[..j + 1] == Des(x, alpha, beta, j).trend
    ensures Des(x, alpha, beta, k).forecast[..j + 2] == Des(x, alpha, beta, j).forecast
  {
    if j < k {
      DesPrefix(x, alpha, beta, j, k - 1);
      var h, p := Des(x, alpha, beta, k), Des(x, alpha, beta, k - 1);
      assert h.level[..k] == p.level;
      assert h.trend[..k] == p.trend;
      assert h.forecast[..k + 1] == p.forecast;
      assert h.level[..j + 1] == h.level[..k][..j + 1];
      assert h.trend[..j + 1] == h.trend[..k][..j + 1];
      assert h.forecast[..j + 2] == h.forecast[..k + 1][..j + 2];
    }
  }

  /** Period t of the loop's final lists satisfies the updates of its period. */
  lemma DesStep(x: seq<real>, alpha: real, beta: real, t: nat)
    requires 2 <= |x| && 1 <= t < |x|
    ensures HoltStepAt(x, alpha, beta, Des(x, alpha, beta, |x| - 1), t)
  {
    var h, p := Des(x, alpha, beta, |x| - 1), Des(x, alpha, beta, t);
    DesPrefix(x, alpha, beta, t, |x| - 1);
    assert h.level[t] == p.level[t] && h.level[t - 1] == p.level[t - 1];
    assert h.trend[t] == p.trend[t] && h.trend[t - 1] == p.trend[t - 1];
    assert h.forecast[t + 1] == p.forecast[t + 1];
  }

  /** The seed entries survive every later iteration. */
  lemma DesSeed(x: seq<real>, alpha: real, beta: real, k: nat)
    requires 2 <= |x| && k < |x|
    ensures var h := Des(x, alpha, beta, k);
      h.level[0] == x[0] && h.trend[0] == x[1] - x[0] && h.forecast[0] == NA && h.forecast[1] == NA
  {
    var h := Des(x, alpha, beta, k);
    DesPrefix(x, alpha, beta, 0, k);
    assert h.level[0] == h.level[..1][0];
    assert h.trend[0] == h.trend[..1][0];
    assert h.forecast[0] == h.forecast[..2][0] && h.forecast[1] == h.forecast[..2][1];
  }

  /** The loop's result is a run of Holt's method. */
  lemma DesIsRun(x: seq<real>, alpha: real, beta: real)
    requires 2 <= |x|
    ensures IsHoltRun(x, alpha, beta, Des(x, alpha, beta, |x| - 1))
  {
    var h := Des(x, alpha, beta, |x| - 1);
    DesSeed(x, alpha, beta, |x| - 1);
    forall t | 1 <= t < |x|
      ensures HoltStepAt(x, alpha, beta, h, t)
    {
      DesStep(x, alpha, beta, t);
    }
  }

  /** The seeds and the updates determine all three lists: there is exactly one run. */
  lemma HoltRunUnique(x: seq<real>, alpha: real, beta: real, g: Holt, h: Holt)
    requires IsHoltRun(x, alpha, beta, g) && IsHoltRun(x, alpha, beta, h)
    ensures g == h
  {
    var i := 1;
    while i < |x|
      invariant 1 <= i <= |x|
      invariant forall j :: 0 <= j < i ==> g.level[j] == h.level[j] && g.trend[j] == h.trend[j]
    {
      assert HoltStepAt(x, alpha, beta, g, i) && HoltStepAt(x, alpha, beta, h, i);
      assert g.level[i] == Smooth(alpha, x[i], g.level[i - 1] + g.trend[i - 1]);
      assert h.level[i] == Smooth(alpha, x[i], h.level[i - 1] + h.trend[i - 1]);
      assert g.trend[i] == Smooth(beta, g.level[i] - g.level[i - 1], g.trend[i - 1]);
      assert h.trend[i] == Smooth(beta, h.level[i] - h.level[i - 1], h.trend[i - 1]);
      i := i + 1;
    }
    assert g.level == h.level && g.trend == h.trend;
    forall t | 0 <= t < |x| + 1
      ensures g.forecast[t] == h.forecast[t]
    {
      if t >= 2 {
        assert HoltStepAt(x, alpha, beta, g, t - 1) && HoltStepAt(x, alpha, beta, h, t - 1);
        assert g.forecast[(t - 1) + 1] == Num(g.level[t - 1] + g.trend[t - 1]);
        assert h.forecast[(t - 1) + 1] == Num(h.level[t - 1] + h.trend[t - 1]);
      }
    }
  }

  /** Exactly the first two forecasts are placeholders; every later one is a number. */
  lemma HoltForecastShape(x: seq<real>, alpha: real, beta: real, h: Holt, i: nat)
    requires IsHoltRun(x, alpha, beta, h) && i <= |x|
    ensures h.forecast[i].NA? <==> i < 2
  {
    if i >= 2 {
      assert HoltStepAt(x, alpha, beta, h, i - 1);
      assert h.forecast[(i - 1) + 1] == Num(h.level[i - 1] + h.trend[i - 1]);
    }
  }

  /** On a line a + b*t, a period that starts on the line and with slope b stays there. */
  lemma HoltLinearStep(x: seq<real>, alpha: real, beta: real, h: Holt, b: real, i: nat)
    requires IsHoltRun(x, alpha, beta, h) && 1 <= i < |x|
    requires x[i] == x[i - 1] + b
    requires h.level[i - 1] == x[i - 1] && h.trend[i - 1] == b
    ensures h.level[i] == x[i] && h.trend[i] == b
    ensures h.forecast[i + 1] == Num(x[i] + b)
  {
    assert HoltStepAt(x, alpha, beta, h, i);
    SmoothFixedPoint(alpha, x[i]);
    SmoothFixedPoint(beta, b);
  }

  /**
   * Holt's method tracks a straight line exactly: on an input a + b*t the
   * level is the observation, the trend is the slope, and each forecast
   * is the next point of the line.
   */
  lemma HoltLinear(x: seq<real>, alpha: real, beta: real, h: Holt, a: real, b: real)
    requires IsHoltRun(x, alpha, beta, h)
    requires forall t :: 0 <= t < |x| ==> x[t] == a + b * t as real
    ensures forall t :: 0 <= t < |x| ==> h.level[t] == x[t] && h.trend[t] == b
    ensures forall t :: 2 <= t <= |x| ==> h.forecast[t] == Num(a + b * t as real)
  {
    var i := 1;
    while i < |x|
      invariant 1 <= i <= |x|
      invariant forall j :: 0 <= j < i ==> h.level[j] == x[j] && h.trend[j] == b
      invariant forall j :: 2 <= j <= i ==> h.forecast[j] == Num(a + b * j as real)
    {
      LineStep(a, b, i);
      HoltLinearStep(x, alpha, beta, h, b, i);
      assert h.forecast[i + 1] == Num(a + b * (i + 1) as real);
      i := i + 1;
    }
  }

  /** Consecutive points of the line a + b*t differ by b. */
  lemma LineStep(a: real, b: real, i: nat)
    ensures a + b * (i + 1) as real == (a + b * i as real) + b
    ensures a + b * i as real == (a + b * (i - 1) as real) + b
  {
  }

  /** A constant series is a fixed point: zero trend, and every forecast equals the constant. */
  lemma HoltConstant(x: seq<real>, alpha: real, beta: real, h: Holt, c: real)
    requires IsHoltRun(x, alpha, beta, h)
    requires forall t :: 0 <= t < |x| ==> x[t] == c
    ensures forall t :: 0 <= t < |x| ==> h.level[t] == c && h.trend[t] == 0.0
    ensures forall t :: 2 <= t <= |x| ==> h.forecast[t] == Num(c)
  {
    HoltLinear(x, alpha, beta, h, c, 0.0);
  }

  /**
   * `doubleES`: refuses fewer than two periods, seeds level and trend from
   * the first two observations, then appends one entry per later period.
   */
  method DoubleES(x: seq<real>, alpha: real, beta: real) returns (r: Result<Holt>)
    ensures r.Err? <==> |x| < 2
    ensures |x| < 2 ==> r == Err(TooFewPeriods)
    ensures r.Ok? ==> r.value == Des(x, alpha, beta, |x| - 1) && IsHoltRun(x, alpha, beta, r.value)
  {
    if |x| < 2 {
      return Err(TooFewPeriods);
    }
    var level := [x[0]];
    var trend := [x[1] - x[0]];
    var forecast := NAs(2);
    for t := 1 to |x|
      invariant Holt(level, trend, forecast) == Des(x, alpha, beta, t - 1)
    {
      var updatedLevel := Smooth(alpha, x[t], level[t - 1] + trend[t - 1]);
      level := level + [updatedLevel];
      var updatedTrend := Smooth(beta, level[t] - level[t - 1], trend[t - 1]);
      trend := trend + [updatedTrend];
      forecast := forecast + [Num(updatedLevel + updatedTrend)];
    }
    DesIsRun(x, alpha, beta);
    return Ok(Holt(level, trend, forecast));
  }

  /** The two-period example: level 10 and trend 2 from the observations 10 and 12. */
  lemma DesTwoPeriods(alpha: real, beta: real)
    ensures var h := Des([10.0, 12.0], alpha, beta, 1);
      h.level[0] == 10.0 && h.trend[0] == 2.0 && h.forecast[..2] == [NA, NA]
  {
    DesIsRun([10.0, 12.0], alpha, beta);
  }
}
