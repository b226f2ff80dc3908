/**
 * The error-metric evaluator (`calculateMetrics`): mean absolute deviation,
 * mean squared error and mean absolute percentage error of a forecast list
 * against the actuals, over the positions 0..|actuals|-1 whose forecast is
 * a number. Placeholders are skipped and taken out of the denominator.
 */
module Metrics {
  import opened Series

  /** The three metrics `calculateMetrics` returns. */
  datatype Scores = Scores(mad: real, mse: real, mape: real)

  function Abs(r: real): (a: real)
    ensures 0.0 <= a && (a == r || a == -r)
  {
    if r < 0.0 then -r else r
  }

  /** A numeric forecast at a position whose actual is zero: the percentage error divides by zero. */
  predicate ZeroActualAt(p: seq<Val>, a: seq<real>, i: nat)
    requires i < |p| && i < |a|
  {
    p[i].Num? && a[i] == 0.0
  }

  /** The number of numeric forecasts among the first n. */
  function Defined(p: seq<Val>, n: nat): (c: nat)
    requires n <= |p|
    ensures c <= n
  {
    if n == 0 then 0 else Defined(p, n - 1) + (if p[n - 1].Num? then 1 else 0)
  }

  /** Sum of |forecast - actual| over the numeric forecasts among the first n. */
  function SumAbs(p: seq<Val>, a: seq<real>, n: nat): real
    requires n <= |p| && n <= |a|
  {
    if n == 0 then 0.0
    else SumAbs(p, a, n - 1) + (if p[n - 1].Num? then Abs(p[n - 1].v - a[n - 1]) else 0.0)
  }

  function Square(r: real): real
  {
    r * r
  }

  /** Sum of (forecast - actual)^2 over the numeric forecasts among the first n. */
  function SumSq(p: seq<Val>, a: seq<real>, n: nat): real
    requires n <= |p| && n <= |a|
  {
    if n == 0 then 0.0
    else SumSq(p, a, n - 1) + (if p[n - 1].Num? then Square(p[n - 1].v - a[n - 1]) else 0.0)
  }

  /** Sum of |forecast - actual| / actual over the numeric forecasts among the first n. */
  function SumPct(p: seq<Val>, a: seq<real>, n: nat): real
    requires n <= |p| && n <= |a|
    requires forall i :: 0 <= i < n ==> !ZeroActualAt(p, a, i)
  {
    if n == 0 then 0.0
    else
      assert !ZeroActualAt(p, a, n - 1);
      SumPct(p, a, n - 1) + (if p[n - 1].Num? then Abs(p[n - 1].v - a[n - 1]) / a[n - 1] else 0.0)
  }

  /**
   * What `calculateMetrics` computes. It walks the positions of the actuals
   * in order and stops at the first that raises: a numeric forecast against
   * a zero actual (ZeroDivisionError), or a position past the end of the
   * forecasts (IndexError). After the walk a zero count of numeric forecasts
   * raises ZeroDivisionError.
   */
  function Evaluate(p: seq<Val>, a: seq<real>): Result<Scores>
  {
    if exists i :: 0 <= i < |p| && i < |a| && ZeroActualAt(p, a, i) then Err(DivisionByZero)
    else if |p| < |a| then Err(IndexOutOfRange)
    else if Defined(p, |a|) == 0 then Err(DivisionByZero)
    else
      var count := Defined(p, |a|) as real;
      Ok(Scores(SumAbs(p, a, |a|) / count, SumSq(p, a, |a|) / count, SumPct(p, a, |a|) / count))
  }

  /**
   * `calculateMetrics`: one pass over the actuals, accumulating the three
   * sums and decrementing the denominator for every placeholder.
   */
  method CalculateMetrics(predictions: seq<Val>, actuals: seq<real>) returns (r: Result<Scores>)
    ensures r == Evaluate(predictions, actuals)
  {
    var dataLength: int := |actuals|;
    var sumAbsolute, sumSquared, sumPercentage := 0.0, 0.0, 0.0;
    for i := 0 to |actuals|
      invariant i <= |predictions|
      invariant dataLength == Defined(predictions, i) + (|actuals| - i)
      invariant forall j :: 0 <= j < i ==> !ZeroActualAt(predictions, actuals, j)
      invariant sumAbsolute == SumAbs(predictions, actuals, i)
      invariant sumSquared == SumSq(predictions, actuals, i)
      invariant sumPercentage == SumPct(predictions, actuals, i)
    {
      if i == |predictions| {
        return Err(IndexOutOfRange);
      }
      if predictions[i] == NA {
        dataLength := dataLength - 1;
      } else {
        var error := predictions[i].v - actuals[i];
        sumAbsolute := sumAbsolute + Abs(error);
        sumSquared := sumSquared + Square(error);
        if actuals[i] == 0.0 {
          assert ZeroActualAt(predictions, actuals, i);
          return Err(DivisionByZero);
        }
        sumPercentage := sumPercentage + Abs(error) / actuals[i];
      }
    }
    if dataLength == 0 {
      return Err(DivisionByZero);
    }
    r := Ok(Scores(sumAbsolute / dataLength as real, sumSquared / dataLength as real, sumPercentage / dataLength as real));
  }

  /** The sums look only at the first n positions: appending forecasts changes nothing. */
  lemma {:induction false} PrefixOnly(p: seq<Val>, q: seq<Val>, a: seq<real>, n: nat)
    requires n <= |p| && n <= |a|
    ensures Defined(p + q, n) == Defined(p, n)
    ensures SumAbs(p + q, a, n) == SumAbs(p, a, n)
    ensures SumSq(p + q, a, n) == SumSq(p, a, n)
    ensures forall i :: 0 <= i < n ==> ZeroActualAt(p + q, a, i) == ZeroActualAt(p, a, i)
    ensures (forall i :: 0 <= i < n ==> !ZeroActualAt(p, a, i)) ==> SumPct(p + q, a, n) == SumPct(p, a, n)
  {
    if n > 0 {
      PrefixOnly(p, q, a, n - 1);
      assert (p + q)[n - 1] == p[n - 1];
    }
  }

  /**
   * Only the first |actuals| forecasts are read: the trailing extrapolated
   * forecast, and anything after it, never affects the metrics.
   */
  lemma EvaluateIgnoresTail(p: seq<Val>, q: seq<Val>, a: seq<real>)
    requires |a| <= |p|
    ensures Evaluate(p + q, a) == Evaluate(p, a)
  {
    PrefixOnly(p, q, a, |a|);
  }

  /** With placeholders exactly at the first k of n positions, n - k forecasts are counted. */
  lemma {:induction false} DefinedAfterPlaceholders(p: seq<Val>, k: nat, n: nat)
    requires k <= n <= |p|
    requires forall i :: 0 <= i < n ==> (p[i].NA? <==> i < k)
    ensures Defined(p, n) == n - k
  {
    if n > 0 {
      if n - 1 < k {
        NoneDefined(p, n);
      } else {
        DefinedAfterPlaceholders(p, k, n - 1);
      }
    }
  }

  /** Nothing is counted exactly when the first n forecasts are all placeholders. */
  lemma {:induction false} NoneDefined(p: seq<Val>, n: nat)
    requires n <= |p|
    ensures Defined(p, n) == 0 <==> forall i :: 0 <= i < n ==> p[i].NA?
  {
    if n > 0 {
      NoneDefined(p, n - 1);
    }
  }

  lemma {:induction false} SumsNonNegative(p: seq<Val>, a: seq<real>, n: nat)
    requires n <= |p| && n <= |a|
    ensures 0.0 <= SumAbs(p, a, n) && 0.0 <= SumSq(p, a, n)
  {
    if n > 0 {
      SumsNonNegative(p, a, n - 1);
      if p[n - 1].Num? {
        var e := p[n - 1].v - a[n - 1];
        MulNonNegative(Abs(e), Abs(e));
        assert Square(e) == Abs(e) * Abs(e);
      }
    }
  }

  /** MAD and MSE are never negative. */
  lemma MetricsNonNegative(p: seq<Val>, a: seq<real>)
    requires Evaluate(p, a).Ok?
    ensures 0.0 <= Evaluate(p, a).value.mad && 0.0 <= Evaluate(p, a).value.mse
  {
    SumsNonNegative(p, a, |a|);
    var c := Defined(p, |a|) as real;
    DivNonNegative(SumAbs(p, a, |a|), c);
    DivNonNegative(SumSq(p, a, |a|), c);
  }

  lemma DivNonNegative(x: real, c: real)
    requires 0.0 <= x && 0.0 < c
    ensures 0.0 <= x / c
  {
  }

  /** Evaluation fails exactly on a short forecast list, a zero actual under a numeric forecast, or no numeric forecast. */
  lemma EvaluateFails(p: seq<Val>, a: seq<real>)
    ensures Evaluate(p, a).Err? <==>
      |p| < |a| || (exists i :: 0 <= i < |a| && ZeroActualAt(p, a, i)) || Defined(p, |a|) == 0
  {
    if |p| < |a| {
      assert Evaluate(p, a).Err?;
    }
  }

  /** The worked example: forecasts [N/A, 5, 7] against actuals [3, 5, 10]. */
  lemma Example()
    ensures Defined([NA, Num(5.0), Num(7.0)], 3) == 2
    ensures Evaluate([NA, Num(5.0), Num(7.0)], [3.0, 5.0, 10.0]) == Ok(Scores(1.5, 4.5, 0.15))
  {
    var p, a := [NA, Num(5.0), Num(7.0)], [3.0, 5.0, 10.0];
    assert !exists i :: 0 <= i < |p| && i < |a| && ZeroActualAt(p, a, i);
  }

  lemma SquareNonNegative(r: real)
    ensures 0.0 <= r * r
  {
    if r < 0.0 {
      MulNonNegative(-r, -r);
    } else {
      MulNonNegative(r, r);
    }
  }

  lemma PositiveFactor(c: real, y: real)
    requires 0.0 < c && 0.0 <= c * y
    ensures 0.0 <= y
  {
  }

  /** With nothing counted the absolute sum is zero. */
  lemma {:induction false} NothingCountedNothingSummed(p: seq<Val>, a: seq<real>, n: nat)
    requires n <= |p| && n <= |a| && Defined(p, n) == 0
    ensures SumAbs(p, a, n) == 0.0
  {
    if n > 0 {
      NothingCountedNothingSummed(p, a, n - 1);
    }
  }

  /** The Cauchy-Schwarz inequality for a sum A of C terms whose squares sum to Q. */
  predicate CauchySchwarz(A: real, Q: real, C: real)
  {
    A * A <= C * Q
  }

  /** One step of the Cauchy-Schwarz induction, on plain numbers. */
  lemma CauchySchwarzStep(A: real, Q: real, C: real, e: real, A': real, Q': real, C': real)
    requires 0.0 <= A && 0.0 <= Q && 0.0 <= C
    requires CauchySchwarz(A, Q, C) && (C == 0.0 ==> A == 0.0)
    requires A' == A + Abs(e) && Q' == Q + Square(e) && C' == C + 1.0
    ensures CauchySchwarz(A', Q', C')
  {
    var u := Abs(e);
    assert Square(e) == u * u;
    var gap := C * u * u + Q - 2.0 * A * u;
    if C == 0.0 {
      SquareNonNegative(u);
      assert gap == Q;
    } else {
      SquareNonNegative(C * u - A);
      assert C * gap == (C * u - A) * (C * u - A) + (C * Q - A * A);
      PositiveFactor(C, gap);
    }
    assert (C + 1.0) * (Q + u * u) - (A + u) * (A + u) == (C * Q - A * A) + gap;
  }

  /**
   * Cauchy-Schwarz over the counted positions: the squared absolute sum is
   * at most the count times the squared sum.
   */
  lemma {:induction false} AbsSumSquaredBound(p: seq<Val>, a: seq<real>, n: nat)
    requires n <= |p| && n <= |a|
    ensures CauchySchwarz(SumAbs(p, a, n), SumSq(p, a, n), Defined(p, n) as real)
  {
    if n > 0 {
      AbsSumSquaredBound(p, a, n - 1);
      var A, Q, C := SumAbs(p, a, n - 1), SumSq(p, a, n - 1), Defined(p, n - 1) as real;
      if p[n - 1].Num? {
        SumsNonNegative(p, a, n - 1);
        if C == 0.0 {
          NothingCountedNothingSummed(p, a, n - 1);
        }
        CauchySchwarzStep(A, Q, C, p[n - 1].v - a[n - 1], SumAbs(p, a, n), SumSq(p, a, n), Defined(p, n) as real);
      } else {
        assert SumAbs(p, a, n) == A && SumSq(p, a, n) == Q && Defined(p, n) as real == C;
      }
    }
  }

  /** Dividing both sides of A^2 <= C*Q by C^2. */
  lemma MeanSquareBound(A: real, Q: real, C: real)
    requires 0.0 < C && CauchySchwarz(A, Q, C)
    ensures (A / C) * (A / C) <= Q / C
  {
    var m := A / C;
    assert A == m * C;
    assert m * m * (C * C) <= Q * C;
    assert (m * m) * C <= Q by {
      PositiveFactor(C, Q - m * m * C);
    }
  }

  /** The mean absolute deviation is at most the root mean squared error: MAD * MAD <= MSE. */
  lemma MadSquaredAtMostMse(p: seq<Val>, a: seq<real>)
    requires Evaluate(p, a).Ok?
    ensures Evaluate(p, a).value.mad * Evaluate(p, a).value.mad <= Evaluate(p, a).value.mse
  {
    AbsSumSquaredBound(p, a, |a|);
    MeanSquareBound(SumAbs(p, a, |a|), SumSq(p, a, |a|), Defined(p, |a|) as real);
  }
}
