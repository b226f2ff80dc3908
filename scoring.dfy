/**
 * Scoring a forecaster's output with `calculateMetrics`: the placeholder
 * prefix each forecaster leaves determines how many positions are counted,
 * and the extrapolated forecast past the last observation is never read.
 */
module Scoring {
  import opened Series
  import opened SingleSmoothing
  import opened DoubleSmoothing
  import opened TripleSmoothing
  import opened Metrics

  /** A list of plain numbers as forecast entries (`singleES` has no placeholders). */
  function Nums(f: seq<real>): (s: seq<Val>)
    ensures |s| == |f|
    ensures forall i :: 0 <= i < |f| ==> s[i] == Num(f[i])
  {
    seq(|f|, i requires 0 <= i < |f| => Num(f[i]))
  }

  /**
   * `singleES` forecasts scored against their own input: every one of the
   * N positions is counted, and scoring fails exactly when an observation
   * is zero (the percentage error divides by it).
   */
  lemma SesScoring(x: seq<real>, alpha: real)
    requires 0 < |x|
    ensures Defined(Nums(Ses(x, alpha, |x|)), |x|) == |x|
    ensures Evaluate(Nums(Ses(x, alpha, |x|)), x).Err? <==> exists i :: 0 <= i < |x| && x[i] == 0.0
  {
    var p := Nums(Ses(x, alpha, |x|));
    DefinedAfterPlaceholders(p, 0, |x|);
    EvaluateFails(p, x);
    if exists i :: 0 <= i < |x| && x[i] == 0.0 {
      var i :| 0 <= i < |x| && x[i] == 0.0;
      assert ZeroActualAt(p, x, i);
    }
  }

  /**
   * `doubleES` forecasts scored against their input: the two placeholders
   * are skipped, so N - 2 positions are counted, and with exactly two
   * periods nothing is counted and scoring divides by zero.
   */
  lemma HoltScoring(x: seq<real>, alpha: real, beta: real)
    requires 2 <= |x|
    ensures Defined(Des(x, alpha, beta, |x| - 1).forecast, |x|) == |x| - 2
    ensures |x| == 2 ==> Evaluate(Des(x, alpha, beta, |x| - 1).forecast, x) == Err(DivisionByZero)
  {
    var h := Des(x, alpha, beta, |x| - 1);
    DesIsRun(x, alpha, beta);
    forall i | 0 <= i < |x|
      ensures h.forecast[i].NA? <==> i < 2
    {
      HoltForecastShape(x, alpha, beta, h, i);
    }
    DefinedAfterPlaceholders(h.forecast, 2, |x|);
    if |x| == 2 {
      assert !exists i :: 0 <= i < |h.forecast| && i < |x| && ZeroActualAt(h.forecast, x, i);
    }
  }

  /**
   * `tripleES` forecasts scored against their input: the 2L placeholders
   * are skipped, so N - 2L positions are counted, and with exactly two
   * seasons of data nothing is counted and scoring divides by zero.
   */
  lemma WintersScoring(x: seq<real>, alpha: real, beta: real, gamma: real, L: nat)
    requires 1 <= L && 2 * L <= |x|
    requires Tes(x, alpha, beta, gamma, L).Ok?
    ensures Defined(Tes(x, alpha, beta, gamma, L).value.forecast, |x|) == |x| - 2 * L
    ensures |x| == 2 * L ==> Evaluate(Tes(x, alpha, beta, gamma, L).value.forecast, x) == Err(DivisionByZero)
  {
    var w := Tes(x, alpha, beta, gamma, L).value;
    assert Shaped(w, L, |x|);
    DefinedAfterPlaceholders(w.forecast, 2 * L, |x|);
    if |x| == 2 * L {
      assert !exists i :: 0 <= i < |w.forecast| && i < |x| && ZeroActualAt(w.forecast, x, i);
    }
  }
}
