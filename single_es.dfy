/**
 * Single exponential smoothing (`singleES`): one smoothing constant alpha,
 * forecast 0 seeded with the first observation and every later forecast a
 * weighted average of the previous observation and the previous forecast.
 */
module SingleSmoothing {
  import opened Series

  /**
   * The forecasts F[0..k] as the source's loop has them after its k-th
   * iteration: the list starts as [x[0]] and each iteration appends one entry.
   */
  function Ses(x: seq<real>, alpha: real, k: nat): (f: seq<real>)
    requires 0 < |x| && k <= |x|
    ensures |f| == k + 1
    ensures f[0] == x[0]
  {
    if k == 0 then [x[0]]
    else
      var p := Ses(x, alpha, k - 1);
      p + [Smooth(alpha, x[k - 1], p[k - 1])]
  }

  /** The recurrence of forecastModels.py:12, index by index: what a full list of forecasts must satisfy. */
  predicate IsSesRun(x: seq<real>, alpha: real, f: seq<real>)
  {
    0 < |x| && |f| == |x| + 1 && f[0] == x[0] &&
    forall i :: 1 <= i <= |x| ==> f[i] == Smooth(alpha, x[i - 1], f[i - 1])
  }

  /** Appending never changes entries already in the list. */
  lemma {:induction false} SesPrefix(x: seq<real>, alpha: real, j: nat, k: nat)
    requires 0 < |x| && j <= k <= |x|
    ensures Ses(x, alpha, k)[..j + 1] == Ses(x, alpha, j)
  {
    if j < k {
      SesPrefix(x, alpha, j, k - 1);
      assert Ses(x, alpha, k)[..k] == Ses(x, alpha, k - 1);
    }
  }

  /** Every list the loop builds satisfies the recurrence up to its length. */
  lemma {:induction false} SesRecurrence(x: seq<real>, alpha: real, k: nat, i: nat)
    requires 0 < |x| && 1 <= i <= k <= |x|
    ensures Ses(x, alpha, k)[i] == Smooth(alpha, x[i - 1], Ses(x, alpha, k)[i - 1])
  {
    SesPrefix(x, alpha, i, k);
    assert Ses(x, alpha, k)[i] == Ses(x, alpha, i)[i];
    assert Ses(x, alpha, k)[i - 1] == Ses(x, alpha, i)[i - 1];
  }

  /** The loop's result satisfies the recurrence at every index. */
  lemma SesIsRun(x: seq<real>, alpha: real)
    requires 0 < |x|
    ensures IsSesRun(x, alpha, Ses(x, alpha, |x|))
  {
    forall i | 1 <= i <= |x|
      ensures Ses(x, alpha, |x|)[i] == Smooth(alpha, x[i - 1], Ses(x, alpha, |x|)[i - 1])
    {
      SesRecurrence(x, alpha, |x|, i);
    }
  }

  /** The recurrence determines the forecasts: there is exactly one run. */
  lemma SesRunUnique(x: seq<real>, alpha: real, f: seq<real>, g: seq<real>)
    requires IsSesRun(x, alpha, f) && IsSesRun(x, alpha, g)
    ensures f == g
  {
    var i := 0;
    while i < |x|
      invariant 0 <= i <= |x|
      invariant f[..i + 1] == g[..i + 1]
    {
      assert f[i] == g[i];
      assert f[i + 1] == g[i + 1];
      assert f[..i + 2] == f[..i + 1] + [f[i + 1]];
      assert g[..i + 2] == g[..i + 1] + [g[i + 1]];
      i := i + 1;
    }
    assert f == f[..|x| + 1] && g == g[..|x| + 1];
  }

  /** The second forecast repeats the first observation. */
  lemma SesSecondIsSeed(x: seq<real>, alpha: real)
    requires 0 < |x|
    ensures Ses(x, alpha, |x|)[1] == x[0]
  {
    SesRecurrence(x, alpha, |x|, 1);
  }

  /** With alpha = 1 each forecast is the previous observation. */
  lemma SesAlphaOne(x: seq<real>, i: nat)
    requires 1 <= i <= |x|
    ensures Ses(x, 1.0, |x|)[i] == x[i - 1]
  {
    SesRecurrence(x, 1.0, |x|, i);
    var f := Ses(x, 1.0, |x|);
    assert (1.0 - 1.0) * f[i - 1] == 0.0;
  }

  /** A constant series is a fixed point: every forecast equals the constant. */
  lemma {:induction false} SesConstant(x: seq<real>, alpha: real, c: real, k: nat)
    requires 0 < |x| && k <= |x|
    requires forall j :: 0 <= j < |x| ==> x[j] == c
    ensures forall i :: 0 <= i <= k ==> Ses(x, alpha, k)[i] == c
  {
    if k > 0 {
      SesConstant(x, alpha, c, k - 1);
      var p := Ses(x, alpha, k - 1);
      assert p[k - 1] == c;
      SmoothFixedPoint(alpha, c);
    }
  }

  /**
   * With alpha in (0, 1] every forecast is a weighted average of observations,
   * so it stays within any bounds the observations respect.
   */
  lemma {:induction false} SesBounded(x: seq<real>, alpha: real, lo: real, hi: real, k: nat)
    requires 0 < |x| && k <= |x| && 0.0 < alpha <= 1.0
    requires forall j :: 0 <= j < |x| ==> lo <= x[j] <= hi
    ensures forall i :: 0 <= i <= k ==> lo <= Ses(x, alpha, k)[i] <= hi
  {
    if k > 0 {
      SesBounded(x, alpha, lo, hi, k - 1);
      var p := Ses(x, alpha, k - 1);
      SmoothBetween(alpha, lo, hi, x[k - 1], p[k - 1]);
    }
  }

  /** No lookahead: forecast k depends only on the observations before period k. */
  lemma {:induction false} SesCausal(x: seq<real>, y: seq<real>, alpha: real, k: nat)
    requires 0 < |x| && 0 < |y| && k <= |x| && k <= |y| && x[0] == y[0]
    requires forall j :: 0 <= j < k ==> x[j] == y[j]
    ensures Ses(x, alpha, k) == Ses(y, alpha, k)
  {
    if k > 0 {
      SesCausal(x, y, alpha, k - 1);
      assert x[k - 1] == y[k - 1];
    }
  }

  /**
   * `singleES`: rejects alpha outside (0, 1], reads the first observation
   * (an IndexError on empty input), then appends one forecast per observation.
   */
  method SingleES(x: seq<real>, alpha: real) returns (r: Result<seq<real>>)
    ensures r.Err? <==> !(0.0 < alpha <= 1.0) || |x| == 0
    ensures !(0.0 < alpha <= 1.0) ==> r == Err(AlphaOutOfRange)
    ensures 0.0 < alpha <= 1.0 && |x| == 0 ==> r == Err(IndexOutOfRange)
    ensures r.Ok? ==> r.value == Ses(x, alpha, |x|) && IsSesRun(x, alpha, r.value)
  {
    if !(0.0 < alpha <= 1.0) {
      return Err(AlphaOutOfRange);
    }
    if |x| == 0 {
      return Err(IndexOutOfRange);
    }
    var forecasts := [x[0]];
    for i := 1 to |x| + 1
      invariant forecasts == Ses(x, alpha, i - 1)
    {
      forecasts := forecasts + [Smooth(alpha, x[i - 1], forecasts[i - 1])];
    }
    SesIsRun(x, alpha);
    return Ok(forecasts);
  }
}
