/**
 * Values shared by the forecasters and the metrics evaluator: the entries
 * of a forecast list (a number or the "N/A" placeholder), the errors the
 * forecasting functions raise, and sums over observation sequences.
 */
module Series {

  /** One entry of a forecast or state list: the "N/A" placeholder or a number. */
  datatype Val = NA | Num(v: real)

  /** The exceptions the forecasting engine raises. */
  datatype Error =
    | AlphaOutOfRange   // the ValueError of singleES when alpha is outside (0, 1]
    | TooFewPeriods     // the ValueError of doubleES on fewer than two periods
    | IndexOutOfRange   // an IndexError: a list read past its end
    | DivisionByZero    // a ZeroDivisionError

  datatype Result<T> = Ok(value: T) | Err(error: Error)

  /**
   * The smoothing update every recurrence of the engine uses: weight w on
   * the new reading, 1 - w on the running estimate.
   */
  function Smooth(w: real, reading: real, estimate: real): real
  {
    w * reading + (1.0 - w) * estimate
  }

  /** An estimate that already equals the reading is left where it is. */
  lemma SmoothFixedPoint(w: real, c: real)
    ensures Smooth(w, c, c) == c
  {
    assert w * c + (1.0 - w) * c == c;
  }

  /** With a weight in [0, 1] the update is a convex combination: it stays between any common bounds. */
  lemma SmoothBetween(w: real, lo: real, hi: real, reading: real, estimate: real)
    requires 0.0 <= w <= 1.0
    requires lo <= reading <= hi && lo <= estimate <= hi
    ensures lo <= Smooth(w, reading, estimate) <= hi
  {
    MulNonNegative(w, reading - lo);
    MulNonNegative(1.0 - w, estimate - lo);
    MulNonNegative(w, hi - reading);
    MulNonNegative(1.0 - w, hi - estimate);
    assert Smooth(w, reading, estimate) - lo == w * (reading - lo) + (1.0 - w) * (estimate - lo);
    assert hi - Smooth(w, reading, estimate) == w * (hi - reading) + (1.0 - w) * (hi - estimate);
  }

  lemma MulNonNegative(a: real, b: real)
    requires 0.0 <= a && 0.0 <= b
    ensures 0.0 <= a * b
  {
  }

  /** `["N/A"] * k`: a list of k placeholders. */
  function NAs(k: nat): (s: seq<Val>)
    ensures |s| == k
    ensures forall i :: 0 <= i < k ==> s[i] == NA
  {
    seq(k, _ => NA)
  }

  /** Left-to-right sum of a sequence of numbers, as Python's `sum`. */
  function Sum(s: seq<real>): real
  {
    if |s| == 0 then 0.0 else Sum(s[..|s| - 1]) + s[|s| - 1]
  }

  /** A sum of equal terms is the term times the length. */
  lemma {:induction false} SumConstant(s: seq<real>, c: real)
    requires forall i :: 0 <= i < |s| ==> s[i] == c
    ensures Sum(s) == |s| as real * c
  {
    if |s| > 0 {
      SumConstant(s[..|s| - 1], c);
    }
  }

  /** The sum of the numeric entries of a list; placeholders add nothing. */
  function NumSum(s: seq<Val>): real
  {
    if |s| == 0 then 0.0
    else NumSum(s[..|s| - 1]) + (if s[|s| - 1].Num? then s[|s| - 1].v else 0.0)
  }

  /** Summing a list extended by one entry adds that entry. */
  lemma NumSumAppend(s: seq<Val>, r: Val)
    ensures NumSum(s + [r]) == NumSum(s) + (if r.Num? then r.v else 0.0)
  {
    assert (s + [r])[..|s|] == s;
  }
}
