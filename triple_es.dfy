/**
 * Triple exponential smoothing (`tripleES`, Holt-Winters with multiplicative
 * seasonality). Level, trend and seasonal factors are initialised from the
 * first two seasons of L periods each and then updated once per period.
 * All four lists are indexed by period; their initial entries are "N/A"
 * placeholders, and the seasonal factor of offset t of the first season is
 * stored at index L + t (offset by one season).
 */
module TripleSmoothing {
  import opened Series

  /** The four lists `tripleES` returns. */
  datatype Winters = Winters(level: seq<Val>, trend: seq<Val>, season: seq<Val>, forecast: seq<Val>)

  /**
   * The lists cover periods 0..n-1 (the forecasts one period more) and hold
   * placeholders exactly where the source puts them: the first 2L-1 levels
   * and trends, the first L seasonal factors and the first 2L forecasts.
   */
  predicate Shaped(w: Winters, L: nat, n: nat)
  {
    |w.level| == n && |w.trend| == n && |w.season| == n && |w.forecast| == n + 1 &&
    (forall i :: 0 <= i < n ==> (w.level[i].NA? <==> i < 2 * L - 1)) &&
    (forall i :: 0 <= i < n ==> (w.trend[i].NA? <==> i < 2 * L - 1)) &&
    (forall i :: 0 <= i < n ==> (w.season[i].NA? <==> i < L)) &&
    (forall i :: 0 <= i <= n ==> (w.forecast[i].NA? <==> i < 2 * L))
  }

  /**
   * An observation relative to a base (a season mean, a seasonal factor or
   * a level): the ratio the multiplicative model works with.
   */
  function Relative(obs: real, base: real): real
    requires base != 0.0
  {
    obs / base
  }

  /** The forecast from a level, a trend and the seasonal factor of the period forecast. */
  function Project(level: real, trend: real, factor: real): real
  {
    (level + trend) * factor
  }

  /** Mean of the first season, x[0..L). */
  function FirstMean(x: seq<real>, L: nat): real
    requires 1 <= L && 2 * L <= |x|
  {
    Sum(x[..L]) / L as real
  }

  /** Mean of the second season, x[L..2L). */
  function SecondMean(x: seq<real>, L: nat): real
    requires 1 <= L && 2 * L <= |x|
  {
    Sum(x[L..2 * L]) / L as real
  }

  /** Initial seasonal factor for offset t: the mean of x[t] and x[L+t], each relative to its season's mean. */
  function InitialFactor(x: seq<real>, L: nat, t: nat): real
    requires 1 <= L && 2 * L <= |x| && t < L
    requires FirstMean(x, L) != 0.0 && SecondMean(x, L) != 0.0
  {
    (Relative(x[t], FirstMean(x, L)) + Relative(x[L + t], SecondMean(x, L))) / 2.0
  }

  /** The seasonality list after k passes of the initialisation loop: L placeholders, then k factors. */
  function InitialSeason(x: seq<real>, L: nat, k: nat): (s: seq<Val>)
    requires 1 <= L && 2 * L <= |x| && k <= L
    requires FirstMean(x, L) != 0.0 && SecondMean(x, L) != 0.0
    ensures |s| == L + k
    ensures forall i :: 0 <= i < L + k ==> (s[i].NA? <==> i < L)
    ensures forall t :: 0 <= t < k ==> s[L + t] == Num(InitialFactor(x, L, t))
  {
    if k == 0 then NAs(L) else InitialSeason(x, L, k - 1) + [Num(InitialFactor(x, L, k - 1))]
  }

  /** Initial trend: the difference of the two season sums over L squared. */
  function InitialTrend(x: seq<real>, L: nat): real
    requires 1 <= L && 2 * L <= |x|
  {
    (Sum(x[L..2 * L]) - Sum(x[..L])) / (L * L) as real
  }

  /**
   * The lists after initialisation (periods 0..2L-1): a ZeroDivisionError
   * when a season mean or the last initial seasonal factor is zero.
   */
  function TesInit(x: seq<real>, L: nat): (r: Result<Winters>)
    requires 1 <= L && 2 * L <= |x|
    ensures r.Ok? ==> Shaped(r.value, L, 2 * L)
    ensures r.Err? ==> r.error == DivisionByZero
  {
    var trend := NAs(2 * L - 1) + [Num(InitialTrend(x, L))];
    if FirstMean(x, L) == 0.0 || SecondMean(x, L) == 0.0 then Err(DivisionByZero)
    else
      var season := InitialSeason(x, L, L);
      var last := season[2 * L - 1].v;
      if last == 0.0 then Err(DivisionByZero)
      else
        var level := NAs(2 * L - 1) + [Num(Relative(x[2 * L - 1], last))];
        var forecast := NAs(2 * L) + [Num(Project(level[2 * L - 1].v, trend[2 * L - 1].v, season[L].v))];
        Ok(Winters(level, trend, season, forecast))
  }

  /**
   * One pass of the update loop, for period t: reads only the entries of
   * periods t-1 and t-L (and the factor just stored when L = 1), all of
   * them numbers; a ZeroDivisionError when the seasonal factor of period
   * t-L or the new level is zero. The source's `alpha * x[t] / s` and
   * `gamma * x[t] / level` are written alpha * (x[t] / s) and
   * gamma * (x[t] / level), the same real numbers.
   */
  function TesStep(x: seq<real>, alpha: real, beta: real, gamma: real, L: nat, w: Winters, t: nat): (r: Result<Winters>)
    requires 1 <= L && 2 * L <= t < |x| && Shaped(w, L, t)
    ensures r.Ok? ==> Shaped(r.value, L, t + 1)
    ensures r.Err? ==> r.error == DivisionByZero
  {
    var prior := w.season[t - L].v;
    if prior == 0.0 then Err(DivisionByZero)
    else
      var level := Smooth(alpha, Relative(x[t], prior), w.level[t - 1].v + w.trend[t - 1].v);
      var trend := Smooth(beta, level - w.level[t - 1].v, w.trend[t - 1].v);
      if level == 0.0 then Err(DivisionByZero)
      else
        var season := w.season + [Num(Smooth(gamma, Relative(x[t], level), prior))];
        var forecast := Project(level, trend, season[t + 1 - L].v);
        Ok(Winters(w.level + [Num(level)], w.trend + [Num(trend)], season, w.forecast + [Num(forecast)]))
  }

  /** The lists after the update loop has processed periods 2L..n-1. */
  function TesUpTo(x: seq<real>, alpha: real, beta: real, gamma: real, L: nat, n: nat): (r: Result<Winters>)
    requires 1 <= L && 2 * L <= n <= |x|
    ensures r.Ok? ==> Shaped(r.value, L, n)
    ensures r.Err? ==> r.error == DivisionByZero
    decreases n
  {
    if n == 2 * L then TesInit(x, L)
    else
      match TesUpTo(x, alpha, beta, gamma, L, n - 1)
      case Err(e) => Err(e)
      case Ok(w) => TesStep(x, alpha, beta, gamma, L, w, n - 1)
  }

  /** What `tripleES` returns on the whole input. */
  function Tes(x: seq<real>, alpha: real, beta: real, gamma: real, L: nat): Result<Winters>
    requires 1 <= L && 2 * L <= |x|
  {
    TesUpTo(x, alpha, beta, gamma, L, |x|)
  }

  /** Once a division by zero has been raised, no later period undoes it. */
  lemma {:induction false} TesErrPersists(x: seq<real>, alpha: real, beta: real, gamma: real, L: nat, m: nat, n: nat)
    requires 1 <= L && 2 * L <= m <= n <= |x|
    requires TesUpTo(x, alpha, beta, gamma, L, m).Err?
    ensures TesUpTo(x, alpha, beta, gamma, L, n) == Err(DivisionByZero)
  {
    if m < n {
      TesErrPersists(x, alpha, beta, gamma, L, m, n - 1);
    }
  }

  /** Each list of w starts with the corresponding list of u. */
  predicate Extends(u: Winters, w: Winters)
  {
    |u.level| <= |w.level| && w.level[..|u.level|] == u.level &&
    |u.trend| <= |w.trend| && w.trend[..|u.trend|] == u.trend &&
    |u.season| <= |w.season| && w.season[..|u.season|] == u.season &&
    |u.forecast| <= |w.forecast| && w.forecast[..|u.forecast|] == u.forecast
  }

  lemma ExtendsTransitive(u: Winters, v: Winters, w: Winters)
    requires Extends(u, v) && Extends(v, w)
    ensures Extends(u, w)
  {
    assert w.level[..|u.level|] == w.level[..|v.level|][..|u.level|];
    assert w.trend[..|u.trend|] == w.trend[..|v.trend|][..|u.trend|];
    assert w.season[..|u.season|] == w.season[..|v.season|][..|u.season|];
    assert w.forecast[..|u.forecast|] == w.forecast[..|v.forecast|][..|u.forecast|];
  }

  /** Later passes only append: the lists at period m are prefixes of those at period n. */
  lemma {:induction false} TesPrefix(x: seq<real>, alpha: real, beta: real, gamma: real, L: nat, m: nat, n: nat)
    requires 1 <= L && 2 * L <= m <= n <= |x|
    requires TesUpTo(x, alpha, beta, gamma, L, n).Ok?
    ensures TesUpTo(x, alpha, beta, gamma, L, m).Ok?
    ensures Extends(TesUpTo(x, alpha, beta, gamma, L, m).value, TesUpTo(x, alpha, beta, gamma, L, n).value)
  {
    if m < n {
      var p := TesUpTo(x, alpha, beta, gamma, L, n - 1);
      assert p.Ok?;
      TesPrefix(x, alpha, beta, gamma, L, m, n - 1);
      var v, u, w := TesUpTo(x, alpha, beta, gamma, L, m).value, p.value, TesUpTo(x, alpha, beta, gamma, L, n).value;
      assert Extends(u, w) by {
        assert w.level[..n - 1] == u.level && w.trend[..n - 1] == u.trend;
        assert w.season[..n - 1] == u.season && w.forecast[..n] == u.forecast;
      }
      ExtendsTransitive(v, u, w);
    }
  }

  /**
   * Initialisation, as read from the final lists: the seasonal factors of the
   * first season sit at L..2L-1, the first trend and level at 2L-1, and the
   * first forecast at 2L.
   */
  lemma TesInitialValues(x: seq<real>, alpha: real, beta: real, gamma: real, L: nat)
    requires 1 <= L && 2 * L <= |x|
    requires Tes(x, alpha, beta, gamma, L).Ok?
    ensures FirstMean(x, L) != 0.0 && SecondMean(x, L) != 0.0
    ensures var w := Tes(x, alpha, beta, gamma, L).value;
      (forall t :: 0 <= t < L ==> w.season[L + t] == Num(InitialFactor(x, L, t))) &&
      w.trend[2 * L - 1] == Num(InitialTrend(x, L)) &&
      w.season[2 * L - 1].v != 0.0 &&
      w.level[2 * L - 1] == Num(Relative(x[2 * L - 1], w.season[2 * L - 1].v)) &&
      w.forecast[2 * L] == Num(Project(w.level[2 * L - 1].v, w.trend[2 * L - 1].v, w.season[L].v))
  {
    TesPrefix(x, alpha, beta, gamma, L, 2 * L, |x|);
    var v, w := TesInit(x, L).value, Tes(x, alpha, beta, gamma, L).value;
    forall i | 0 <= i < 2 * L
      ensures w.level[i] == v.level[i] && w.trend[i] == v.trend[i] && w.season[i] == v.season[i]
    {
      assert w.level[..2 * L][i] == w.level[i];
      assert w.trend[..2 * L][i] == w.trend[i];
      assert w.season[..2 * L][i] == w.season[i];
    }
    assert w.forecast[..2 * L + 1][2 * L] == w.forecast[2 * L];
  }

  /**
   * The four updates of period t hold in w: the level from the observation
   * relative to the factor of period t-L and the previous level and trend,
   * the trend from the level change, the factor from the observation
   * relative to the new level, and the forecast of period t+1 from the new
   * level and trend and the factor of period t+1-L. Every entry read is a
   * number and every divisor is nonzero.
   */
  predicate UpdateHolds(x: seq<real>, alpha: real, beta: real, gamma: real, L: nat, w: Winters, t: nat)
  {
    1 <= L && 2 * L <= t < |x| &&
    t < |w.level| && t < |w.trend| && t < |w.season| && t + 1 < |w.forecast| &&
    w.level[t - 1].Num? && w.trend[t - 1].Num? && w.season[t - L].Num? && w.season[t + 1 - L].Num? &&
    w.level[t].Num? && w.trend[t].Num? &&
    w.season[t - L].v != 0.0 && w.level[t].v != 0.0 &&
    w.level[t].v == Smooth(alpha, Relative(x[t], w.season[t - L].v), w.level[t - 1].v + w.trend[t - 1].v) &&
    w.trend[t].v == Smooth(beta, w.level[t].v - w.level[t - 1].v, w.trend[t - 1].v) &&
    w.season[t] == Num(Smooth(gamma, Relative(x[t], w.level[t].v), w.season[t - L].v)) &&
    w.forecast[t + 1] == Num(Project(w.level[t].v, w.trend[t].v, w.season[t + 1 - L].v))
  }

  /** A successful pass of the update loop performs the updates of its period. */
  lemma StepUpdates(x: seq<real>, alpha: real, beta: real, gamma: real, L: nat, w: Winters, t: nat)
    requires 1 <= L && 2 * L <= t < |x| && Shaped(w, L, t)
    requires TesStep(x, alpha, beta, gamma, L, w, t).Ok?
    ensures UpdateHolds(x, alpha, beta, gamma, L, TesStep(x, alpha, beta, gamma, L, w, t).value, t)
  {
  }

  /** The updates of period t still hold once more entries are appended. */
  lemma UpdatesKept(x: seq<real>, alpha: real, beta: real, gamma: real, L: nat, u: Winters, w: Winters, t: nat)
    requires UpdateHolds(x, alpha, beta, gamma, L, u, t) && Extends(u, w)
    ensures UpdateHolds(x, alpha, beta, gamma, L, w, t)
  {
    assert w.level[t - 1] == u.level[t - 1] && w.level[t] == u.level[t];
    assert w.trend[t - 1] == u.trend[t - 1] && w.trend[t] == u.trend[t];
    assert w.season[t - L] == u.season[t - L] && w.season[t + 1 - L] == u.season[t + 1 - L];
    assert w.season[t] == u.season[t] && w.forecast[t + 1] == u.forecast[t + 1];
  }

  /** Every period 2L..N-1 of the final lists was produced by the updates of forecastModels.py:50-53. */
  lemma TesRecurrence(x: seq<real>, alpha: real, beta: real, gamma: real, L: nat, t: nat)
    requires 1 <= L && 2 * L <= t < |x|
    requires Tes(x, alpha, beta, gamma, L).Ok?
    ensures UpdateHolds(x, alpha, beta, gamma, L, Tes(x, alpha, beta, gamma, L).value, t)
  {
    TesPrefix(x, alpha, beta, gamma, L, t + 1, |x|);
    var u := TesUpTo(x, alpha, beta, gamma, L, t + 1);
    var v := TesUpTo(x, alpha, beta, gamma, L, t);
    assert v.Ok? && u == TesStep(x, alpha, beta, gamma, L, v.value, t);
    StepUpdates(x, alpha, beta, gamma, L, v.value, t);
    UpdatesKept(x, alpha, beta, gamma, L, u.value, Tes(x, alpha, beta, gamma, L).value, t);
  }

  /**
   * Holt-Winters index by index, as forecastModels.py:34-53 computes it for
   * an input of N periods: the placeholder layout, the initial factors,
   * trend, level and forecast of lines 35-47, and the four updates of every
   * later period.
   */
  predicate IsWintersRun(x: seq<real>, alpha: real, beta: real, gamma: real, L: nat, w: Winters)
  {
    1 <= L && 2 * L <= |x| && Shaped(w, L, |x|) &&
    FirstMean(x, L) != 0.0 && SecondMean(x, L) != 0.0 &&
    (forall i :: L <= i < 2 * L ==> w.season[i] == Num(InitialFactor(x, L, i - L))) &&
    w.trend[2 * L - 1] == Num(InitialTrend(x, L)) &&
    w.season[2 * L - 1].v != 0.0 &&
    w.level[2 * L - 1] == Num(Relative(x[2 * L - 1], w.season[2 * L - 1].v)) &&
    w.forecast[2 * L] == Num(Project(w.level[2 * L - 1].v, w.trend[2 * L - 1].v, w.season[L].v)) &&
    forall t :: 2 * L <= t < |x| ==> UpdateHolds(x, alpha, beta, gamma, L, w, t)
  }

  /** A successful call returns a run of Holt-Winters. */
  lemma TesIsRun(x: seq<real>, alpha: real, beta: real, gamma: real, L: nat)
    requires 1 <= L && 2 * L <= |x|
    requires Tes(x, alpha, beta, gamma, L).Ok?
    ensures IsWintersRun(x, alpha, beta, gamma, L, Tes(x, alpha, beta, gamma, L).value)
  {
    var w := Tes(x, alpha, beta, gamma, L).value;
    TesInitialValues(x, alpha, beta, gamma, L);
    forall i | L <= i < 2 * L
      ensures w.season[i] == Num(InitialFactor(x, L, i - L))
    {
      assert w.season[L + (i - L)] == Num(InitialFactor(x, L, i - L));
    }
    forall t | 2 * L <= t < |x|
      ensures UpdateHolds(x, alpha, beta, gamma, L, w, t)
    {
      TesRecurrence(x, alpha, beta, gamma, L, t);
    }
  }

  /** Two runs agree on every entry of the initialisation periods 0..2L-1 and on forecast 2L. */
  lemma InitialDetermined(x: seq<real>, alpha: real, beta: real, gamma: real, L: nat, u: Winters, w: Winters)
    requires IsWintersRun(x, alpha, beta, gamma, L, u) && IsWintersRun(x, alpha, beta, gamma, L, w)
    ensures forall j :: 0 <= j < 2 * L ==> u.level[j] == w.level[j] && u.trend[j] == w.trend[j] && u.season[j] == w.season[j]
    ensures forall j :: 0 <= j <= 2 * L ==> u.forecast[j] == w.forecast[j]
  {
    forall j | 0 <= j < 2 * L
      ensures u.level[j] == w.level[j] && u.trend[j] == w.trend[j] && u.season[j] == w.season[j]
    {
      if j < L {
        assert u.season[j].NA? && w.season[j].NA?;
      } else {
        assert u.season[j] == Num(InitialFactor(x, L, j - L)) == w.season[j];
      }
      if j < 2 * L - 1 {
        assert u.level[j].NA? && w.level[j].NA? && u.trend[j].NA? && w.trend[j].NA?;
      } else {
        assert u.season[2 * L - 1] == w.season[2 * L - 1];
      }
    }
    forall j | 0 <= j < 2 * L
      ensures u.forecast[j] == w.forecast[j]
    {
      assert u.forecast[j].NA? && w.forecast[j].NA?;
    }
    assert u.season[L] == w.season[L];
  }

  /** Two runs that agree on all periods before t agree on period t and on forecast t + 1. */
  lemma UpdateDetermined(x: seq<real>, alpha: real, beta: real, gamma: real, L: nat, u: Winters, w: Winters, t: nat)
    requires UpdateHolds(x, alpha, beta, gamma, L, u, t) && UpdateHolds(x, alpha, beta, gamma, L, w, t)
    requires forall j :: 0 <= j < t ==> u.level[j] == w.level[j] && u.trend[j] == w.trend[j] && u.season[j] == w.season[j]
    ensures u.level[t] == w.level[t] && u.trend[t] == w.trend[t] && u.season[t] == w.season[t]
    ensures u.forecast[t + 1] == w.forecast[t + 1]
  {
    assert u.level[t - 1] == w.level[t - 1] && u.trend[t - 1] == w.trend[t - 1];
    assert u.season[t - L] == w.season[t - L];
    assert u.level[t].v == w.level[t].v;
    assert u.trend[t].v == w.trend[t].v;
    assert u.season[t] == w.season[t];
    assert u.season[t + 1 - L] == w.season[t + 1 - L];
  }

  /** The initialisation and the updates determine all four lists: there is exactly one run. */
  lemma WintersRunUnique(x: seq<real>, alpha: real, beta: real, gamma: real, L: nat, u: Winters, w: Winters)
    requires IsWintersRun(x, alpha, beta, gamma, L, u) && IsWintersRun(x, alpha, beta, gamma, L, w)
    ensures u == w
  {
    InitialDetermined(x, alpha, beta, gamma, L, u, w);
    var t := 2 * L;
    while t < |x|
      invariant 2 * L <= t <= |x|
      invariant forall j :: 0 <= j < t ==> u.level[j] == w.level[j] && u.trend[j] == w.trend[j] && u.season[j] == w.season[j]
      invariant forall j :: 0 <= j <= t ==> u.forecast[j] == w.forecast[j]
    {
      UpdateDetermined(x, alpha, beta, gamma, L, u, w, t);
      t := t + 1;
    }
    assert u.level == w.level && u.trend == w.trend && u.season == w.season && u.forecast == w.forecast;
  }

  /** The first n periods of each list (n + 1 forecasts): the lists as they stood before period n. */
  function Cut(w: Winters, n: nat): Winters
    requires n <= |w.level| && n <= |w.trend| && n <= |w.season| && n + 1 <= |w.forecast|
  {
    Winters(w.level[..n], w.trend[..n], w.season[..n], w.forecast[..n + 1])
  }

  /** Cutting lists shaped for N periods back to n periods leaves them shaped for n. */
  lemma CutShaped(w: Winters, L: nat, N: nat, n: nat)
    requires Shaped(w, L, N) && n <= N
    ensures Shaped(Cut(w, n), L, n)
  {
  }

  /** The initialisation of a run is what `tripleES` computes for periods 0..2L-1. */
  lemma RunInit(x: seq<real>, alpha: real, beta: real, gamma: real, L: nat, w: Winters)
    requires IsWintersRun(x, alpha, beta, gamma, L, w)
    ensures TesInit(x, L) == Ok(Cut(w, 2 * L))
  {
    var c := Cut(w, 2 * L);
    var season := InitialSeason(x, L, L);
    forall i | 0 <= i < 2 * L
      ensures season[i] == c.season[i]
    {
      if i < L {
        assert season[i].NA? && w.season[i].NA?;
      } else {
        assert season[L + (i - L)] == Num(InitialFactor(x, L, i - L));
      }
    }
    assert season == c.season;
    var last := season[2 * L - 1].v;
    var trend := NAs(2 * L - 1) + [Num(InitialTrend(x, L))];
    var level := NAs(2 * L - 1) + [Num(Relative(x[2 * L - 1], last))];
    forall i | 0 <= i < 2 * L
      ensures trend[i] == c.trend[i] && level[i] == c.level[i]
    {
      if i < 2 * L - 1 {
        assert w.trend[i].NA? && w.level[i].NA?;
      }
    }
    assert trend == c.trend && level == c.level;
    var forecast := NAs(2 * L) + [Num(Project(level[2 * L - 1].v, trend[2 * L - 1].v, season[L].v))];
    forall i | 0 <= i <= 2 * L
      ensures forecast[i] == c.forecast[i]
    {
      if i < 2 * L {
        assert w.forecast[i].NA?;
      }
    }
    assert forecast == c.forecast;
  }

  /** Period n - 1 of a run is what one pass of the update loop computes from the lists before it. */
  lemma RunStep(x: seq<real>, alpha: real, beta: real, gamma: real, L: nat, w: Winters, n: nat)
    requires IsWintersRun(x, alpha, beta, gamma, L, w) && 2 * L < n <= |x|
    ensures Shaped(Cut(w, n - 1), L, n - 1)
    ensures TesStep(x, alpha, beta, gamma, L, Cut(w, n - 1), n - 1) == Ok(Cut(w, n))
  {
    var t := n - 1;
    CutShaped(w, L, |x|, t);
    assert UpdateHolds(x, alpha, beta, gamma, L, w, t);
    var c, d := Cut(w, t), Cut(w, n);
    assert c.season[t - L] == w.season[t - L];
    assert c.level[t - 1] == w.level[t - 1] && c.trend[t - 1] == w.trend[t - 1];
    assert d.level == c.level + [w.level[t]] && w.level[t] == Num(w.level[t].v);
    assert d.trend == c.trend + [w.trend[t]] && w.trend[t] == Num(w.trend[t].v);
    assert d.season == c.season + [w.season[t]];
    assert d.season[t + 1 - L] == w.season[t + 1 - L];
    assert d.forecast == c.forecast + [w.forecast[t + 1]];
  }

  /** After any number of periods, the loop holds exactly the first periods of the run. */
  lemma {:induction false} RunUpTo(x: seq<real>, alpha: real, beta: real, gamma: real, L: nat, w: Winters, n: nat)
    requires IsWintersRun(x, alpha, beta, gamma, L, w) && 2 * L <= n <= |x|
    ensures TesUpTo(x, alpha, beta, gamma, L, n) == Ok(Cut(w, n))
  {
    if n == 2 * L {
      RunInit(x, alpha, beta, gamma, L, w);
    } else {
      RunUpTo(x, alpha, beta, gamma, L, w, n - 1);
      RunStep(x, alpha, beta, gamma, L, w, n);
      UpToStep(x, alpha, beta, gamma, L, n, Cut(w, n - 1));
    }
  }

  /** Past the initialisation, each period is one pass of the update loop on the lists before it. */
  lemma UpToStep(x: seq<real>, alpha: real, beta: real, gamma: real, L: nat, n: nat, v: Winters)
    requires 1 <= L && 2 * L < n <= |x| && TesUpTo(x, alpha, beta, gamma, L, n - 1) == Ok(v)
    ensures Shaped(v, L, n - 1)
    ensures TesUpTo(x, alpha, beta, gamma, L, n) == TesStep(x, alpha, beta, gamma, L, v, n - 1)
  {
  }

  /** Every run of Holt-Winters is what `tripleES` returns: it raises no error on that input. */
  lemma RunIsTes(x: seq<real>, alpha: real, beta: real, gamma: real, L: nat, w: Winters)
    requires IsWintersRun(x, alpha, beta, gamma, L, w)
    ensures Tes(x, alpha, beta, gamma, L) == Ok(w)
  {
    RunUpTo(x, alpha, beta, gamma, L, w, |x|);
    assert Cut(w, |x|) == w;
  }

  /**
   * `tripleES` succeeds exactly when a run exists, that is, when none of
   * the divisors of lines 39, 44, 50 and 52 is zero along the way.
   */
  lemma TesSucceeds(x: seq<real>, alpha: real, beta: real, gamma: real, L: nat)
    requires 1 <= L && 2 * L <= |x|
    ensures Tes(x, alpha, beta, gamma, L).Ok? <==> exists w :: IsWintersRun(x, alpha, beta, gamma, L, w)
  {
    if Tes(x, alpha, beta, gamma, L).Ok? {
      TesIsRun(x, alpha, beta, gamma, L);
    }
    if exists w :: IsWintersRun(x, alpha, beta, gamma, L, w) {
      var w :| IsWintersRun(x, alpha, beta, gamma, L, w);
      RunIsTes(x, alpha, beta, gamma, L, w);
    }
  }

  /** Both season sums must be nonzero: otherwise the initialisation divides by zero. */
  lemma TesZeroSeasonSum(x: seq<real>, alpha: real, beta: real, gamma: real, L: nat)
    requires 1 <= L && 2 * L <= |x|
    requires Sum(x[..L]) == 0.0 || Sum(x[L..2 * L]) == 0.0
    ensures Tes(x, alpha, beta, gamma, L) == Err(DivisionByZero)
  {
    TesErrPersists(x, alpha, beta, gamma, L, 2 * L, |x|);
  }

  /** Dividing a sum by a nonzero base divides each term. */
  lemma RelativeAdd(a: real, b: real, base: real)
    requires base != 0.0
    ensures Relative(a + b, base) == Relative(a, base) + Relative(b, base)
  {
  }

  /** Extending a total by one term extends its relative value by that term's. */
  lemma RelativeStep(total': real, total: real, term: real, base: real)
    requires base != 0.0 && total' == total + term
    ensures Relative(total', base) == Relative(total, base) + Relative(term, base)
  {
    RelativeAdd(total, term, base);
  }

  /** A nonzero value relative to itself is 1. */
  lemma RelativeSelf(c: real)
    requires c != 0.0
    ensures Relative(c, c) == 1.0
  {
  }

  /** Extending a slice by one element adds that element to its sum. */
  lemma SumSliceStep(x: seq<real>, lo: nat, hi: nat)
    requires lo < hi <= |x|
    ensures Sum(x[lo..hi]) == Sum(x[lo..hi - 1]) + x[hi - 1]
  {
    assert x[lo..hi][..hi - lo - 1] == x[lo..hi - 1];
  }

  /** One pass of the initialisation loop adds factor k - 1 to the sum of the stored factors. */
  lemma InitialSeasonSumStep(x: seq<real>, L: nat, k: nat)
    requires 1 <= L && 2 * L <= |x| && 1 <= k <= L
    requires FirstMean(x, L) != 0.0 && SecondMean(x, L) != 0.0
    ensures NumSum(InitialSeason(x, L, k)[L..]) ==
      NumSum(InitialSeason(x, L, k - 1)[L..]) +
      (Relative(x[k - 1], FirstMean(x, L)) + Relative(x[L + k - 1], SecondMean(x, L))) / 2.0
  {
    var f := Num(InitialFactor(x, L, k - 1));
    assert InitialSeason(x, L, k)[L..] == InitialSeason(x, L, k - 1)[L..] + [f];
    NumSumAppend(InitialSeason(x, L, k - 1)[L..], f);
  }

  /** The first k initial factors add up to the halved sum of the relative season prefixes. */
  lemma {:induction false} InitialFactorsPartialSum(x: seq<real>, L: nat, k: nat)
    requires 1 <= L && 2 * L <= |x| && k <= L
    requires FirstMean(x, L) != 0.0 && SecondMean(x, L) != 0.0
    ensures PartialSumHolds(x, L, k)
  {
    if k == 0 {
      assert InitialSeason(x, L, 0)[L..] == [];
      assert x[0..0] == [] && x[L..L] == [];
    } else {
      InitialFactorsPartialSum(x, L, k - 1);
      PartialSumStep(x, L, k);
    }
  }

  /** The sum of the first k stored factors, against the relative prefixes x[0..k) and x[L..L+k). */
  predicate PartialSumHolds(x: seq<real>, L: nat, k: nat)
    requires 1 <= L && 2 * L <= |x| && k <= L
    requires FirstMean(x, L) != 0.0 && SecondMean(x, L) != 0.0
  {
    NumSum(InitialSeason(x, L, k)[L..]) ==
      (Relative(Sum(x[0..k]), FirstMean(x, L)) + Relative(Sum(x[L..L + k]), SecondMean(x, L))) / 2.0
  }

  /** If the partial sum holds for k - 1 factors, it holds for k. */
  lemma PartialSumStep(x: seq<real>, L: nat, k: nat)
    requires 1 <= L && 2 * L <= |x| && 1 <= k <= L
    requires FirstMean(x, L) != 0.0 && SecondMean(x, L) != 0.0
    requires PartialSumHolds(x, L, k - 1)
    ensures PartialSumHolds(x, L, k)
  {
    var m1, m2 := FirstMean(x, L), SecondMean(x, L);
    InitialSeasonSumStep(x, L, k);
    SumSliceStep(x, 0, k);
    SumSliceStep(x, L, L + k);
    RelativeStep(Sum(x[0..k]), Sum(x[0..k - 1]), x[k - 1], m1);
    RelativeStep(Sum(x[L..L + k]), Sum(x[L..L + k - 1]), x[L + k - 1], m2);
    AddHalves(NumSum(InitialSeason(x, L, k - 1)[L..]), NumSum(InitialSeason(x, L, k)[L..]),
      Relative(Sum(x[0..k - 1]), m1), Relative(Sum(x[0..k]), m1),
      Relative(Sum(x[L..L + k - 1]), m2), Relative(Sum(x[L..L + k]), m2),
      Relative(x[k - 1], m1), Relative(x[L + k - 1], m2));
  }

  /** Adding the half-sum of a and b to the half-sum of A and B gives the half-sum of A + a and B + b. */
  lemma AddHalves(n: real, n': real, A: real, A': real, B: real, B': real, a: real, b: real)
    requires n == (A + B) / 2.0 && n' == n + (a + b) / 2.0
    requires A' == A + a && B' == B + b
    ensures n' == (A' + B') / 2.0
  {
  }

  /** The L initial seasonal factors sum to L: on average they neither raise nor lower a season. */
  lemma InitialFactorsSumToL(x: seq<real>, L: nat)
    requires 1 <= L && 2 * L <= |x|
    requires FirstMean(x, L) != 0.0 && SecondMean(x, L) != 0.0
    ensures NumSum(InitialSeason(x, L, L)[L..]) == L as real
  {
    InitialFactorsPartialSum(x, L, L);
    assert x[0..L] == x[..L] && x[L..L + L] == x[L..2 * L];
    RelativeToMean(Sum(x[..L]), L);
    RelativeToMean(Sum(x[L..2 * L]), L);
  }

  /** A season's sum relative to its mean is the season length. */
  lemma RelativeToMean(total: real, L: nat)
    requires 1 <= L && total / L as real != 0.0
    ensures Relative(total, total / L as real) == L as real
  {
  }

  /** In the final lists, the factors stored at L..2L-1 sum to L. */
  lemma TesFactorsSumToL(x: seq<real>, alpha: real, beta: real, gamma: real, L: nat)
    requires 1 <= L && 2 * L <= |x|
    requires Tes(x, alpha, beta, gamma, L).Ok?
    ensures NumSum(Tes(x, alpha, beta, gamma, L).value.season[L..2 * L]) == L as real
  {
    TesPrefix(x, alpha, beta, gamma, L, 2 * L, |x|);
    var w := Tes(x, alpha, beta, gamma, L).value;
    assert FirstMean(x, L) != 0.0 && SecondMean(x, L) != 0.0;
    assert w.season[..2 * L] == InitialSeason(x, L, L);
    assert w.season[L..2 * L] == InitialSeason(x, L, L)[L..];
    InitialFactorsSumToL(x, L);
  }

  /**
   * The steady state of a constant series c: level c and trend 0 from
   * period 2L-1, seasonal factors 1 from period L, forecasts c from period 2L.
   */
  predicate Steady(w: Winters, L: nat, n: nat, c: real)
    requires 1 <= L && Shaped(w, L, n)
  {
    (forall i :: 2 * L - 1 <= i < n ==> w.level[i] == Num(c) && w.trend[i] == Num(0.0)) &&
    (forall i :: L <= i < n ==> w.season[i] == Num(1.0)) &&
    (forall i :: 2 * L <= i <= n ==> w.forecast[i] == Num(c))
  }

  /** On a constant series both season means are the constant and the initial trend is zero. */
  lemma ConstantMeans(x: seq<real>, L: nat, c: real)
    requires 1 <= L && 2 * L <= |x|
    requires forall i :: 0 <= i < |x| ==> x[i] == c
    ensures FirstMean(x, L) == c && SecondMean(x, L) == c && InitialTrend(x, L) == 0.0
  {
    SumConstant(x[..L], c);
    SumConstant(x[L..2 * L], c);
  }

  /** On a constant nonzero series every initial seasonal factor is 1. */
  lemma ConstantFactors(x: seq<real>, L: nat, c: real)
    requires 1 <= L && 2 * L <= |x| && c != 0.0
    requires forall i :: 0 <= i < |x| ==> x[i] == c
    ensures FirstMean(x, L) != 0.0 && SecondMean(x, L) != 0.0
    ensures forall i :: L <= i < 2 * L ==> InitialSeason(x, L, L)[i] == Num(1.0)
  {
    ConstantMeans(x, L, c);
    var s := InitialSeason(x, L, L);
    forall i | L <= i < 2 * L
      ensures s[i] == Num(1.0)
    {
      assert s[L + (i - L)] == Num(InitialFactor(x, L, i - L));
      assert x[i - L] == c && x[L + (i - L)] == c;
      assert InitialFactor(x, L, i - L) == (Relative(c, c) + Relative(c, c)) / 2.0;
      RelativeSelf(c);
    }
  }

  /** Initialisation on a constant nonzero series reaches the steady state. */
  lemma TesInitConstant(x: seq<real>, L: nat, c: real)
    requires 1 <= L && 2 * L <= |x| && c != 0.0
    requires forall i :: 0 <= i < |x| ==> x[i] == c
    ensures TesInit(x, L).Ok? && Steady(TesInit(x, L).value, L, 2 * L, c)
  {
    ConstantMeans(x, L, c);
    ConstantFactors(x, L, c);
    var s := InitialSeason(x, L, L);
    assert s[2 * L - 1] == Num(1.0) && s[L] == Num(1.0);
    assert Relative(x[2 * L - 1], 1.0) == c;
    assert Project(c, 0.0, 1.0) == c;
  }

  /** A pass of the update loop keeps a constant nonzero series in the steady state. */
  lemma TesStepConstant(x: seq<real>, alpha: real, beta: real, gamma: real, L: nat, c: real, w: Winters, t: nat)
    requires 1 <= L && 2 * L <= t < |x| && c != 0.0
    requires forall i :: 0 <= i < |x| ==> x[i] == c
    requires Shaped(w, L, t) && Steady(w, L, t, c)
    ensures TesStep(x, alpha, beta, gamma, L, w, t).Ok?
    ensures Steady(TesStep(x, alpha, beta, gamma, L, w, t).value, L, t + 1, c)
  {
    assert w.season[t - L] == Num(1.0);
    assert w.level[t - 1] == Num(c) && w.trend[t - 1] == Num(0.0);
    SmoothFixedPoint(alpha, c);
    assert Smooth(alpha, Relative(x[t], 1.0), c + 0.0) == c;
    SmoothFixedPoint(beta, 0.0);
    SmoothFixedPoint(gamma, 1.0);
    RelativeSelf(c);
  }

  /** A constant nonzero series never divides by zero and is a fixed point of all three recurrences. */
  lemma {:induction false} TesConstant(x: seq<real>, alpha: real, beta: real, gamma: real, L: nat, c: real, n: nat)
    requires 1 <= L && 2 * L <= n <= |x| && c != 0.0
    requires forall i :: 0 <= i < |x| ==> x[i] == c
    ensures TesUpTo(x, alpha, beta, gamma, L, n).Ok?
    ensures Steady(TesUpTo(x, alpha, beta, gamma, L, n).value, L, n, c)
  {
    if n == 2 * L {
      TesInitConstant(x, L, c);
    } else {
      TesConstant(x, alpha, beta, gamma, L, c, n - 1);
      TesStepConstant(x, alpha, beta, gamma, L, c, TesUpTo(x, alpha, beta, gamma, L, n - 1).value, n - 1);
    }
  }

  /** Eight periods with seasons of four: eight placeholders, then one forecast. */
  lemma TesEightByFour(x: seq<real>, alpha: real, beta: real, gamma: real)
    requires |x| == 8 && Tes(x, alpha, beta, gamma, 4).Ok?
    ensures var f := Tes(x, alpha, beta, gamma, 4).value.forecast;
      |f| == 9 && (forall i :: 0 <= i < 8 ==> f[i] == NA) && f[8].Num?
  {
  }

  /** The initialisation loop of the seasonality list: L placeholders, then one factor per offset. */
  method InitialSeasonality(x: seq<real>, L: nat) returns (season: seq<Val>)
    requires 1 <= L && 2 * L <= |x|
    requires FirstMean(x, L) != 0.0 && SecondMean(x, L) != 0.0
    ensures season == InitialSeason(x, L, L)
  {
    season := NAs(L);
    for t := 0 to L
      invariant season == InitialSeason(x, L, t)
    {
      var seasonAvg := Relative(x[t], FirstMean(x, L)) + Relative(x[L + t], SecondMean(x, L));
      seasonAvg := seasonAvg / 2.0;
      season := season + [Num(seasonAvg)];
    }
  }

  /**
   * One pass of the update loop for period t: appends a level, a trend, a
   * seasonal factor and a forecast, reading the lists built so far.
   */
  method UpdatePeriod(x: seq<real>, alpha: real, beta: real, gamma: real, L: nat, w: Winters, t: nat)
    returns (r: Result<Winters>)
    requires 1 <= L && 2 * L <= t < |x| && Shaped(w, L, t)
    ensures r == TesStep(x, alpha, beta, gamma, L, w, t)
  {
    var level, trend, season, forecast := w.level, w.trend, w.season, w.forecast;
    var prior := season[t - L].v;
    if prior == 0.0 {
      return Err(DivisionByZero);
    }
    level := level + [Num(Smooth(alpha, Relative(x[t], prior), level[t - 1].v + trend[t - 1].v))];
    trend := trend + [Num(Smooth(beta, level[t].v - level[t - 1].v, trend[t - 1].v))];
    if level[t].v == 0.0 {
      return Err(DivisionByZero);
    }
    season := season + [Num(Smooth(gamma, Relative(x[t], level[t].v), season[t - L].v))];
    forecast := forecast + [Num(Project(level[t].v, trend[t].v, season[t + 1 - L].v))];
    return Ok(Winters(level, trend, season, forecast));
  }

  /**
   * The initialisation of `tripleES`: the first trend, the seasonal factors
   * of the first season, the first level and the first forecast, each list
   * led by its placeholders.
   */
  method Initialise(x: seq<real>, L: nat) returns (r: Result<Winters>)
    requires 1 <= L && 2 * L <= |x|
    ensures r == TesInit(x, L)
  {
    var trend := NAs(2 * L - 1);
    trend := trend + [Num(InitialTrend(x, L))];

    if FirstMean(x, L) == 0.0 || SecondMean(x, L) == 0.0 {
      // the first pass of the initialisation loop divides by the zero mean
      return Err(DivisionByZero);
    }
    var season := InitialSeasonality(x, L);

    if season[2 * L - 1].v == 0.0 {
      return Err(DivisionByZero);
    }
    var level := NAs(2 * L - 1);
    level := level + [Num(Relative(x[2 * L - 1], season[2 * L - 1].v))];

    var forecast := NAs(2 * L);
    forecast := forecast + [Num(Project(level[2 * L - 1].v, trend[2 * L - 1].v, season[L].v))];
    return Ok(Winters(level, trend, season, forecast));
  }

  /**
   * `tripleES`. The source checks none of its parameters, so the season
   * length and the input length are preconditions; divisions by zero are
   * the errors it raises.
   */
  method TripleES(x: seq<real>, alpha: real, beta: real, gamma: real, L: nat) returns (r: Result<Winters>)
    requires 1 <= L && 2 * L <= |x|
    ensures r == Tes(x, alpha, beta, gamma, L)
    ensures r.Ok? ==> Shaped(r.value, L, |x|) && IsWintersRun(x, alpha, beta, gamma, L, r.value)
    ensures r.Err? ==> r.error == DivisionByZero
  {
    var init := Initialise(x, L);
    if init.Err? {
      TesErrPersists(x, alpha, beta, gamma, L, 2 * L, |x|);
      return init;
    }
    var w := init.value;
    for t := 2 * L to |x|
      invariant TesUpTo(x, alpha, beta, gamma, L, t) == Ok(w)
    {
      var next := UpdatePeriod(x, alpha, beta, gamma, L, w, t);
      if next.Err? {
        TesErrPersists(x, alpha, beta, gamma, L, t + 1, |x|);
        return next;
      }
      w := next.value;
    }
    TesIsRun(x, alpha, beta, gamma, L);
    return Ok(w);
  }
}
