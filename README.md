# HWForecast forecasting engine in Dafny

HWForecast forecasts a demand series with three exponential-smoothing
methods and scores each forecast list against the observed demand. This
project models that engine, `forecastModels.py` lines 7-80:

- `singleES`: single exponential smoothing.
- `doubleES`: Holt's level-plus-trend method.
- `tripleES`: Holt-Winters with multiplicative seasonality.
- `calculateMetrics`: MAD, MSE and MAPE over the forecasts that are numbers.

Each Python function becomes a Dafny `method` with the same loop. The loop
builds its lists by appending, as the source does. Each method is proved
equal to a recursive specification function that describes the lists after
k iterations:

| Python | method | specification |
|---|---|---|
| `singleES` | `SingleSmoothing.SingleES` | `Ses` |
| `doubleES` | `DoubleSmoothing.DoubleES` | `Des` |
| `tripleES` | `TripleSmoothing.TripleES` | `Tes` / `TesUpTo` |
| `calculateMetrics` | `Metrics.CalculateMetrics` | `Evaluate` |

`tripleES` is split into helper methods that follow the source's phases:
- `Initialise`;
- `InitialSeasonality`, the loop at lines 38-41;
- `UpdatePeriod`, one pass of the loop at lines 49-53.

Each specification function has partner lemmas:
- an index-wise statement of the recurrence the loop body computes (`IsSesRun`, `IsHoltRun`, `IsWintersRun`);
- a proof that the loop's lists satisfy it;
- a uniqueness proof: the recurrence, with its seeds, fixes the lists;
- for `tripleES`, which can fail, the converse as well: every run is what the call returns, so the call succeeds exactly when a run exists (`RunIsTes`, `TesSucceeds`);
- the closed-form consequences the method promises: shape, placeholder positions, fixed points and the sum of the seasonal factors.

Representation:
- Python floats are `real`s. The recurrences are exact.
- The `"N/A"` string is the `NA` case of `Series.Val = NA | Num(v)`.
- An exception the code raises is an `Err` of `Series.Result`:
  - the `ValueError` of `singleES` (line 9) is `AlphaOutOfRange`;
  - the `ValueError` of `doubleES` (line 20) is `TooFewPeriods`;
  - an `IndexError` is `IndexOutOfRange`: `inputData[0]` on an empty list (line 10), or `predictions[i]` past the end of the forecasts (line 70);
  - a `ZeroDivisionError` is `DivisionByZero`.
- In `tripleES` a `ZeroDivisionError` arises in four places:
  - a zero season sum (line 39);
  - a zero last initial factor (line 44);
  - a zero factor of period t-L (line 50);
  - a zero new level (line 52).
- In `calculateMetrics` it arises at a zero actual under a numeric forecast (line 76), and when no forecast is counted (line 77).

Only `singleES` checks a parameter (line 8):
- `doubleES` and `tripleES` check none of alpha, beta or gamma, so the model accepts any value.
- `tripleES` has no guard against fewer than 2L periods or a season length of 0. The model states `1 <= L` and `2L <= N` as preconditions of `TripleES` rather than inventing an error.

The module `Scoring` connects the forecasters to the evaluator. Each
forecaster's placeholder prefix fixes the metrics denominator:
- `singleES` counts N positions;
- `doubleES` counts N-2;
- `tripleES` counts N-2L.

## Model

| member | source | states |
|---|---|---|
| Series.Smooth | forecastModels.py:12 | defines the update shared by every recurrence (also lines 25, 27, 50 and 52): weight w on the new reading, 1 - w on the running estimate |
| Series.Sum | forecastModels.py:35 | defines Python's `sum` over a slice (also line 39), added left to right |
| Series.SmoothFixedPoint | forecastModels.py:12 | the smoothing update leaves an estimate that equals the reading unchanged |
| Series.SmoothBetween | forecastModels.py:12 | with a weight in [0, 1] the update stays between any common bounds of reading and estimate |
| Series.NAs | forecastModels.py:23 | `["N/A"] * k` has length k and holds only placeholders |
| SingleSmoothing.SingleES | forecastModels.py:7-14 | fails with AlphaOutOfRange exactly when alpha is outside (0, 1], and with IndexOutOfRange on empty input; otherwise returns the loop's list, which satisfies the recurrence of line 12 at every index |
| SingleSmoothing.Ses | forecastModels.py:10-13 | after k iterations the list has k+1 forecasts and starts with x[0] |
| SingleSmoothing.IsSesRun | forecastModels.py:10-14 | defines a full forecast list index by index: N+1 entries, F[0] = x[0], and F[i] = alpha*x[i-1] + (1-alpha)*F[i-1] for 1 <= i <= N |
| SingleSmoothing.SesPrefix | forecastModels.py:11-13 | appending never changes a forecast already in the list |
| SingleSmoothing.SesRecurrence | forecastModels.py:12 | F[i] = alpha*x[i-1] + (1-alpha)*F[i-1] for 1 <= i <= k in every list the loop builds |
| SingleSmoothing.SesIsRun | forecastModels.py:10-14 | the returned list has N+1 entries, F[0] = x[0], and the recurrence holds at every i |
| SingleSmoothing.SesRunUnique | forecastModels.py:10-14 | two lists satisfying the recurrence are equal, so the recurrence characterises the result |
| SingleSmoothing.SesSecondIsSeed | forecastModels.py:12 | F[1] = x[0] |
| SingleSmoothing.SesAlphaOne | forecastModels.py:12 | with alpha = 1, F[i] = x[i-1] |
| SingleSmoothing.SesConstant | forecastModels.py:10-13 | a constant input c gives every forecast c |
| SingleSmoothing.SesBounded | forecastModels.py:8-13 | with alpha in (0, 1] every forecast lies within any bounds of the observations |
| SingleSmoothing.SesCausal | forecastModels.py:10-13 | forecasts 0..k depend only on x[0] and x[0..k) |
| DoubleSmoothing.DoubleES | forecastModels.py:17-30 | fails with TooFewPeriods exactly when N < 2; otherwise returns the loop's lists, which form a run of Holt's method |
| DoubleSmoothing.Des | forecastModels.py:21-29 | after period k, level and trend have k+1 entries and the forecasts k+2 |
| DoubleSmoothing.IsHoltRun | forecastModels.py:21-29 | defines a run of Holt's method index by index: lengths N, N, N+1, level[0] = x[0], trend[0] = x[1]-x[0], two leading placeholders, and the updates of every period 1 <= t < N |
| DoubleSmoothing.HoltStepAt | forecastModels.py:25-29 | defines the updates of period t: the level from x[t] and the previous level plus trend, the trend from the level change, and forecast t+1 = level + trend |
| DoubleSmoothing.DesPrefix | forecastModels.py:24-29 | later iterations never change entries already in the three lists |
| DoubleSmoothing.DesSeed | forecastModels.py:21-23 | level[0] = x[0], trend[0] = x[1]-x[0], and forecasts 0 and 1 are placeholders |
| DoubleSmoothing.DesStep | forecastModels.py:25-29 | in the final lists, period t satisfies the level, trend and forecast updates |
| DoubleSmoothing.DesIsRun | forecastModels.py:21-29 | the final lists have lengths N, N, N+1 and satisfy the seeds and every update |
| DoubleSmoothing.HoltRunUnique | forecastModels.py:21-29 | two runs of Holt's method on the same input are equal |
| DoubleSmoothing.HoltForecastShape | forecastModels.py:23-29 | forecast[i] is a placeholder exactly when i < 2 |
| DoubleSmoothing.HoltLinear | forecastModels.py:21-29 | on a line a + b*t, the level is the observation, the trend is b, and forecast[t] = a + b*t |
| DoubleSmoothing.HoltConstant | forecastModels.py:21-29 | a constant input c gives trend 0 everywhere and every numeric forecast c |
| DoubleSmoothing.DesTwoPeriods | forecastModels.py:21-23 | on [10, 12], level[0] = 10, trend[0] = 2, and the first two forecasts are placeholders |
| TripleSmoothing.FirstMean | forecastModels.py:39 | defines the mean of the first season, sum(x[0..L)) / L |
| TripleSmoothing.SecondMean | forecastModels.py:39 | defines the mean of the second season, sum(x[L..2L)) / L |
| TripleSmoothing.InitialFactor | forecastModels.py:39-40 | defines the initial factor of offset t: the average of x[t] and x[L+t], each divided by its season's mean |
| TripleSmoothing.InitialTrend | forecastModels.py:35 | defines the initial trend: the second season's sum minus the first's, over L² |
| TripleSmoothing.InitialSeason | forecastModels.py:37-41 | L placeholders, then the factor (x[t]/mean1 + x[L+t]/mean2)/2 at index L+t |
| TripleSmoothing.TesInit | forecastModels.py:34-47 | initialisation yields lists shaped for periods 0..2L-1, or DivisionByZero |
| TripleSmoothing.TesStep | forecastModels.py:49-53 | one update keeps the lists shaped one period further, or raises DivisionByZero |
| TripleSmoothing.TesUpTo | forecastModels.py:49-53 | after processing periods up to n-1 the lists are shaped for n periods, or the run failed with DivisionByZero |
| TripleSmoothing.Tes | forecastModels.py:33-55 | defines the result of the whole call: initialisation, then one update per period 2L..N-1, stopping at the first DivisionByZero |
| TripleSmoothing.TesErrPersists | forecastModels.py:49-53 | once the loop has raised, the whole call has raised DivisionByZero |
| TripleSmoothing.TesPrefix | forecastModels.py:49-53 | a successful run succeeded at every earlier period and only appended to its lists |
| TripleSmoothing.TesInitialValues | forecastModels.py:35-47 | in the result, index L+t holds the seasonal factors, index 2L-1 the initial trend (sum2 - sum1)/L² and level x[2L-1]/season[2L-1], and index 2L the first forecast |
| TripleSmoothing.UpdateHolds | forecastModels.py:49-53 | defines the updates of period t: level, trend and factor of lines 50-52 and forecast t+1 of line 53, with every entry read numeric and every divisor nonzero |
| TripleSmoothing.StepUpdates | forecastModels.py:50-53 | a successful update satisfies the level, trend, factor and forecast updates of lines 50-53, reading only numeric entries |
| TripleSmoothing.UpdatesKept | forecastModels.py:50-53 | an update that holds keeps holding as the lists grow |
| TripleSmoothing.TesRecurrence | forecastModels.py:49-53 | in the result, every period 2L <= t < N satisfies the four updates, reads only indices t-1, t-L and t+1-L, and hits no placeholder |
| TripleSmoothing.IsWintersRun | forecastModels.py:34-53 | defines a run of Holt-Winters index by index: the placeholder layout, the initial factors, trend, level and forecast of lines 35-47, and UpdateHolds at every period 2L <= t < N |
| TripleSmoothing.TesIsRun | forecastModels.py:34-53 | a successful result has the placeholder layout, the initial factors, trend, level and forecast of lines 35-47, and the four updates at every later period |
| TripleSmoothing.RunIsTes | forecastModels.py:34-53 | every run of Holt-Winters on the input is exactly what a successful call returns |
| TripleSmoothing.TesSucceeds | forecastModels.py:33-55 | the call succeeds exactly when a run of Holt-Winters exists for its input |
| TripleSmoothing.WintersRunUnique | forecastModels.py:34-53 | two lists satisfying that initialisation and those updates on the same input are equal, so they characterise the result |
| TripleSmoothing.TesZeroSeasonSum | forecastModels.py:39 | a zero sum in either of the first two seasons raises DivisionByZero |
| TripleSmoothing.InitialFactorsPartialSum | forecastModels.py:38-41 | the first k factors sum to half the relative prefix sums of the two seasons |
| TripleSmoothing.InitialFactorsSumToL | forecastModels.py:38-41 | the L initial seasonal factors sum to L |
| TripleSmoothing.TesFactorsSumToL | forecastModels.py:37-41 | in the result, the factors at indices L..2L-1 sum to L |
| TripleSmoothing.ConstantMeans | forecastModels.py:35-39 | on a constant series both season means are the constant and the initial trend is 0 |
| TripleSmoothing.ConstantFactors | forecastModels.py:38-41 | on a constant nonzero series every initial factor is 1 |
| TripleSmoothing.TesInitConstant | forecastModels.py:34-47 | initialisation of a constant nonzero series succeeds: level c, trend 0, factors 1, forecast c |
| TripleSmoothing.TesStepConstant | forecastModels.py:50-53 | an update on a constant nonzero series succeeds and keeps level c, trend 0, factor 1, forecast c |
| TripleSmoothing.TesConstant | forecastModels.py:33-55 | a constant nonzero series never divides by zero and is a fixed point of all three recurrences |
| TripleSmoothing.TesEightByFour | forecastModels.py:46-47 | with N = 8 and L = 4 the forecasts are 8 placeholders, then one number |
| TripleSmoothing.InitialSeasonality | forecastModels.py:37-41 | the loop builds L placeholders followed by the L initial factors |
| TripleSmoothing.UpdatePeriod | forecastModels.py:50-53 | one pass of the loop computes exactly the specified update, or raises DivisionByZero |
| TripleSmoothing.Initialise | forecastModels.py:34-47 | the initialisation statements compute the specified initial lists, or raise DivisionByZero |
| TripleSmoothing.TripleES | forecastModels.py:33-55 | returns lists shaped with exactly 2L-1, 2L-1, L and 2L leading placeholders and lengths N, N, N, N+1, equal to the specified run and satisfying the initialisation and every update; every failure is DivisionByZero |
| Metrics.Evaluate | forecastModels.py:66-80 | defines the outcome of `calculateMetrics`: DivisionByZero at a numeric forecast over a zero actual, else IndexOutOfRange when the forecasts are shorter than the actuals, else DivisionByZero when nothing is counted, else the three sums over the count |
| Metrics.ZeroActualAt | forecastModels.py:76 | defines the position where line 76 divides by zero: a numeric forecast over a zero actual |
| Metrics.SumAbs | forecastModels.py:74 | defines the sum of absolute errors over the numeric forecasts among the first n |
| Metrics.SumSq | forecastModels.py:75 | defines the sum of squared errors over the numeric forecasts among the first n |
| Metrics.SumPct | forecastModels.py:76 | defines the sum of absolute errors divided by their actuals over the numeric forecasts among the first n |
| Metrics.Abs | forecastModels.py:74 | the absolute value is non-negative and equals the error or its negation |
| Metrics.Defined | forecastModels.py:70-71 | the count of numeric forecasts among the first n is at most n |
| Metrics.CalculateMetrics | forecastModels.py:66-80 | the loop computes the sums over numeric forecasts divided by their count, and raises IndexOutOfRange, or DivisionByZero at a zero actual or a zero count, exactly where the evaluation says |
| Metrics.PrefixOnly | forecastModels.py:69-76 | the count and the three sums depend only on the first n forecasts |
| Metrics.EvaluateIgnoresTail | forecastModels.py:67-70 | forecasts past the last actual, including the extrapolated one, never affect the result |
| Metrics.DefinedAfterPlaceholders | forecastModels.py:70-71 | with placeholders exactly at the first k of n positions, the denominator is n-k |
| Metrics.NoneDefined | forecastModels.py:70-71 | the count is 0 exactly when the first n forecasts are all placeholders, the case in which line 77 divides by zero |
| Metrics.SumsNonNegative | forecastModels.py:73-75 | the absolute and squared sums are non-negative |
| Metrics.MetricsNonNegative | forecastModels.py:77-78 | MAD >= 0 and MSE >= 0 |
| Metrics.EvaluateFails | forecastModels.py:69-79 | scoring fails exactly when the forecasts are too short, a numeric forecast meets a zero actual, or no forecast is counted |
| Metrics.Example | forecastModels.py:66-80 | [N/A, 5, 7] against [3, 5, 10] counts 2 and gives MAD 1.5, MSE 4.5, MAPE 0.15 |
| Metrics.NothingCountedNothingSummed | forecastModels.py:73-74 | with nothing counted the absolute sum is 0 |
| Metrics.AbsSumSquaredBound | forecastModels.py:73-75 | (sum of absolute errors)² <= count × (sum of squared errors) |
| Metrics.MadSquaredAtMostMse | forecastModels.py:77-78 | MAD² <= MSE |
| Scoring.SesScoring | forecastModels.py:69-77 | `singleES` forecasts scored against their input count all N positions, and fail exactly when an observation is 0 |
| Scoring.HoltScoring | forecastModels.py:69-77 | `doubleES` forecasts count N-2 positions; with N = 2 scoring divides by zero |
| Scoring.WintersScoring | forecastModels.py:69-77 | `tripleES` forecasts count N-2L positions; with N = 2L scoring divides by zero |

## Left out

- `linearRegression` (forecastModels.py:58-63): it wraps a library least-squares fit whose code is not part of this model.
- The script block (forecastModels.py:83-112): it reads and writes spreadsheets and assembles a table, which is I/O.
- Floating-point rounding: arithmetic is over exact reals, so the model does not claim bit-exact agreement with Python floats. In particular, a zero reached only through rounding is not modelled.
- Parameter ranges for `doubleES` and `tripleES`: the code performs no checks, so none are modelled.
- TripleES: `1 <= L` and `2L <= N` are preconditions rather than modelled behaviour, because the code has no guard and does something else on such inputs. With L = 0 it divides by zero. With N < 2L it raises an IndexError or a ZeroDivisionError.
- TripleSmoothing.UpdatePeriod: the source computes `alpha * x[t] / s` (line 50) as `(alpha * x[t]) / s` and `gamma * x[t] / level[t]` (line 52) as `(gamma * x[t]) / level[t]`; the model writes `alpha * (x[t] / s)` and `gamma * (x[t] / level[t])`, the same real numbers. `TesStep` writes them the same way.
- TripleSmoothing.Initialise: the source recomputes both season sums on every pass of the initialisation loop. The model computes them through `FirstMean` and `SecondMean`, which give the same values, and raises the zero-mean error before the loop, as the loop's first pass would.
- Types: Python's dynamic typing is not modelled; every input entry is taken to be a number and every forecast entry a number or `"N/A"`.
