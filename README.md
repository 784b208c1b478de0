# Finger-tapping risk analyzer, modelled in Dafny

This project models the finger-tapping test of a Parkinson's-disease screening
demo (`typepress.py`, class `FingerTappingAnalyzer`). The test runs a 3-second
countdown and then records the times of space-bar presses for 10 seconds.
When the window closes it turns the taps into interval statistics: mean,
standard deviation, coefficient of variation and a fatigue index. It scores
those against baseline means with an additive threshold rule and labels the
score Low, Moderate or High risk.

Modules:

- `Stats` (stats.dfy): np.diff, np.mean and the population variance over exact reals.
- `Ieee` (ieee.dfy): numpy's float results, including the inf/NaN of a division by zero, adding an offset to them, and Python's `>` on them.
- `PySlice` (pyslice.dfy): Python's floor division `//` and the clamping of slice bounds.
- `Fatigue` (fatigue.dfy): `_calculate_fatigue_index`.
- `Risk` (risk.dfy): the score of `calculate_risk` as a function, and `get_risk_text`.
- `Dataset` (dataset.dfy): the baseline means the constructor takes from the dataset's columns with pandas.
- `Analysis` (analysis.dfy): `analyze_results` as a function from timestamps to an outcome.
- `Session` (session.dfy): the analyzer object as a class. Its tap list, listener and pending timer callbacks are fields, and its methods update them as the Python methods do.

Points where the model is exact about Python:

- The back slice of the fatigue index is `intervals[-len(intervals)//3:]`. Unary minus binds tighter than `//`, so the start is `(-m)//3`, which is minus the ceiling of m/3. The back slice therefore holds ceil(m/3) intervals, while the front slice `intervals[:m//3]` holds floor(m/3). They differ by one whenever m is not a multiple of 3, and they never overlap (`Fatigue.ThirdsShape`). Reading the slice as the last floor(m/3) intervals would be off by one whenever m mod 3 ≠ 0.
- Division by zero does not raise in numpy. It gives +inf, -inf or NaN, and every comparison with NaN is false. `Ieee.Div` and `Ieee.Greater` carry this behaviour into the score. So there is no "mean > 0" precondition: a zero mean interval leads to a defined, if odd, score.
- The baseline means are floats too. A column that is present but holds no number has mean NaN, and then its test never fires (`Dataset.BlankColumnDisablesTest`); a missing column is replaced by the series [0] and has mean 0.
- The clamp `min(score, 100)` is modelled, and it never changes the score (`Risk.RiskScore`).

## Model

| member | source | states |
|---|---|---|
| `Stats.Diff` | typepress.py:92 | np.diff of n ≥ 1 timestamps has n - 1 elements; of fewer than 2 it is empty |
| `Stats.DiffAt` | typepress.py:92 | interval i is t[i+1] - t[i] |
| `Stats.DiffSum` | typepress.py:92 | the intervals add up to last timestamp minus first (telescoping) |
| `Stats.Mean` | typepress.py:94 | np.mean of positive intervals is positive; of equal intervals it is their common value |
| `Stats.Variance` | typepress.py:95 | the population variance is never negative and is 0 exactly when every interval equals the mean |
| `Stats.IsStd` | typepress.py:95 | the np.std value is non-negative and its square is the population variance |
| `Stats.StdIsUnique` | typepress.py:95 | at most one value meets the np.std relation, so the supplied std is determined by the intervals |
| `Stats.SumSqDev` | typepress.py:95 | the sum of squared deviations behind np.std is non-negative and zero exactly when all values equal the centre |
| `Stats.ConstantHasZeroStd` | typepress.py:95 | any value satisfying the np.std relation for constant intervals is 0 |
| `Stats.IncreasingGivesPositiveDiff` | typepress.py:92 | strictly increasing timestamps give strictly positive intervals |
| `Ieee.Div` | typepress.py:96 | numpy division: finite exactly when the divisor is non-zero, and then quotient × divisor = dividend; otherwise +inf, -inf or NaN by the dividend's sign |
| `Ieee.Plus` | typepress.py:116-120 | baseline + offset: a finite mean moves by the offset; inf and NaN stay as they are |
| `Ieee.Greater` | typepress.py:116-120 | Python `>` on floats is the strict part of the extended-real order; false whenever either side is NaN |
| `Ieee.GreaterMonotone` | typepress.py:116-120 | a larger float passes every `>` threshold a smaller one passes |
| `Ieee.GreaterAntitone` | typepress.py:116-120 | a float passing a threshold passes every lower threshold |
| `Ieee.PlusMonotone` | typepress.py:116-120 | adding the same offset keeps the order of two baseline means |
| `Ieee.NaNNeverGreater` | typepress.py:116-120 | NaN is not greater than anything, and nothing is greater than NaN |
| `PySlice.FloorDiv` | typepress.py:133 | Python `a // b` rounds down: q·b ≤ a < q·b + b, also for negative a |
| `PySlice.SliceIndex` | typepress.py:132-133 | a slice bound lands in 0..n; a negative bound counts from the end |
| `PySlice.SliceTo` | typepress.py:132 | `s[:k]` is a prefix of s whose length is the clamped bound (counted from the end for -len ≤ k < 0); for 0 ≤ k ≤ len it has k elements; past the end it is all of s; far below zero it is empty |
| `PySlice.SliceFrom` | typepress.py:133 | `s[k:]` is the rest of s after `s[:k]`: the two concatenate to s |
| `PySlice.NegFloorDivThree` | typepress.py:133 | `(-m) // 3` is minus the ceiling of m/3 |
| `Fatigue.FrontThird` | typepress.py:132 | `intervals[:m//3]` is the first floor(m/3) intervals |
| `Fatigue.BackThird` | typepress.py:133 | `intervals[-m//3:]` is the last ceil(m/3) intervals |
| `Fatigue.ThirdsShape` | typepress.py:132-133 | front slice has floor(m/3) intervals, back slice ceil(m/3); back is one longer iff m mod 3 ≠ 0; no overlap; both have at least 2 elements when m ≥ 6 |
| `Fatigue.FatigueIndex` | typepress.py:127-134 | exactly 0 for fewer than 6 intervals whatever their values; otherwise (mean(back) - mean(front)) / mean(front) over those index ranges |
| `Fatigue.ConstantIntervalsNoFatigue` | typepress.py:130-134 | constant non-zero intervals give fatigue index 0 |
| `Fatigue.PositiveIntervalsFiniteFatigue` | typepress.py:130-134 | positive intervals give a finite index, positive iff the back slice is slower on average |
| `Fatigue.SignOfQuotient` | typepress.py:134 | a quotient by a positive mean has the sign of the dividend |
| `Risk.RiskScore` | typepress.py:112-122 | the score is one of 0, 10, 15, 25, 35, 40, 50; it lies in 0..100; the raw sum is at most 50, so the clamp at 100 never binds |
| `Risk.ThresholdsAreStrict` | typepress.py:116-121 | a metric exactly equal to baseline + 0.02 / 0.05 / 0.03 adds nothing |
| `Risk.NaNBaselineDisablesTest` | typepress.py:116-121 | a NaN baseline mean makes its test false for every metric value |
| `Risk.ScoreMonotone` | typepress.py:116-121 | raising any metric, or several, with the others held fixed (NaN included), never lowers the score |
| `Risk.ScoreAntitoneInBaseline` | typepress.py:116-121 | raising a baseline mean, or several, with the others held fixed (NaN included), never raises the score |
| `Risk.RiskText` | typepress.py:139-147 | "Low risk" iff score ≤ 30, "Moderate risk" iff 30 < score ≤ 60, "High risk" iff score > 60 |
| `Risk.RiskTextBoundaries` | typepress.py:142-147 | 30 → Low, 31 → Moderate, 60 → Moderate, 61 → High |
| `Risk.ComputedScoreNeverHigh` | typepress.py:112-147 | no computed score is labelled High; it is Moderate exactly when the fatigue test fires together with another test |
| `Dataset.Values` | typepress.py:15-17 | each kept number comes from a cell, there are no more numbers than cells, and none is left exactly when every field is empty; that every number is kept, once and in order, is `Dataset.ValuesAppend` |
| `Dataset.ValuesOfCell` | typepress.py:15-17 | one field gives its number, or nothing when it is empty |
| `Dataset.ValuesAppend` | typepress.py:15-17 | the numbers of two stretches of a column concatenate, so every number is kept once and in order |
| `Dataset.ColumnMean` | typepress.py:15-17 | a missing column gives 0; a present column gives NaN exactly when it has no number, otherwise the mean of its numbers |
| `Dataset.ConstantColumnMean` | typepress.py:15-17 | a column holding one number throughout has that number as its mean |
| `Dataset.MissingColumnsGiveZeroBaseline` | typepress.py:14-17 | a dataset with none of the three columns gives the all-zero baseline |
| `Dataset.BlankColumnDisablesTest` | typepress.py:15-17 | a present column with no number in it switches its test off for every session |
| `Analysis.SessionMetrics` | typepress.py:93-99 | `num_taps` is the tap count, `std_tap_time` the np.std value, `cv_tap_time` std / mean with numpy's zero-division results, and `fatigue_index` the index of the intervals |
| `Analysis.Assess` | typepress.py:83-102 | not-enough-taps iff fewer than 2 taps; otherwise the metrics, the score (one of the seven values) and its label, never "High risk" |
| `Analysis.MeanTapTimeIsSpan` | typepress.py:92-98 | `num_taps` is n and `mean_tap_time` is (t[n-1] - t[0]) / (n - 1) |
| `Analysis.IntervalsAreGaps` | typepress.py:92 | n taps give n - 1 intervals with intervals[i] = t[i+1] - t[i] |
| `Analysis.IncreasingTapsGiveFiniteMetrics` | typepress.py:92-97 | with increasing timestamps the mean is positive, cv = std / mean is finite and non-negative, and the fatigue index is finite |
| `Analysis.CvOfPositiveMean` | typepress.py:96 | a non-negative std over a positive mean gives a finite, non-negative cv |
| `Analysis.SteadyTapsMetrics` | typepress.py:92-97 | evenly spaced taps have mean = the gap, std = 0, cv = 0 and fatigue 0 |
| `Analysis.SteadyTapsAreLowRisk` | typepress.py:83-102 | evenly spaced taps score 0, "Low risk", against a baseline whose thresholds a zero metric does not exceed |
| `Analysis.HalfSecondTapsExample` | typepress.py:83-102 | taps at 0, 0.5, …, 3.0 against an all-zero baseline: std 0, cv 0, fatigue 0, score 0, "Low risk" |
| `Analysis.OneTapIsNotEnough` | typepress.py:86-90 | zero or one tap gives the not-enough-taps outcome and no score |
| `Session.FingerTappingAnalyzer.constructor` | typepress.py:9-20 | empty tap list, 10-second duration, the baseline means of the dataset's three columns, no listener, no timers |
| `Session.FingerTappingAnalyzer.StartTest` | typepress.py:22-28 | clears the taps and, via countdown(3), schedules the tick for 2 one second later |
| `Session.FingerTappingAnalyzer.Countdown` | typepress.py:33-43 | positive count: schedules count - 1 after 1000 ms and changes nothing else; otherwise starts recording |
| `Session.FingerTappingAnalyzer.StartTappingTest` | typepress.py:48-58 | clears the taps, starts the listener, schedules the stop after duration × 1000 ms |
| `Session.FingerTappingAnalyzer.OnPress` | typepress.py:63-67 | appends exactly the given timestamp for the space bar; leaves the taps unchanged for any other key |
| `Session.FingerTappingAnalyzer.KeyPressed` | typepress.py:52-54 | presses reach on_press only while the listener runs |
| `Session.FingerTappingAnalyzer.AnalyzeResults` | typepress.py:83-102 | the outcome equals `Analysis.Assess` of the recorded taps |
| `Session.FingerTappingAnalyzer.CalculateRisk` | typepress.py:112-122 | the sequential `+=` updates and the clamp compute `Risk.RiskScore`, one of the seven values |
| `Session.FingerTappingAnalyzer.StopListener` | typepress.py:72-81 | stops the listener and returns the analysis; with no listener yet, the caught error leaves everything as it was and nothing is analysed |
| `Session.FingerTappingAnalyzer.Fire` | typepress.py:36-43 | the event loop runs the oldest scheduled callback, a countdown tick or the stop, and states the resulting state |
| `Session.PressTimes` | typepress.py:63-67 | a press keeps the earlier taps and adds one entry, the press time, exactly for the space bar |
| `Session.SpaceTimes` | typepress.py:63-67 | every recorded time is the time of a space-bar press, and there are no more times than presses |
| `Session.SpaceTimesCount` | typepress.py:63-67 | the number of recorded taps equals the number of space-bar presses |
| `Session.RunCountdown` | typepress.py:22-58 | after start and k < 3 ticks the taps are empty, the listener is not running and the tick for 2 - k is pending; the third tick starts the listener and schedules the stop |
| `Session.RunTest` | typepress.py:22-78 | from a state with no running listener and no pending timer: countdown, presses, stop; the outcome is the analysis of exactly the space-bar presses, and the tap list is exactly their times, and the listener ends stopped with no timer pending |

## Left out

- The Tkinter UI: the `App` class, label texts, the start button and `enable_start_button` (presentation only).
- The formatted result message with the mean to 4 decimals: the model returns the metrics, score and label it is built from.
- The pynput listener thread: presses are delivered by explicit `KeyPressed` calls, so the listener's concurrency is not modelled.
- `root.after` timers: a FIFO queue fired by `Fire`. Callbacks run in scheduling order rather than by due time; the two only differ when two runs overlap, which the disabled start button prevents.
- `time.time()`: timestamps are parameters.
- Reading the CSV file: the constructor takes the three columns already parsed into numbers and empty fields. Non-numeric text in a column, which makes pandas' `.mean()` raise, and infinite values in the file are not modelled; the dataset path and file I/O are left out.
- The square root inside np.std: the standard deviation is a parameter, pinned down by `Stats.IsStd` (non-negative, its square is the population variance).
- Float rounding: all arithmetic is exact over reals. The offsets 0.02, 0.05 and 0.03 are exact, and so is the baseline + offset sum; signed zeros are not distinguished.
- Exceptions caught and printed in every method: apart from `StopListener` before any listener exists, no modelled path raises, because numpy division by zero gives inf/NaN instead.
- Session.RunTest and Session.RunCountdown: they start from a state with no running listener and no pending timer, as after the constructor or a finished run; a run started during recording is the overlapping case below.
- A second run started while the first is still pending: the source would create a second listener next to the first; the model keeps only the newest.
- `voice.py`, `spiral.py` and `mix.py`: library calls for feature extraction and classifiers, file and process handling, and Streamlit UI.
