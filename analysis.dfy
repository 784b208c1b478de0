/** What `analyze_results` makes of the recorded tap timestamps. */
module Analysis {
  import opened Stats
  import opened Ieee
  import opened Fatigue
  import opened Risk

  /** The result shown to the user: either the "Not enough taps recorded."
      message, or the computed metrics with the score and its label. */
  datatype Outcome = NotEnoughTaps | Assessed(metrics: Metrics, score: int, text: string)

  /** The metrics of a session with at least two taps; `std` is np.std of the
      intervals, supplied by the caller. */
  function SessionMetrics(taps: seq<real>, std: real): (m: Metrics)
    requires |taps| >= 2
    ensures m.numTaps == |taps|
    ensures m.stdTapTime == std
    ensures m.cvTapTime == Div(std, m.meanTapTime)
    ensures m.fatigueIndex == FatigueIndex(Diff(taps))
  {
    var intervals := Diff(taps);
    var mean := Mean(intervals);
    Metrics(mean, std, Div(std, mean), FatigueIndex(intervals), |taps|)
  }

  /** `num_taps` counts the taps, and the mean interval telescopes to the span
      of the session divided by the number of intervals. */
  lemma MeanTapTimeIsSpan(taps: seq<real>, std: real)
    requires |taps| >= 2
    ensures SessionMetrics(taps, std).numTaps == |taps|
    ensures SessionMetrics(taps, std).meanTapTime == (taps[|taps| - 1] - taps[0]) / (|taps| - 1) as real
  {
    DiffSum(taps);
  }

  /** The whole analysis: fewer than two taps give the not-enough-taps
      outcome and no score; otherwise the score of the metrics and its label,
      which is never "High risk". */
  function Assess(taps: seq<real>, b: Baseline, std: real): (o: Outcome)
    ensures o.NotEnoughTaps? <==> |taps| < 2
    ensures o.Assessed? ==>
      o.metrics == SessionMetrics(taps, std) &&
      o.score == RiskScore(o.metrics, b) &&
      o.score in {0, 10, 15, 25, 35, 40, 50} &&
      o.text == RiskText(o.score) &&
      o.text != "High risk"
  {
    if |taps| < 2 then NotEnoughTaps
    else
      var m := SessionMetrics(taps, std);
      var score := RiskScore(m, b);
      Assessed(m, score, RiskText(score))
  }

  /** The intervals are the n - 1 gaps between consecutive taps. */
  lemma IntervalsAreGaps(taps: seq<real>)
    requires |taps| >= 2
    ensures |Diff(taps)| == |taps| - 1
    ensures forall i :: 0 <= i < |taps| - 1 ==> Diff(taps)[i] == taps[i + 1] - taps[i]
  {
    forall i | 0 <= i < |taps| - 1
      ensures Diff(taps)[i] == taps[i + 1] - taps[i]
    {
      DiffAt(taps, i);
    }
  }

  /** With timestamps from a clock that only moves forward, the mean interval
      is positive, so the coefficient of variation is the finite, non-negative
      number std / mean, and the fatigue index is finite too. */
  lemma IncreasingTapsGiveFiniteMetrics(taps: seq<real>, std: real)
    requires |taps| >= 2
    requires StrictlyIncreasing(taps)
    requires IsStd(Diff(taps), std)
    ensures SessionMetrics(taps, std).meanTapTime > 0.0
    ensures SessionMetrics(taps, std).cvTapTime == Num(std / SessionMetrics(taps, std).meanTapTime)
    ensures SessionMetrics(taps, std).cvTapTime.v >= 0.0
    ensures SessionMetrics(taps, std).fatigueIndex.Num?
  {
    var iv := Diff(taps);
    IncreasingGivesPositiveDiff(taps);
    assert Mean(iv) > 0.0;
    PositiveIntervalsFiniteFatigue(iv);
    var m := SessionMetrics(taps, std);
    assert m.meanTapTime == Mean(iv);
    CvOfPositiveMean(std, m.meanTapTime);
  }

  /** A non-negative spread over a positive mean is a finite, non-negative
      coefficient of variation. */
  lemma CvOfPositiveMean(std: real, mean: real)
    requires std >= 0.0
    requires mean > 0.0
    ensures Div(std, mean) == Num(std / mean)
    ensures std / mean >= 0.0
  {
  }

  /** Taps at a perfectly steady pace have zero spread and no fatigue, so
      against a baseline whose thresholds a zero metric does not exceed (not
      negative, or NaN) they score 0, "Low risk". */
  lemma SteadyTapsAreLowRisk(taps: seq<real>, gap: real, b: Baseline, std: real)
    requires |taps| >= 2
    requires gap > 0.0
    requires forall i :: 0 <= i < |Diff(taps)| ==> Diff(taps)[i] == gap
    requires IsStd(Diff(taps), std)
    requires !Greater(Num(0.0), Plus(b.meanStd, StdOffset))
    requires !Greater(Num(0.0), Plus(b.meanCv, CvOffset))
    requires !Greater(Num(0.0), Plus(b.meanFatigue, FatigueOffset))
    ensures Assess(taps, b, std) ==
      Assessed(Metrics(gap, 0.0, Num(0.0), Num(0.0), |taps|), 0, "Low risk")
  {
    var m := SessionMetrics(taps, std);
    SteadyTapsMetrics(taps, gap, std);
    assert m == Metrics(gap, 0.0, Num(0.0), Num(0.0), |taps|);
    assert RiskScore(m, b) == 0;
  }

  /** The metrics of steady tapping: the mean interval is the gap, and the
      spread, the coefficient of variation and the fatigue index are 0. */
  lemma SteadyTapsMetrics(taps: seq<real>, gap: real, std: real)
    requires |taps| >= 2
    requires gap > 0.0
    requires forall i :: 0 <= i < |Diff(taps)| ==> Diff(taps)[i] == gap
    requires IsStd(Diff(taps), std)
    ensures SessionMetrics(taps, std) == Metrics(gap, 0.0, Num(0.0), Num(0.0), |taps|)
  {
    var iv := Diff(taps);
    assert Mean(iv) == gap;
    ConstantHasZeroStd(iv, gap, std);
    ConstantIntervalsNoFatigue(iv, gap);
    assert Div(0.0, gap) == Num(0.0);
  }

  /** Seven taps half a second apart against an all-zero baseline. */
  lemma HalfSecondTapsExample(std: real)
    requires IsStd(Diff([0.0, 0.5, 1.0, 1.5, 2.0, 2.5, 3.0]), std)
    ensures Assess([0.0, 0.5, 1.0, 1.5, 2.0, 2.5, 3.0], Baseline(Num(0.0), Num(0.0), Num(0.0)), std) ==
      Assessed(Metrics(0.5, 0.0, Num(0.0), Num(0.0), 7), 0, "Low risk")
  {
    var taps := [0.0, 0.5, 1.0, 1.5, 2.0, 2.5, 3.0];
    SteadyTapsAreLowRisk(taps, 0.5, Baseline(Num(0.0), Num(0.0), Num(0.0)), std);
  }

  /** A single tap, or none, is not enough to score. */
  lemma OneTapIsNotEnough(t: real, b: Baseline, std: real)
    ensures Assess([t], b, std) == NotEnoughTaps
    ensures Assess([], b, std) == NotEnoughTaps
  {
  }
}
