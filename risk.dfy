/** The additive risk score and its label. */
module Risk {
  import opened Ieee

  /** Reference means loaded once from the baseline dataset. Each is a
      float: a column with no numbers in it has mean NaN. */
  datatype Baseline = Baseline(meanStd: Float, meanCv: Float, meanFatigue: Float)

  /** The metrics computed for one session. */
  datatype Metrics = Metrics(
    meanTapTime: real,
    stdTapTime: real,
    cvTapTime: Float,
    fatigueIndex: Float,
    numTaps: nat)

  const StdOffset: real := 0.02
  const CvOffset: real := 0.05
  const FatigueOffset: real := 0.03

  const StdWeight: int := 10
  const CvWeight: int := 15
  const FatigueWeight: int := 25

  const MaxScore: int := 100

  const LowBound: int := 30
  const ModerateBound: int := 60

  /** The three tests of `calculate_risk`, each a strict float `>` against
      the baseline mean plus its offset. */
  predicate StdRaised(m: Metrics, b: Baseline)
  {
    Greater(Num(m.stdTapTime), Plus(b.meanStd, StdOffset))
  }

  predicate CvRaised(m: Metrics, b: Baseline)
  {
    Greater(m.cvTapTime, Plus(b.meanCv, CvOffset))
  }

  predicate FatigueRaised(m: Metrics, b: Baseline)
  {
    Greater(m.fatigueIndex, Plus(b.meanFatigue, FatigueOffset))
  }

  function Weight(raised: bool, w: int): int
  {
    if raised then w else 0
  }

  /** The score before the clamp: the weights of the tests that fired. */
  function RawScore(m: Metrics, b: Baseline): int
  {
    Weight(StdRaised(m, b), StdWeight)
    + Weight(CvRaised(m, b), CvWeight)
    + Weight(FatigueRaised(m, b), FatigueWeight)
  }

  /** The score `calculate_risk` returns: the raw score capped at 100. It is
      the sum of a subset of {10, 15, 25}, one of seven values, all within
      0..100, so the cap at 100 never changes it. */
  function RiskScore(m: Metrics, b: Baseline): (r: int)
    ensures r in {0, 10, 15, 25, 35, 40, 50}
    ensures 0 <= r <= MaxScore
    ensures RawScore(m, b) <= 50 < MaxScore
    ensures r == RawScore(m, b)
  {
    var raw := RawScore(m, b);
    if raw < MaxScore then raw else MaxScore
  }

  /** Each test is strict: a metric exactly at its baseline plus offset
      adds nothing to the score. */
  lemma ThresholdsAreStrict(m: Metrics, b: Baseline)
    ensures Num(m.stdTapTime) == Plus(b.meanStd, StdOffset) ==> !StdRaised(m, b)
    ensures m.cvTapTime == Plus(b.meanCv, CvOffset) ==> !CvRaised(m, b)
    ensures m.fatigueIndex == Plus(b.meanFatigue, FatigueOffset) ==> !FatigueRaised(m, b)
  {
  }

  /** A baseline mean that is NaN switches its test off: nothing is greater
      than NaN + offset. */
  lemma NaNBaselineDisablesTest(m: Metrics, b: Baseline)
    ensures b.meanStd == NaN ==> !StdRaised(m, b)
    ensures b.meanCv == NaN ==> !CvRaised(m, b)
    ensures b.meanFatigue == NaN ==> !FatigueRaised(m, b)
  {
    NaNNeverGreater(Num(m.stdTapTime));
    NaNNeverGreater(m.cvTapTime);
    NaNNeverGreater(m.fatigueIndex);
  }

  /** Raising any metric, or several at once, with the others held fixed,
      never lowers the score. A metric held fixed may be NaN; NaN is
      comparable with nothing, so a metric is never raised to or from NaN. */
  lemma ScoreMonotone(m1: Metrics, m2: Metrics, b: Baseline)
    requires m1.stdTapTime <= m2.stdTapTime
    requires m1.cvTapTime == m2.cvTapTime || AtMost(m1.cvTapTime, m2.cvTapTime)
    requires m1.fatigueIndex == m2.fatigueIndex || AtMost(m1.fatigueIndex, m2.fatigueIndex)
    ensures RiskScore(m1, b) <= RiskScore(m2, b)
  {
    if StdRaised(m1, b) {
      GreaterMonotone(Num(m1.stdTapTime), Num(m2.stdTapTime), Plus(b.meanStd, StdOffset));
    }
    if CvRaised(m1, b) && m1.cvTapTime != m2.cvTapTime {
      GreaterMonotone(m1.cvTapTime, m2.cvTapTime, Plus(b.meanCv, CvOffset));
    }
    if FatigueRaised(m1, b) && m1.fatigueIndex != m2.fatigueIndex {
      GreaterMonotone(m1.fatigueIndex, m2.fatigueIndex, Plus(b.meanFatigue, FatigueOffset));
    }
  }

  /** Raising a baseline mean, or several, with the others held fixed, never
      raises the score. A mean held fixed may be NaN, as a blank column
      gives; a mean is never raised to or from NaN, which is comparable with
      nothing (`NaNBaselineDisablesTest` covers a NaN mean). */
  lemma ScoreAntitoneInBaseline(m: Metrics, b1: Baseline, b2: Baseline)
    requires b1.meanStd == b2.meanStd || AtMost(b1.meanStd, b2.meanStd)
    requires b1.meanCv == b2.meanCv || AtMost(b1.meanCv, b2.meanCv)
    requires b1.meanFatigue == b2.meanFatigue || AtMost(b1.meanFatigue, b2.meanFatigue)
    ensures RiskScore(m, b2) <= RiskScore(m, b1)
  {
    if StdRaised(m, b2) && b1.meanStd != b2.meanStd {
      PlusMonotone(b1.meanStd, b2.meanStd, StdOffset);
      GreaterAntitone(Num(m.stdTapTime), Plus(b1.meanStd, StdOffset), Plus(b2.meanStd, StdOffset));
    }
    if CvRaised(m, b2) && b1.meanCv != b2.meanCv {
      PlusMonotone(b1.meanCv, b2.meanCv, CvOffset);
      GreaterAntitone(m.cvTapTime, Plus(b1.meanCv, CvOffset), Plus(b2.meanCv, CvOffset));
    }
    if FatigueRaised(m, b2) && b1.meanFatigue != b2.meanFatigue {
      PlusMonotone(b1.meanFatigue, b2.meanFatigue, FatigueOffset);
      GreaterAntitone(m.fatigueIndex, Plus(b1.meanFatigue, FatigueOffset), Plus(b2.meanFatigue, FatigueOffset));
    }
  }

  /** `get_risk_text`: at most 30 is low, at most 60 moderate, above that high. */
  function RiskText(score: int): (t: string)
    ensures t == "Low risk" <==> score <= LowBound
    ensures t == "Moderate risk" <==> LowBound < score <= ModerateBound
    ensures t == "High risk" <==> score > ModerateBound
  {
    if score <= LowBound then "Low risk"
    else if score <= ModerateBound then "Moderate risk"
    else "High risk"
  }

  /** The boundaries belong to the lower band. */
  lemma RiskTextBoundaries()
    ensures RiskText(30) == "Low risk"
    ensures RiskText(31) == "Moderate risk"
    ensures RiskText(60) == "Moderate risk"
    ensures RiskText(61) == "High risk"
  {
  }

  /** No score `calculate_risk` can produce is labelled high: the label is
      moderate exactly when the fatigue test fired together with at least one
      other test, and low otherwise. */
  lemma ComputedScoreNeverHigh(m: Metrics, b: Baseline)
    ensures RiskText(RiskScore(m, b)) != "High risk"
    ensures RiskText(RiskScore(m, b)) == "Moderate risk" <==>
      FatigueRaised(m, b) && (StdRaised(m, b) || CvRaised(m, b))
  {
  }
}
