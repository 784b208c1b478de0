/** The fatigue index of a tapping session: how much slower the last taps
    were than the first ones, relative to the first ones. */
module Fatigue {
  import opened Stats
  import opened Ieee
  import opened PySlice

  /** Below this many intervals the index is reported as 0. */
  const MinIntervals: nat := 6

  /** `intervals[:len(intervals) // 3]`: the first floor(m/3) intervals. */
  function FrontThird(iv: seq<real>): (r: seq<real>)
    ensures r == iv[..|iv| / 3]
  {
    SliceTo(iv, FloorDiv(|iv|, 3))
  }

  /** `intervals[-len(intervals) // 3:]`. Unary minus binds tighter than
      `//`, so the bound is `(-m) // 3`, which is minus the ceiling of m / 3,
      and the slice holds the last ceil(m/3) intervals. */
  function BackThird(iv: seq<real>): (r: seq<real>)
    ensures r == iv[|iv| - (|iv| + 2) / 3..]
  {
    NegFloorDivThree(|iv|);
    SliceFrom(iv, FloorDiv(-|iv|, 3))
  }

  /** The sizes of the two slices: the front slice holds floor(m/3)
      intervals and the back slice ceil(m/3), so the back slice is one longer
      whenever m is not a multiple of 3; they never overlap. */
  lemma ThirdsShape(iv: seq<real>)
    ensures |FrontThird(iv)| == |iv| / 3
    ensures |BackThird(iv)| == (|iv| + 2) / 3
    ensures |iv| % 3 == 0 ==> |BackThird(iv)| == |FrontThird(iv)|
    ensures |iv| % 3 != 0 ==> |BackThird(iv)| == |FrontThird(iv)| + 1
    ensures |FrontThird(iv)| <= |iv| - (|iv| + 2) / 3
    ensures |iv| >= MinIntervals ==> |FrontThird(iv)| >= 2 && |BackThird(iv)| >= 2
  {
    NegFloorDivThree(|iv|);
  }

  /** `_calculate_fatigue_index`: 0 for fewer than six intervals; otherwise
      (mean(last) - mean(first)) / mean(first) over the two slices, with
      numpy's inf/NaN when the front mean is 0. */
  function FatigueIndex(iv: seq<real>): (r: Float)
    ensures |iv| < MinIntervals ==> r == Num(0.0)
    ensures |iv| >= MinIntervals ==>
      var first := iv[..|iv| / 3];
      var last := iv[|iv| - (|iv| + 2) / 3..];
      |first| > 0 && |last| > 0 &&
      r == Div(Mean(last) - Mean(first), Mean(first))
  {
    if |iv| < MinIntervals then Num(0.0)
    else
      ThirdsShape(iv);
      var first := FrontThird(iv);
      var last := BackThird(iv);
      Div(Mean(last) - Mean(first), Mean(first))
  }

  /** Evenly paced tapping shows no fatigue. */
  lemma ConstantIntervalsNoFatigue(iv: seq<real>, c: real)
    requires c != 0.0
    requires forall i :: 0 <= i < |iv| ==> iv[i] == c
    ensures FatigueIndex(iv) == Num(0.0)
  {
    if |iv| >= MinIntervals {
      var first := iv[..|iv| / 3];
      var last := iv[|iv| - (|iv| + 2) / 3..];
      assert Mean(first) == c && Mean(last) == c;
    }
  }

  /** With positive intervals the index is always a finite number, and it
      is positive exactly when the back slice is slower on average. */
  lemma PositiveIntervalsFiniteFatigue(iv: seq<real>)
    requires forall i :: 0 <= i < |iv| ==> iv[i] > 0.0
    ensures FatigueIndex(iv).Num?
    ensures |iv| >= MinIntervals ==>
      (FatigueIndex(iv).v > 0.0 <==> Mean(iv[|iv| - (|iv| + 2) / 3..]) > Mean(iv[..|iv| / 3]))
  {
    if |iv| >= MinIntervals {
      var first := iv[..|iv| / 3];
      var last := iv[|iv| - (|iv| + 2) / 3..];
      assert Mean(first) > 0.0;
      var r := FatigueIndex(iv);
      assert r.v * Mean(first) == Mean(last) - Mean(first);
      SignOfQuotient(r.v, Mean(first), Mean(last) - Mean(first));
    }
  }

  /** If q * d == n with d > 0, then q and n have the same sign. */
  lemma SignOfQuotient(q: real, d: real, n: real)
    requires d > 0.0
    requires q * d == n
    ensures q > 0.0 <==> n > 0.0
  {
    if q > 0.0 {
      MulPositive(q, d);
    } else if q < 0.0 {
      MulPositive(-q, d);
      assert Mul(-q, d) == -n;
    } else {
      assert q * d == 0.0 * d;
    }
  }
}
