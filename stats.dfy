/** Exact-arithmetic counterparts of the numpy reductions the analyzer uses:
    np.diff, np.mean and the population standard deviation np.std. */
module Stats {

  /** Sum of a sequence, first element first. */
  function Sum(s: seq<real>): real
  {
    if |s| == 0 then 0.0 else s[0] + Sum(s[1..])
  }

  /** np.mean of a non-empty sequence: positive when every element is, and
      equal to the common value when all elements are equal. */
  function Mean(s: seq<real>): (r: real)
    requires |s| > 0
    ensures (forall i :: 0 <= i < |s| ==> s[i] > 0.0) ==> r > 0.0
    ensures (forall i :: 0 <= i < |s| ==> s[i] == s[0]) ==> r == s[0]
  {
    SumSign(s);
    Sum(s) / |s| as real
  }

  /** The facts about `Sum` that `Mean` passes on. */
  lemma SumSign(s: seq<real>)
    requires |s| > 0
    ensures (forall i :: 0 <= i < |s| ==> s[i] > 0.0) ==> Sum(s) > 0.0
    ensures (forall i :: 0 <= i < |s| ==> s[i] == s[0]) ==> Sum(s) == |s| as real * s[0]
  {
    if forall i :: 0 <= i < |s| ==> s[i] > 0.0 {
      SumPositive(s);
    }
    if forall i :: 0 <= i < |s| ==> s[i] == s[0] {
      SumConstant(s, s[0]);
    }
  }

  /** Sum of squared deviations from `mu`; never negative, and zero exactly
      when every element equals `mu`. */
  function SumSqDev(s: seq<real>, mu: real): (r: real)
    ensures r >= 0.0
    ensures r == 0.0 <==> forall i :: 0 <= i < |s| ==> s[i] == mu
  {
    if |s| == 0 then 0.0
    else
      var d := s[0] - mu;
      SquareSign(d);
      var rest := SumSqDev(s[1..], mu);
      assert (forall i :: 0 <= i < |s| ==> s[i] == mu) <==> d == 0.0 && forall i :: 0 <= i < |s| - 1 ==> s[1..][i] == mu by {
        assert forall i :: 1 <= i < |s| ==> s[i] == s[1..][i - 1];
      }
      Square(d) + rest
  }

  /** Product of two reals. Squares are written through it so that the
      solver reasons about them as products of two factors: `SquareSign`
      does not verify on the bare `x * x` form. */
  function Mul(a: real, b: real): real
  {
    a * b
  }

  function Square(x: real): real
  {
    Mul(x, x)
  }

  /** The product of two positive reals is positive. */
  lemma MulPositive(a: real, b: real)
    requires a > 0.0 && b > 0.0
    ensures Mul(a, b) > 0.0
  {
  }

  /** A square is non-negative and zero exactly at zero. */
  lemma SquareSign(x: real)
    ensures Square(x) >= 0.0
    ensures x != 0.0 ==> Square(x) > 0.0
    ensures x == 0.0 ==> Square(x) == 0.0
  {
    if x > 0.0 {
      MulPositive(x, x);
    } else if x < 0.0 {
      MulPositive(-x, -x);
      assert Mul(x, x) == Mul(-x, -x);
    }
  }

  /** Population variance (numpy's default ddof = 0): never negative, and
      zero exactly when every element equals the mean. */
  function Variance(s: seq<real>): (r: real)
    requires |s| > 0
    ensures r >= 0.0
    ensures r == 0.0 <==> forall i :: 0 <= i < |s| ==> s[i] == Mean(s)
  {
    SumSqDev(s, Mean(s)) / |s| as real
  }

  /** `sd` is what np.std returns for `s`: the non-negative square root of
      the population variance. The square root itself is not computed here;
      callers supply it and this predicate pins it down. */
  ghost predicate IsStd(s: seq<real>, sd: real)
    requires |s| > 0
  {
    sd >= 0.0 && Square(sd) == Variance(s)
  }

  /** At most one value satisfies `IsStd`: np.std is determined by the data. */
  lemma StdIsUnique(s: seq<real>, sd1: real, sd2: real)
    requires |s| > 0
    requires IsStd(s, sd1) && IsStd(s, sd2)
    ensures sd1 == sd2
  {
    if sd1 != sd2 {
      var lo, hi := if sd1 < sd2 then sd1 else sd2, if sd1 < sd2 then sd2 else sd1;
      MulPositive(hi - lo, hi + lo);
    }
  }

  /** np.diff: the consecutive differences of `t`; empty when `t` has fewer
      than two elements. */
  function Diff(t: seq<real>): (d: seq<real>)
    ensures |t| >= 1 ==> |d| == |t| - 1
    ensures |t| <= 1 ==> d == []
  {
    if |t| < 2 then [] else [t[1] - t[0]] + Diff(t[1..])
  }

  /** Each difference is the gap between two neighbouring timestamps. */
  lemma {:induction false} DiffAt(t: seq<real>, i: nat)
    requires i + 1 < |t|
    ensures Diff(t)[i] == t[i + 1] - t[i]
  {
    if i > 0 {
      DiffAt(t[1..], i - 1);
    }
  }

  /** The differences telescope: they add up to last minus first. */
  lemma {:induction false} DiffSum(t: seq<real>)
    requires |t| >= 1
    ensures Sum(Diff(t)) == t[|t| - 1] - t[0]
  {
    if |t| >= 2 {
      DiffSum(t[1..]);
    }
  }

  /** A sequence whose elements all equal `c` sums to |s| * c. */
  lemma {:induction false} SumConstant(s: seq<real>, c: real)
    requires forall i :: 0 <= i < |s| ==> s[i] == c
    ensures Sum(s) == |s| as real * c
  {
    if |s| > 0 {
      SumConstant(s[1..], c);
    }
  }

  /** A sequence of positive values has a positive sum when non-empty. */
  lemma {:induction false} SumPositive(s: seq<real>)
    requires |s| > 0
    requires forall i :: 0 <= i < |s| ==> s[i] > 0.0
    ensures Sum(s) > 0.0
  {
    if |s| > 1 {
      SumPositive(s[1..]);
    }
  }

  /** A constant sequence has variance zero, so its standard deviation is 0. */
  lemma ConstantHasZeroStd(s: seq<real>, c: real, sd: real)
    requires |s| > 0
    requires forall i :: 0 <= i < |s| ==> s[i] == c
    requires IsStd(s, sd)
    ensures sd == 0.0
  {
    assert Mean(s) == c;
    assert SumSqDev(s, Mean(s)) == 0.0;
    SquareSign(sd);
  }

  /** Strictly increasing timestamps, as a monotonic clock produces. */
  ghost predicate StrictlyIncreasing(t: seq<real>)
  {
    forall i, j :: 0 <= i < j < |t| ==> t[i] < t[j]
  }

  /** Strictly increasing timestamps give strictly positive intervals. */
  lemma IncreasingGivesPositiveDiff(t: seq<real>)
    requires StrictlyIncreasing(t)
    ensures forall i :: 0 <= i < |Diff(t)| ==> Diff(t)[i] > 0.0
  {
    forall i | 0 <= i < |Diff(t)|
      ensures Diff(t)[i] > 0.0
    {
      DiffAt(t, i);
    }
  }
}
