/** Python's floor division and sequence slicing, written out so that the
    analyzer's slice expressions can be read exactly as Python evaluates them. */
module PySlice {

  /** Python's `a // b` for a positive divisor: the quotient rounded down,
      also for negative `a` (C, Java and Go round toward zero instead).
      Dafny's `/` is Euclidean, which for a positive divisor is the same. */
  function FloorDiv(a: int, b: int): (q: int)
    requires b > 0
    ensures q * b <= a < q * b + b
  {
    a / b
  }

  /** Where a Python slice bound `k` lands in a sequence of length `n`:
      a negative bound counts from the end, and the result is clamped to
      the range 0..n. */
  function SliceIndex(k: int, n: nat): (i: nat)
    ensures i <= n
    ensures 0 <= k <= n ==> i == k
    ensures k < 0 && n + k >= 0 ==> i == n + k
  {
    if k < 0 then (if n + k < 0 then 0 else n + k)
    else if k > n then n
    else k
  }

  /** Python's `s[k:]`: what `s[:k]` leaves over. */
  function SliceFrom<T>(s: seq<T>, k: int): (r: seq<T>)
    ensures SliceTo(s, k) + r == s
  {
    s[SliceIndex(k, |s|)..]
  }

  /** Python's `s[:k]`: a prefix of `s`, the first k elements for
      0 <= k <= |s|. */
  function SliceTo<T>(s: seq<T>, k: int): (r: seq<T>)
    ensures r <= s
    ensures |r| == SliceIndex(k, |s|)
    ensures 0 <= k <= |s| ==> |r| == k
    ensures k > |s| ==> r == s
    ensures k < 0 && |s| + k <= 0 ==> r == []
  {
    s[..SliceIndex(k, |s|)]
  }

  /** `(-m) // 3` is minus the ceiling of m / 3. */
  lemma NegFloorDivThree(m: nat)
    ensures FloorDiv(-(m as int), 3) == -((m + 2) / 3)
  {
  }
}
