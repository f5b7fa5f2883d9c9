/**
 * The aggregates the metric code builds from Python's sum, len, min and
 * max: totals, the guarded average `sum(l) / len(l) if l else 0`, and the
 * extremes of a non-empty list.
 */
module Stats {

  /** sum(s) */
  function Sum(s: seq<real>): real
  {
    if s == [] then 0.0 else Sum(s[..|s| - 1]) + s[|s| - 1]
  }

  /** The average of s, 0 for the empty list. */
  function Mean(s: seq<real>): (r: real)
    ensures s == [] ==> r == 0.0
    ensures s != [] ==> r * |s| as real == Sum(s)
  {
    if s == [] then 0.0 else Sum(s) / |s| as real
  }

  /** max(s) */
  function MaxOf(s: seq<real>): (r: real)
    requires s != []
    ensures r in s && forall x :: x in s ==> x <= r
  {
    if |s| == 1 then s[0]
    else
      var m := MaxOf(s[..|s| - 1]);
      assert forall x :: x in s ==> x in s[..|s| - 1] || x == s[|s| - 1];
      if s[|s| - 1] > m then s[|s| - 1] else m
  }

  /** min(s) */
  function MinOf(s: seq<real>): (r: real)
    requires s != []
    ensures r in s && forall x :: x in s ==> r <= x
  {
    if |s| == 1 then s[0]
    else
      var m := MinOf(s[..|s| - 1]);
      assert forall x :: x in s ==> x in s[..|s| - 1] || x == s[|s| - 1];
      if s[|s| - 1] < m then s[|s| - 1] else m
  }

  /** Integers as reals, as Python's true division sees them. */
  function Reals(s: seq<int>): (r: seq<real>)
    ensures |r| == |s| && forall i :: 0 <= i < |s| ==> r[i] == s[i] as real
  {
    if s == [] then [] else Reals(s[..|s| - 1]) + [s[|s| - 1] as real]
  }

  /** Appending x adds x to the sum. */
  lemma SumAppend(s: seq<real>, x: real)
    ensures Sum(s + [x]) == Sum(s) + x
  {
    assert (s + [x])[..|s|] == s;
  }

  /** A list bounded above by m sums to at most |s|·m, and one bounded below by m to at least |s|·m. */
  lemma {:induction false} SumBounds(s: seq<real>, lo: real, hi: real)
    requires forall x :: x in s ==> lo <= x <= hi
    ensures |s| as real * lo <= Sum(s) <= |s| as real * hi
    decreases |s|
  {
    if s != [] {
      var init := s[..|s| - 1];
      assert forall x :: x in init ==> x in s;
      SumBounds(init, lo, hi);
      assert s[|s| - 1] in s;
      assert |s| as real * lo == |init| as real * lo + lo;
      assert |s| as real * hi == |init| as real * hi + hi;
    }
  }

  /** The sum of non-negative values is non-negative. */
  lemma SumNonNegative(s: seq<real>)
    requires forall x :: x in s ==> 0.0 <= x
    ensures 0.0 <= Sum(s)
  {
    if s != [] {
      var init := s[..|s| - 1];
      assert forall x :: x in init ==> x in s;
      SumNonNegative(init);
      assert s[|s| - 1] in s;
    }
  }

  /** Cancelling a positive factor keeps an inequality. */
  lemma CancelFactor(a: real, b: real, n: real)
    requires n > 0.0 && a * n <= b * n
    ensures a <= b
  {
    assert a * n - b * n == (a - b) * n;
  }

  /** The average of a non-empty list bounded by lo and hi is bounded by them too. */
  lemma MeanWithin(s: seq<real>, lo: real, hi: real)
    requires s != [] && forall x :: x in s ==> lo <= x <= hi
    ensures lo <= Mean(s) <= hi
  {
    SumBounds(s, lo, hi);
    var n := |s| as real;
    var m := Mean(s);
    assert m * n == Sum(s);
    CancelFactor(lo, m, n);
    CancelFactor(m, hi, n);
  }

  /** The average of a non-empty list lies between its minimum and its maximum. */
  lemma MeanBetween(s: seq<real>)
    requires s != []
    ensures MinOf(s) <= Mean(s) <= MaxOf(s)
  {
    MeanWithin(s, MinOf(s), MaxOf(s));
  }

  /** A list of one repeated value averages to that value. */
  lemma MeanOfConstant(s: seq<real>, v: real)
    requires s != [] && forall x :: x in s ==> x == v
    ensures Mean(s) == v
  {
    MeanWithin(s, v, v);
  }
}
