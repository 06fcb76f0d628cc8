/**
 * The aggregate statistics both source files compute over lists of fitness values:
 * Python's built-in `sum`, `max` and `min`, the mean `sum(xs)/len(xs)`, and the
 * position of the first maximum (what a stable descending sort puts first, and
 * what a scan that only replaces on a strictly greater value keeps).
 */
module Statistics {

  /** Sum of the values, folded from the left. */
  function Sum(s: seq<real>): real
  {
    if s == [] then 0.0 else Sum(s[..|s| - 1]) + s[|s| - 1]
  }

  /** The largest value: it bounds every element and is one of them. */
  function Max(s: seq<real>): (m: real)
    requires s != []
    ensures forall i :: 0 <= i < |s| ==> s[i] <= m
    ensures exists i :: 0 <= i < |s| && s[i] == m
  {
    if |s| == 1 then s[0]
    else
      var m' := Max(s[..|s| - 1]);
      assert forall i :: 0 <= i < |s| - 1 ==> s[..|s| - 1][i] == s[i];
      if m' < s[|s| - 1] then s[|s| - 1] else m'
  }

  /** The smallest value: it is below every element and is one of them. */
  function Min(s: seq<real>): (m: real)
    requires s != []
    ensures forall i :: 0 <= i < |s| ==> m <= s[i]
    ensures exists i :: 0 <= i < |s| && s[i] == m
  {
    if |s| == 1 then s[0]
    else
      var m' := Min(s[..|s| - 1]);
      assert forall i :: 0 <= i < |s| - 1 ==> s[..|s| - 1][i] == s[i];
      if s[|s| - 1] < m' then s[|s| - 1] else m'
  }

  /** The arithmetic mean, `sum(s) / len(s)`, computed exactly. */
  function Mean(s: seq<real>): (m: real)
    requires s != []
    ensures (|s| as real) * m == Sum(s)
  {
    Sum(s) / (|s| as real)
  }

  /**
   * The position of the first maximal value: every element is at most the one
   * there, and every element before it is strictly smaller.
   */
  function FirstArgMax(s: seq<real>): (w: nat)
    requires s != []
    ensures w < |s|
    ensures forall i :: 0 <= i < |s| ==> s[i] <= s[w]
    ensures forall i :: 0 <= i < w ==> s[i] < s[w]
  {
    if |s| == 1 then 0
    else
      var w' := FirstArgMax(s[..|s| - 1]);
      assert forall i :: 0 <= i < |s| - 1 ==> s[..|s| - 1][i] == s[i];
      if s[w'] < s[|s| - 1] then |s| - 1 else w'
  }

  /**
   * One more value: it becomes the maximum, and its position the first maximal one,
   * exactly when it is strictly greater than the maximum so far.
   */
  lemma ExtendByOne(s: seq<real>, x: real)
    requires s != []
    ensures FirstArgMax(s + [x]) == if s[FirstArgMax(s)] < x then |s| else FirstArgMax(s)
  {
    assert (s + [x])[..|s|] == s;
  }

  /** A value that bounds every element and is one of them is the maximum. */
  lemma MaxUnique(s: seq<real>, m: real)
    requires forall i :: 0 <= i < |s| ==> s[i] <= m
    requires exists i :: 0 <= i < |s| && s[i] == m
    ensures Max(s) == m
  {
    var i :| 0 <= i < |s| && s[i] == m;
    var j :| 0 <= j < |s| && s[j] == Max(s);
    assert s[j] <= m && s[i] <= Max(s);
  }

  /** A value below every element and one of them is the minimum. */
  lemma MinUnique(s: seq<real>, m: real)
    requires forall i :: 0 <= i < |s| ==> m <= s[i]
    requires exists i :: 0 <= i < |s| && s[i] == m
    ensures Min(s) == m
  {
    var i :| 0 <= i < |s| && s[i] == m;
    var j :| 0 <= j < |s| && s[j] == Min(s);
    assert m <= s[j] && Min(s) <= s[i];
  }

  /** The maximum sits at the position of the first maximum. */
  lemma MaxAtFirstArgMax(s: seq<real>)
    requires s != []
    ensures Max(s) == s[FirstArgMax(s)]
  {
  }

  /** A sum of values that lie in `[lo, hi]` lies between `n * lo` and `n * hi`. */
  lemma {:induction false} SumBetween(s: seq<real>, lo: real, hi: real)
    requires forall i :: 0 <= i < |s| ==> lo <= s[i] <= hi
    ensures (|s| as real) * lo <= Sum(s) <= (|s| as real) * hi
  {
    if s != [] {
      var init := s[..|s| - 1];
      assert forall i :: 0 <= i < |init| ==> init[i] == s[i];
      SumBetween(init, lo, hi);
      assert (|s| as real) * lo == (|init| as real) * lo + lo;
      assert (|s| as real) * hi == (|init| as real) * hi + hi;
    }
  }

  /** Dividing both sides of `n * lo <= total <= n * hi` by a positive `n`. */
  lemma DivideBetween(total: real, n: real, lo: real, hi: real)
    requires n > 0.0 && n * lo <= total <= n * hi
    ensures lo <= total / n <= hi
  {
  }

  /** The mean lies between the minimum and the maximum. */
  lemma MeanBetween(s: seq<real>)
    requires s != []
    ensures Min(s) <= Mean(s) <= Max(s)
  {
    SumBetween(s, Min(s), Max(s));
    DivideBetween(Sum(s), |s| as real, Min(s), Max(s));
  }
}
