/** Left-to-right accumulations over entered readings, in the order the
    calculators' loops add them up. */
module Series {

  /** The running total `sum += x` over `s`, first element first: it starts
      at 0 and a single reading sums to itself. */
  function Sum(s: seq<real>): (t: real)
    ensures s == [] ==> t == 0.0
    ensures |s| == 1 ==> t == s[0]
  {
    if s == [] then 0.0 else Sum(s[..|s| - 1]) + s[|s| - 1]
  }

  /** The running total `sq_sum += x * x` over `s`, which is never negative. */
  function SumOfSquares(s: seq<real>): (q: real)
    ensures q >= 0.0
  {
    if s == [] then 0.0 else SumOfSquares(s[..|s| - 1]) + s[|s| - 1] * s[|s| - 1]
  }

  predicate AllPositive(s: seq<real>)
  {
    forall k :: 0 <= k < |s| ==> s[k] > 0.0
  }

  /** The running total `inverse_sum += 1.0 / x` over strictly positive `s`;
      every reading contributes a strictly positive term. */
  function InvSum(s: seq<real>): (g: real)
    requires AllPositive(s)
    ensures g >= 0.0 && (s != [] ==> g > 0.0)
  {
    if s == [] then 0.0 else InvSum(s[..|s| - 1]) + 1.0 / s[|s| - 1]
  }

  /** n copies of the same reading. */
  function Repeat(v: real, n: nat): (s: seq<real>)
    ensures |s| == n && forall k :: 0 <= k < n ==> s[k] == v
  {
    if n == 0 then [] else Repeat(v, n - 1) + [v]
  }

  lemma {:induction false} SumAppend(s: seq<real>, t: seq<real>)
    ensures Sum(s + t) == Sum(s) + Sum(t)
    decreases |t|
  {
    if t == [] {
      assert s + t == s;
    } else {
      assert (s + t)[..|s + t| - 1] == s + t[..|t| - 1];
      SumAppend(s, t[..|t| - 1]);
    }
  }

  /** Adding up n copies of v gives n * v. */
  lemma SumOfRepeat(v: real, n: nat)
    ensures Sum(Repeat(v, n)) == n as real * v
  {
    SumBounds(Repeat(v, n), v, v);
  }

  /** Adding up the squares of n copies of v gives n * w, w being v * v. */
  lemma SumOfSquaresOfRepeat(v: real, n: nat, w: real)
    requires w == v * v
    ensures SumOfSquares(Repeat(v, n)) == n as real * w
  {
    SumOfSquaresConstant(Repeat(v, n), v, w);
  }

  /** Readings that all equal v have a sum of squares of |s| * w, w being v * v. */
  lemma {:induction false} SumOfSquaresConstant(s: seq<real>, v: real, w: real)
    requires w == v * v && forall k :: 0 <= k < |s| ==> s[k] == v
    ensures SumOfSquares(s) == |s| as real * w
  {
    if s != [] {
      var init := s[..|s| - 1];
      assert forall k :: 0 <= k < |init| ==> init[k] == s[k];
      SumOfSquaresConstant(init, v, w);
      OneMore(SumOfSquares(s), SumOfSquares(init), |s|, w);
    }
  }

  /** One more w on top of n - 1 copies of it makes n copies. */
  lemma OneMore(total: real, previous: real, n: nat, w: real)
    requires n >= 1 && previous == (n - 1) as real * w && total == previous + w
    ensures total == n as real * w
  {
  }

  /** Readings that all lie in [lo, hi] add up to between |s| * lo and |s| * hi. */
  lemma {:induction false} SumBounds(s: seq<real>, lo: real, hi: real)
    requires forall k :: 0 <= k < |s| ==> lo <= s[k] <= hi
    ensures |s| as real * lo <= Sum(s) <= |s| as real * hi
  {
    if s != [] {
      var init, x := s[..|s| - 1], s[|s| - 1];
      assert forall k :: 0 <= k < |init| ==> init[k] == s[k];
      SumBounds(init, lo, hi);
      BoundStep(Sum(s), Sum(init), x, |init|, lo, hi);
    }
  }

  /** Adding one reading in [lo, hi] to a total of m readings in range. */
  lemma BoundStep(total: real, previous: real, x: real, m: nat, lo: real, hi: real)
    requires total == previous + x && lo <= x <= hi
    requires m as real * lo <= previous <= m as real * hi
    ensures (m + 1) as real * lo <= total <= (m + 1) as real * hi
  {
    OneMore(m as real * lo + lo, m as real * lo, m + 1, lo);
    OneMore(m as real * hi + hi, m as real * hi, m + 1, hi);
  }

  lemma {:induction false} InvSumAppend(s: seq<real>, t: seq<real>)
    requires AllPositive(s) && AllPositive(t)
    ensures AllPositive(s + t)
    ensures InvSum(s + t) == InvSum(s) + InvSum(t)
    decreases |t|
  {
    assert AllPositive(s + t) by {
      forall k | 0 <= k < |s + t| ensures (s + t)[k] > 0.0 {
        if k >= |s| { assert (s + t)[k] == t[k - |s|]; }
      }
    }
    if t == [] {
      assert s + t == s;
    } else {
      assert (s + t)[..|s + t| - 1] == s + t[..|t| - 1];
      InvSumAppend(s, t[..|t| - 1]);
    }
  }


  /** Taking one reading out of the middle removes exactly its reciprocal. */
  lemma InvSumRemove(before: seq<real>, x: real, after: seq<real>)
    requires AllPositive(before) && x > 0.0 && AllPositive(after)
    ensures AllPositive(before + [x] + after) && AllPositive(before + after)
    ensures InvSum(before + [x] + after) == InvSum(before + after) + 1.0 / x
  {
    InvSumSnoc(before, x);
    InvSumAppend(before + [x], after);
    InvSumAppend(before, after);
  }

  /** A reading at position j splits the readings into those before it, it, and those after. */
  lemma SplitAt(t: seq<real>, j: nat)
    requires AllPositive(t) && j < |t|
    ensures t == t[..j] + [t[j]] + t[j + 1..]
    ensures AllPositive(t[..j]) && t[j] > 0.0 && AllPositive(t[j + 1..])
  {
    PositiveSlice(t, 0, j);
    PositiveSlice(t, j + 1, |t|);
  }

  lemma PositiveSlice(t: seq<real>, lo: nat, hi: nat)
    requires AllPositive(t) && lo <= hi <= |t|
    ensures AllPositive(t[lo..hi])
  {
    assert forall k :: 0 <= k < hi - lo ==> t[lo..hi][k] == t[lo + k];
  }

  /** Appending one reading adds its reciprocal. */
  lemma InvSumSnoc(s: seq<real>, x: real)
    requires AllPositive(s) && x > 0.0
    ensures AllPositive(s + [x])
    ensures InvSum(s + [x]) == InvSum(s) + 1.0 / x
  {
    assert (s + [x])[..|s|] == s;
  }

  lemma PositiveUnderPermutation(s: seq<real>, t: seq<real>)
    requires AllPositive(s) && multiset(s) == multiset(t)
    ensures AllPositive(t)
  {
    forall k | 0 <= k < |t| ensures t[k] > 0.0 {
      assert t[k] in multiset(s);
    }
  }

  /** The sum of reciprocals does not depend on the order of the readings. */
  lemma {:induction false} InvSumPermutation(s: seq<real>, t: seq<real>)
    requires AllPositive(s) && multiset(s) == multiset(t)
    ensures AllPositive(t)
    ensures InvSum(s) == InvSum(t)
    decreases |s|
  {
    PositiveUnderPermutation(s, t);
    if s != [] {
      var init, x := s[..|s| - 1], s[|s| - 1];
      assert s == init + [x];
      assert x in multiset(t);
      var j :| 0 <= j < |t| && t[j] == x;
      SplitAt(t, j);
      var before, after := t[..j], t[j + 1..];
      RemoveFromBoth(init, x, before, after);
      InvSumRemove(before, x, after);
      PositiveSlice(s, 0, |s| - 1);
      InvSumPermutation(init, before + after);
      InvSumSnoc(init, x);
    }
  }

  /** Taking the same reading out of two arrangements of the same readings
      leaves two arrangements of the same readings. */
  lemma RemoveFromBoth(init: seq<real>, x: real, before: seq<real>, after: seq<real>)
    requires multiset(init + [x]) == multiset(before + [x] + after)
    ensures multiset(init) == multiset(before + after)
  {
    assert multiset(init + [x]) == multiset(init) + multiset{x};
    assert multiset(before + [x] + after) == multiset(before + after) + multiset{x};
    assert multiset(init) == multiset(init + [x]) - multiset{x};
  }

}
