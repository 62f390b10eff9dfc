/** The signal statistics tool: the mean of up to 100 entered samples, and
    the mean of their squares, whose square root is the RMS value. */
module SignalStatistics {

  import opened Outcomes
  import opened Series

  /** Capacity of the sample buffer. */
  const Capacity: nat := 100

  datatype StatsError = SampleCountOutOfRange

  /** What the tool reports: the mean, and the mean square under the RMS. */
  datatype Stats = Stats(mean: real, meanSquare: real)

  /** The mean: n times it is the sum of the n samples. */
  function Mean(s: seq<real>): (m: real)
    requires s != []
    ensures m * |s| as real == Sum(s)
  {
    DivideBack(Sum(s), |s| as real);
    Sum(s) / |s| as real
  }

  /** The mean square under the RMS square root: n times it is the sum of
      squares, and it is never negative, so the root exists. */
  function MeanSquare(s: seq<real>): (q: real)
    requires s != []
    ensures q * |s| as real == SumOfSquares(s)
    ensures q >= 0.0
  {
    DivideBack(SumOfSquares(s), |s| as real);
    SumOfSquares(s) / |s| as real
  }

  lemma DivideBack(a: real, n: real)
    requires n > 0.0
    ensures (a / n) * n == a
    ensures a >= 0.0 ==> a / n >= 0.0
  {
  }

  /** Reads `n` samples into a fixed 100-slot buffer, accumulating their sum
      and sum of squares. `readings` are the values the user enters, in
      order; a sample count outside 1..100 is refused before any is read. */
  method SignalStatistics(n: int, readings: seq<real>) returns (r: Result<Stats, StatsError>)
    requires 1 <= n <= Capacity ==> n <= |readings|
    ensures r.Failure? <==> n <= 0 || n > Capacity
    ensures r.Failure? ==> r.error == SampleCountOutOfRange
    ensures r.Success? ==>
              1 <= n <= Capacity && r.value == Stats(Mean(readings[..n]), MeanSquare(readings[..n]))
  {
    if n <= 0 || n > Capacity {
      return Failure(SampleCountOutOfRange);
    }
    var samples := new real[Capacity];
    var sum, sqSum := 0.0, 0.0;
    for i := 0 to n
      invariant samples[..i] == readings[..i]
      invariant sum == Sum(readings[..i])
      invariant sqSum == SumOfSquares(readings[..i])
    {
      samples[i] := readings[i];
      sum := sum + samples[i];
      sqSum := sqSum + samples[i] * samples[i];
      assert readings[..i + 1][..i] == readings[..i];
    }
    return Success(Stats(sum / n as real, sqSum / n as real));
  }

  /** The mean lies between the smallest and the largest sample. */
  lemma MeanWithinRange(s: seq<real>, lo: real, hi: real)
    requires s != []
    requires forall k :: 0 <= k < |s| ==> lo <= s[k] <= hi
    ensures lo <= Mean(s) <= hi
  {
    SumBounds(s, lo, hi);
    assert Mean(s) * |s| as real == Sum(s);
  }


  /** n copies of one value v have mean v and mean square v * v, so the
      RMS of n copies of a non-negative v is v. */
  lemma ConstantSignal(v: real, n: nat)
    requires n >= 1
    ensures Mean(Repeat(v, n)) == v
    ensures MeanSquare(Repeat(v, n)) == v * v
  {
    ConstantMean(v, n);
    ConstantMeanSquare(v, n);
  }

  lemma ConstantMean(v: real, n: nat)
    requires n >= 1
    ensures Mean(Repeat(v, n)) == v
  {
    var s, k := Repeat(v, n), n as real;
    var m, total := Mean(s), Sum(s);
    assert m * k == total;
    SumOfRepeat(v, n);
    CancelCount(m, k, v, total);
  }

  lemma ConstantMeanSquare(v: real, n: nat)
    requires n >= 1
    ensures MeanSquare(Repeat(v, n)) == v * v
  {
    var s, k := Repeat(v, n), n as real;
    var q, total := MeanSquare(s), SumOfSquares(s);
    assert q * k == total;
    SumOfSquaresOfRepeat(v, n, v * v);
    CancelCount(q, k, v * v, total);
  }

  /** A count times m equals the count times x only for m == x. */
  lemma CancelCount(m: real, k: real, x: real, total: real)
    requires k > 0.0 && m * k == total && total == k * x
    ensures m == x
  {
    assert (m - x) * k == 0.0;
  }

  /** Samples 2, 4, 6: mean 4, mean square 56 / 3. */
  lemma TwoFourSix()
    ensures Mean([2.0, 4.0, 6.0]) == 4.0
    ensures MeanSquare([2.0, 4.0, 6.0]) == 56.0 / 3.0
  {
    assert [2.0, 4.0, 6.0][..2] == [2.0, 4.0];
    assert [2.0, 4.0][..1] == [2.0];
    assert [2.0][..0] == [];
  }

  /** Entering 3 samples 2, 4, 6 reports mean 4 and mean square 56 / 3. */
  method TwoFourSixEntered() returns (r: Result<Stats, StatsError>)
    ensures r == Success(Stats(4.0, 56.0 / 3.0))
  {
    var entered := [2.0, 4.0, 6.0];
    assert entered[..3] == entered;
    TwoFourSix();
    r := SignalStatistics(3, entered);
  }

}
