/** The parallel resistor calculator: n > 1 resistances combined as
    1 / (1/R1 + ... + 1/Rn), refusing the first value that is not positive. */
module ParallelResistors {

  import opened Outcomes
  import opened Series

  datatype ParallelError =
    | TooFewResistors
      /** `position` counts from 1, as the calculator numbers resistors. */
    | InvalidResistor(position: nat)

  /** The combined resistance of strictly positive resistances. */
  function Total(s: seq<real>): (t: real)
    requires AllPositive(s) && s != []
    ensures t > 0.0 && t * InvSum(s) == 1.0
  {
    1.0 / InvSum(s)
  }

  /** Reads `n` resistances into a freshly allocated array, then adds up
      their reciprocals, stopping at the first value that is zero or
      negative. `readings` are the values the user enters, in order; a count
      below 2 is refused before anything is allocated or read. */
  method CalcParallelResistors(n: int, readings: seq<real>) returns (r: Result<real, ParallelError>)
    requires n > 1 ==> n <= |readings|
    ensures n <= 1 <==> r == Failure(TooFewResistors)
    ensures r.Success? ==> n > 1 && AllPositive(readings[..n]) && r.value == Total(readings[..n])
    ensures n > 1 && !AllPositive(readings[..n]) ==> r.Failure? && r.error.InvalidResistor?
    ensures r.Failure? && r.error.InvalidResistor? ==>
              var k := r.error.position - 1;
              0 <= k < n && readings[k] <= 0.0 && AllPositive(readings[..k])
  {
    if n <= 1 {
      return Failure(TooFewResistors);
    }
    var resistors := new real[n];
    for i := 0 to n
      invariant resistors[..i] == readings[..i]
    {
      resistors[i] := readings[i];
    }
    assert resistors[..] == readings[..n];
    var inverseSum := 0.0;
    var error := false;
    var i := 0;
    while i < n
      invariant 0 <= i <= n
      invariant AllPositive(resistors[..i])
      invariant inverseSum == InvSum(resistors[..i])
      invariant !error
    {
      if resistors[i] <= 0.0 {
        error := true;
        break;
      }
      assert resistors[..i + 1][..i] == resistors[..i];
      inverseSum := inverseSum + 1.0 / resistors[i];
      i := i + 1;
    }
    if error {
      assert resistors[..i] == readings[..i];
      return Failure(InvalidResistor(i + 1));
    }
    return Success(1.0 / inverseSum);
  }

  /** The combined resistance is below every single resistance in the group. */
  lemma TotalBelowEach(s: seq<real>, k: nat)
    requires AllPositive(s) && |s| >= 2 && k < |s|
    ensures Total(s) < s[k]
  {
    var t, all := Total(s), InvSum(s);
    assert t * all == 1.0;
    SplitAt(s, k);
    var before, x, after := s[..k], s[k], s[k + 1..];
    InvSumRemove(before, x, after);
    var rest := InvSum(before + after);
    assert all == rest + 1.0 / x && rest > 0.0;
    ReciprocalOfLarger(t, all, x);
  }

  /** If t is the reciprocal of a sum exceeding 1 / x, then t is below x. */
  lemma ReciprocalOfLarger(t: real, inv: real, x: real)
    requires t > 0.0 && x > 0.0 && t * inv == 1.0 && inv > 1.0 / x
    ensures t < x
  {
    var g := 1.0 / x;
    assert g * x == 1.0;
    MulStrict(t, g, inv);
    var below, one := t * g, t * inv;
    assert below < one && one == 1.0;
    if t >= x {
      MulMonotone(x, t, g);
      assert false;
    }
  }

  lemma MulStrict(t: real, a: real, b: real)
    requires t > 0.0 && a < b
    ensures t * a < t * b
  {
  }

  lemma MulMonotone(a: real, b: real, g: real)
    requires a <= b && g > 0.0
    ensures a * g <= b * g
  {
  }

  /** The combined resistance does not depend on the order resistors are entered in. */
  lemma TotalOrderIndependent(s: seq<real>, t: seq<real>)
    requires AllPositive(s) && s != [] && multiset(s) == multiset(t)
    ensures AllPositive(t) && t != []
    ensures Total(s) == Total(t)
  {
    InvSumPermutation(s, t);
    assert |t| == |multiset(t)| == |multiset(s)| == |s|;
  }

  /** Two equal resistances R in parallel make R / 2. */
  lemma TwoEqual(x: real)
    requires x > 0.0
    ensures AllPositive([x, x]) && Total([x, x]) == x / 2.0
  {
    assert [x, x][..1] == [x];
    assert [x][..0] == [];
    assert InvSum([x]) == 1.0 / x;
    assert InvSum([x, x]) == 1.0 / x + 1.0 / x;
    assert 1.0 / x + 1.0 / x == 2.0 / x;
    assert (x / 2.0) * (2.0 / x) == 1.0;
  }

  /** Two 100 ohm resistors combine to 50 ohms. */
  lemma TwoHundreds()
    ensures AllPositive([100.0, 100.0]) && Total([100.0, 100.0]) == 50.0
  {
    TwoEqual(100.0);
  }

  /** Entering -5 then 10 is refused at resistor 1, with no total. */
  method NegativeFirstResistor() returns (r: Result<real, ParallelError>)
    ensures r == Failure(InvalidResistor(1))
  {
    var entered := [-5.0, 10.0];
    assert entered[..2] == entered && entered[..1] == [-5.0];
    r := CalcParallelResistors(2, entered);
  }

}
