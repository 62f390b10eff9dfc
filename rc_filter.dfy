/** The RC low-pass filter calculator: the cut-off frequency
    fc = 1 / (2 pi R C) of a resistor and a capacitor. */
module RcFilter {

  import opened Outcomes

  datatype FilterError = NonPositiveComponent

  /** The value of pi the calculator uses, as written in its source. */
  const Pi: real := 3.14159265

  /** The cut-off frequency in hertz, or the error reported when either
      component value is zero or negative. */
  function CutOff(r: real, c: real): (f: Result<real, FilterError>)
    ensures f.Failure? <==> r <= 0.0 || c <= 0.0
    ensures f.Success? ==> f.value > 0.0 && f.value * (2.0 * Pi * r * c) == 1.0
  {
    if r <= 0.0 || c <= 0.0 then
      Failure(NonPositiveComponent)
    else
      PositiveProduct(r, c);
      Success(1.0 / (2.0 * Pi * r * c))
  }

  lemma PositiveProduct(r: real, c: real)
    requires r > 0.0 && c > 0.0
    ensures 2.0 * Pi * r * c > 0.0
  {
    assert r * c > 0.0;
    assert 2.0 * Pi * r * c == (2.0 * Pi) * (r * c);
  }

  /** A larger time constant R C gives a strictly lower cut-off. */
  lemma CutOffDecreasing(r1: real, c1: real, r2: real, c2: real)
    requires r1 > 0.0 && c1 > 0.0 && r2 > 0.0 && c2 > 0.0
    requires r1 * c1 < r2 * c2
    ensures CutOff(r2, c2).value < CutOff(r1, c1).value
  {
    var k1, k2 := 2.0 * Pi * r1 * c1, 2.0 * Pi * r2 * c2;
    PositiveProduct(r1, c1);
    PositiveProduct(r2, c2);
    assert k1 == (2.0 * Pi) * (r1 * c1) && k2 == (2.0 * Pi) * (r2 * c2);
    assert k1 < k2;
    ReciprocalDecreasing(k1, k2);
  }

  lemma ReciprocalDecreasing(a: real, b: real)
    requires 0.0 < a < b
    ensures 1.0 / b < 1.0 / a
  {
    assert 1.0 / b * b == 1.0 && 1.0 / a * a == 1.0;
    assert (1.0 / b) * a < (1.0 / b) * b;
  }

  /** For a fixed capacitor the cut-off falls as the resistance grows, and
      for a fixed resistor it falls as the capacitance grows. */
  lemma CutOffDecreasingInEach(r1: real, r2: real, c1: real, c2: real)
    requires 0.0 < r1 < r2 && 0.0 < c1 < c2
    ensures CutOff(r2, c1).value < CutOff(r1, c1).value
    ensures CutOff(r1, c2).value < CutOff(r1, c1).value
  {
    assert r1 * c1 < r2 * c1;
    CutOffDecreasing(r1, c1, r2, c1);
    assert r1 * c1 < r1 * c2;
    CutOffDecreasing(r1, c1, r1, c2);
  }

}
