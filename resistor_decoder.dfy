/** The resistor colour-code decoder: three colour codes (two significant
    digits and a power-of-ten multiplier) become a resistance in ohms,
    shown in M, k or plain ohms. */
module ResistorDecoder {

  import opened Outcomes

  datatype DecodeError = InvalidColourCode

  /** The unit a resistance is shown in. */
  datatype Scale = MegaOhms | KiloOhms | Ohms

  /** A resistance as shown to the user: a magnitude in a unit. */
  datatype Reading = Reading(magnitude: real, scale: Scale)

  /** The largest resistance the colour codes can name: 99 * 10^9 ohms. */
  const MaxResistance: nat := 99_000_000_000

  /** Codes 0 (black) to 9 (white). */
  predicate IsColourCode(code: int)
  {
    0 <= code <= 9
  }

  function Pow10(k: nat): (p: nat)
    ensures p >= 1
    ensures k > 0 ==> p % 10 == 0
  {
    if k == 0 then 1 else 10 * Pow10(k - 1)
  }

  lemma {:induction false} Pow10Monotone(j: nat, k: nat)
    requires j <= k
    ensures Pow10(j) <= Pow10(k)
    decreases k
  {
    if j < k {
      Pow10Monotone(j, k - 1);
    }
  }

  /** How many ohms one unit of the scale stands for. */
  function OhmsPer(scale: Scale): (u: real)
    ensures u >= 1.0
  {
    match scale
    case MegaOhms => 1000000.0
    case KiloOhms => 1000.0
    case Ohms => 1.0
  }

  /** The resistance named by three colour codes, or the error the decoder
      reports when any of them is outside 0..9. */
  function Decode(band1: int, band2: int, multiplier: int): (r: Result<nat, DecodeError>)
    ensures r.Failure? <==> !(IsColourCode(band1) && IsColourCode(band2) && IsColourCode(multiplier))
    ensures r.Failure? ==> r.error == InvalidColourCode
    ensures r.Success? ==> r.value <= MaxResistance
  {
    if band1 < 0 || band1 > 9 || band2 < 0 || band2 > 9 || multiplier < 0 || multiplier > 9 then
      Failure(InvalidColourCode)
    else
      Pow10Monotone(multiplier, 9);
      Success((band1 * 10 + band2) * Pow10(multiplier))
  }

  /** The decoded resistance gives back its colour codes: divided by the
      multiplier's power of ten it leaves no remainder, and its two decimal
      digits are the first and second band. */
  lemma DecodeSignificantDigits(band1: int, band2: int, multiplier: int)
    requires Decode(band1, band2, multiplier).Success?
    ensures Decode(band1, band2, multiplier).value % Pow10(multiplier) == 0
    ensures Decode(band1, band2, multiplier).value / Pow10(multiplier) / 10 == band1
    ensures Decode(band1, band2, multiplier).value / Pow10(multiplier) % 10 == band2
  {
    var d := band1 * 10 + band2;
    assert d / 10 == band1 && d % 10 == band2;
    MulDivCancel(d, Pow10(multiplier));
  }

  /** Multiplying by a positive number and dividing by it again is the identity. */
  lemma MulDivCancel(d: nat, p: nat)
    requires p > 0
    ensures (d * p) / p == d && (d * p) % p == 0
  {
    var q, m := (d * p) / p, (d * p) % p;
    assert d * p == q * p + m && 0 <= m < p;
    assert (d - q) * p == m by {
      assert (d - q) * p == d * p - q * p;
    }
    if d - q > 0 {
      MulAtLeast(d - q, p);
      assert false;
    } else if d - q < 0 {
      MulAtLeast(q - d, p);
      assert false;
    }
  }

  lemma MulAtLeast(a: int, p: nat)
    requires a >= 1
    ensures a * p >= p
  {
    var k := a - 1;
    assert a * p == k * p + p;
    assert k * p >= 0;
  }

  /** The unit the decoder picks for a resistance, and the magnitude in it. */
  function Present(resistance: nat): (d: Reading)
    ensures d.scale == MegaOhms <==> resistance >= 1000000
    ensures d.scale == KiloOhms <==> 1000 <= resistance < 1000000
    ensures d.scale == Ohms <==> resistance < 1000
    ensures d.magnitude * OhmsPer(d.scale) == resistance as real
    ensures d.scale != Ohms ==> 1.0 <= d.magnitude
    ensures d.scale != MegaOhms ==> d.magnitude < 1000.0
  {
    if resistance >= 1000000 then
      Reading(resistance as real / 1000000.0, MegaOhms)
    else if resistance >= 1000 then
      Reading(resistance as real / 1000.0, KiloOhms)
    else
      Reading(resistance as real, Ohms)
  }

  /** The whole decoder: validate the codes, compute the resistance and
      pick its display unit. */
  function ResistorDecoder(band1: int, band2: int, multiplier: int): (r: Result<Reading, DecodeError>)
    ensures r.Failure? <==> !(IsColourCode(band1) && IsColourCode(band2) && IsColourCode(multiplier))
    ensures r.Success? ==>
      r.value.magnitude * OhmsPer(r.value.scale) == ((band1 * 10 + band2) * Pow10(multiplier)) as real
  {
    match Decode(band1, band2, multiplier)
    case Failure(e) => Failure(e)
    case Success(resistance) => Success(Present(resistance))
  }

  /** Brown, black, red: 10 * 10^2 = 1000 ohms, shown as 1 k ohm. */
  lemma BrownBlackRed()
    ensures Decode(1, 0, 2) == Success(1000)
    ensures ResistorDecoder(1, 0, 2) == Success(Reading(1.0, KiloOhms))
  {
    assert Pow10(2) == 100;
  }

  /** White, white, white: the largest code, 99 * 10^9 ohms. */
  lemma LargestCode()
    ensures Decode(9, 9, 9) == Success(MaxResistance)
    ensures ResistorDecoder(9, 9, 9).value.scale == MegaOhms
  {
    assert Pow10(9) == 1_000_000_000;
  }

}
