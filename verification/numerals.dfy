/**
 The numerals around the dial: seven labels placed 45 degrees apart from
 `startRadius` = 135 degrees. Angles are in half-degrees, as in `Scale`; only
 the angle sequence is modelled, not the pixel positions the view derives from
 it with sine and cosine.
 */
module Numerals {
  import Decimal
  import Scale

  /** `numbers`: numeral k marks the reading 1000·k (see `Gauge.ScaleMeetsNumeral`). */
  const Numbers: seq<string> := ["0", "10", "20", "30", "40", "50", "60"]

  /** `startRadius`: 135 degrees. */
  const StartRadius: int := 270
  /** The step of `nextNumDegree`: 45 degrees. */
  const NumeralStep: int := 90

  /** One `drawText` of a numeral: its text and the angle it is placed at. */
  datatype Numeral = Numeral(text: string, angle: int)

  /** The angle of the `k`-th numeral: every second boundary between the
      scale's twelve equal slots, counting from the start of the sweep. */
  function NumeralAngle(k: int): (a: int)
    ensures a == Scale.ScaleStart + 2 * k * (Scale.DegreesInCircle / Scale.Sections)
  {
    StartRadius + NumeralStep * k
  }

  /** `drawNumbers`' loop over `numbers`. */
  method DrawNumbers() returns (placed: seq<Numeral>)
    ensures |placed| == |Numbers|
    ensures forall k :: 0 <= k < |placed| ==> placed[k] == Numeral(Numbers[k], NumeralAngle(k))
    // the numerals span the same 270 degrees as the scale
    ensures placed[0].angle == Scale.ScaleStart
    ensures placed[|placed| - 1].angle == Scale.ScaleStart + Scale.DegreesInCircle
  {
    var nextNumDegree := 0;
    placed := [];
    for k := 0 to |Numbers|
      invariant |placed| == k
      invariant nextNumDegree == NumeralStep * k
      invariant forall j :: 0 <= j < k ==> placed[j] == Numeral(Numbers[j], NumeralAngle(j))
    {
      placed := placed + [Numeral(Numbers[k], StartRadius + nextNumDegree)];
      nextNumDegree := nextNumDegree + NumeralStep;
    }
  }

  /** The labels are the multiples of ten from 0 to 60, in order, as `toString` prints them. */
  lemma NumbersAreTens()
    ensures forall k :: 0 <= k < |Numbers| ==> Numbers[k] == Decimal.IntToString(10 * k)
  {
    assert Decimal.IntToString(0) == "0";
    forall k | 1 <= k < |Numbers|
      ensures Numbers[k] == Decimal.IntToString(10 * k)
    {
      assert Decimal.NatDigits(10 * k) == Decimal.NatDigits(k) + [Decimal.DigitChar(0)];
    }
  }

  /** Read as numbers, the labels are 0, 10, ..., 60. */
  lemma NumeralValues(k: int)
    requires 0 <= k < |Numbers|
    ensures Decimal.IsIntText(Numbers[k])
    ensures Decimal.ParseInt(Numbers[k]) == 10 * k
  {
    NumbersAreTens();
    Decimal.IntToStringRoundTrip(10 * k);
  }
}
