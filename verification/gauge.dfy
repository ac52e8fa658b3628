/**
 What the dial shows for a raw RPM reading: `setRPM(raw)` followed by
 `drawScale`, stated in terms of the raw reading.
 */
module Gauge {
  import opened Arith
  import opened Rpm
  import opened Scale
  import Numerals
  import Decimal

  /** The lit segments drawn after `setRPM(raw)`. */
  function LitFor(raw: Int32): (arcs: seq<Arc>)
    ensures |arcs| <= Sections
  {
    LitScale(SetRPM(raw).rpm)
  }

  /** One lit segment per started 500 RPM, at most twelve, and none for a
      reading that is not positive. */
  lemma LitCountOfReading(raw: Int32)
    ensures |LitFor(raw)| == if raw <= 0 then 0 else Min(CeilDiv(raw, 500), Sections)
  {
    CeilDivNested(raw, 100, 5);
  }

  /** Before any `setRPM`, no segment is lit and the readout reads 0. */
  lemma InitialShowsNothing()
    ensures LitScale(Initial.rpm) == []
    ensures Decimal.IsIntText(BottomText(Initial))
    ensures Decimal.ParseInt(BottomText(Initial)) == 0
  {
    Decimal.IntToStringRoundTrip(0);
  }

  /** Nothing is lit exactly when the reading is zero or negative. */
  lemma NothingLitIff(raw: Int32)
    ensures |LitFor(raw)| == 0 <==> raw <= 0
  {
  }

  /** A higher reading never lights fewer segments. */
  lemma LitForMonotone(a: Int32, b: Int32)
    requires a <= b
    ensures |LitFor(a)| <= |LitFor(b)|
  {
    CeilDivMonotone(a, b, 100);
    LitCountMonotone(SetRPM(a).rpm, SetRPM(b).rpm);
  }

  /** The colour bands by reading: green up to 3000, yellow above 3000 up to
      6000, red above 6000; all lit segments share the one colour. */
  lemma ColourBands(raw: Int32)
    requires raw > 0
    ensures forall i :: 0 <= i < |LitFor(raw)| ==> (LitFor(raw)[i].paint == Green <==> raw <= 3000)
    ensures forall i :: 0 <= i < |LitFor(raw)| ==> (LitFor(raw)[i].paint == Yellow <==> 3000 < raw <= 6000)
    ensures forall i :: 0 <= i < |LitFor(raw)| ==> (LitFor(raw)[i].paint == Red <==> raw > 6000)
  {
    var d := Dividers(SetRPM(raw).rpm);
    CeilDivNested(raw, 100, 5);
    assert d == CeilDiv(raw, 500);
  }

  /** Red is never drawn while fewer than twelve segments are lit, so the
      `>= 10` red test of `drawScale` has no effect. */
  lemma RedOnlyWhenFull(raw: Int32)
    ensures forall i :: 0 <= i < |LitFor(raw)| && LitFor(raw)[i].paint == Red ==> |LitFor(raw)| == Sections
  {
  }

  /** At the reading a numeral names (its value in hundreds), the lit scale
      stops half a divider short of that numeral's angle, and the next
      background segment starts half a divider past it. */
  lemma ScaleMeetsNumeral(k: int)
    requires 0 <= k < |Numerals.Numbers|
    ensures Decimal.IsIntText(Numerals.Numbers[k])
    ensures var raw := 100 * Decimal.ParseInt(Numerals.Numbers[k]);
            IntMin <= raw <= IntMax && |LitFor(raw)| == 2 * k
    ensures k > 0 ==> LitFor(1000 * k)[2 * k - 1].End() + DividerAngle / 2 == Numerals.NumeralAngle(k)
    ensures k < |Numerals.Numbers| - 1 ==> FullScale()[2 * k].start - DividerAngle / 2 == Numerals.NumeralAngle(k)
  {
    Numerals.NumeralValues(k);
    CeilDivUnique(1000 * k, 100, 10 * k);
    if k > 0 {
      CeilDivUnique(10 * k, 5, 2 * k);
    }
  }
}
