/**
 The arc scale of the dial: twelve grey background segments over a 270 degree
 sweep, and over them as many coloured segments as the stored RPM calls for.

 Every angle here is measured in HALF-DEGREES, so that the Kotlin view's 22.5, 20.5,
 2 and 1 degree quantities are all integers. Angles follow Android's `drawArc`:
 clockwise from three o'clock, so the scale runs from 135 degrees (lower left)
 to 405 degrees (lower right).
 */
module Scale {
  import opened Arith

  /** The four stroke paints: `defaultPaint` (grey), `greenPaint`, `yellowPaint`, `redPaint`. */
  datatype Paint = Gray | Green | Yellow | Red

  /** One `drawArc` call: start angle and sweep in half-degrees, and its paint. */
  datatype Arc = Arc(start: int, sweep: int, paint: Paint)
  {
    /** Where the arc stops. */
    function End(): int {
      start + sweep
    }
  }

  /** `DEGREES_IN_CIRCLE`: 270 degrees. */
  const DegreesInCircle: int := 540
  /** `DIVIDER_ANGLE`: 2 degrees. */
  const DividerAngle: int := 4
  /** The first segment's slot begins at 135 degrees. */
  const ScaleStart: int := 270
  /** The number of segments on the scale. */
  const Sections: int := 12
  /** `angleOfSection`: 22.5 - 2 = 20.5 degrees. */
  const AngleOfSection: int := DegreesInCircle / Sections - DividerAngle

  /** `startAngle` of segment `i`. Slot `i` is the `i`-th twelfth of the sweep,
      and the segment's arc sits centred inside it, with a margin at each end. */
  function SegmentStart(i: int): (a: int)
    ensures var lo, hi := ScaleStart + i * (DegreesInCircle / Sections), ScaleStart + (i + 1) * (DegreesInCircle / Sections);
            lo < a && a + AngleOfSection < hi && a - lo == hi - (a + AngleOfSection)
  {
    ScaleStart + i * (AngleOfSection + DividerAngle) + DividerAngle / 2
  }

  function Segment(i: int, paint: Paint): Arc {
    Arc(SegmentStart(i), AngleOfSection, paint)
  }

  /** `sumOfDividers` before clamping: `ceil(rpm / 5.0)`. */
  function Dividers(rpm: int): (n: int)
    ensures 5 * (n - 1) < rpm <= 5 * n
  {
    CeilDiv(rpm, 5)
  }

  /** How many segments are lit for a stored `rpm`: none unless it is positive,
      else one per started block of 5, at most all twelve. */
  function LitCount(rpm: int): (n: nat)
    ensures n <= Sections
    ensures n == 0 <==> rpm <= 0
    ensures 0 < n < Sections ==> 5 * (n - 1) < rpm <= 5 * n
    ensures n == Sections <==> rpm > 5 * (Sections - 1)
  {
    if rpm <= 0 then 0
    else if Dividers(rpm) > Sections then Sections
    else Dividers(rpm)
  }

  /** The paint chosen for the lit segments from the unclamped `sumOfDividers`.
      The `>= 10` red test sits in the else-branch of `>= 7`, so it never fires:
      red comes only from the clamp above twelve. */
  function ScalePaint(sumOfDividers: int): (p: Paint)
    ensures p != Gray
    ensures p == Green <==> sumOfDividers < 7
    ensures p == Yellow <==> 7 <= sumOfDividers <= Sections
    ensures p == Red <==> sumOfDividers > Sections
  {
    var paint :=
      if sumOfDividers >= 7 then Yellow
      else if sumOfDividers >= 10 then Red
      else Green;
    if sumOfDividers > Sections then Red else paint
  }

  /** The background scale `drawFullScale` draws. */
  function FullScale(): (arcs: seq<Arc>)
    ensures |arcs| == Sections
    ensures forall i :: 0 <= i < Sections ==> arcs[i].paint == Gray && arcs[i].sweep == 41
    // consecutive segments are separated by exactly one divider (2 degrees)
    ensures forall i :: 0 <= i < Sections - 1 ==> arcs[i + 1].start - arcs[i].End() == DividerAngle
    // no two segments overlap
    ensures forall i, j :: 0 <= i < j < Sections ==> arcs[i].End() < arcs[j].start
    // the whole scale lies in the 270 degree sweep, half a divider in from either end
    ensures arcs[0].start == ScaleStart + DividerAngle / 2
    ensures arcs[Sections - 1].End() == ScaleStart + DegreesInCircle - DividerAngle / 2
  {
    seq(Sections, i => Segment(i, Gray))
  }

  /** The coloured segments `drawScale` draws for a stored `rpm`. */
  function LitScale(rpm: int): (arcs: seq<Arc>)
    ensures |arcs| == LitCount(rpm)
    ensures forall i :: 0 <= i < |arcs| ==> arcs[i].paint == ScalePaint(Dividers(rpm))
  {
    if rpm <= 0 then [] else seq(LitCount(rpm), i => Segment(i, ScalePaint(Dividers(rpm))))
  }

  /** The lit segments cover exactly the first `LitCount(rpm)` background segments. */
  lemma LitIsPrefixOfFull(rpm: int)
    ensures |LitScale(rpm)| <= |FullScale()|
    ensures forall i :: 0 <= i < |LitScale(rpm)| ==>
              LitScale(rpm)[i].start == FullScale()[i].start && LitScale(rpm)[i].sweep == FullScale()[i].sweep
  {
  }

  /** A larger stored value never lights fewer segments. */
  lemma LitCountMonotone(a: int, b: int)
    requires a <= b
    ensures LitCount(a) <= LitCount(b)
  {
    if a > 0 {
      CeilDivMonotone(a, b, 5);
    }
  }

  /** `drawFullScale`'s loop over `0..11`. */
  method DrawFullScale() returns (arcs: seq<Arc>)
    ensures arcs == FullScale()
  {
    var angleOfSection := DegreesInCircle / Sections - DividerAngle;
    arcs := [];
    for i := 0 to Sections
      invariant |arcs| == i
      invariant forall k :: 0 <= k < i ==> arcs[k] == FullScale()[k]
    {
      var startAngle := ScaleStart + i * (angleOfSection + DividerAngle) + DividerAngle / 2;
      arcs := arcs + [Arc(startAngle, angleOfSection, Gray)];
    }
  }

  /** `drawScale`: nothing unless `rpm > 0`; otherwise the clamped count of
      segments, all in one paint. */
  method DrawScale(rpm: int) returns (arcs: seq<Arc>)
    ensures arcs == LitScale(rpm)
  {
    arcs := [];
    if rpm > 0 {
      var angleOfSection := DegreesInCircle / Sections - DividerAngle;
      var sumOfDividers := Dividers(rpm);
      var paint := ScalePaint(sumOfDividers);
      if sumOfDividers > Sections {
        sumOfDividers := Sections;
      }
      for i := 0 to sumOfDividers
        invariant |arcs| == i
        invariant forall k :: 0 <= k < i ==> arcs[k] == LitScale(rpm)[k]
      {
        var startAngle := ScaleStart + i * (angleOfSection + DividerAngle) + DividerAngle / 2;
        arcs := arcs + [Arc(startAngle, angleOfSection, paint)];
      }
    }
  }
}
