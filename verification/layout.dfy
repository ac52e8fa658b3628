/**
 The layout integers `initValues` derives from the view size, and the bounding
 rectangle both scale routines pass to `drawArc`.

 `dx` is `(width - minWidth) / 2f`, which may end in .5, so the rectangle is
 measured in HALF-PIXELS: every coordinate below is twice the Kotlin view's value.
 */
module Layout {
  import opened Arith

  /** `mCorrectionPadding`. */
  const CorrectionPadding: int := 25
  /** The extra inset the scale routines add to `mCorrectionPadding`. */
  const ScaleInset: int := 75

  /** The fields `initValues` sets, for a view of `width` by `height` pixels. */
  datatype Layout = Layout(width: nat, height: nat, padding: int, minWidth: nat, radius: int, dx2: nat)

  /** `initValues`; `dx2` is `2 * dx`. */
  function InitValues(width: nat, height: nat, numeralSpacing: int): (l: Layout)
    ensures l.width == width && l.height == height
    ensures l.padding == numeralSpacing + 50
    // minWidth is the shorter side
    ensures l.minWidth <= width && l.minWidth <= height
    ensures l.minWidth == width || l.minWidth == height
    // radius is half the shorter side, rounded down, less the padding
    ensures 2 * (l.radius + l.padding) <= l.minWidth < 2 * (l.radius + l.padding) + 2
    // the horizontal offset is zero exactly when the view is not wider than tall
    ensures l.dx2 + l.minWidth == width
    ensures l.dx2 == 0 <==> width <= height
  {
    var padding := numeralSpacing + 50;
    var minWidth := Min(width, height);
    Layout(width, height, padding, minWidth, minWidth / 2 - padding, width - minWidth)
  }

  /** A `RectF`, in half-pixels. */
  datatype Rect = Rect(left: int, top: int, right: int, bottom: int)

  /** The rectangle `drawScale` and `drawFullScale` set before drawing arcs,
      from the fields `initValues` sets for this view size. */
  function ScaleRect(width: nat, height: nat, numeralSpacing: int): (r: Rect)
    // a square whose side is the shorter view side less 200 pixels
    ensures var l := InitValues(width, height, numeralSpacing);
            r.right - r.left == r.bottom - r.top == 2 * (l.minWidth - 200)
    // centred horizontally on width / 2, vertically on minWidth / 2
    ensures r.left + r.right == 2 * width
    ensures r.top + r.bottom == 2 * InitValues(width, height, numeralSpacing).minWidth
    // inset 100 pixels from the top, and from the left and right by dx plus 100
    ensures var l := InitValues(width, height, numeralSpacing);
            r.top == 200 && r.left == l.dx2 + 200 && 2 * width - r.right == l.dx2 + 200
  {
    var l := InitValues(width, height, numeralSpacing);
    var inset := 2 * (CorrectionPadding + ScaleInset);
    Rect(l.dx2 + inset, inset, l.dx2 + 2 * l.minWidth - inset, 2 * l.minWidth - inset)
  }

  /** The scale's rectangle lies inside the view once the shorter side is at least 200 pixels. */
  lemma ScaleRectInsideView(width: nat, height: nat, numeralSpacing: int)
    requires 200 <= width && 200 <= height
    ensures var r := ScaleRect(width, height, numeralSpacing);
            0 <= r.left <= r.right <= 2 * width && 0 <= r.top <= r.bottom <= 2 * height
  {
  }

  /** Below 200 pixels on the shorter side the rectangle is inverted: its left
      edge lies right of its right edge and its top below its bottom. */
  lemma ScaleRectInvertedWhenSmall(width: nat, height: nat, numeralSpacing: int)
    requires width < 200 || height < 200
    ensures var r := ScaleRect(width, height, numeralSpacing);
            r.left > r.right && r.top > r.bottom
  {
  }

  /** The scale is centred on the view's vertical middle exactly when the view
      is not taller than wide; a taller view has the scale at the top. */
  lemma ScaleVerticallyCentredIff(width: nat, height: nat, numeralSpacing: int)
    ensures var r := ScaleRect(width, height, numeralSpacing);
            r.top + r.bottom == 2 * height <==> height <= width
  {
  }
}
