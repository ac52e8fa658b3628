# Tachometer gauge: the RPM scale, in Dafny

A model of the arithmetic inside the Android `TachometerView` widget. The model
covers how the view turns an RPM reading into a lit arc scale. `setRPM` keeps the
raw reading for the bottom readout and stores it rounded up to hundreds.
`drawScale` lights one segment for every started 5 of those hundreds, up to 12,
and paints them all in one colour. `drawFullScale` draws the 12 grey background
segments. `drawNumbers` places seven numerals 45 degrees apart on the same
270 degree sweep. `initValues` and the scale `rect` fix the square the arcs are
drawn in.

Everything is exact integer arithmetic:

- Angles are in half-degrees (135° is 270, the 20.5° sweep is 41, the 2° divider is 4).
- The scale rectangle is in half-pixels, because `dx` may end in .5.
- `ceil(n / 100.0)` and `ceil(n / 5.0)` are the integer ceiling division `Arith.CeilDiv`.
  For a 32-bit `n` the double quotient never rounds onto or across an integer, so the two agree.

Modules:

- `Arith`: the 32-bit `Int`, and ceiling division.
- `Decimal`: `Int.toString()` and its inverse.
- `Rpm`: `setRPM` and the readout text.
- `Scale`: the segment count, paint and angles of `drawScale` and `drawFullScale`.
- `Numerals`: the `drawNumbers` angle sequence.
- `Layout`: `initValues` and the scale rectangle.
- `Gauge`: what is drawn for a raw reading.

The `>= 10` red test in `drawScale` sits in the else-branch of `>= 7`, so it can
never fire. `Scale.ScalePaint` keeps that branch as written. Its contract, and
`Gauge.RedOnlyWhenFull`, show that red comes only from the clamp above twelve
segments, i.e. from readings above 6000.

`rpm` holds the reading in hundreds, rounded up. The 0–12 segment count is
computed only inside `drawScale`.

## Model

| member | source | states |
|---|---|---|
| Arith.CeilDiv | app/src/main/java/com/andrey/tachometer/gauge/TachometerView.kt:499 | the ceiling quotient is the least q with n <= d*q, and it is positive exactly when n is |
| Arith.CeilDivMonotone | app/src/main/java/com/andrey/tachometer/gauge/TachometerView.kt:499 | rounding up a larger numerator never gives a smaller quotient |
| Arith.CeilDivNested | app/src/main/java/com/andrey/tachometer/gauge/TachometerView.kt:349 | rounding up by 100 and then by 5 equals rounding up once by 500 |
| Decimal.IntToString | app/src/main/java/com/andrey/tachometer/gauge/TachometerView.kt:422 | the printed text is non-empty, well formed, starts with a minus sign exactly for negative values, and is canonical: no leading zero and no "-0" |
| Decimal.IntToStringRoundTrip | app/src/main/java/com/andrey/tachometer/gauge/TachometerView.kt:422 | parsing the printed text gives back the value |
| Decimal.IntToStringInjective | app/src/main/java/com/andrey/tachometer/gauge/TachometerView.kt:422 | different values never print as the same text |
| Rpm.SetRPM | app/src/main/java/com/andrey/tachometer/gauge/TachometerView.kt:497-501 | rpmToView is the raw reading; rpm is the ceiling of raw/100, fits in an Int, and is positive exactly when the reading is |
| Rpm.BottomText | app/src/main/java/com/andrey/tachometer/gauge/TachometerView.kt:422 | the readout is non-empty and has a minus sign exactly for a negative rpmToView |
| Rpm.ReadoutShowsRawReading | app/src/main/java/com/andrey/tachometer/gauge/TachometerView.kt:497-501 | the bottom readout reads back as the exact raw reading, not its rounded hundreds |
| Rpm.SameHundredsCloseReadings | app/src/main/java/com/andrey/tachometer/gauge/TachometerView.kt:499 | two readings that store the same hundreds differ by less than 100 |
| Scale.Dividers | app/src/main/java/com/andrey/tachometer/gauge/TachometerView.kt:349 | the unclamped count n satisfies 5(n-1) < rpm <= 5n |
| Scale.SegmentStart | app/src/main/java/com/andrey/tachometer/gauge/TachometerView.kt:363 | segment i's 20.5° arc lies strictly inside its slot, the i-th 22.5° twelfth of the sweep from 135°, and is centred in it with equal margins at both ends; lines 363 and 390 use the same formula |
| Scale.LitCount | app/src/main/java/com/andrey/tachometer/gauge/TachometerView.kt:330-360 | the count is in 0..12; it is 0 exactly when rpm <= 0; below 12 it is the ceiling of rpm/5; it is 12 exactly when rpm > 55 |
| Scale.ScalePaint | app/src/main/java/com/andrey/tachometer/gauge/TachometerView.kt:347-360 | never grey; green exactly below 7, yellow exactly for 7..12, red exactly above 12, so the `>= 10` branch is dead |
| Scale.FullScale | app/src/main/java/com/andrey/tachometer/gauge/TachometerView.kt:388-391 | 12 grey arcs of 20.5°; consecutive arcs are separated by exactly 2°; no two overlap; the first starts at 136° and the last ends at 404°, inside the 135°..405° sweep |
| Scale.LitScale | app/src/main/java/com/andrey/tachometer/gauge/TachometerView.kt:330-365 | LitCount(rpm) arcs, all in the paint chosen from the unclamped count |
| Scale.LitIsPrefixOfFull | app/src/main/java/com/andrey/tachometer/gauge/TachometerView.kt:362-391 | the lit arcs have the angles of the first LitCount(rpm) background arcs, and there are never more than 12 |
| Scale.LitCountMonotone | app/src/main/java/com/andrey/tachometer/gauge/TachometerView.kt:349-360 | a larger stored rpm never lights fewer segments |
| Scale.DrawFullScale | app/src/main/java/com/andrey/tachometer/gauge/TachometerView.kt:388-392 | the loop draws exactly the background scale FullScale |
| Scale.DrawScale | app/src/main/java/com/andrey/tachometer/gauge/TachometerView.kt:323-367 | the guarded, clamped loop draws exactly LitScale(rpm) |
| Numerals.DrawNumbers | app/src/main/java/com/andrey/tachometer/gauge/TachometerView.kt:198-209 | numeral k is numbers[k] at 135° + 45°·k; the first is at 135° and the last at 405°, the ends of the scale's sweep |
| Numerals.NumeralAngle | app/src/main/java/com/andrey/tachometer/gauge/TachometerView.kt:202-208 | numeral k sits at 135° + 45°·k, which is the boundary after every second slot of the scale |
| Numerals.NumbersAreTens | app/src/main/java/com/andrey/tachometer/gauge/TachometerView.kt:40 | the labels are the printed multiples of ten from 0 to 60, in order |
| Numerals.NumeralValues | app/src/main/java/com/andrey/tachometer/gauge/TachometerView.kt:40 | label k reads as the number 10k |
| Layout.InitValues | app/src/main/java/com/andrey/tachometer/gauge/TachometerView.kt:131-139 | padding is numeralSpacing + 50; minWidth is the shorter side; radius is floor(minWidth/2) - padding; dx is zero exactly when the view is not wider than tall |
| Layout.ScaleRect | app/src/main/java/com/andrey/tachometer/gauge/TachometerView.kt:373-385 | a square of side minWidth - 200, centred horizontally on width/2 and vertically on minWidth/2, inset by dx + 100 at the sides |
| Layout.ScaleRectInsideView | app/src/main/java/com/andrey/tachometer/gauge/TachometerView.kt:331-343 | when both sides are at least 200 px, the rectangle lies inside the view |
| Layout.ScaleRectInvertedWhenSmall | app/src/main/java/com/andrey/tachometer/gauge/TachometerView.kt:331-343 | when either side is below 200 px, the rectangle is inverted: left lies right of right, and top lies below bottom |
| Layout.ScaleVerticallyCentredIff | app/src/main/java/com/andrey/tachometer/gauge/TachometerView.kt:131-139 | the scale is centred on height/2 exactly when the view is not taller than wide |
| Gauge.LitFor | app/src/main/java/com/andrey/tachometer/gauge/TachometerView.kt:330-365 | after setRPM(raw), at most 12 segments are lit |
| Gauge.InitialShowsNothing | app/src/main/java/com/andrey/tachometer/gauge/TachometerView.kt:62-63 | with the initial fields rpm = 0 and rpmToView = 0, nothing is lit and the readout reads back as 0 |
| Gauge.LitCountOfReading | app/src/main/java/com/andrey/tachometer/gauge/TachometerView.kt:349-360 | after setRPM(raw), min(ceil(raw/500), 12) segments are lit, or none for raw <= 0 |
| Gauge.NothingLitIff | app/src/main/java/com/andrey/tachometer/gauge/TachometerView.kt:330 | nothing is lit exactly when the reading is zero or negative |
| Gauge.LitForMonotone | app/src/main/java/com/andrey/tachometer/gauge/TachometerView.kt:497-501 | a higher raw reading never lights fewer segments |
| Gauge.ColourBands | app/src/main/java/com/andrey/tachometer/gauge/TachometerView.kt:347-360 | for a positive reading: green exactly up to 3000, yellow exactly above 3000 up to 6000, red exactly above 6000 |
| Gauge.RedOnlyWhenFull | app/src/main/java/com/andrey/tachometer/gauge/TachometerView.kt:351-360 | red arcs appear only when all 12 segments are lit |
| Gauge.ScaleMeetsNumeral | app/src/main/java/com/andrey/tachometer/gauge/TachometerView.kt:198-209 | at 100 times numeral k's value, 2k segments are lit; the lit scale ends 1° before numeral k's angle, and the next background segment starts 1° after it |

## Left out

- Canvas, Paint, Bitmap, BitmapShader and Matrix calls are not modelled. This covers `getCircularBitmap`, `drawCircleImage` and `drawOuterCircle`. They are platform rendering. Arcs are modelled as the values passed to `drawArc`. Numerals are modelled as their text and the angle their position is computed from.
- Text positions are not modelled. They come from `Math.cos`/`Math.sin` and from `getTextBounds` font metrics. The same applies to `drawCenterSpeed`, `drawUnitOfSpeed`, `drawBottomText` placement, `drawRpm` and `drawRpmRightText`. This is floating-point trigonometry and platform font measurement. Only the numeral angle sequence and the readout text are modelled.
- The two fixed lime arcs at the end of `drawFullScale` (105°/25° and 50°/20°) are left out. They are constant decoration and do not depend on the RPM.
- `setSpeed`, `String.format("%.1f", speed)`, `setSpeedUnit` and `SpeedUnits` are left out. They are float formatting and resource ids.
- `TypedValue.applyDimension`, `context.getString` and `context.getColor` are left out. These are resource and unit lookups owned by Android.
- `invalidate`, `onSizeChanged` and the draw order in `onDraw` are left out. This is view-lifecycle scheduling. `setRPM`'s call to `invalidate` is not modelled.
- Layout.ScaleRect: computed exactly in half-pixels. The source's 32-bit float rounding of `dx + 100` and `dx + minWidth - 100` is not modelled. That rounding only matters for view sides above 2^23 pixels.
- Layout.InitValues: `width` and `height` are natural numbers, as Android view sizes are. A negative size is not modelled.
