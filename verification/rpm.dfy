/**
 The RPM state of the tachometer view: `setRPM` keeps the raw reading for the
 bottom readout and stores it quantised to hundreds of revolutions, rounded up,
 for the arc scale.
 */
module Rpm {
  import opened Arith
  import Decimal

  /** The two RPM fields of the view: the stored hundreds and the raw reading. */
  datatype RpmState = RpmState(rpm: Int32, rpmToView: Int32)

  /** The fields before the first `setRPM`. */
  const Initial: RpmState := RpmState(0, 0)

  /** `setRPM(raw)`: the raw value verbatim, and `ceil(raw / 100.0)`. */
  function SetRPM(raw: Int32): (s: RpmState)
    ensures s.rpmToView == raw
    ensures 100 * (s.rpm - 1) < raw <= 100 * s.rpm
    ensures s.rpm > 0 <==> raw > 0
  {
    RpmState(CeilDiv(raw, 100), raw)
  }

  /** The text of the bottom readout, `rpmToView.toString()`. */
  function BottomText(s: RpmState): (t: string)
    ensures |t| > 0
    ensures t[0] == '-' <==> s.rpmToView < 0
  {
    Decimal.IntToString(s.rpmToView)
  }

  /** The readout shows exactly the reading passed to `setRPM`, not its rounded hundreds. */
  lemma ReadoutShowsRawReading(raw: Int32)
    ensures Decimal.IsIntText(BottomText(SetRPM(raw)))
    ensures Decimal.ParseInt(BottomText(SetRPM(raw))) == raw
  {
    Decimal.IntToStringRoundTrip(raw);
  }

  /** Two readings that store the same hundreds differ by less than 100. */
  lemma SameHundredsCloseReadings(a: Int32, b: Int32)
    requires SetRPM(a).rpm == SetRPM(b).rpm
    ensures -100 < a - b < 100
  {
  }
}
