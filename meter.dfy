/** The signal meter's mapping from the BK4819's raw RSSI word to the
    0..100 scale shown on the bar graph and cached per VFO. */
module SignalMeter {

  type uint16 = x: int | 0 <= x < 0x1_0000

  /** The raw span the chip is calibrated for. */
  const RSSI_FLOOR := 72
  const RSSI_CEILING := 330

  function RssiToPower(raw: uint16): (p: nat)
    ensures p <= 100
    ensures raw <= RSSI_FLOOR ==> p == 0
    ensures RSSI_CEILING <= raw ==> p == 100
  {
    if raw < RSSI_FLOOR then 0
    else if raw > RSSI_CEILING then 100
    else (raw - RSSI_FLOOR) * 100 / (RSSI_CEILING - RSSI_FLOOR)
  }

  /** Inside the calibrated span the power is the linear interpolation,
      truncated: the largest p with p * 258 <= (raw - 72) * 100. */
  lemma PowerTruncates(raw: uint16)
    requires RSSI_FLOOR <= raw <= RSSI_CEILING
    ensures var p := RssiToPower(raw);
      p * 258 <= (raw - RSSI_FLOOR) * 100 < (p + 1) * 258
  {
  }

  /** The middle of the span reads as half scale. */
  lemma PowerAtMidSpan()
    ensures RssiToPower(201) == 50
  {
  }

  /** A stronger signal never reads lower. */
  lemma PowerMonotone(a: uint16, b: uint16)
    requires a <= b
    ensures RssiToPower(a) <= RssiToPower(b)
  {
  }
}
