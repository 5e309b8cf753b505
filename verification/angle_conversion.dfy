/** Conversion of a raw pedal-sensor sample into a pedal angle in degrees. */
module AngleConversion {
  import opened Peripherals

  /** Sentinel angle returned for an unknown channel. */
  const InvalidAngle: real := -1.0

  /** The reconstructed sensor voltage: `raw / 2^16` of the 5 V reference. */
  function Voltage(raw: AdcValue): (v: real)
    ensures 0.0 <= v < 5.0
    ensures v * 65536.0 == 5.0 * raw as real
  {
    (raw as real / 65536.0) * 5.0
  }

  /** calculate_angle: invert the channel's sensor transfer function.
      Channel 0 follows voltage = 0.5 + 0.1 * angle, channel 1 follows
      voltage = 1.0 + 0.08 * angle; any other channel yields the sentinel. */
  function CalculateAngle(id: ChannelId, raw: AdcValue): (angle: real)
    ensures id == Channel0 ==> Voltage(raw) == 0.5 + 0.1 * angle
    ensures id == Channel1 ==> Voltage(raw) == 1.0 + 0.08 * angle
    ensures id.OtherChannel? ==> angle == InvalidAngle
    ensures id == Channel0 ==> -5.0 <= angle < 45.0
    ensures id == Channel1 ==> -12.5 <= angle < 50.0
  {
    match id
    case Channel0 => 10.0 * Voltage(raw) - 5.0
    case Channel1 => 12.5 * Voltage(raw) - 12.5
    case OtherChannel(_) => InvalidAngle
  }

  /** On both pedal channels a larger sample never gives a smaller angle. */
  lemma AngleMonotone(id: ChannelId, raw: AdcValue, raw': AdcValue)
    requires !id.OtherChannel?
    requires raw <= raw'
    ensures CalculateAngle(id, raw) <= CalculateAngle(id, raw')
  {
  }
}
