/** The collaborators the throttle core talks to, reduced to what the core
    observes of them: initialisation and read results, and the calls it makes. */
module Peripherals {

  /** A raw ADC sample: a 16-bit magnitude, a fraction of the 5 V reference. */
  type AdcValue = x: int | 0 <= x < 65536

  /** The ADC channel identifier; any code other than the two pedal channels
      is an unknown channel. */
  datatype ChannelId = Channel0 | Channel1 | OtherChannel(code: int)

  /** Result of a peripheral initialisation (ADC_RET_OK / SPD_SENSOR_RET_OK or NOK). */
  datatype Status = Ok | Nok

  /** Result of one ADC read: the sampled value, or a failed read. */
  datatype ReadResult = ReadOk(value: AdcValue) | ReadNok

  /** One call from the core into a collaborator, in the order it is made.
      `SetFault` is `error_led_set(true)`, the only way the core drives the
      fault indicator. */
  datatype Call =
    | InitAdc(channel: ChannelId)
    | InitSpeedSensor
    | ReadAdc(channel: ChannelId)
    | ReadSpeed
    | SetFault
}
