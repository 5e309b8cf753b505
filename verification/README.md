# Drive-by-wire throttle: sensor fusion and torque command

A Dafny model of the decision logic of a drive-by-wire throttle example. Two
redundant pedal-position sensors are sampled by a 16-bit ADC against a 5 V
reference. Each sample is converted to a pedal angle with its channel's
calibration. The two angles are arbitrated into one trusted angle, and a
linear regression of angle and vehicle speed gives an integer torque
command. Every anomaly switches on a fault indicator (the error LED).

Modules, following the components of `src/main.c`:

- `Peripherals`: ADC samples, channel identifiers, init and read results, and the calls the core makes into its collaborators.
- `FaultIndicator`: the error LED as a write-only flag folded over the call trace (`LedAfter`). Only `error_led_set(true)` is ever issued, so the flag is monotone.
- `AngleConversion`: `calculate_angle`. Voltage is `raw / 65536 * 5`. Channel 0 inverts `voltage = 0.5 + 0.1 * angle`, channel 1 inverts `voltage = 1.0 + 0.08 * angle`, and an unknown channel gives the sentinel -1.
- `Arbitration`: `determine_final_angle`, written branch for branch, with a flat five-way reference table (`Classify`, `Prescribed`).
- `TorqueModel`: `get_torque`. The C `(int)` conversion is modelled as truncation toward zero (`Trunc`), not as a floor.
- `ControlCycle`: `main`. It records init gating, the two reads with their failure handling, arbitration, the speed read and the torque, as a trace of calls plus an outcome.

All arithmetic is over exact reals. The collaborators' answers are
parameters: init statuses, read results, the speed value, and the state of
the indicator after `error_led_init`.

A failed read is not treated as a missing channel. `src/main.c:29-30,55-74`
leave the angle at its initial 0.0, which is inside [0, 30]. So after a
failed channel-0 read the arbiter still trusts channel 0, and the torque is
computed from angle 0 even when channel 1 is valid; the fault is still
raised (`ControlCycle.ReadFailureOfChannel0TrustsZero`).

With the stub samples of `src/main.c:51-52` (19712 and 23552) the angles are
10.0390625 and 9.9609375, and the torque at speed 10 is 12
(`ControlCycle.ExampleRun`).

## Model

| member | source | states |
|---|---|---|
| AngleConversion.Voltage | src/main.c:104 | the reconstructed voltage lies in [0, 5) and is 5·raw/65536 |
| AngleConversion.CalculateAngle | src/main.c:96-119 | channel 0's angle satisfies voltage = 0.5 + 0.1·angle, channel 1's satisfies voltage = 1.0 + 0.08·angle (the sensor transfer functions the code inverts); any other channel gives -1; bounds of each channel's angle |
| AngleConversion.AngleMonotone | src/main.c:101-112 | on either pedal channel a larger sample never gives a smaller angle |
| Arbitration.DetermineFinalAngle | src/main.c:126-167 | both out of range gives (0, fault); only channel 0 out gives (angle1, fault); only channel 1 out gives (angle0, fault); both in range gives angle0, with a fault iff angle1 < 0.95·angle0 or angle1 > 1.05·angle0; the result always lies in [0, 30]; the fault is clear iff both are valid and agree |
| Arbitration.ArbiterFollowsVerdict | src/main.c:130-166 | the nested-branch arbiter equals the flat five-verdict table on every input, and it is fault-free exactly on the Agreement verdict |
| Arbitration.AgreementDoesNotChooseTheValue | src/main.c:146-164 | with channel 0 valid, the trusted angle does not depend on channel 1 at all, valid or not |
| Arbitration.ZeroChannel0ToleratesOnlyZero | src/main.c:155-163 | with channel 0 at 0 the trusted angle is 0, and any nonzero channel-1 angle is a fault |
| Arbitration.ToleranceIsRelativeDeviation | src/main.c:155 | for a valid channel 0, the band [0.95·a0, 1.05·a0] is the same as a deviation of at most 5% of a0 |
| Arbitration.SentinelIsOutOfRange | src/main.c:113-116 | the unknown-channel sentinel -1 is never a valid angle |
| Arbitration.Channel0ValidWindow | src/main.c:101-106 | a channel-0 angle is valid iff its sample lies in 6554..45875 |
| Arbitration.Channel1ValidWindow | src/main.c:107-112 | a channel-1 angle is valid iff its sample lies in 13108..44564 |
| FaultIndicator.LedAfterIsRaised | src/main.c:40-74 | after a call sequence the indicator is on iff it was on before or the sequence contains a fault raise |
| FaultIndicator.NeverCleared | src/main.c:43-74 | once on, the indicator stays on whatever calls follow |
| FaultIndicator.LedAfterAppend | src/main.c:34-88 | running two call sequences one after another equals running their concatenation |
| FaultIndicator.SetFaultIdempotent | src/main.c:58-158 | raising the fault twice in a row has the same effect as raising it once |
| TorqueModel.Trunc | src/main.c:180 | truncation toward zero: for x ≥ 0, r ≤ x < r+1; for x < 0, r−1 < x ≤ r |
| TorqueModel.TruncMonotone | src/main.c:180 | truncation is monotone |
| TorqueModel.GetTorque | src/main.c:174-183 | the command is the toward-zero truncation of 2.4437 + 1.3249·angle − 0.345·speed |
| TorqueModel.TorqueMonotone | src/main.c:178-180 | more pedal never lowers the torque, more speed never raises it |
| TorqueModel.TorqueAtRest | src/main.c:178-180 | angle 0 and speed 0 give torque 2 |
| TorqueModel.TorqueTruncatesNegativeTowardZero | src/main.c:179-180 | angle 0 and speed 10 give −1.0063, which truncates to −1 where a floor gives −2 |
| TorqueModel.TorqueFitsInt32 | src/main.c:180 | for angle in [0, 30] and speed within ±10^9 the command fits a 32-bit int |
| ControlCycle.Cycle | src/main.c:34-88 | the three inits are always attempted in order; any init failure aborts with the fault raised and no read or computation; a failed read raises the fault and leaves that channel at 0.0; the trusted angle is the arbiter's and lies in [0, 30]; the torque is computed from it; the final indicator state is the fold of the recorded calls, never cleared, and clear iff it started clear, both reads succeeded and the arbiter raised no fault |
| ControlCycle.CompletedFault | src/main.c:55-85 | a completed run's calls leave the indicator on iff it was on, a read failed, or the arbiter raised the fault |
| ControlCycle.Main | src/main.c:40-88 | main returns 0 when any of the three initialisations fails, and otherwise the truncated torque for the speed and the arbiter's trusted angle of the two channel angles (each 0.0 after a failed read) |
| ControlCycle.ZeroExitIsAmbiguous | src/main.c:46-88 | a return value of 0 comes both from an aborted run and from a completed run (samples 6554 and 13108 at speed 7.1) whose torque truncates to 0 |
| ControlCycle.ReadFailureOfChannel0TrustsZero | src/main.c:29-77 | a failed channel-0 read with a valid channel 1 still completes with trusted angle 0 and the fault raised |
| ControlCycle.ExampleRun | src/main.c:51-88 | samples 19712 and 23552 at speed 10 give angles 10.0390625 and 9.9609375, trusted angle 10.0390625, torque 12 (also the return value), no fault |

## Left out

- IEEE-754 rounding: the `(float)` cast in `calculate_angle`, `pow(2, 16)` and the double constant 0.05 become exact reals. The float parameters of `get_torque` and `determine_final_angle` are reals too.
- TorqueModel.GetTorque: does not model the undefined behaviour of `(int)` on a value outside the 32-bit range. The result is an unbounded integer, and `TorqueFitsInt32` gives inputs for which the conversion is defined.
- `printf` diagnostics: output only. The channel-1 range message prints channel 0's angle, which is cosmetic.
- Driver internals: the ADC and error-LED drivers are not part of this model. Their init and read results are parameters, and `error_led_init`'s effect is the starting state of the indicator.
- The speed sensor: its init result and `read_veh_speed` value are free inputs. The stub driver always reports OK and a speed of 10.
- `adc_read_set_output`: simulation stubbing of the ADC outputs, replaced by the read results in the environment.
- The width of `adc_value_t`, whose header is not part of this model: samples are taken as 16-bit, matching the 2^16 scale.
