/** determine_final_angle: range-check the two redundant pedal angles,
    cross-check them, and resolve them into one trusted angle plus a fault. */
module Arbitration {
  import opened Peripherals
  import opened AngleConversion

  const MinPedalAngle: real := 0.0
  const MaxPedalAngle: real := 30.0
  /** Allowed relative deviation of channel 1 from channel 0. */
  const ToleranceDeviation: real := 0.05

  /** The angle is plausible, i.e. lies in [MinPedalAngle, MaxPedalAngle]. */
  predicate InRange(angle: real)
  {
    MinPedalAngle <= angle <= MaxPedalAngle
  }

  /** Channel 1 lies within the tolerance band around channel 0. */
  predicate WithinTolerance(angle0: real, angle1: real)
  {
    (1.0 - ToleranceDeviation) * angle0 <= angle1 <= (1.0 + ToleranceDeviation) * angle0
  }

  /** The arbiter's result: the trusted angle, and whether it raised the fault. */
  datatype Decision = Decision(angle: real, fault: bool)

  /** The five situations the arbiter distinguishes. */
  datatype Verdict =
    | BothOutOfRange        // safe default 0, fault
    | Channel0OutOfRange    // fall back to channel 1, fault
    | Channel1OutOfRange    // keep channel 0, fault
    | Disagreement          // keep channel 0, fault
    | Agreement             // keep channel 0, no fault

  /** Reference classification, stated on the two validity facts directly. */
  function Classify(angle0: real, angle1: real): Verdict
  {
    if !InRange(angle0) && !InRange(angle1) then BothOutOfRange
    else if !InRange(angle0) then Channel0OutOfRange
    else if !InRange(angle1) then Channel1OutOfRange
    else if !WithinTolerance(angle0, angle1) then Disagreement
    else Agreement
  }

  /** The decision each verdict prescribes. */
  function Prescribed(v: Verdict, angle0: real, angle1: real): Decision
  {
    match v
    case BothOutOfRange => Decision(0.0, true)
    case Channel0OutOfRange => Decision(angle1, true)
    case Channel1OutOfRange => Decision(angle0, true)
    case Disagreement => Decision(angle0, true)
    case Agreement => Decision(angle0, false)
  }

  /** The arbiter, branch for branch: channel 0 is checked first, channel 1
      is only consulted as its fallback or for the disagreement check. */
  function DetermineFinalAngle(angle0: real, angle1: real): (d: Decision)
    // the five-way table
    ensures !InRange(angle0) && !InRange(angle1) ==> d == Decision(0.0, true)
    ensures !InRange(angle0) && InRange(angle1) ==> d == Decision(angle1, true)
    ensures InRange(angle0) && !InRange(angle1) ==> d == Decision(angle0, true)
    ensures InRange(angle0) && InRange(angle1) ==>
              d.angle == angle0
              && (d.fault <==> angle1 < 0.95 * angle0 || angle1 > 1.05 * angle0)
    // channel 0 is preferred whenever it is usable
    ensures InRange(angle0) ==> d.angle == angle0
    // the trusted angle is always plausible
    ensures InRange(d.angle)
    // the fault is clear only when both channels are valid and agree
    ensures !d.fault <==> InRange(angle0) && InRange(angle1) && WithinTolerance(angle0, angle1)
  {
    if angle0 < MinPedalAngle || angle0 > MaxPedalAngle then
      if angle1 >= MinPedalAngle && angle1 <= MaxPedalAngle then
        Decision(angle1, true)
      else
        Decision(0.0, true)
    else if angle1 < MinPedalAngle || angle1 > MaxPedalAngle then
      Decision(angle0, true)
    else
      var disagree := angle1 < (1.0 - ToleranceDeviation) * angle0
                      || angle1 > (1.0 + ToleranceDeviation) * angle0;
      Decision(angle0, disagree)
  }

  /** The nested-branch arbiter agrees with the flat verdict table on every input. */
  lemma ArbiterFollowsVerdict(angle0: real, angle1: real)
    ensures DetermineFinalAngle(angle0, angle1) == Prescribed(Classify(angle0, angle1), angle0, angle1)
    ensures Classify(angle0, angle1) == Agreement <==> !DetermineFinalAngle(angle0, angle1).fault
  {
  }

  /** Agreement never changes which value is trusted: for a valid channel 0,
      any two channel-1 values, valid or not, give the same trusted angle. */
  lemma AgreementDoesNotChooseTheValue(angle0: real, angle1: real, angle1': real)
    requires InRange(angle0)
    ensures DetermineFinalAngle(angle0, angle1).angle == DetermineFinalAngle(angle0, angle1').angle
  {
  }

  /** With channel 0 at zero the band collapses: any other valid channel-1
      value is a disagreement. */
  lemma ZeroChannel0ToleratesOnlyZero(angle1: real)
    ensures DetermineFinalAngle(0.0, angle1).angle == 0.0
    ensures DetermineFinalAngle(0.0, angle1).fault <==> angle1 != 0.0
  {
  }

  /** The tolerance band is a 5% bound on the absolute deviation. */
  lemma ToleranceIsRelativeDeviation(angle0: real, angle1: real)
    requires InRange(angle0)
    ensures WithinTolerance(angle0, angle1)
        <==> (if angle1 >= angle0 then angle1 - angle0 else angle0 - angle1) <= 0.05 * angle0
  {
  }

  /** The unknown-channel sentinel is never a plausible angle. */
  lemma SentinelIsOutOfRange()
    ensures !InRange(InvalidAngle)
  {
  }

  /** Channel 0 is plausible exactly for samples 6554 ..= 45875
      (0.5 V ..= 3.5 V). */
  lemma Channel0ValidWindow(raw: AdcValue)
    ensures InRange(CalculateAngle(Channel0, raw)) <==> 6554 <= raw <= 45875
  {
  }

  /** Channel 1 is plausible exactly for samples 13108 ..= 44564
      (1.0 V ..= 3.4 V). */
  lemma Channel1ValidWindow(raw: AdcValue)
    ensures InRange(CalculateAngle(Channel1, raw)) <==> 13108 <= raw <= 44564
  {
  }
}
