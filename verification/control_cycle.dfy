/** One run of `main`: initialise the peripherals, read both pedal channels,
    arbitrate, read the speed and compute the torque command, raising the
    fault indicator on every anomaly. */
module ControlCycle {
  import opened Peripherals
  import opened FaultIndicator
  import opened AngleConversion
  import opened Arbitration
  import opened TorqueModel

  /** What the collaborators answer during one run. The read results are
      only consulted if the corresponding call is made. */
  datatype Environment = Environment(
    adc0Init: Status,
    adc1Init: Status,
    speedInit: Status,
    read0: ReadResult,
    read1: ReadResult,
    speed: real)

  /** How the run ended: aborted after a failed initialisation, or completed
      with the angles handed to the arbiter, its trusted angle and the torque. */
  datatype Outcome =
    | Aborted
    | Completed(angle0: real, angle1: real, pedalAngle: real, torque: int)

  /** A run: the calls made into the collaborators, in order, the fault
      indicator state at the end, and the outcome. */
  datatype Run = Run(calls: seq<Call>, fault: bool, outcome: Outcome)

  /** Some peripheral failed to initialise. */
  predicate InitFailed(env: Environment)
  {
    env.adc0Init == Nok || env.adc1Init == Nok || env.speedInit == Nok
  }

  /** No sensor read call appears in `calls`. */
  predicate NoReads(calls: seq<Call>)
  {
    forall i :: 0 <= i < |calls| ==> !calls[i].ReadAdc? && calls[i] != ReadSpeed
  }

  /** The angle a channel contributes: its conversion when the read succeeds,
      otherwise the initial 0.0 of its local variable. */
  function ChannelAngle(id: ChannelId, r: ReadResult): real
  {
    match r
    case ReadOk(v) => CalculateAngle(id, v)
    case ReadNok => 0.0
  }

  /** The calls made for one channel read: the read, then a fault if it failed. */
  function ReadCalls(id: ChannelId, r: ReadResult): seq<Call>
  {
    [ReadAdc(id)] + (if r.ReadNok? then [SetFault] else [])
  }

  /** The cycle, starting with the indicator in state `ledAtStart` (its state
      after `error_led_init`). */
  function Cycle(env: Environment, ledAtStart: bool): (run: Run)
    // the indicator is driven only through the recorded calls, and never cleared
    ensures run.fault == LedAfter(ledAtStart, run.calls)
    ensures ledAtStart ==> run.fault
    // all three initialisations are always attempted, in order
    ensures |run.calls| >= 3
    ensures run.calls[..3] == [InitAdc(Channel0), InitAdc(Channel1), InitSpeedSensor]
    // init gating: abort with the fault raised and nothing read or computed
    ensures InitFailed(env) <==> run.outcome.Aborted?
    ensures InitFailed(env) ==> run.fault && NoReads(run.calls)
    // a failed read raises the fault and leaves the channel's angle at 0.0
    ensures !InitFailed(env) && (env.read0.ReadNok? || env.read1.ReadNok?) ==> run.fault
    ensures run.outcome.Completed? ==>
              && run.outcome.angle0 == ChannelAngle(Channel0, env.read0)
              && run.outcome.angle1 == ChannelAngle(Channel1, env.read1)
              && (env.read0.ReadNok? ==> run.outcome.angle0 == 0.0)
              && (env.read1.ReadNok? ==> run.outcome.angle1 == 0.0)
    // then arbitrate, and compute the torque from the trusted angle
    ensures run.outcome.Completed? ==>
              && run.outcome.pedalAngle == DetermineFinalAngle(run.outcome.angle0, run.outcome.angle1).angle
              && InRange(run.outcome.pedalAngle)
              && run.outcome.torque == GetTorque(env.speed, run.outcome.pedalAngle)
    // a completed run ends without a fault exactly when nothing went wrong
    ensures run.outcome.Completed? ==>
              (!run.fault <==>
                 && !ledAtStart && env.read0.ReadOk? && env.read1.ReadOk?
                 && !DetermineFinalAngle(run.outcome.angle0, run.outcome.angle1).fault)
  {
    var init := [InitAdc(Channel0), InitAdc(Channel1), InitSpeedSensor];
    if InitFailed(env) then
      var calls := init + [SetFault];
      LedAfterIsRaised(ledAtStart, calls);
      assert calls[3] == SetFault;
      Run(calls, LedAfter(ledAtStart, calls), Aborted)
    else
      var angle0 := ChannelAngle(Channel0, env.read0);
      var angle1 := ChannelAngle(Channel1, env.read1);
      var decision := DetermineFinalAngle(angle0, angle1);
      var torque := GetTorque(env.speed, decision.angle);
      var calls := init
                   + ReadCalls(Channel0, env.read0)
                   + ReadCalls(Channel1, env.read1)
                   + (if decision.fault then [SetFault] else [])
                   + [ReadSpeed];
      CompletedFault(ledAtStart, init, env.read0, env.read1, decision.fault, calls);
      Run(calls, LedAfter(ledAtStart, calls), Completed(angle0, angle1, decision.angle, torque))
  }

  /** The fault state of a completed run's call list. */
  lemma CompletedFault(led: bool, init: seq<Call>, r0: ReadResult, r1: ReadResult,
                       arbiterFault: bool, calls: seq<Call>)
    requires SetFault !in init
    requires calls == init + ReadCalls(Channel0, r0) + ReadCalls(Channel1, r1)
                      + (if arbiterFault then [SetFault] else []) + [ReadSpeed]
    ensures LedAfter(led, calls) <==> led || r0.ReadNok? || r1.ReadNok? || arbiterFault
  {
    LedAfterIsRaised(led, calls);
    var a := ReadCalls(Channel0, r0);
    var b := ReadCalls(Channel1, r1);
    var c := if arbiterFault then [SetFault] else [];
    assert SetFault in calls <==> SetFault in a || SetFault in b || SetFault in c by {
      assert SetFault !in [ReadSpeed];
    }
  }

  /** The value `main` returns: 0 after an aborted run, otherwise the torque. */
  function ExitValue(run: Run): int
  {
    match run.outcome
    case Aborted => 0
    case Completed(_, _, _, torque) => torque
  }

  /** The value `main` returns for given collaborator answers: 0 when some
      initialisation fails, otherwise the torque commanded for the trusted
      angle of the two channel angles. */
  function Main(env: Environment, ledAtStart: bool): (code: int)
    ensures InitFailed(env) ==> code == 0
    ensures !InitFailed(env) ==>
              code == GetTorque(env.speed,
                                DetermineFinalAngle(ChannelAngle(Channel0, env.read0),
                                                    ChannelAngle(Channel1, env.read1)).angle)
  {
    ExitValue(Cycle(env, ledAtStart))
  }

  /** The return value alone cannot tell an aborted run from a completed one
      whose torque truncates to 0. */
  lemma ZeroExitIsAmbiguous()
    ensures var aborted := Environment(Nok, Ok, Ok, ReadNok, ReadNok, 0.0);
            Cycle(aborted, false).outcome.Aborted? && Main(aborted, false) == 0
    ensures var completed := Environment(Ok, Ok, Ok, ReadOk(6554), ReadOk(13108), 7.1);
            Cycle(completed, false).outcome.Completed? && Main(completed, false) == 0
  {
  }

  /** A failed channel-0 read is not treated as a missing channel: its 0.0 is
      in range, so channel 0 is still trusted and the command is computed
      from angle 0 even when channel 1 holds a valid reading. */
  lemma ReadFailureOfChannel0TrustsZero(env: Environment, ledAtStart: bool)
    requires !InitFailed(env) && env.read0.ReadNok? && env.read1.ReadOk?
    ensures Cycle(env, ledAtStart).outcome.Completed?
    ensures Cycle(env, ledAtStart).outcome.pedalAngle == 0.0
    ensures Cycle(env, ledAtStart).outcome.torque == GetTorque(env.speed, 0.0)
    ensures Cycle(env, ledAtStart).fault
  {
  }

  /** The stub samples `main` sets, 19712 and 23552, give angles
      10.0390625 and 9.9609375, which agree within 5%; at speed 10 the
      command is trunc(12.29445390625) = 12 and no fault is raised. */
  lemma ExampleRun()
    ensures var env := Environment(Ok, Ok, Ok, ReadOk(19712), ReadOk(23552), 10.0);
            var run := Cycle(env, false);
            && run.outcome == Completed(10.0390625, 9.9609375, 10.0390625, 12)
            && !run.fault
            && ExitValue(run) == 12
            && Main(env, false) == 12
  {
  }
}
