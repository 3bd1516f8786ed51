/**
 * Driving straight along a gyro heading (ev3pid/GyroStraight.py): each tick the controller
 * output is subtracted from the left wheel's speed and added to the right wheel's, until a
 * caller-supplied stop condition holds; nothing is held at the end.
 */
module Ev3pidGyroStraight {
  import opened Wrappers
  import opened ClassAttributes
  import opened PidCommon
  import opened Hardware
  import opened Polling
  import BasePidLoop
  import GyroInputBase
  import DoubleMotorBaseEv3move

  /** The classes `self.__class__` attribute reads search for a GyroStraight object. */
  const ClassLineage: Lineage := ["GyroStraight", "PIDLoop", "GyroInput", "DoubleMotorBase"]

  /** The exit test: `stopCondition()`. */
  function Stopped(r: StraightReading): bool
  {
    r.stop
  }

  /** The error fed to the controller: `sensor.angle() - angle`. */
  function HeadingError(target: int): StraightReading -> real
  {
    (r: StraightReading) => (r.heading - target) as real
  }

  /** `leftMotor.run(speed - output)` and `rightMotor.run(speed + output)`. */
  function Command(speed: real): real -> MotorEvent
  {
    (output: real) => Drive(speed - output, speed + output)
  }

  /** A command whose two wheel speeds average to `speed`. */
  predicate Centred(speed: real, e: MotorEvent)
  {
    e.Drive? && e.left + e.right == 2.0 * speed
  }

  /** One iteration of the loop body, on the controller's state. */
  function Tick(g: Gains, integralLimit: Option<real>, outputLimit: Option<real>, target: int, speed: real)
    : (PidState, StraightReading) -> (PidState, MotorEvent)
  {
    (s: PidState, r: StraightReading) =>
      var u := BasePidLoop.Step(g, integralLimit, outputLimit, s, HeadingError(target)(r));
      (u.0, Command(speed)(u.1))
  }

  /** What `runUntil(stopCondition)` does with `readings`. */
  function Straight(g: Gains, integralLimit: Option<real>, outputLimit: Option<real>, target: int, speed: real,
                    s: PidState, readings: seq<StraightReading>): Outcome<PidState>
  {
    Poll(Stopped, Tick(g, integralLimit, outputLimit, target, speed), s, readings)
  }

  /** One iteration of `runUntil`, as the loop performs it. */
  lemma StraightAdvance(g: Gains, integralLimit: Option<real>, outputLimit: Option<real>, target: int, speed: real,
                         s: PidState, readings: seq<StraightReading>, issued: seq<MotorEvent>, s': PidState, output: real)
    requires |readings| > 0 && !readings[0].stop
    requires BasePidLoop.Step(g, integralLimit, outputLimit, s, (readings[0].heading - target) as real) == (s', output)
    ensures Prepend(issued, Straight(g, integralLimit, outputLimit, target, speed, s, readings))
            == Prepend(issued + [Command(speed)(output)], Straight(g, integralLimit, outputLimit, target, speed, s', readings[1..]))
  {
    var tick := Tick(g, integralLimit, outputLimit, target, speed);
    assert HeadingError(target)(readings[0]) == (readings[0].heading - target) as real;
    assert tick(s, readings[0]) == (s', Command(speed)(output));
    PollAdvance(Stopped, tick, s, readings, issued, s', Command(speed)(output));
  }

  /**
   * The loop issues one command per reading before the first one whose stop condition holds
   * (none if it holds at entry); each is the controller's response to that reading's heading
   * error, taken off the left wheel and added to the right, so the two wheel speeds always
   * average to `speed`.
   */
  lemma {:induction false} StraightFollowsController(g: Gains, integralLimit: Option<real>, outputLimit: Option<real>,
                                                     target: int, speed: real, s: PidState, readings: seq<StraightReading>)
    ensures var o := Straight(g, integralLimit, outputLimit, target, speed, s, readings);
            var k := FirstDone(Stopped, readings);
            var errors := Map(HeadingError(target), readings[..k]);
            var outputs := Responses(BasePidLoop.Updater(g, integralLimit, outputLimit), s, errors);
            && (o.exited <==> k < |readings|)
            && |o.events| == k
            && (forall i :: 0 <= i < k ==> o.events[i] == Drive(speed - outputs[i], speed + outputs[i]))
            && (forall i :: 0 <= i < k ==> Centred(speed, o.events[i]))
            && o.state == Settle(BasePidLoop.Updater(g, integralLimit, outputLimit), s, errors)
  {
    var tick := Tick(g, integralLimit, outputLimit, target, speed);
    PollExitsAtFirstDone(Stopped, tick, s, readings);
    PollThroughController(Stopped, tick, BasePidLoop.Updater(g, integralLimit, outputLimit), HeadingError(target),
                          Command(speed), s, readings);
  }

  class GyroStraight {
    /** `self.speed`: a plain attribute a caller may reassign between runs; every tick reads it. */
    var speed: real
    const angle: int
    const sensor: Option<GyroSensor>
    const leftMotor: Option<Motor>
    const rightMotor: Option<Motor>
    const pid: BasePidLoop.PIDLoop
    /** The commands given to the two drive motors so far. */
    var commands: seq<MotorEvent>

    /**
     * `GyroStraight(speed, angle, sensor, leftMotor, rightMotor, kp, ki, kd, integralLimit,
     * outputLimit)`: devices resolved against the registered defaults, the controller built by
     * the base constructor (with its limit overwrite); nothing runs.
     */
    constructor (pidDefaults: TuningDefaults, gyros: GyroInputBase.GyroDefaults, motors: DoubleMotorBaseEv3move.MotorDefaults,
                 speed: real, angle: int, sensor: Option<GyroSensor>, leftMotor: Option<Motor>, rightMotor: Option<Motor>,
                 kp: Option<real>, ki: Option<real>, kd: Option<real>,
                 integralLimit: Option<real>, outputLimit: Option<real>)
      ensures pid.Tuning() == BasePidLoop.ResolveTuning(Tuning(kp, ki, kd, integralLimit, outputLimit), pidDefaults.Defaults(ClassLineage))
      ensures pid.setpoint == Some(angle) && pid.State() == Zero
      ensures this.speed == speed && this.angle == angle
      ensures this.sensor == gyros.Sensor(ClassLineage, sensor)
      ensures (this.leftMotor, this.rightMotor) == motors.Motors(ClassLineage, leftMotor, rightMotor)
      ensures commands == []
      ensures fresh(pid)
    {
      this.speed, this.angle := speed, angle;
      this.sensor := gyros.Sensor(ClassLineage, sensor);
      var m := motors.Motors(ClassLineage, leftMotor, rightMotor);
      this.leftMotor, this.rightMotor := m.0, m.1;
      this.pid := new BasePidLoop.PIDLoop(pidDefaults, ClassLineage, Some(angle), kp, ki, kd, integralLimit, outputLimit);
      commands := [];
    }

    /**
     * `runUntil(stopCondition)` over `readings`: the commands of `Straight` and no hold; `stopped`
     * is `false` when the readings ran out before the stop condition held.
     */
    method RunUntil(readings: seq<StraightReading>) returns (stopped: bool)
      requires pid.Configured()
      modifies this, pid
      ensures speed == old(speed)
      ensures var o := Straight(pid.Gains(), pid.integralLimit, pid.outputLimit, angle, speed, old(pid.State()), readings);
              && commands == old(commands) + o.events
              && pid.State() == o.state
              && stopped == o.exited
    {
      ghost var g := pid.Gains();
      ghost var issued: seq<MotorEvent> := [];
      PrependNothing(Straight(g, pid.integralLimit, pid.outputLimit, angle, speed, pid.State(), readings));
      var i := 0;
      while i < |readings| && !readings[i].stop
        invariant 0 <= i <= |readings|
        invariant commands == old(commands) + issued
        invariant speed == old(speed)
        invariant Straight(g, pid.integralLimit, pid.outputLimit, angle, speed, old(pid.State()), readings)
                  == Prepend(issued, Straight(g, pid.integralLimit, pid.outputLimit, angle, speed, pid.State(), readings[i..]))
      {
        ghost var before := pid.State();
        var r := pid.Update((readings[i].heading - angle) as real);
        var output := r.value;
        var event := Command(speed)(output);
        commands := commands + [event];
        StraightAdvance(g, pid.integralLimit, pid.outputLimit, angle, speed, before, readings[i..], issued, pid.State(), output);
        assert readings[i..][1..] == readings[i + 1..];
        issued := issued + [event];
        i := i + 1;
      }
      stopped := i < |readings|;
      assert Straight(g, pid.integralLimit, pid.outputLimit, angle, speed, pid.State(), readings[i..]).events == [];
    }
  }

  /**
   * A speed ramp: the caller reassigns `speed` between two runs of the same object; the second
   * run's commands are centred on the new speed and its controller continues from the state
   * the first run left, rather than from zero.
   */
  method RampSpeed(straight: GyroStraight, first: seq<StraightReading>, newSpeed: real, second: seq<StraightReading>)
    requires straight.pid.Configured()
    modifies straight, straight.pid
    ensures var g := straight.pid.Gains();
            var il := straight.pid.integralLimit;
            var ol := straight.pid.outputLimit;
            var a := Straight(g, il, ol, straight.angle, old(straight.speed), old(straight.pid.State()), first);
            var b := Straight(g, il, ol, straight.angle, newSpeed, a.state, second);
            && straight.speed == newSpeed
            && straight.commands == old(straight.commands) + a.events + b.events
            && straight.pid.State() == b.state
  {
    var _ := straight.RunUntil(first);
    straight.speed := newSpeed;
    var _ := straight.RunUntil(second);
  }
}
