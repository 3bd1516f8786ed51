/**
 * Turning on the spot to a gyro heading, competition version (pheasant/ev3pid/GyroTurn.py):
 * separate default tunings for one-wheel and two-wheel turns, a tolerance that `run` relaxes
 * unless asked to turn precisely, and both motors held on arrival.
 */
module PheasantGyroTurn {
  import opened Wrappers
  import opened ClassAttributes
  import opened PidCommon
  import opened Hardware
  import opened Polling
  import PidController
  import GyroInputUtils
  import DoubleMotorBasePheasant

  /** The classes `self.__class__` attribute reads search for a GyroTurn object. */
  const ClassLineage: Lineage := ["GyroTurn", "PIDController", "GyroInput", "DoubleMotorBase"]

  /** A bool used as a number: `True * x == x`, `False * x == 0`. */
  function Driven(b: bool): real
  {
    if b then 1.0 else 0.0
  }

  /** `ANGLE_TOLERANCE` and `EXIT_SPEED` of `run(precisely)`. */
  function Tolerances(precisely: bool): (t: (nat, nat))
  {
    if precisely then (0, 0) else (1, 25)
  }

  /** The exit test: close enough to the target heading with both wheels slow enough. */
  function Settled(target: int, precisely: bool): TurnReading -> bool
  {
    (r: TurnReading) =>
      var (tolerance, exitSpeed) := Tolerances(precisely);
      Abs(r.heading - target) <= tolerance && Abs(r.leftSpeed) <= exitSpeed && Abs(r.rightSpeed) <= exitSpeed
  }

  /** The error fed to the controller: `sensor.angle() - angle`. */
  function HeadingError(target: int): TurnReading -> real
  {
    (r: TurnReading) => (r.heading - target) as real
  }

  /** `leftMotor.run(leftDriven * output * -1)` and `rightMotor.run(rightDriven * output)`. */
  function Command(leftDriven: bool, rightDriven: bool): real -> MotorEvent
  {
    (output: real) => Drive(Driven(leftDriven) * output * -1.0, Driven(rightDriven) * output)
  }

  /** One iteration of the loop body, on the controller's state. */
  function Tick(g: Gains, integralLimit: Option<real>, outputLimit: Option<real>, target: int,
                leftDriven: bool, rightDriven: bool): (PidState, TurnReading) -> (PidState, MotorEvent)
  {
    (s: PidState, r: TurnReading) =>
      var u := PidController.Step(g, integralLimit, outputLimit, s, HeadingError(target)(r), 1);
      (u.0, Command(leftDriven, rightDriven)(u.1))
  }

  /** What `run(precisely)` does with `readings`, before the final hold. */
  function Turn(g: Gains, integralLimit: Option<real>, outputLimit: Option<real>, target: int,
                leftDriven: bool, rightDriven: bool, precisely: bool, s: PidState, readings: seq<TurnReading>)
    : Outcome<PidState>
  {
    Poll(Settled(target, precisely), Tick(g, integralLimit, outputLimit, target, leftDriven, rightDriven), s, readings)
  }

  /**
   * One iteration of `run`: on a reading that fails the exit test, the controller steps on
   * the heading error, the command built from its output is issued, and the turn resumes
   * from the new state on the remaining readings.
   */
  lemma TurnAdvance(g: Gains, integralLimit: Option<real>, outputLimit: Option<real>, target: int,
                    leftDriven: bool, rightDriven: bool, precisely: bool, s: PidState, readings: seq<TurnReading>,
                    issued: seq<MotorEvent>, s': PidState, output: real)
    requires |readings| > 0 && !Settled(target, precisely)(readings[0])
    requires PidController.Step(g, integralLimit, outputLimit, s, (readings[0].heading - target) as real, 1) == (s', output)
    ensures Prepend(issued, Turn(g, integralLimit, outputLimit, target, leftDriven, rightDriven, precisely, s, readings))
            == Prepend(issued + [Command(leftDriven, rightDriven)(output)],
                       Turn(g, integralLimit, outputLimit, target, leftDriven, rightDriven, precisely, s', readings[1..]))
  {
    var tick := Tick(g, integralLimit, outputLimit, target, leftDriven, rightDriven);
    assert HeadingError(target)(readings[0]) == (readings[0].heading - target) as real;
    assert tick(s, readings[0]) == (s', Command(leftDriven, rightDriven)(output));
    PollAdvance(Settled(target, precisely), tick, s, readings, issued, s', Command(leftDriven, rightDriven)(output));
  }

  /** The shape every command of a turn has. */
  predicate TurnShape(leftDriven: bool, rightDriven: bool, e: MotorEvent)
  {
    && e.Drive?
    && (!leftDriven ==> e.left == 0.0)
    && (!rightDriven ==> e.right == 0.0)
    && (leftDriven && rightDriven ==> e.left == -e.right)
  }

  /**
   * Every command the loop issues drives the wheels in opposite directions: an undriven wheel
   * gets 0 at every tick, and with both driven the left speed is minus the right speed.
   */
  lemma {:induction false} CommandsTurnOnTheSpot(g: Gains, integralLimit: Option<real>, outputLimit: Option<real>,
                                                 target: int, leftDriven: bool, rightDriven: bool, precisely: bool,
                                                 s: PidState, readings: seq<TurnReading>)
    ensures var o := Turn(g, integralLimit, outputLimit, target, leftDriven, rightDriven, precisely, s, readings);
            forall i :: 0 <= i < |o.events| ==> TurnShape(leftDriven, rightDriven, o.events[i])
  {
    var tick := Tick(g, integralLimit, outputLimit, target, leftDriven, rightDriven);
    var shape := (e: MotorEvent) => TurnShape(leftDriven, rightDriven, e);
    forall s': PidState, r: TurnReading ensures shape(tick(s', r).1) {
      var o := PidController.Step(g, integralLimit, outputLimit, s', HeadingError(target)(r), 1).1;
      assert tick(s', r).1 == Command(leftDriven, rightDriven)(o);
    }
    PollKeepsShape(Settled(target, precisely), tick, s, readings, shape);
  }

  /**
   * The loop stops at the first reading where the heading is within the tolerance of the
   * target and both speeds are within the exit speed, having issued one command per earlier
   * reading; those commands are the controller's responses to the heading errors of those
   * readings, and the controller ends in the state they lead to.
   */
  lemma {:induction false} TurnFollowsController(g: Gains, integralLimit: Option<real>, outputLimit: Option<real>,
                                                 target: int, leftDriven: bool, rightDriven: bool, precisely: bool,
                                                 s: PidState, readings: seq<TurnReading>)
    ensures var o := Turn(g, integralLimit, outputLimit, target, leftDriven, rightDriven, precisely, s, readings);
            var k := FirstDone(Settled(target, precisely), readings);
            var errors := Map(HeadingError(target), readings[..k]);
            && (o.exited <==> k < |readings|)
            && o.events == Map(Command(leftDriven, rightDriven), Responses(PidController.Updater(g, integralLimit, outputLimit, 1), s, errors))
            && o.state == Settle(PidController.Updater(g, integralLimit, outputLimit, 1), s, errors)
  {
    var done := Settled(target, precisely);
    var tick := Tick(g, integralLimit, outputLimit, target, leftDriven, rightDriven);
    PollExitsAtFirstDone(done, tick, s, readings);
    PollThroughController(done, tick, PidController.Updater(g, integralLimit, outputLimit, 1),
                          HeadingError(target), Command(leftDriven, rightDriven), s, readings);
  }

  /** With an output limit M >= 0, no wheel is ever commanded faster than M. */
  lemma {:induction false} CommandsWithinOutputLimit(g: Gains, integralLimit: Option<real>, m: real,
                                                     target: int, leftDriven: bool, rightDriven: bool, precisely: bool,
                                                     s: PidState, readings: seq<TurnReading>)
    requires 0.0 <= m
    ensures var o := Turn(g, integralLimit, Some(m), target, leftDriven, rightDriven, precisely, s, readings);
            forall i :: 0 <= i < |o.events| ==> o.events[i].Drive? && -m <= o.events[i].left <= m && -m <= o.events[i].right <= m
  {
    var tick := Tick(g, integralLimit, Some(m), target, leftDriven, rightDriven);
    var bounded := (e: MotorEvent) => e.Drive? && -m <= e.left <= m && -m <= e.right <= m;
    forall s': PidState, r: TurnReading ensures bounded(tick(s', r).1) {
      var o := PidController.Step(g, integralLimit, Some(m), s', HeadingError(target)(r), 1).1;
      assert tick(s', r).1 == Command(leftDriven, rightDriven)(o);
    }
    PollKeepsShape(Settled(target, precisely), tick, s, readings, bounded);
  }

  /**
   * The SINGLE_ and DOUBLE_ defaults, which the constructor reads through the class name
   * `GyroTurn` (so assignments on subclasses are never read); all ten are declared `None`.
   */
  class TurnDefaults {
    var single: Tuning
    var double: Tuning

    constructor ()
      ensures single == Unset && double == Unset
    {
      single, double := Unset, Unset;
    }

    /** `GyroTurn.setDefaultTuning(kpSingle, kiSingle, kdSingle, kpDouble, kiDouble, kdDouble)` */
    method SetDefaultTuning(kpSingle: Option<real>, kiSingle: Option<real>, kdSingle: Option<real>,
                            kpDouble: Option<real>, kiDouble: Option<real>, kdDouble: Option<real>)
      modifies this
      ensures single == old(single).(kp := kpSingle, ki := kiSingle, kd := kdSingle)
      ensures double == old(double).(kp := kpDouble, ki := kiDouble, kd := kdDouble)
    {
      single := single.(kp := kpSingle, ki := kiSingle, kd := kdSingle);
      double := double.(kp := kpDouble, ki := kiDouble, kd := kdDouble);
    }

    /** `GyroTurn.setDefaultIntegralLimit(limitSingle, limitDouble)` */
    method SetDefaultIntegralLimit(limitSingle: Option<real>, limitDouble: Option<real>)
      modifies this
      ensures single == old(single).(integralLimit := limitSingle)
      ensures double == old(double).(integralLimit := limitDouble)
    {
      single := single.(integralLimit := limitSingle);
      double := double.(integralLimit := limitDouble);
    }

    /** `GyroTurn.setDefaultOutputLimit(limitSingle, limitDouble)` */
    method SetDefaultOutputLimit(limitSingle: Option<real>, limitDouble: Option<real>)
      modifies this
      ensures single == old(single).(outputLimit := limitSingle)
      ensures double == old(double).(outputLimit := limitDouble)
    {
      single := single.(outputLimit := limitSingle);
      double := double.(outputLimit := limitDouble);
    }

    /** The tuning tuple the constructor falls back on: DOUBLE exactly when both wheels turn. */
    function Selected(leftDriven: bool, rightDriven: bool): (t: Tuning)
      reads this
      ensures t == if leftDriven && rightDriven then double else single
    {
      if leftDriven && rightDriven then double else single
    }
  }

  class GyroTurn {
    const angle: int
    const leftDriven: bool
    const rightDriven: bool
    const sensor: Option<GyroSensor>
    const leftMotor: Option<Motor>
    const rightMotor: Option<Motor>
    const pid: PidController.PIDController
    /** The commands given to the two drive motors so far. */
    var commands: seq<MotorEvent>

    /**
     * `GyroTurn(angle, leftDriven, rightDriven, sensor, leftMotor, rightMotor, kp, ki, kd,
     * integralLimit, outputLimit)`: each tuning argument falls back first on the SINGLE or
     * DOUBLE default, then, inside the controller, on the generic `*_DEFAULT`. Nothing runs.
     */
    constructor (turnDefaults: TurnDefaults, pidDefaults: TuningDefaults,
                 gyros: GyroInputUtils.GyroDefaults, motors: DoubleMotorBasePheasant.MotorDefaults,
                 angle: int, leftDriven: bool, rightDriven: bool,
                 sensor: Option<GyroSensor>, leftMotor: Option<Motor>, rightMotor: Option<Motor>,
                 kp: Option<real>, ki: Option<real>, kd: Option<real>,
                 integralLimit: Option<real>, outputLimit: Option<real>)
      ensures pid.Tuning() == Tuning(kp, ki, kd, integralLimit, outputLimit)
                                .Or(turnDefaults.Selected(leftDriven, rightDriven))
                                .Or(pidDefaults.Defaults(ClassLineage))
      ensures pid.setpoint == Some(angle) && pid.State() == Zero
      ensures this.angle == angle && this.leftDriven == leftDriven && this.rightDriven == rightDriven
      ensures this.sensor == gyros.Sensor(ClassLineage, sensor)
      ensures (this.leftMotor, this.rightMotor) == motors.Motors(ClassLineage, leftMotor, rightMotor)
      ensures commands == []
      ensures fresh(pid)
    {
      var resolved := Tuning(kp, ki, kd, integralLimit, outputLimit).Or(turnDefaults.Selected(leftDriven, rightDriven));
      this.angle := angle;
      this.leftDriven, this.rightDriven := leftDriven, rightDriven;
      this.sensor := gyros.Sensor(ClassLineage, sensor);
      var m := motors.Motors(ClassLineage, leftMotor, rightMotor);
      this.leftMotor, this.rightMotor := m.0, m.1;
      this.pid := new PidController.PIDController(pidDefaults, ClassLineage, Some(angle), resolved.kp, resolved.ki,
                                                  resolved.kd, resolved.integralLimit, resolved.outputLimit);
      commands := [];
    }

    /**
     * `run(precisely)` over `readings`: the commands of `Turn`, then a hold of both motors if
     * the exit test held (`exited`); `false` means the readings ran out mid-turn.
     */
    method Run(precisely: bool, readings: seq<TurnReading>) returns (exited: bool)
      requires pid.Configured()
      modifies this, pid
      ensures var o := Turn(pid.Gains(), pid.integralLimit, pid.outputLimit, angle, leftDriven, rightDriven,
                            precisely, old(pid.State()), readings);
              && commands == old(commands) + o.events + (if o.exited then [HoldBoth] else [])
              && pid.State() == o.state
              && exited == o.exited
    {
      var settled := Settled(angle, precisely);
      ghost var g := pid.Gains();
      ghost var issued: seq<MotorEvent> := [];
      PrependNothing(Turn(g, pid.integralLimit, pid.outputLimit, angle, leftDriven, rightDriven, precisely, pid.State(), readings));
      var i := 0;
      while i < |readings| && !settled(readings[i])
        invariant 0 <= i <= |readings|
        invariant commands == old(commands) + issued
        invariant Turn(g, pid.integralLimit, pid.outputLimit, angle, leftDriven, rightDriven, precisely, old(pid.State()), readings)
                  == Prepend(issued, Turn(g, pid.integralLimit, pid.outputLimit, angle, leftDriven, rightDriven, precisely, pid.State(), readings[i..]))
      {
        ghost var before := pid.State();
        var r := pid.Update((readings[i].heading - angle) as real, 1);
        var output := r.value;
        var event := Command(leftDriven, rightDriven)(output);
        commands := commands + [event];
        TurnAdvance(g, pid.integralLimit, pid.outputLimit, angle, leftDriven, rightDriven, precisely, before, readings[i..],
                    issued, pid.State(), output);
        assert readings[i..][1..] == readings[i + 1..];
        issued := issued + [event];
        i := i + 1;
      }
      exited := i < |readings|;
      assert Turn(g, pid.integralLimit, pid.outputLimit, angle, leftDriven, rightDriven, precisely, pid.State(), readings[i..]).events == [];
      if exited {
        commands := commands + [HoldBoth];
      }
    }

    /** `rawControllerOutput()` for the heading read: one update on the current heading error. */
    method RawControllerOutput(heading: int) returns (r: Result<real>)
      modifies pid
      ensures pid.Configured() ==>
                var u := PidController.Step(pid.Gains(), pid.integralLimit, pid.outputLimit, old(pid.State()),
                                            HeadingError(angle)(TurnReading(heading, 0, 0)), 1);
                r == Ok(u.1) && pid.State() == u.0
      ensures pid.kp.None? ==> r == Err(TypeError) && pid.State() == old(pid.State())
      ensures pid.kp.Some? && !pid.Configured() ==>
                && r == Err(TypeError)
                && pid.integral == PidController.Accumulate(old(pid.integral), (heading - angle) as real, 1, pid.integralLimit)
                && pid.prevError == old(pid.prevError)
    {
      r := pid.Update((heading - angle) as real, 1);
    }
  }
}
