/**
 * Driving straight along a gyro heading, first version (movement/GyroStraight.py): devices and
 * the stop condition are stored as passed, the drive runs from the constructor, and the
 * controller output is added to the left wheel's speed and taken off the right wheel's.
 */
module MovementGyroStraight {
  import opened Wrappers
  import opened ClassAttributes
  import opened PidCommon
  import opened Hardware
  import opened Polling
  import MovementPidLoop
  import Ev3pidGyroStraight

  /** The classes `self.__class__` attribute reads search for a GyroStraight object. */
  const ClassLineage: Lineage := ["GyroStraight", "PIDLoop"]

  /**
   * The constructor as written: `super().__init__(angle, kp, ki, kd, integralLimit,
   * outputLimit)` binds six positional arguments to the four parameters of
   * `PIDLoop.__init__(self, setpoint, kp, ki, kd)`.
   */
  function InitAsWritten(args: Tuning): (r: Result<Tuning>)
  {
    var passed := [args.kp, args.ki, args.kd, args.integralLimit, args.outputLimit];
    match MovementPidLoop.BindInit(1 + |passed|)
    case Ok(_) => Ok(args)
    case Err(e) => Err(e)
  }

  /** Whatever is passed, building a GyroStraight raises TypeError and never drives. */
  lemma InitAsWrittenRaises(args: Tuning)
    ensures InitAsWritten(args) == Err(TypeError)
  {
  }

  /** `leftMotor.run(speed + output)` and `rightMotor.run(speed - output)`. */
  function Command(speed: real): real -> MotorEvent
  {
    (output: real) => Drive(speed + output, speed - output)
  }

  /**
   * The correction goes the other way from the later version: a command here is the later
   * version's command for the negated output, and the wheel speeds still average to `speed`.
   */
  lemma OppositeCorrection(speed: real, output: real)
    ensures Command(speed)(output) == Ev3pidGyroStraight.Command(speed)(-output)
    ensures Ev3pidGyroStraight.Centred(speed, Command(speed)(output))
  {
    assert Command(speed)(output) == Drive(speed + output, speed - output);
    assert Ev3pidGyroStraight.Command(speed)(-output) == Drive(speed - -output, speed + -output);
  }

  /** One iteration of the loop body, on the controller's state. */
  function Tick(g: Gains, integralLimit: Option<real>, target: int, speed: real)
    : (PidState, StraightReading) -> (PidState, MotorEvent)
  {
    (s: PidState, r: StraightReading) =>
      var u := MovementPidLoop.Step(g, integralLimit, s, Ev3pidGyroStraight.HeadingError(target)(r));
      (u.0, Command(speed)(u.1))
  }

  /** What `run` does with `readings`. */
  function Straight(g: Gains, integralLimit: Option<real>, target: int, speed: real,
                    s: PidState, readings: seq<StraightReading>): Outcome<PidState>
  {
    Poll(Ev3pidGyroStraight.Stopped, Tick(g, integralLimit, target, speed), s, readings)
  }

  /** One iteration of `run`, as the loop performs it. */
  lemma StraightAdvance(g: Gains, integralLimit: Option<real>, target: int, speed: real,
                        s: PidState, readings: seq<StraightReading>, issued: seq<MotorEvent>, s': PidState, output: real)
    requires |readings| > 0 && !readings[0].stop
    requires MovementPidLoop.Step(g, integralLimit, s, (readings[0].heading - target) as real) == (s', output)
    ensures Prepend(issued, Straight(g, integralLimit, target, speed, s, readings))
            == Prepend(issued + [Command(speed)(output)], Straight(g, integralLimit, target, speed, s', readings[1..]))
  {
    var tick := Tick(g, integralLimit, target, speed);
    assert Ev3pidGyroStraight.HeadingError(target)(readings[0]) == (readings[0].heading - target) as real;
    assert tick(s, readings[0]) == (s', Command(speed)(output));
    PollAdvance(Ev3pidGyroStraight.Stopped, tick, s, readings, issued, s', Command(speed)(output));
  }

  /**
   * The loop issues one command per reading before the first one whose stop condition holds;
   * each adds the controller's response to that reading's heading error to the left wheel and
   * takes it off the right.
   */
  lemma {:induction false} StraightFollowsController(g: Gains, integralLimit: Option<real>, target: int, speed: real,
                                                     s: PidState, readings: seq<StraightReading>)
    ensures var o := Straight(g, integralLimit, target, speed, s, readings);
            var k := FirstDone(Ev3pidGyroStraight.Stopped, readings);
            var errors := Map(Ev3pidGyroStraight.HeadingError(target), readings[..k]);
            var outputs := Responses(MovementPidLoop.Updater(g, integralLimit), s, errors);
            && (o.exited <==> k < |readings|)
            && |o.events| == k
            && (forall i :: 0 <= i < k ==> o.events[i] == Drive(speed + outputs[i], speed - outputs[i]))
            && o.state == Settle(MovementPidLoop.Updater(g, integralLimit), s, errors)
  {
    var tick := Tick(g, integralLimit, target, speed);
    PollExitsAtFirstDone(Ev3pidGyroStraight.Stopped, tick, s, readings);
    PollThroughController(Ev3pidGyroStraight.Stopped, tick, MovementPidLoop.Updater(g, integralLimit),
                          Ev3pidGyroStraight.HeadingError(target), Command(speed), s, readings);
  }

  class GyroStraight {
    const angle: int
    /** `self.speed`: a plain attribute a caller may reassign between runs; every tick reads it. */
    var speed: real
    const sensor: GyroSensor
    const leftMotor: Motor
    const rightMotor: Motor
    const pid: MovementPidLoop.PIDLoop
    /** The commands given to the two drive motors so far. */
    var commands: seq<MotorEvent>

    /**
     * `GyroStraight(angle, speed, stopCondition, sensor, leftMotor, rightMotor, kp, ki, kd,
     * integralLimit, outputLimit)` with the controller built by `MovementPidLoop.InitWithGains`; the drive then
     * runs over `readings`, whose `stop` fields are what `stopCondition()` returns.
     */
    constructor (classes: MovementPidLoop.PidLoopClasses, angle: int, speed: real,
                 sensor: GyroSensor, leftMotor: Motor, rightMotor: Motor,
                 kp: Option<real>, ki: Option<real>, kd: Option<real>,
                 integralLimit: Option<real>, outputLimit: Option<real>, readings: seq<StraightReading>)
      requires kp.Some? && ki.Some? && kd.Some?
      ensures pid.kp == kp && pid.ki == ki && pid.kd == kd
      ensures pid.lineage == ClassLineage && pid.setpoint == Some(angle)
      ensures this.angle == angle && this.speed == speed
      ensures this.sensor == sensor && this.leftMotor == leftMotor && this.rightMotor == rightMotor
      ensures var o := Straight(pid.Gains(), classes.IntegralLimit(ClassLineage), angle, speed, Zero, readings);
              commands == o.events && pid.State() == o.state
      ensures fresh(pid)
    {
      var t := MovementPidLoop.InitWithGains(Tuning(kp, ki, kd, integralLimit, outputLimit)).value;
      this.angle, this.speed := angle, speed;
      this.sensor, this.leftMotor, this.rightMotor := sensor, leftMotor, rightMotor;
      this.pid := new MovementPidLoop.PIDLoop(ClassLineage, Some(angle), t.kp, t.ki, t.kd);
      commands := [];
      new;
      var _ := Run(classes, readings);
    }

    /**
     * `run()` over `readings`: the commands of `Straight`, no hold; `stopped` is `false` when
     * the readings ran out before the stop condition held.
     */
    method Run(classes: MovementPidLoop.PidLoopClasses, readings: seq<StraightReading>) returns (stopped: bool)
      requires pid.Configured()
      modifies this, pid
      ensures speed == old(speed)
      ensures var o := Straight(pid.Gains(), classes.IntegralLimit(pid.lineage), angle, speed, old(pid.State()), readings);
              && commands == old(commands) + o.events
              && pid.State() == o.state
              && stopped == o.exited
    {
      ghost var g := pid.Gains();
      ghost var il := classes.IntegralLimit(pid.lineage);
      ghost var issued: seq<MotorEvent> := [];
      PrependNothing(Straight(g, il, angle, speed, pid.State(), readings));
      var i := 0;
      while i < |readings| && !readings[i].stop
        invariant 0 <= i <= |readings|
        invariant commands == old(commands) + issued
        invariant speed == old(speed)
        invariant Straight(g, il, angle, speed, old(pid.State()), readings)
                  == Prepend(issued, Straight(g, il, angle, speed, pid.State(), readings[i..]))
      {
        ghost var before := pid.State();
        var r := pid.Update(classes, (readings[i].heading - angle) as real);
        var output := r.value;
        var event := Command(speed)(output);
        commands := commands + [event];
        StraightAdvance(g, il, angle, speed, before, readings[i..], issued, pid.State(), output);
        assert readings[i..][1..] == readings[i + 1..];
        issued := issued + [event];
        i := i + 1;
      }
      stopped := i < |readings|;
      assert Straight(g, il, angle, speed, pid.State(), readings[i..]).events == [];
    }
  }
}
