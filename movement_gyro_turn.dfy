/**
 * Turning on the spot to a gyro heading, first version (movement/GyroTurn.py): devices are
 * stored as passed, the turn runs from the constructor, the wheel commands have the opposite
 * sign convention to the later versions, and nothing is held at the end.
 */
module MovementGyroTurn {
  import opened Wrappers
  import opened ClassAttributes
  import opened PidCommon
  import opened Hardware
  import opened Polling
  import MovementPidLoop
  import PheasantGyroTurn
  import Ev3pidGyroTurn

  /** The classes `self.__class__` attribute reads search for a GyroTurn object. */
  const ClassLineage: Lineage := ["GyroTurn", "PIDLoop"]

  /**
   * The constructor as written: it resolves five tuning values and passes them after the
   * setpoint to `PIDLoop.__init__(self, setpoint, kp, ki, kd)`, so the call binds six
   * positional arguments to four parameters.
   */
  function InitAsWritten(chosen: Tuning): (r: Result<Tuning>)
  {
    var passed := [chosen.kp, chosen.ki, chosen.kd, chosen.integralLimit, chosen.outputLimit];
    match MovementPidLoop.BindInit(1 + |passed|)
    case Ok(_) => Ok(chosen)
    case Err(e) => Err(e)
  }

  /** Whatever is passed or registered, building a GyroTurn raises TypeError and never turns. */
  lemma InitAsWrittenRaises(chosen: Tuning)
    ensures InitAsWritten(chosen) == Err(TypeError)
  {
  }

  /** `leftMotor.run(leftDriven * output)` and `rightMotor.run(rightDriven * output * -1)`. */
  function Command(leftDriven: bool, rightDriven: bool): real -> MotorEvent
  {
    (output: real) => Drive(PheasantGyroTurn.Driven(leftDriven) * output, PheasantGyroTurn.Driven(rightDriven) * output * -1.0)
  }

  /**
   * The sign convention is the opposite of the later versions: for the same controller output
   * each wheel gets the negated command, so the same gains turn the robot the other way.
   */
  lemma OppositeConvention(leftDriven: bool, rightDriven: bool, output: real)
    ensures Command(leftDriven, rightDriven)(output) == Reversed(PheasantGyroTurn.Command(leftDriven, rightDriven)(output))
    ensures PheasantGyroTurn.TurnShape(leftDriven, rightDriven, Command(leftDriven, rightDriven)(output))
  {
    var d, d' := PheasantGyroTurn.Driven(leftDriven), PheasantGyroTurn.Driven(rightDriven);
    assert PheasantGyroTurn.Command(leftDriven, rightDriven)(output) == Drive(d * output * -1.0, d' * output);
    assert Command(leftDriven, rightDriven)(output) == Drive(d * output, d' * output * -1.0);
  }

  /** One iteration of the loop body, on the controller's state. */
  function Tick(g: Gains, integralLimit: Option<real>, target: int, leftDriven: bool, rightDriven: bool)
    : (PidState, TurnReading) -> (PidState, MotorEvent)
  {
    (s: PidState, r: TurnReading) =>
      var u := MovementPidLoop.Step(g, integralLimit, s, PheasantGyroTurn.HeadingError(target)(r));
      (u.0, Command(leftDriven, rightDriven)(u.1))
  }

  /** What `run` does with `readings`; the exit test is the exact one of the earlier version. */
  function Turn(g: Gains, integralLimit: Option<real>, target: int, leftDriven: bool, rightDriven: bool,
                s: PidState, readings: seq<TurnReading>): Outcome<PidState>
  {
    Poll(Ev3pidGyroTurn.Settled(target), Tick(g, integralLimit, target, leftDriven, rightDriven), s, readings)
  }

  /** One iteration of `run`, as the loop performs it. */
  lemma TurnAdvance(g: Gains, integralLimit: Option<real>, target: int, leftDriven: bool, rightDriven: bool,
                    s: PidState, readings: seq<TurnReading>, issued: seq<MotorEvent>, s': PidState, output: real)
    requires |readings| > 0 && !Ev3pidGyroTurn.Settled(target)(readings[0])
    requires MovementPidLoop.Step(g, integralLimit, s, (readings[0].heading - target) as real) == (s', output)
    ensures Prepend(issued, Turn(g, integralLimit, target, leftDriven, rightDriven, s, readings))
            == Prepend(issued + [Command(leftDriven, rightDriven)(output)],
                       Turn(g, integralLimit, target, leftDriven, rightDriven, s', readings[1..]))
  {
    var tick := Tick(g, integralLimit, target, leftDriven, rightDriven);
    assert PheasantGyroTurn.HeadingError(target)(readings[0]) == (readings[0].heading - target) as real;
    assert tick(s, readings[0]) == (s', Command(leftDriven, rightDriven)(output));
    PollAdvance(Ev3pidGyroTurn.Settled(target), tick, s, readings, issued, s', Command(leftDriven, rightDriven)(output));
  }

  /**
   * The loop stops at the first reading exactly on target with both wheels stopped; every
   * command before it is the reversed command of the later versions on the controller's
   * response to that reading's heading error.
   */
  lemma {:induction false} TurnFollowsController(g: Gains, integralLimit: Option<real>, target: int,
                                                 leftDriven: bool, rightDriven: bool,
                                                 s: PidState, readings: seq<TurnReading>)
    ensures var o := Turn(g, integralLimit, target, leftDriven, rightDriven, s, readings);
            var k := FirstDone(Ev3pidGyroTurn.Settled(target), readings);
            var errors := Map(PheasantGyroTurn.HeadingError(target), readings[..k]);
            var outputs := Responses(MovementPidLoop.Updater(g, integralLimit), s, errors);
            && (o.exited <==> k < |readings|)
            && |o.events| == k
            && (forall i :: 0 <= i < k ==>
                  o.events[i] == Reversed(PheasantGyroTurn.Command(leftDriven, rightDriven)(outputs[i])))
            && o.state == Settle(MovementPidLoop.Updater(g, integralLimit), s, errors)
  {
    var done := Ev3pidGyroTurn.Settled(target);
    var tick := Tick(g, integralLimit, target, leftDriven, rightDriven);
    PollExitsAtFirstDone(done, tick, s, readings);
    PollThroughController(done, tick, MovementPidLoop.Updater(g, integralLimit),
                          PheasantGyroTurn.HeadingError(target), Command(leftDriven, rightDriven), s, readings);
    var k := FirstDone(done, readings);
    var outputs := Responses(MovementPidLoop.Updater(g, integralLimit), s, Map(PheasantGyroTurn.HeadingError(target), readings[..k]));
    forall i | 0 <= i < k
      ensures Command(leftDriven, rightDriven)(outputs[i]) == Reversed(PheasantGyroTurn.Command(leftDriven, rightDriven)(outputs[i]))
    {
      OppositeConvention(leftDriven, rightDriven, outputs[i]);
    }
  }

  class GyroTurn {
    const angle: int
    const leftDriven: bool
    const rightDriven: bool
    const sensor: GyroSensor
    const leftMotor: Motor
    const rightMotor: Motor
    const pid: MovementPidLoop.PIDLoop
    /** The commands given to the two drive motors so far. */
    var commands: seq<MotorEvent>

    /**
     * `GyroTurn(angle, leftDriven, rightDriven, sensor, leftMotor, rightMotor, kp, ki, kd,
     * integralLimit, outputLimit)` with the controller built by `MovementPidLoop.InitWithGains`: each gain is
     * the argument, else the SINGLE or DOUBLE default; the turn then runs over `readings`.
     */
    constructor (turnDefaults: PheasantGyroTurn.TurnDefaults, classes: MovementPidLoop.PidLoopClasses,
                 angle: int, leftDriven: bool, rightDriven: bool,
                 sensor: GyroSensor, leftMotor: Motor, rightMotor: Motor,
                 kp: Option<real>, ki: Option<real>, kd: Option<real>,
                 integralLimit: Option<real>, outputLimit: Option<real>, readings: seq<TurnReading>)
      requires var chosen := Tuning(kp, ki, kd, integralLimit, outputLimit).Or(turnDefaults.Selected(leftDriven, rightDriven));
               chosen.kp.Some? && chosen.ki.Some? && chosen.kd.Some?
      ensures var chosen := Tuning(kp, ki, kd, integralLimit, outputLimit).Or(turnDefaults.Selected(leftDriven, rightDriven));
              pid.kp == chosen.kp && pid.ki == chosen.ki && pid.kd == chosen.kd
      ensures pid.lineage == ClassLineage && pid.setpoint == Some(angle)
      ensures this.angle == angle && this.leftDriven == leftDriven && this.rightDriven == rightDriven
      ensures this.sensor == sensor && this.leftMotor == leftMotor && this.rightMotor == rightMotor
      ensures var o := Turn(pid.Gains(), classes.IntegralLimit(ClassLineage), angle, leftDriven, rightDriven, Zero, readings);
              commands == o.events && pid.State() == o.state
      ensures fresh(pid)
    {
      var chosen := Tuning(kp, ki, kd, integralLimit, outputLimit).Or(turnDefaults.Selected(leftDriven, rightDriven));
      var t := MovementPidLoop.InitWithGains(chosen).value;
      this.angle := angle;
      this.leftDriven, this.rightDriven := leftDriven, rightDriven;
      this.sensor, this.leftMotor, this.rightMotor := sensor, leftMotor, rightMotor;
      this.pid := new MovementPidLoop.PIDLoop(ClassLineage, Some(angle), t.kp, t.ki, t.kd);
      commands := [];
      new;
      var _ := Run(classes, readings);
    }

    /**
     * `run()` over `readings`: the commands of `Turn` and no hold; `exited` is `false` when
     * the readings ran out mid-turn.
     */
    method Run(classes: MovementPidLoop.PidLoopClasses, readings: seq<TurnReading>) returns (exited: bool)
      requires pid.Configured()
      modifies this, pid
      ensures var o := Turn(pid.Gains(), classes.IntegralLimit(pid.lineage), angle, leftDriven, rightDriven,
                            old(pid.State()), readings);
              && commands == old(commands) + o.events
              && pid.State() == o.state
              && exited == o.exited
    {
      var settled := Ev3pidGyroTurn.Settled(angle);
      ghost var g := pid.Gains();
      ghost var il := classes.IntegralLimit(pid.lineage);
      ghost var issued: seq<MotorEvent> := [];
      PrependNothing(Turn(g, il, angle, leftDriven, rightDriven, pid.State(), readings));
      var i := 0;
      while i < |readings| && !settled(readings[i])
        invariant 0 <= i <= |readings|
        invariant commands == old(commands) + issued
        invariant Turn(g, il, angle, leftDriven, rightDriven, old(pid.State()), readings)
                  == Prepend(issued, Turn(g, il, angle, leftDriven, rightDriven, pid.State(), readings[i..]))
      {
        ghost var before := pid.State();
        var r := pid.Update(classes, (readings[i].heading - angle) as real);
        var output := r.value;
        var event := Command(leftDriven, rightDriven)(output);
        commands := commands + [event];
        TurnAdvance(g, il, angle, leftDriven, rightDriven, before, readings[i..], issued, pid.State(), output);
        assert readings[i..][1..] == readings[i + 1..];
        issued := issued + [event];
        i := i + 1;
      }
      exited := i < |readings|;
      assert Turn(g, il, angle, leftDriven, rightDriven, pid.State(), readings[i..]).events == [];
    }
  }
}
