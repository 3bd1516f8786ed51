/**
 * Turning on the spot to a gyro heading, earlier version (ev3pid/GyroTurn.py): the same
 * single/double tuning selection and wheel commands as the competition version, but on the
 * earlier base controller, with an exact exit test, and the turn runs as soon as the object
 * is built.
 */
module Ev3pidGyroTurn {
  import opened Wrappers
  import opened ClassAttributes
  import opened PidCommon
  import opened Hardware
  import opened Polling
  import BasePidLoop
  import GyroMovementBase
  import DoubleMotorBaseEv3move
  import PheasantGyroTurn

  /** The classes `self.__class__` attribute reads search for a GyroTurn object. */
  const ClassLineage: Lineage := ["GyroTurn", "PIDLoop", "GyroMovement", "DoubleMotorBase"]

  /** The exit test: exactly on the target heading with both wheels stopped. */
  function Settled(target: int): TurnReading -> bool
  {
    (r: TurnReading) => r.heading == target && r.leftSpeed == 0 && r.rightSpeed == 0
  }

  /** The exact exit test is the competition version's `run(precisely=True)` test. */
  lemma ExactIsPrecise(target: int, r: TurnReading)
    ensures Settled(target)(r) == PheasantGyroTurn.Settled(target, true)(r)
    ensures Settled(target)(r) ==> PheasantGyroTurn.Settled(target, false)(r)
  {
    assert PheasantGyroTurn.Tolerances(true) == (0, 0);
  }

  /** One iteration of the loop body, on the controller's state. */
  function Tick(g: Gains, integralLimit: Option<real>, outputLimit: Option<real>, target: int,
                leftDriven: bool, rightDriven: bool): (PidState, TurnReading) -> (PidState, MotorEvent)
  {
    (s: PidState, r: TurnReading) =>
      var u := BasePidLoop.Step(g, integralLimit, outputLimit, s, PheasantGyroTurn.HeadingError(target)(r));
      (u.0, PheasantGyroTurn.Command(leftDriven, rightDriven)(u.1))
  }

  /** What `run` does with `readings`, before the final hold. */
  function Turn(g: Gains, integralLimit: Option<real>, outputLimit: Option<real>, target: int,
                leftDriven: bool, rightDriven: bool, s: PidState, readings: seq<TurnReading>): Outcome<PidState>
  {
    Poll(Settled(target), Tick(g, integralLimit, outputLimit, target, leftDriven, rightDriven), s, readings)
  }

  /** One iteration of `run`, as the loop performs it. */
  lemma TurnAdvance(g: Gains, integralLimit: Option<real>, outputLimit: Option<real>, target: int,
                    leftDriven: bool, rightDriven: bool, s: PidState, readings: seq<TurnReading>,
                    issued: seq<MotorEvent>, s': PidState, output: real)
    requires |readings| > 0 && !Settled(target)(readings[0])
    requires BasePidLoop.Step(g, integralLimit, outputLimit, s, (readings[0].heading - target) as real) == (s', output)
    ensures Prepend(issued, Turn(g, integralLimit, outputLimit, target, leftDriven, rightDriven, s, readings))
            == Prepend(issued + [PheasantGyroTurn.Command(leftDriven, rightDriven)(output)],
                       Turn(g, integralLimit, outputLimit, target, leftDriven, rightDriven, s', readings[1..]))
  {
    var tick := Tick(g, integralLimit, outputLimit, target, leftDriven, rightDriven);
    assert PheasantGyroTurn.HeadingError(target)(readings[0]) == (readings[0].heading - target) as real;
    assert tick(s, readings[0]) == (s', PheasantGyroTurn.Command(leftDriven, rightDriven)(output));
    PollAdvance(Settled(target), tick, s, readings, issued, s', PheasantGyroTurn.Command(leftDriven, rightDriven)(output));
  }

  /**
   * Every command drives the wheels in opposite directions: an undriven wheel gets 0 at every
   * tick, and with both driven the left speed is minus the right speed.
   */
  lemma {:induction false} CommandsTurnOnTheSpot(g: Gains, integralLimit: Option<real>, outputLimit: Option<real>,
                                                 target: int, leftDriven: bool, rightDriven: bool,
                                                 s: PidState, readings: seq<TurnReading>)
    ensures var o := Turn(g, integralLimit, outputLimit, target, leftDriven, rightDriven, s, readings);
            forall i :: 0 <= i < |o.events| ==> PheasantGyroTurn.TurnShape(leftDriven, rightDriven, o.events[i])
  {
    var tick := Tick(g, integralLimit, outputLimit, target, leftDriven, rightDriven);
    var shape := (e: MotorEvent) => PheasantGyroTurn.TurnShape(leftDriven, rightDriven, e);
    forall s': PidState, r: TurnReading ensures shape(tick(s', r).1) {
      var o := BasePidLoop.Step(g, integralLimit, outputLimit, s', PheasantGyroTurn.HeadingError(target)(r)).1;
      assert tick(s', r).1 == PheasantGyroTurn.Command(leftDriven, rightDriven)(o);
    }
    PollKeepsShape(Settled(target), tick, s, readings, shape);
  }

  /**
   * The loop stops at the first reading exactly on target with both wheels stopped; the
   * commands before it are the controller's responses to the heading errors of the earlier
   * readings, and the controller ends in the state those errors lead to.
   */
  lemma {:induction false} TurnFollowsController(g: Gains, integralLimit: Option<real>, outputLimit: Option<real>,
                                                 target: int, leftDriven: bool, rightDriven: bool,
                                                 s: PidState, readings: seq<TurnReading>)
    ensures var o := Turn(g, integralLimit, outputLimit, target, leftDriven, rightDriven, s, readings);
            var k := FirstDone(Settled(target), readings);
            var errors := Map(PheasantGyroTurn.HeadingError(target), readings[..k]);
            && (o.exited <==> k < |readings|)
            && o.events == Map(PheasantGyroTurn.Command(leftDriven, rightDriven),
                               Responses(BasePidLoop.Updater(g, integralLimit, outputLimit), s, errors))
            && o.state == Settle(BasePidLoop.Updater(g, integralLimit, outputLimit), s, errors)
  {
    var done := Settled(target);
    var tick := Tick(g, integralLimit, outputLimit, target, leftDriven, rightDriven);
    PollExitsAtFirstDone(done, tick, s, readings);
    PollThroughController(done, tick, BasePidLoop.Updater(g, integralLimit, outputLimit),
                          PheasantGyroTurn.HeadingError(target), PheasantGyroTurn.Command(leftDriven, rightDriven), s, readings);
  }

  /**
   * The tuning the constructor hands to the base controller: each argument, else the SINGLE or
   * DOUBLE default (read through the class name `GyroTurn`); the controller then resolves what
   * is still `None` and stores the limits as the base constructor does.
   */
  function StoredTuning(turnDefaults: PheasantGyroTurn.TurnDefaults, pidDefaults: TuningDefaults,
                        leftDriven: bool, rightDriven: bool, args: Tuning): (t: Tuning)
    reads turnDefaults, pidDefaults
    ensures var chosen := args.Or(turnDefaults.Selected(leftDriven, rightDriven));
            t == BasePidLoop.ResolveTuning(chosen, pidDefaults.Defaults(ClassLineage))
    ensures args.kp.Some? ==> t.kp == args.kp
    ensures args.outputLimit.Some? ==> t.integralLimit == t.outputLimit == args.outputLimit
  {
    BasePidLoop.ResolveTuning(args.Or(turnDefaults.Selected(leftDriven, rightDriven)), pidDefaults.Defaults(ClassLineage))
  }

  class GyroTurn {
    const angle: int
    const leftDriven: bool
    const rightDriven: bool
    const sensor: Option<GyroSensor>
    const leftMotor: Option<Motor>
    const rightMotor: Option<Motor>
    const pid: BasePidLoop.PIDLoop
    /** The commands given to the two drive motors so far. */
    var commands: seq<MotorEvent>

    /**
     * `GyroTurn(angle, leftDriven, rightDriven, sensor, leftMotor, rightMotor, kp, ki, kd,
     * integralLimit, outputLimit)`: resolves the tuning and the devices, then runs the turn
     * over `readings` at once.
     */
    constructor (turnDefaults: PheasantGyroTurn.TurnDefaults, pidDefaults: TuningDefaults,
                 gyros: GyroMovementBase.GyroDefaults, motors: DoubleMotorBaseEv3move.MotorDefaults,
                 angle: int, leftDriven: bool, rightDriven: bool,
                 sensor: Option<GyroSensor>, leftMotor: Option<Motor>, rightMotor: Option<Motor>,
                 kp: Option<real>, ki: Option<real>, kd: Option<real>,
                 integralLimit: Option<real>, outputLimit: Option<real>, readings: seq<TurnReading>)
      requires var t := StoredTuning(turnDefaults, pidDefaults, leftDriven, rightDriven,
                                     Tuning(kp, ki, kd, integralLimit, outputLimit));
               t.kp.Some? && t.ki.Some? && t.kd.Some?
      ensures pid.Tuning() == StoredTuning(turnDefaults, pidDefaults, leftDriven, rightDriven,
                                           Tuning(kp, ki, kd, integralLimit, outputLimit))
      ensures pid.setpoint == Some(angle)
      ensures this.angle == angle && this.leftDriven == leftDriven && this.rightDriven == rightDriven
      ensures this.sensor == gyros.Sensor(ClassLineage, sensor)
      ensures (this.leftMotor, this.rightMotor) == motors.Motors(ClassLineage, leftMotor, rightMotor)
      ensures var o := Turn(pid.Gains(), pid.integralLimit, pid.outputLimit, angle, leftDriven, rightDriven, Zero, readings);
              && commands == o.events + (if o.exited then [HoldBoth] else [])
              && pid.State() == o.state
      ensures fresh(pid)
    {
      var t := StoredTuning(turnDefaults, pidDefaults, leftDriven, rightDriven, Tuning(kp, ki, kd, integralLimit, outputLimit));
      var chosen := Tuning(kp, ki, kd, integralLimit, outputLimit).Or(turnDefaults.Selected(leftDriven, rightDriven));
      this.angle := angle;
      this.leftDriven, this.rightDriven := leftDriven, rightDriven;
      this.sensor := gyros.Sensor(ClassLineage, sensor);
      var m := motors.Motors(ClassLineage, leftMotor, rightMotor);
      this.leftMotor, this.rightMotor := m.0, m.1;
      this.pid := new BasePidLoop.PIDLoop(pidDefaults, ClassLineage, Some(angle), chosen.kp, chosen.ki, chosen.kd,
                                          chosen.integralLimit, chosen.outputLimit);
      commands := [];
      new;
      ghost var o := Turn(pid.Gains(), pid.integralLimit, pid.outputLimit, angle, leftDriven, rightDriven, Zero, readings);
      var _ := Run(readings);
      assert commands == [] + o.events + (if o.exited then [HoldBoth] else []);
      assert [] + o.events == o.events;
    }

    /**
     * `run()` over `readings`: the commands of `Turn`, then a hold of both motors if the exit
     * test held (`exited`); `false` means the readings ran out mid-turn.
     */
    method Run(readings: seq<TurnReading>) returns (exited: bool)
      requires pid.Configured()
      modifies this, pid
      ensures var o := Turn(pid.Gains(), pid.integralLimit, pid.outputLimit, angle, leftDriven, rightDriven,
                            old(pid.State()), readings);
              && commands == old(commands) + o.events + (if o.exited then [HoldBoth] else [])
              && pid.State() == o.state
              && exited == o.exited
    {
      var settled := Settled(angle);
      ghost var g := pid.Gains();
      ghost var issued: seq<MotorEvent> := [];
      PrependNothing(Turn(g, pid.integralLimit, pid.outputLimit, angle, leftDriven, rightDriven, pid.State(), readings));
      var i := 0;
      while i < |readings| && !settled(readings[i])
        invariant 0 <= i <= |readings|
        invariant commands == old(commands) + issued
        invariant Turn(g, pid.integralLimit, pid.outputLimit, angle, leftDriven, rightDriven, old(pid.State()), readings)
                  == Prepend(issued, Turn(g, pid.integralLimit, pid.outputLimit, angle, leftDriven, rightDriven, pid.State(), readings[i..]))
      {
        ghost var before := pid.State();
        var r := pid.Update((readings[i].heading - angle) as real);
        var output := r.value;
        var event := PheasantGyroTurn.Command(leftDriven, rightDriven)(output);
        commands := commands + [event];
        TurnAdvance(g, pid.integralLimit, pid.outputLimit, angle, leftDriven, rightDriven, before, readings[i..],
                    issued, pid.State(), output);
        assert readings[i..][1..] == readings[i + 1..];
        issued := issued + [event];
        i := i + 1;
      }
      exited := i < |readings|;
      assert Turn(g, pid.integralLimit, pid.outputLimit, angle, leftDriven, rightDriven, pid.State(), readings[i..]).events == [];
      if exited {
        commands := commands + [HoldBoth];
      }
    }
  }
}
