/**
 * Squaring up on a line with two colour sensors, competition version
 * (pheasant/ev3pid/LineSquare.py): one controller per side drives that side's wheel until both
 * reflections lie within one point of their thresholds; then both motors hold.
 */
module PheasantLineSquare {
  import opened Wrappers
  import opened ClassAttributes
  import opened PidCommon
  import opened Hardware
  import opened Polling
  import PidController
  import ColorInputUtils
  import DoubleColorInputUtils
  import DoubleMotorBasePheasant

  /** The classes `self.__class__` attribute reads search for a LineSquare object. */
  const ClassLineage: Lineage := ["LineSquare", "PIDController", "DoubleColorInput", "ColorInput", "DoubleMotorBase"]

  /** The class each of the two controllers is an instance of. */
  const ControllerLineage: Lineage := ["PIDController"]

  /** `THRESHOLD_TOLERANCE` */
  const ThresholdTolerance: nat := 1

  /** `LINE_WAIT_TIME`, in milliseconds. */
  const LineWaitTime: nat := 75

  /** Which side of the line the robot starts on. */
  datatype LinePosition = Ahead | Behind

  /** `1 if linePosition == LinePosition.AHEAD else -1` */
  function Multiplier(position: LinePosition): (m: real)
    ensures m == 1.0 || m == -1.0
    ensures m == 1.0 <==> position == Ahead
  {
    if position == Ahead then 1.0 else -1.0
  }

  /**
   * `x in range(threshold - tolerance, threshold + tolerance + 1)`: within `tolerance` of the
   * threshold, both ends included.
   */
  function InBand(x: int, threshold: int, tolerance: nat): (b: bool)
    ensures b <==> Abs(x - threshold) <= tolerance
  {
    threshold - tolerance <= x < threshold + tolerance + 1
  }

  /** The exit test of `run`: both reflections inside their bands at the same check. */
  function Aligned(leftThreshold: int, rightThreshold: int, tolerance: nat): SquareReading -> bool
  {
    (r: SquareReading) => InBand(r.leftReflection, leftThreshold, tolerance) && InBand(r.rightReflection, rightThreshold, tolerance)
  }

  /** The left controller's error: `leftSensor.reflection() - leftThreshold`. */
  function LeftError(threshold: int): SquareReading -> real
  {
    (r: SquareReading) => (r.leftReflection - threshold) as real
  }

  /** The right controller's error: `rightSensor.reflection() - rightThreshold`. */
  function RightError(threshold: int): SquareReading -> real
  {
    (r: SquareReading) => (r.rightReflection - threshold) as real
  }

  /** Each wheel runs at its own controller's output times the direction multiplier. */
  function Command(position: LinePosition): (real, real) -> MotorEvent
  {
    (left: real, right: real) => Drive(left * Multiplier(position), right * Multiplier(position))
  }

  /** The command for a pair of controller outputs drives each wheel at its output times the multiplier. */
  lemma CommandDrives(position: LinePosition, left: real, right: real)
    ensures Command(position)(left, right) == Drive(left * Multiplier(position), right * Multiplier(position))
  {
  }

  /** One iteration of the loop body, on the two controllers' states. */
  function Tick(g: Gains, integralLimit: Option<real>, outputLimit: Option<real>,
                leftThreshold: int, rightThreshold: int, position: LinePosition)
    : ((PidState, PidState), SquareReading) -> ((PidState, PidState), MotorEvent)
  {
    (s: (PidState, PidState), r: SquareReading) =>
      var ul := PidController.Step(g, integralLimit, outputLimit, s.0, LeftError(leftThreshold)(r), 1);
      var ur := PidController.Step(g, integralLimit, outputLimit, s.1, RightError(rightThreshold)(r), 1);
      ((ul.0, ur.0), Command(position)(ul.1, ur.1))
  }

  /** What the loop of `run` does with `readings`, before the hold. */
  function Square(g: Gains, integralLimit: Option<real>, outputLimit: Option<real>,
                  leftThreshold: int, rightThreshold: int, position: LinePosition,
                  s: (PidState, PidState), readings: seq<SquareReading>): Outcome<(PidState, PidState)>
  {
    Poll(Aligned(leftThreshold, rightThreshold, ThresholdTolerance),
         Tick(g, integralLimit, outputLimit, leftThreshold, rightThreshold, position), s, readings)
  }

  /** One iteration of `run`, as the loop performs it. */
  lemma SquareAdvance(g: Gains, integralLimit: Option<real>, outputLimit: Option<real>,
                      leftThreshold: int, rightThreshold: int, position: LinePosition,
                      s: (PidState, PidState), readings: seq<SquareReading>, issued: seq<MotorEvent>,
                      left': PidState, leftOutput: real, right': PidState, rightOutput: real)
    requires |readings| > 0 && !Aligned(leftThreshold, rightThreshold, ThresholdTolerance)(readings[0])
    requires PidController.Step(g, integralLimit, outputLimit, s.0, (readings[0].leftReflection - leftThreshold) as real, 1)
             == (left', leftOutput)
    requires PidController.Step(g, integralLimit, outputLimit, s.1, (readings[0].rightReflection - rightThreshold) as real, 1)
             == (right', rightOutput)
    ensures Prepend(issued, Square(g, integralLimit, outputLimit, leftThreshold, rightThreshold, position, s, readings))
            == Prepend(issued + [Command(position)(leftOutput, rightOutput)],
                       Square(g, integralLimit, outputLimit, leftThreshold, rightThreshold, position, (left', right'), readings[1..]))
  {
    var tick := Tick(g, integralLimit, outputLimit, leftThreshold, rightThreshold, position);
    assert LeftError(leftThreshold)(readings[0]) == (readings[0].leftReflection - leftThreshold) as real;
    assert RightError(rightThreshold)(readings[0]) == (readings[0].rightReflection - rightThreshold) as real;
    assert tick(s, readings[0]) == ((left', right'), Command(position)(leftOutput, rightOutput));
    PollAdvance(Aligned(leftThreshold, rightThreshold, ThresholdTolerance), tick, s, readings, issued,
                (left', right'), Command(position)(leftOutput, rightOutput));
  }

  /** The loop body is the two controllers' updates side by side, commanded through the multiplier. */
  lemma TickSplits(g: Gains, integralLimit: Option<real>, outputLimit: Option<real>,
                   leftThreshold: int, rightThreshold: int, position: LinePosition,
                   s0: (PidState, PidState), r: SquareReading)
    ensures var update := PidController.Updater(g, integralLimit, outputLimit, 1);
            var le := LeftError(leftThreshold);
            var re := RightError(rightThreshold);
            Tick(g, integralLimit, outputLimit, leftThreshold, rightThreshold, position)(s0, r)
            == ((update(s0.0, le(r)).0, update(s0.1, re(r)).0), Command(position)(update(s0.0, le(r)).1, update(s0.1, re(r)).1))
  {
    var update := PidController.Updater(g, integralLimit, outputLimit, 1);
    assert update(s0.0, LeftError(leftThreshold)(r))
           == PidController.Step(g, integralLimit, outputLimit, s0.0, LeftError(leftThreshold)(r), 1);
    assert update(s0.1, RightError(rightThreshold)(r))
           == PidController.Step(g, integralLimit, outputLimit, s0.1, RightError(rightThreshold)(r), 1);
  }

  /**
   * The loop leaves at the first reading with both reflections within one point of their
   * thresholds, after one command per earlier reading, each of which had a reflection outside.
   */
  lemma SquareExit(g: Gains, integralLimit: Option<real>, outputLimit: Option<real>,
                   leftThreshold: int, rightThreshold: int, position: LinePosition,
                   s: (PidState, PidState), readings: seq<SquareReading>)
    ensures var o := Square(g, integralLimit, outputLimit, leftThreshold, rightThreshold, position, s, readings);
            var k := FirstDone(Aligned(leftThreshold, rightThreshold, ThresholdTolerance), readings);
            && (o.exited <==> k < |readings|)
            && (o.exited ==> Abs(readings[k].leftReflection - leftThreshold) <= 1
                             && Abs(readings[k].rightReflection - rightThreshold) <= 1)
            && (forall j :: 0 <= j < k ==> Abs(readings[j].leftReflection - leftThreshold) > 1
                                           || Abs(readings[j].rightReflection - rightThreshold) > 1)
            && |o.events| == k
  {
    PollExitsAtFirstDone(Aligned(leftThreshold, rightThreshold, ThresholdTolerance),
                         Tick(g, integralLimit, outputLimit, leftThreshold, rightThreshold, position), s, readings);
  }

  /**
   * Before the loop leaves, each wheel's command is its own controller's response to its own
   * side's errors, times the direction multiplier, and each controller ends in the state its
   * own side's errors lead to: the two sides interact only through the shared exit test.
   */
  lemma SquareFollowsControllers(g: Gains, integralLimit: Option<real>, outputLimit: Option<real>,
                                 leftThreshold: int, rightThreshold: int, position: LinePosition,
                                 s: (PidState, PidState), readings: seq<SquareReading>)
    ensures var o := Square(g, integralLimit, outputLimit, leftThreshold, rightThreshold, position, s, readings);
            var k := FirstDone(Aligned(leftThreshold, rightThreshold, ThresholdTolerance), readings);
            var update := PidController.Updater(g, integralLimit, outputLimit, 1);
            var lefts := Map(LeftError(leftThreshold), readings[..k]);
            var rights := Map(RightError(rightThreshold), readings[..k]);
            var m := Multiplier(position);
            && |o.events| == k
            && (forall i :: 0 <= i < k ==>
                  o.events[i] == Drive(Responses(update, s.0, lefts)[i] * m, Responses(update, s.1, rights)[i] * m))
            && o.state == (Settle(update, s.0, lefts), Settle(update, s.1, rights))
  {
    var done := Aligned(leftThreshold, rightThreshold, ThresholdTolerance);
    var tick := Tick(g, integralLimit, outputLimit, leftThreshold, rightThreshold, position);
    var update := PidController.Updater(g, integralLimit, outputLimit, 1);
    var le := LeftError(leftThreshold);
    var re := RightError(rightThreshold);
    var lefts := Map(le, readings[..FirstDone(done, readings)]);
    var rights := Map(re, readings[..FirstDone(done, readings)]);
    var outsL := Responses(update, s.0, lefts);
    var outsR := Responses(update, s.1, rights);
    var o := Poll(done, tick, s, readings);
    assert o.state == (Settle(update, s.0, lefts), Settle(update, s.1, rights))
           && |o.events| == FirstDone(done, readings)
           && (forall i :: 0 <= i < |o.events| ==> o.events[i] == Command(position)(outsL[i], outsR[i])) by {
      forall s0: (PidState, PidState), r: SquareReading
        ensures tick(s0, r) == ((update(s0.0, le(r)).0, update(s0.1, re(r)).0),
                                Command(position)(update(s0.0, le(r)).1, update(s0.1, re(r)).1))
      {
        TickSplits(g, integralLimit, outputLimit, leftThreshold, rightThreshold, position, s0, r);
      }
      PollThroughTwoControllers(done, tick, update, le, re, Command(position), s, readings);
    }
    forall i | 0 <= i < |o.events|
      ensures o.events[i] == Drive(outsL[i] * Multiplier(position), outsR[i] * Multiplier(position))
    {
      CommandDrives(position, outsL[i], outsR[i]);
    }
  }

  /**
   * Starting BEHIND the line gives the same controller history and every command with both
   * wheels reversed.
   */
  lemma BehindNegates(g: Gains, integralLimit: Option<real>, outputLimit: Option<real>,
                      leftThreshold: int, rightThreshold: int, s: (PidState, PidState), readings: seq<SquareReading>)
    ensures var ahead := Square(g, integralLimit, outputLimit, leftThreshold, rightThreshold, Ahead, s, readings);
            Square(g, integralLimit, outputLimit, leftThreshold, rightThreshold, Behind, s, readings)
            == Outcome(Map(Reversed, ahead.events), ahead.exited, ahead.consumed, ahead.state)
  {
    var tickAhead := Tick(g, integralLimit, outputLimit, leftThreshold, rightThreshold, Ahead);
    var tickBehind := Tick(g, integralLimit, outputLimit, leftThreshold, rightThreshold, Behind);
    forall s0: (PidState, PidState), r: SquareReading
      ensures tickBehind(s0, r) == (tickAhead(s0, r).0, Reversed(tickAhead(s0, r).1))
    {
      var ul := PidController.Step(g, integralLimit, outputLimit, s0.0, LeftError(leftThreshold)(r), 1);
      var ur := PidController.Step(g, integralLimit, outputLimit, s0.1, RightError(rightThreshold)(r), 1);
      assert Multiplier(Ahead) == 1.0 && Multiplier(Behind) == -1.0;
      assert tickAhead(s0, r) == ((ul.0, ur.0), Command(Ahead)(ul.1, ur.1));
      assert tickBehind(s0, r) == ((ul.0, ur.0), Command(Behind)(ul.1, ur.1));
      assert Command(Ahead)(ul.1, ur.1) == Drive(ul.1, ur.1);
      assert Command(Behind)(ul.1, ur.1) == Drive(-ul.1, -ur.1);
    }
    PollMapsCommands(Aligned(leftThreshold, rightThreshold, ThresholdTolerance), tickAhead, tickBehind, Reversed, s, readings);
  }

  class LineSquare {
    const linePosition: LinePosition
    const leftSensor: Option<ColorSensor>
    const rightSensor: Option<ColorSensor>
    const leftThreshold: Option<int>
    const rightThreshold: Option<int>
    const leftMotor: Option<Motor>
    const rightMotor: Option<Motor>
    const leftPid: PidController.PIDController
    const rightPid: PidController.PIDController
    /** The commands given to the two drive motors so far. */
    var commands: seq<MotorEvent>

    /** Two controller objects with the same tuning. */
    predicate Valid()
    {
      leftPid != rightPid && leftPid.Tuning() == rightPid.Tuning()
    }

    /**
     * `LineSquare(linePosition, leftSensor, rightSensor, leftThreshold, rightThreshold,
     * leftMotor, rightMotor, kp, ki, kd, integralLimit, outputLimit)`: sensors and thresholds
     * resolved by the two-sensor mixin, motors by the motor mixin, each omitted tuning value
     * by `LineSquare`'s default and then, inside each controller, by `PIDController`'s. The
     * controllers' setpoints are the threshold arguments as passed. Nothing runs.
     */
    constructor (sides: DoubleColorInputUtils.SideDefaults, known: ColorInputUtils.ColorDefaults,
                 motors: DoubleMotorBasePheasant.MotorDefaults, pidDefaults: TuningDefaults,
                 linePosition: LinePosition, leftSensor: Option<ColorSensor>, rightSensor: Option<ColorSensor>,
                 leftThreshold: Option<int>, rightThreshold: Option<int>,
                 leftMotor: Option<Motor>, rightMotor: Option<Motor>,
                 kp: Option<real>, ki: Option<real>, kd: Option<real>,
                 integralLimit: Option<real>, outputLimit: Option<real>)
      ensures Valid()
      ensures leftPid.Tuning() == Tuning(kp, ki, kd, integralLimit, outputLimit)
                                    .Or(pidDefaults.Defaults(ClassLineage))
                                    .Or(pidDefaults.Defaults(ControllerLineage))
      ensures leftPid.setpoint == leftThreshold && rightPid.setpoint == rightThreshold
      ensures leftPid.State() == Zero && rightPid.State() == Zero
      ensures this.linePosition == linePosition
      ensures DoubleColorInputUtils.Sides(this.leftSensor, this.rightSensor, this.leftThreshold, this.rightThreshold)
              == sides.Fields(known, ClassLineage, leftSensor, rightSensor, leftThreshold, rightThreshold)
      ensures (this.leftMotor, this.rightMotor) == motors.Motors(ClassLineage, leftMotor, rightMotor)
      ensures commands == []
      ensures fresh(leftPid) && fresh(rightPid)
    {
      this.linePosition := linePosition;
      var f := sides.Fields(known, ClassLineage, leftSensor, rightSensor, leftThreshold, rightThreshold);
      this.leftSensor, this.rightSensor := f.leftSensor, f.rightSensor;
      this.leftThreshold, this.rightThreshold := f.leftThreshold, f.rightThreshold;
      var m := motors.Motors(ClassLineage, leftMotor, rightMotor);
      this.leftMotor, this.rightMotor := m.0, m.1;
      var t := Tuning(kp, ki, kd, integralLimit, outputLimit).Or(pidDefaults.Defaults(ClassLineage));
      assert Tuning(t.kp, t.ki, t.kd, t.integralLimit, t.outputLimit) == t;
      var left := new PidController.PIDController(pidDefaults, ControllerLineage, leftThreshold,
                                                  t.kp, t.ki, t.kd, t.integralLimit, t.outputLimit);
      assert left.Tuning() == t.Or(pidDefaults.Defaults(ControllerLineage)) && left.State() == Zero;
      var right := new PidController.PIDController(pidDefaults, ControllerLineage, rightThreshold,
                                                   t.kp, t.ki, t.kd, t.integralLimit, t.outputLimit);
      this.leftPid, this.rightPid := left, right;
      commands := [];
    }

    /**
     * One pass of the loop body of `run()` on `reading`: each controller is updated on its own
     * side's error and one command, each output times the multiplier, goes to the motors.
     */
    method RunOnce(reading: SquareReading) returns (event: MotorEvent)
      requires Valid() && leftPid.Configured()
      requires leftThreshold.Some? && rightThreshold.Some?
      modifies this, leftPid, rightPid
      ensures var ul := PidController.Step(leftPid.Gains(), leftPid.integralLimit, leftPid.outputLimit, old(leftPid.State()),
                                           (reading.leftReflection - leftThreshold.value) as real, 1);
              var ur := PidController.Step(leftPid.Gains(), leftPid.integralLimit, leftPid.outputLimit, old(rightPid.State()),
                                           (reading.rightReflection - rightThreshold.value) as real, 1);
              && leftPid.State() == ul.0 && rightPid.State() == ur.0
              && event == Command(linePosition)(ul.1, ur.1)
              && commands == old(commands) + [event]
    {
      assert rightPid.Configured() && rightPid.Gains() == leftPid.Gains();
      assert rightPid.integralLimit == leftPid.integralLimit && rightPid.outputLimit == leftPid.outputLimit;
      var l := leftPid.Update((reading.leftReflection - leftThreshold.value) as real, 1);
      var r := rightPid.Update((reading.rightReflection - rightThreshold.value) as real, 1);
      event := Drive(l.value * Multiplier(linePosition), r.value * Multiplier(linePosition));
      CommandDrives(linePosition, l.value, r.value);
      commands := commands + [event];
    }

    /**
     * `run()` over `readings`: the commands of `Square`, then a hold of both motors if the exit
     * test held (`exited`); `false` means the readings ran out before both sides aligned.
     */
    method Run(readings: seq<SquareReading>) returns (exited: bool)
      requires Valid() && leftPid.Configured()
      requires leftThreshold.Some? && rightThreshold.Some?
      modifies this, leftPid, rightPid
      ensures var o := Square(leftPid.Gains(), leftPid.integralLimit, leftPid.outputLimit,
                              leftThreshold.value, rightThreshold.value, linePosition,
                              (old(leftPid.State()), old(rightPid.State())), readings);
              && commands == old(commands) + o.events + (if o.exited then [HoldBoth] else [])
              && (leftPid.State(), rightPid.State()) == o.state
              && exited == o.exited
    {
      var lt, rt := leftThreshold.value, rightThreshold.value;
      ghost var g := leftPid.Gains();
      ghost var il, ol := leftPid.integralLimit, leftPid.outputLimit;
      ghost var issued: seq<MotorEvent> := [];
      ghost var start := (leftPid.State(), rightPid.State());
      ghost var st := start;
      PrependNothing(Square(g, il, ol, lt, rt, linePosition, start, readings));
      var i := 0;
      while i < |readings| && !(InBand(readings[i].leftReflection, lt, ThresholdTolerance)
                                && InBand(readings[i].rightReflection, rt, ThresholdTolerance))
        invariant 0 <= i <= |readings|
        invariant (leftPid.State(), rightPid.State()) == st
        invariant commands == old(commands) + issued
        invariant Square(g, il, ol, lt, rt, linePosition, start, readings)
                  == Prepend(issued, Square(g, il, ol, lt, rt, linePosition, st, readings[i..]))
      {
        ghost var ul := PidController.Step(g, il, ol, st.0, (readings[i].leftReflection - lt) as real, 1);
        ghost var ur := PidController.Step(g, il, ol, st.1, (readings[i].rightReflection - rt) as real, 1);
        var event := RunOnce(readings[i]);
        assert !Aligned(lt, rt, ThresholdTolerance)(readings[i..][0]);
        SquareAdvance(g, il, ol, lt, rt, linePosition, st, readings[i..], issued, ul.0, ul.1, ur.0, ur.1);
        assert readings[i..][1..] == readings[i + 1..];
        issued := issued + [event];
        st := (ul.0, ur.0);
        i := i + 1;
      }
      exited := i < |readings|;
      assert Square(g, il, ol, lt, rt, linePosition, st, readings[i..]).events == [];
      if exited {
        commands := commands + [HoldBoth];
      }
    }
  }
}
