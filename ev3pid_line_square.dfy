/**
 * Squaring up on a line with two colour sensors, later version (ev3pid/LineSquare.py): both
 * wheels first drive at a fixed speed until both sensors see the line colour; the motors hold;
 * then one controller per side drives that side's wheel until both reflections lie within two
 * points of their thresholds, and the motors hold again.
 */
module Ev3pidLineSquare {
  import opened Wrappers
  import opened ClassAttributes
  import opened PidCommon
  import opened Hardware
  import opened Polling
  import BasePidLoop
  import DoubleMotorBaseEv3move
  import PheasantLineSquare

  /** The classes `self.__class__` attribute reads search for a LineSquare object. */
  const ClassLineage: Lineage := ["LineSquare", "PIDLoop", "DoubleMotorBase"]

  /** The class each of the two controllers is an instance of. */
  const ControllerLineage: Lineage := ["PIDLoop"]

  /** `MOVE_TO_LINE_SPEED` */
  const MoveToLineSpeed: real := 250.0

  /** `LINE_WAIT_TIME`, in milliseconds. */
  const LineWaitTime: nat := 75

  /** `LINE_COLOR` */
  const LineColor: Color := Black

  /** `THRESHOLD_TOLERANCE` */
  const ThresholdTolerance: nat := 2

  /** The exit test of the approach: both sensors report the line colour at the same check. */
  function OnLine(r: SquareReading): bool
  {
    r.leftColor == Some(LineColor) && r.rightColor == Some(LineColor)
  }

  /** One iteration of the approach: both wheels at `MOVE_TO_LINE_SPEED` times the multiplier. */
  function ApproachTick(position: PheasantLineSquare.LinePosition)
    : ((PidState, PidState), SquareReading) -> ((PidState, PidState), MotorEvent)
  {
    (s: (PidState, PidState), r: SquareReading) =>
      (s, Drive(MoveToLineSpeed * PheasantLineSquare.Multiplier(position),
                MoveToLineSpeed * PheasantLineSquare.Multiplier(position)))
  }

  /** What the first loop of `runUntil` does with `readings`. */
  function Approach(position: PheasantLineSquare.LinePosition, s: (PidState, PidState),
                    readings: seq<SquareReading>): Outcome<(PidState, PidState)>
  {
    Poll(OnLine, ApproachTick(position), s, readings)
  }

  /** One iteration of the second loop, on the two controllers' states. */
  function AlignTick(g: Gains, integralLimit: Option<real>, outputLimit: Option<real>,
                     leftThreshold: int, rightThreshold: int, position: PheasantLineSquare.LinePosition)
    : ((PidState, PidState), SquareReading) -> ((PidState, PidState), MotorEvent)
  {
    (s: (PidState, PidState), r: SquareReading) =>
      var ul := BasePidLoop.Step(g, integralLimit, outputLimit, s.0, PheasantLineSquare.LeftError(leftThreshold)(r));
      var ur := BasePidLoop.Step(g, integralLimit, outputLimit, s.1, PheasantLineSquare.RightError(rightThreshold)(r));
      ((ul.0, ur.0), PheasantLineSquare.Command(position)(ul.1, ur.1))
  }

  /** What the second loop of `runUntil` does with `readings`. */
  function Align(g: Gains, integralLimit: Option<real>, outputLimit: Option<real>,
                 leftThreshold: int, rightThreshold: int, position: PheasantLineSquare.LinePosition,
                 s: (PidState, PidState), readings: seq<SquareReading>): Outcome<(PidState, PidState)>
  {
    Poll(PheasantLineSquare.Aligned(leftThreshold, rightThreshold, ThresholdTolerance),
         AlignTick(g, integralLimit, outputLimit, leftThreshold, rightThreshold, position), s, readings)
  }

  /**
   * The whole of `runUntil`: the approach, a hold, then (on the readings after the one that
   * ended the approach) the alignment and a second hold. When the readings run out during a
   * phase, the trace stops there.
   */
  function SquareUp(g: Gains, integralLimit: Option<real>, outputLimit: Option<real>,
                    leftThreshold: int, rightThreshold: int, position: PheasantLineSquare.LinePosition,
                    s: (PidState, PidState), readings: seq<SquareReading>): Outcome<(PidState, PidState)>
  {
    var a := Approach(position, s, readings);
    PollExitsAtFirstDone(OnLine, ApproachTick(position), s, readings);
    if !a.exited then a
    else
      var b := Align(g, integralLimit, outputLimit, leftThreshold, rightThreshold, position, a.state, readings[a.consumed..]);
      Outcome(a.events + [HoldBoth] + b.events + (if b.exited then [HoldBoth] else []), b.exited, a.consumed + b.consumed, b.state)
  }

  /**
   * The approach issues the same command to both wheels, `MOVE_TO_LINE_SPEED` times the
   * multiplier, once per reading before the first on which both sensors see the line; it never
   * updates a controller.
   */
  lemma {:induction false} ApproachLeavesControllers(position: PheasantLineSquare.LinePosition,
                                                     s: (PidState, PidState), readings: seq<SquareReading>)
    ensures var o := Approach(position, s, readings);
            var k := FirstDone(OnLine, readings);
            var m := PheasantLineSquare.Multiplier(position);
            && (o.exited <==> k < |readings|)
            && (o.exited ==> readings[k].leftColor == Some(Black) && readings[k].rightColor == Some(Black))
            && |o.events| == k
            && (forall i :: 0 <= i < k ==> o.events[i] == Drive(250.0 * m, 250.0 * m))
            && o.state == s
    decreases |readings|
  {
    PollExitsAtFirstDone(OnLine, ApproachTick(position), s, readings);
    if |readings| > 0 && !OnLine(readings[0]) {
      ApproachLeavesControllers(position, s, readings[1..]);
      assert ApproachTick(position)(s, readings[0]).0 == s;
      var k := FirstDone(OnLine, readings);
      assert forall j :: 1 <= j < |readings| ==> readings[j] == readings[1..][j - 1];
    }
  }

  /** One iteration of the second loop, as `runUntil` performs it. */
  lemma AlignAdvance(g: Gains, integralLimit: Option<real>, outputLimit: Option<real>,
                     leftThreshold: int, rightThreshold: int, position: PheasantLineSquare.LinePosition,
                     s: (PidState, PidState), readings: seq<SquareReading>, issued: seq<MotorEvent>,
                     left': PidState, leftOutput: real, right': PidState, rightOutput: real)
    requires |readings| > 0 && !PheasantLineSquare.Aligned(leftThreshold, rightThreshold, ThresholdTolerance)(readings[0])
    requires BasePidLoop.Step(g, integralLimit, outputLimit, s.0, (readings[0].leftReflection - leftThreshold) as real)
             == (left', leftOutput)
    requires BasePidLoop.Step(g, integralLimit, outputLimit, s.1, (readings[0].rightReflection - rightThreshold) as real)
             == (right', rightOutput)
    ensures Prepend(issued, Align(g, integralLimit, outputLimit, leftThreshold, rightThreshold, position, s, readings))
            == Prepend(issued + [PheasantLineSquare.Command(position)(leftOutput, rightOutput)],
                       Align(g, integralLimit, outputLimit, leftThreshold, rightThreshold, position, (left', right'), readings[1..]))
  {
    var tick := AlignTick(g, integralLimit, outputLimit, leftThreshold, rightThreshold, position);
    assert PheasantLineSquare.LeftError(leftThreshold)(readings[0]) == (readings[0].leftReflection - leftThreshold) as real;
    assert PheasantLineSquare.RightError(rightThreshold)(readings[0]) == (readings[0].rightReflection - rightThreshold) as real;
    assert tick(s, readings[0]) == ((left', right'), PheasantLineSquare.Command(position)(leftOutput, rightOutput));
    PollAdvance(PheasantLineSquare.Aligned(leftThreshold, rightThreshold, ThresholdTolerance), tick, s, readings, issued,
                (left', right'), PheasantLineSquare.Command(position)(leftOutput, rightOutput));
  }

  /** The alignment tick is the two controllers' updates side by side, commanded through the multiplier. */
  lemma AlignTickSplits(g: Gains, integralLimit: Option<real>, outputLimit: Option<real>,
                        leftThreshold: int, rightThreshold: int, position: PheasantLineSquare.LinePosition,
                        s0: (PidState, PidState), r: SquareReading)
    ensures var update := BasePidLoop.Updater(g, integralLimit, outputLimit);
            var le := PheasantLineSquare.LeftError(leftThreshold);
            var re := PheasantLineSquare.RightError(rightThreshold);
            AlignTick(g, integralLimit, outputLimit, leftThreshold, rightThreshold, position)(s0, r)
            == ((update(s0.0, le(r)).0, update(s0.1, re(r)).0),
                PheasantLineSquare.Command(position)(update(s0.0, le(r)).1, update(s0.1, re(r)).1))
  {
    var update := BasePidLoop.Updater(g, integralLimit, outputLimit);
    var le := PheasantLineSquare.LeftError(leftThreshold);
    var re := PheasantLineSquare.RightError(rightThreshold);
    assert update(s0.0, le(r)) == BasePidLoop.Step(g, integralLimit, outputLimit, s0.0, le(r));
    assert update(s0.1, re(r)) == BasePidLoop.Step(g, integralLimit, outputLimit, s0.1, re(r));
  }

  /**
   * The alignment leaves at the first reading with both reflections within two points of their
   * thresholds, after one command per earlier reading, each of which had a reflection outside.
   */
  lemma AlignExit(g: Gains, integralLimit: Option<real>, outputLimit: Option<real>,
                  leftThreshold: int, rightThreshold: int, position: PheasantLineSquare.LinePosition,
                  s: (PidState, PidState), readings: seq<SquareReading>)
    ensures var o := Align(g, integralLimit, outputLimit, leftThreshold, rightThreshold, position, s, readings);
            var k := FirstDone(PheasantLineSquare.Aligned(leftThreshold, rightThreshold, ThresholdTolerance), readings);
            && (o.exited <==> k < |readings|)
            && (o.exited ==> Abs(readings[k].leftReflection - leftThreshold) <= 2
                             && Abs(readings[k].rightReflection - rightThreshold) <= 2)
            && (forall j :: 0 <= j < k ==> Abs(readings[j].leftReflection - leftThreshold) > 2
                                           || Abs(readings[j].rightReflection - rightThreshold) > 2)
            && |o.events| == k
  {
    PollExitsAtFirstDone(PheasantLineSquare.Aligned(leftThreshold, rightThreshold, ThresholdTolerance),
                         AlignTick(g, integralLimit, outputLimit, leftThreshold, rightThreshold, position), s, readings);
  }

  /**
   * Before the alignment leaves, each wheel's command is its own controller's response to its
   * own side's errors, times the multiplier, and each controller ends where its own errors lead.
   */
  lemma AlignFollowsControllers(g: Gains, integralLimit: Option<real>, outputLimit: Option<real>,
                                leftThreshold: int, rightThreshold: int,
                                position: PheasantLineSquare.LinePosition,
                                s: (PidState, PidState), readings: seq<SquareReading>)
    ensures var o := Align(g, integralLimit, outputLimit, leftThreshold, rightThreshold, position, s, readings);
            var k := FirstDone(PheasantLineSquare.Aligned(leftThreshold, rightThreshold, ThresholdTolerance), readings);
            var update := BasePidLoop.Updater(g, integralLimit, outputLimit);
            var lefts := Map(PheasantLineSquare.LeftError(leftThreshold), readings[..k]);
            var rights := Map(PheasantLineSquare.RightError(rightThreshold), readings[..k]);
            var m := PheasantLineSquare.Multiplier(position);
            && |o.events| == k
            && (forall i :: 0 <= i < k ==>
                  o.events[i] == Drive(Responses(update, s.0, lefts)[i] * m, Responses(update, s.1, rights)[i] * m))
            && o.state == (Settle(update, s.0, lefts), Settle(update, s.1, rights))
  {
    var done := PheasantLineSquare.Aligned(leftThreshold, rightThreshold, ThresholdTolerance);
    var tick := AlignTick(g, integralLimit, outputLimit, leftThreshold, rightThreshold, position);
    var update := BasePidLoop.Updater(g, integralLimit, outputLimit);
    var le := PheasantLineSquare.LeftError(leftThreshold);
    var re := PheasantLineSquare.RightError(rightThreshold);
    var lefts := Map(le, readings[..FirstDone(done, readings)]);
    var rights := Map(re, readings[..FirstDone(done, readings)]);
    var outsL := Responses(update, s.0, lefts);
    var outsR := Responses(update, s.1, rights);
    var o := Poll(done, tick, s, readings);
    assert o.state == (Settle(update, s.0, lefts), Settle(update, s.1, rights))
           && |o.events| == FirstDone(done, readings)
           && (forall i :: 0 <= i < |o.events| ==> o.events[i] == PheasantLineSquare.Command(position)(outsL[i], outsR[i])) by {
      forall s0: (PidState, PidState), r: SquareReading
        ensures tick(s0, r) == ((update(s0.0, le(r)).0, update(s0.1, re(r)).0),
                                PheasantLineSquare.Command(position)(update(s0.0, le(r)).1, update(s0.1, re(r)).1))
      {
        AlignTickSplits(g, integralLimit, outputLimit, leftThreshold, rightThreshold, position, s0, r);
      }
      PollThroughTwoControllers(done, tick, update, le, re, PheasantLineSquare.Command(position), s, readings);
    }
    forall i | 0 <= i < |o.events|
      ensures o.events[i] == Drive(outsL[i] * PheasantLineSquare.Multiplier(position), outsR[i] * PheasantLineSquare.Multiplier(position))
    {
      PheasantLineSquare.CommandDrives(position, outsL[i], outsR[i]);
    }
  }

  /**
   * The multiplier applies to both phases: starting BEHIND the line reverses every command of
   * the approach and of the alignment, and changes nothing else.
   */
  lemma BehindNegates(g: Gains, integralLimit: Option<real>, outputLimit: Option<real>,
                      leftThreshold: int, rightThreshold: int, s: (PidState, PidState), readings: seq<SquareReading>)
    ensures var ahead := Approach(PheasantLineSquare.Ahead, s, readings);
            Approach(PheasantLineSquare.Behind, s, readings)
            == Outcome(Map(Reversed, ahead.events), ahead.exited, ahead.consumed, ahead.state)
    ensures var ahead := Align(g, integralLimit, outputLimit, leftThreshold, rightThreshold, PheasantLineSquare.Ahead, s, readings);
            Align(g, integralLimit, outputLimit, leftThreshold, rightThreshold, PheasantLineSquare.Behind, s, readings)
            == Outcome(Map(Reversed, ahead.events), ahead.exited, ahead.consumed, ahead.state)
  {
    assert PheasantLineSquare.Multiplier(PheasantLineSquare.Ahead) == 1.0;
    assert PheasantLineSquare.Multiplier(PheasantLineSquare.Behind) == -1.0;
    var approachAhead := ApproachTick(PheasantLineSquare.Ahead);
    var approachBehind := ApproachTick(PheasantLineSquare.Behind);
    forall s0: (PidState, PidState), r: SquareReading
      ensures approachBehind(s0, r) == (approachAhead(s0, r).0, Reversed(approachAhead(s0, r).1))
    {
      assert approachAhead(s0, r) == (s0, Drive(250.0, 250.0));
      assert approachBehind(s0, r) == (s0, Drive(-250.0, -250.0));
    }
    PollMapsCommands(OnLine, approachAhead, approachBehind, Reversed, s, readings);
    var alignAhead := AlignTick(g, integralLimit, outputLimit, leftThreshold, rightThreshold, PheasantLineSquare.Ahead);
    var alignBehind := AlignTick(g, integralLimit, outputLimit, leftThreshold, rightThreshold, PheasantLineSquare.Behind);
    forall s0: (PidState, PidState), r: SquareReading
      ensures alignBehind(s0, r) == (alignAhead(s0, r).0, Reversed(alignAhead(s0, r).1))
    {
      var ul := BasePidLoop.Step(g, integralLimit, outputLimit, s0.0, PheasantLineSquare.LeftError(leftThreshold)(r));
      var ur := BasePidLoop.Step(g, integralLimit, outputLimit, s0.1, PheasantLineSquare.RightError(rightThreshold)(r));
      assert alignAhead(s0, r) == ((ul.0, ur.0), PheasantLineSquare.Command(PheasantLineSquare.Ahead)(ul.1, ur.1));
      assert alignBehind(s0, r) == ((ul.0, ur.0), PheasantLineSquare.Command(PheasantLineSquare.Behind)(ul.1, ur.1));
      assert PheasantLineSquare.Command(PheasantLineSquare.Ahead)(ul.1, ur.1) == Drive(ul.1, ur.1);
      assert PheasantLineSquare.Command(PheasantLineSquare.Behind)(ul.1, ur.1) == Drive(-ul.1, -ur.1);
    }
    PollMapsCommands(PheasantLineSquare.Aligned(leftThreshold, rightThreshold, ThresholdTolerance),
                     alignAhead, alignBehind, Reversed, s, readings);
  }

  class LineSquare {
    const leftThreshold: int
    const rightThreshold: int
    const linePosition: PheasantLineSquare.LinePosition
    const leftSensor: ColorSensor
    const rightSensor: ColorSensor
    const leftMotor: Option<Motor>
    const rightMotor: Option<Motor>
    const leftPid: BasePidLoop.PIDLoop
    const rightPid: BasePidLoop.PIDLoop
    /** The commands given to the two drive motors so far. */
    var commands: seq<MotorEvent>

    /** Two controller objects with the same tuning. */
    predicate Valid()
    {
      leftPid != rightPid && leftPid.Tuning() == rightPid.Tuning()
    }

    /**
     * `LineSquare(leftThreshold, rightThreshold, linePosition, leftSensor, rightSensor,
     * leftMotor, rightMotor, kp, ki, kd, integralLimit, outputLimit)`: each omitted tuning
     * value resolved by `LineSquare`'s default, then by the base controller's constructor
     * (with its limit overwrite); motors by the motor mixin. Nothing runs.
     */
    constructor (motors: DoubleMotorBaseEv3move.MotorDefaults, pidDefaults: TuningDefaults,
                 leftThreshold: int, rightThreshold: int, linePosition: PheasantLineSquare.LinePosition,
                 leftSensor: ColorSensor, rightSensor: ColorSensor,
                 leftMotor: Option<Motor>, rightMotor: Option<Motor>,
                 kp: Option<real>, ki: Option<real>, kd: Option<real>,
                 integralLimit: Option<real>, outputLimit: Option<real>)
      ensures Valid()
      ensures leftPid.Tuning() == BasePidLoop.ResolveTuning(Tuning(kp, ki, kd, integralLimit, outputLimit)
                                                              .Or(pidDefaults.Defaults(ClassLineage)),
                                                            pidDefaults.Defaults(ControllerLineage))
      ensures leftPid.setpoint == Some(leftThreshold) && rightPid.setpoint == Some(rightThreshold)
      ensures leftPid.State() == Zero && rightPid.State() == Zero
      ensures this.leftThreshold == leftThreshold && this.rightThreshold == rightThreshold
      ensures this.linePosition == linePosition
      ensures this.leftSensor == leftSensor && this.rightSensor == rightSensor
      ensures (this.leftMotor, this.rightMotor) == motors.Motors(ClassLineage, leftMotor, rightMotor)
      ensures commands == []
      ensures fresh(leftPid) && fresh(rightPid)
    {
      var t := Tuning(kp, ki, kd, integralLimit, outputLimit).Or(pidDefaults.Defaults(ClassLineage));
      this.leftThreshold, this.rightThreshold, this.linePosition := leftThreshold, rightThreshold, linePosition;
      this.leftSensor, this.rightSensor := leftSensor, rightSensor;
      var m := motors.Motors(ClassLineage, leftMotor, rightMotor);
      this.leftMotor, this.rightMotor := m.0, m.1;
      this.leftPid := new BasePidLoop.PIDLoop(pidDefaults, ControllerLineage, Some(leftThreshold),
                                              t.kp, t.ki, t.kd, t.integralLimit, t.outputLimit);
      this.rightPid := new BasePidLoop.PIDLoop(pidDefaults, ControllerLineage, Some(rightThreshold),
                                               t.kp, t.ki, t.kd, t.integralLimit, t.outputLimit);
      commands := [];
    }

    /**
     * `runUntil()` over `readings`: the commands of `SquareUp`; `exited` is `false` when the
     * readings ran out in either phase.
     */
    method RunUntil(readings: seq<SquareReading>) returns (exited: bool)
      requires Valid() && leftPid.Configured()
      modifies this, leftPid, rightPid
      ensures var o := SquareUp(leftPid.Gains(), leftPid.integralLimit, leftPid.outputLimit,
                                leftThreshold, rightThreshold, linePosition,
                                (old(leftPid.State()), old(rightPid.State())), readings);
              && commands == old(commands) + o.events
              && (leftPid.State(), rightPid.State()) == o.state
              && exited == o.exited
    {
      ghost var s0 := (leftPid.State(), rightPid.State());
      ghost var a := Approach(linePosition, s0, readings);
      ApproachLeavesControllers(linePosition, s0, readings);
      var consumed, reached := DriveToLine(readings);
      if !reached {
        return false;
      }
      commands := commands + [HoldBoth];
      ghost var approached := commands;
      exited := AlignOnLine(readings[consumed..]);
      ghost var b := Align(leftPid.Gains(), leftPid.integralLimit, leftPid.outputLimit,
                           leftThreshold, rightThreshold, linePosition, a.state, readings[consumed..]);
      assert commands == old(commands) + a.events + [HoldBoth] + b.events;
      if exited {
        commands := commands + [HoldBoth];
      }
    }

    /**
     * The first loop of `runUntil`: the commands of `Approach`; `reached` is whether both sensors
     * saw the line, and `consumed` how many readings the loop examined.
     */
    method DriveToLine(readings: seq<SquareReading>) returns (consumed: nat, reached: bool)
      modifies this
      ensures var a := Approach(linePosition, (leftPid.State(), rightPid.State()), readings);
              && commands == old(commands) + a.events
              && reached == a.exited
              && consumed == a.consumed <= |readings|
    {
      var directionMultiplier := PheasantLineSquare.Multiplier(linePosition);
      ghost var s0 := (leftPid.State(), rightPid.State());
      PollExitsAtFirstDone(OnLine, ApproachTick(linePosition), s0, readings);
      ghost var issued: seq<MotorEvent> := [];
      PrependNothing(Approach(linePosition, s0, readings));
      var i := 0;
      while i < |readings| && !(readings[i].leftColor == Some(LineColor) && readings[i].rightColor == Some(LineColor))
        invariant 0 <= i <= |readings| && |issued| == i
        invariant commands == old(commands) + issued
        invariant Approach(linePosition, s0, readings) == Prepend(issued, Approach(linePosition, s0, readings[i..]))
      {
        var event := Drive(MoveToLineSpeed * directionMultiplier, MoveToLineSpeed * directionMultiplier);
        commands := commands + [event];
        assert ApproachTick(linePosition)(s0, readings[i..][0]) == (s0, event);
        PollAdvance(OnLine, ApproachTick(linePosition), s0, readings[i..], issued, s0, event);
        assert readings[i..][1..] == readings[i + 1..];
        issued := issued + [event];
        i := i + 1;
      }
      reached := i < |readings|;
      consumed := if reached then i + 1 else i;
      assert Approach(linePosition, s0, readings[i..]).events == [];
    }

    /**
     * The second loop of `runUntil`: the commands of `Align`; `aligned` is `false` when the
     * readings ran out before both sides were within the tolerance.
     */
    method AlignOnLine(readings: seq<SquareReading>) returns (aligned: bool)
      requires Valid() && leftPid.Configured()
      modifies this, leftPid, rightPid
      ensures var b := Align(leftPid.Gains(), leftPid.integralLimit, leftPid.outputLimit,
                             leftThreshold, rightThreshold, linePosition,
                             (old(leftPid.State()), old(rightPid.State())), readings);
              && commands == old(commands) + b.events
              && (leftPid.State(), rightPid.State()) == b.state
              && aligned == b.exited
    {
      var directionMultiplier := PheasantLineSquare.Multiplier(linePosition);
      var lt, rt := leftThreshold, rightThreshold;
      ghost var g := leftPid.Gains();
      ghost var il, ol := leftPid.integralLimit, leftPid.outputLimit;
      assert rightPid.Configured() && rightPid.Gains() == g;
      assert rightPid.integralLimit == il && rightPid.outputLimit == ol;
      ghost var issued: seq<MotorEvent> := [];
      PrependNothing(Align(g, il, ol, lt, rt, linePosition, (leftPid.State(), rightPid.State()), readings));
      var j := 0;
      while j < |readings| && !(PheasantLineSquare.InBand(readings[j].leftReflection, lt, ThresholdTolerance)
                                && PheasantLineSquare.InBand(readings[j].rightReflection, rt, ThresholdTolerance))
        invariant 0 <= j <= |readings|
        invariant commands == old(commands) + issued
        invariant Align(g, il, ol, lt, rt, linePosition, (old(leftPid.State()), old(rightPid.State())), readings)
                  == Prepend(issued, Align(g, il, ol, lt, rt, linePosition, (leftPid.State(), rightPid.State()), readings[j..]))
      {
        ghost var before := (leftPid.State(), rightPid.State());
        var l := leftPid.Update((readings[j].leftReflection - lt) as real);
        var r := rightPid.Update((readings[j].rightReflection - rt) as real);
        var event := Drive(l.value * directionMultiplier, r.value * directionMultiplier);
        assert event == PheasantLineSquare.Command(linePosition)(l.value, r.value);
        commands := commands + [event];
        assert !PheasantLineSquare.Aligned(lt, rt, ThresholdTolerance)(readings[j..][0]);
        AlignAdvance(g, il, ol, lt, rt, linePosition, before, readings[j..], issued,
                     leftPid.State(), l.value, rightPid.State(), r.value);
        assert readings[j..][1..] == readings[j + 1..];
        issued := issued + [event];
        j := j + 1;
      }
      aligned := j < |readings|;
      assert Align(g, il, ol, lt, rt, linePosition, (leftPid.State(), rightPid.State()), readings[j..]).events == [];
    }
  }
}
