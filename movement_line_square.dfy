/**
 * Squaring up on a line with two colour sensors, first version (movement/LineSquare.py): one
 * controller per side drives that side's wheel until both reflections equal their thresholds
 * exactly with both wheels stopped; the loop runs from the constructor and nothing is held.
 * As written, the constructor can never build its controllers and the two line positions are
 * equal; the members below record both and model the evidently intended behaviour.
 */
module MovementLineSquare {
  import opened Wrappers
  import opened ClassAttributes
  import opened PidCommon
  import opened Hardware
  import opened Polling
  import MovementPidLoop
  import PheasantLineSquare

  /** The classes a read through the name `LineSquare` searches. */
  const ClassLineage: Lineage := ["LineSquare", "PIDLoop"]

  /** The class each of the two controllers is an instance of. */
  const ControllerLineage: Lineage := ["PIDLoop"]

  /** `LinePosition.AHEAD` and `LinePosition.BEHIND` as written: both 0. */
  const AheadAsWritten: int := 0
  const BehindAsWritten: int := 0

  /** `1 if self.linePosition == LinePosition.AHEAD else -1`, on the values as written. */
  function MultiplierAsWritten(linePosition: int): real
  {
    if linePosition == AheadAsWritten then 1.0 else -1.0
  }

  /** As written, BEHIND is AHEAD: the multiplier is 1 for both, so BEHIND never reverses. */
  lemma BehindAsWrittenDrivesAhead()
    ensures MultiplierAsWritten(BehindAsWritten) == MultiplierAsWritten(AheadAsWritten) == 1.0
    ensures MultiplierAsWritten(BehindAsWritten) != PheasantLineSquare.Multiplier(PheasantLineSquare.Behind)
  {
  }

  /**
   * `arg if arg != None else LineSquare.NAME`: an attribute no class of the lineage declares
   * exists only once a setter assigned it; reading it before raises AttributeError.
   */
  function ReadDefault(arg: Option<real>, assignments: map<ClassName, Option<real>>): (r: Result<Option<real>>)
    ensures arg.Some? ==> r == Ok(arg)
    ensures arg.None? && Find(assignments, ClassLineage).Some? ==> r == Ok(Find(assignments, ClassLineage).value)
    ensures arg.None? && Find(assignments, ClassLineage).None? ==> r == Err(AttributeError)
  {
    if arg.Some? then Ok(arg)
    else match Find(assignments, ClassLineage)
      case Some(v) => Ok(v)
      case None => Err(AttributeError)
  }

  /** The three gains as the constructor reads them: argument, else `LineSquare.k*_DEFAULT`. */
  function ReadGains(classes: MovementPidLoop.PidLoopClasses, args: Tuning): (r: Result<Tuning>)
    reads classes
  {
    match (ReadDefault(args.kp, classes.kpDefault), ReadDefault(args.ki, classes.kiDefault), ReadDefault(args.kd, classes.kdDefault))
    case (Ok(kp), Ok(ki), Ok(kd)) => Ok(Tuning(kp, ki, kd, None, None))
    case (Err(e), _, _) => Err(e)
    case (_, Err(e), _) => Err(e)
    case (_, _, Err(e)) => Err(e)
  }

  /**
   * The constructor's `PIDLoop(threshold, kp, ki, kd, integralLimit, outputLimit)` as written:
   * the two limits fall back on `INTEGRAL_LIMIT_DEFAULT` and `OUTPUT_LIMIT_DEFAULT`, which no
   * class declares or assigns, and the six arguments meet a four-parameter constructor.
   */
  function InitAsWritten(classes: MovementPidLoop.PidLoopClasses, args: Tuning): (r: Result<Tuning>)
    reads classes
  {
    match ReadGains(classes, args)
    case Err(e) => Err(e)
    case Ok(gains) =>
      if args.integralLimit.None? || args.outputLimit.None? then Err(AttributeError)
      else
        var passed := [gains.kp, gains.ki, gains.kd, args.integralLimit, args.outputLimit];
        match MovementPidLoop.BindInit(1 + |passed|)
        case Ok(_) => Ok(gains.(integralLimit := args.integralLimit, outputLimit := args.outputLimit))
        case Err(e) => Err(e)
  }

  /**
   * Building a LineSquare always raises: AttributeError when a limit is omitted or a gain is
   * omitted without a registered default, and TypeError otherwise. It never runs.
   */
  lemma InitAsWrittenAlwaysRaises(classes: MovementPidLoop.PidLoopClasses, args: Tuning)
    ensures InitAsWritten(classes, args).Err?
    ensures InitAsWritten(classes, args) == Err(TypeError)
            <==> ReadGains(classes, args).Ok? && args.integralLimit.Some? && args.outputLimit.Some?
  {
  }

  /**
   * The evidently intended construction, `PIDLoop(threshold, kp, ki, kd)`: the four arguments
   * the controller's constructor takes, each gain an argument or a registered default; the
   * controller has no limit parameters, so the limit arguments are not read.
   */
  function InitIntended(classes: MovementPidLoop.PidLoopClasses, args: Tuning): (r: Result<Tuning>)
    reads classes
    ensures r.Ok? <==> (args.kp.Some? || Find(classes.kpDefault, ClassLineage).Some?)
                       && (args.ki.Some? || Find(classes.kiDefault, ClassLineage).Some?)
                       && (args.kd.Some? || Find(classes.kdDefault, ClassLineage).Some?)
    ensures r.Ok? ==> r.value.integralLimit.None? && r.value.outputLimit.None?
    ensures r.Ok? && args.kp.Some? ==> r.value.kp == args.kp
    ensures r.Ok? && args.ki.Some? ==> r.value.ki == args.ki
    ensures r.Ok? && args.kd.Some? ==> r.value.kd == args.kd
  {
    ReadGains(classes, args)
  }

  /** The exit test of `run`: each reflection exactly at its threshold and both wheels stopped. */
  function Settled(leftThreshold: int, rightThreshold: int): SquareReading -> bool
  {
    (r: SquareReading) =>
      (r.leftReflection == leftThreshold && r.leftSpeed == 0) && (r.rightReflection == rightThreshold && r.rightSpeed == 0)
  }

  /** One iteration of the loop body, on the two controllers' states. */
  function Tick(g: Gains, integralLimit: Option<real>, leftThreshold: int, rightThreshold: int,
                position: PheasantLineSquare.LinePosition)
    : ((PidState, PidState), SquareReading) -> ((PidState, PidState), MotorEvent)
  {
    (s: (PidState, PidState), r: SquareReading) =>
      var ul := MovementPidLoop.Step(g, integralLimit, s.0, PheasantLineSquare.LeftError(leftThreshold)(r));
      var ur := MovementPidLoop.Step(g, integralLimit, s.1, PheasantLineSquare.RightError(rightThreshold)(r));
      ((ul.0, ur.0), PheasantLineSquare.Command(position)(ul.1, ur.1))
  }

  /** What `run` does with `readings`, with the line positions told apart. */
  function Square(g: Gains, integralLimit: Option<real>, leftThreshold: int, rightThreshold: int,
                  position: PheasantLineSquare.LinePosition, s: (PidState, PidState),
                  readings: seq<SquareReading>): Outcome<(PidState, PidState)>
  {
    Poll(Settled(leftThreshold, rightThreshold), Tick(g, integralLimit, leftThreshold, rightThreshold, position), s, readings)
  }

  /** One iteration of `run`, as the loop performs it. */
  lemma SquareAdvance(g: Gains, integralLimit: Option<real>, leftThreshold: int, rightThreshold: int,
                      position: PheasantLineSquare.LinePosition, s: (PidState, PidState),
                      readings: seq<SquareReading>, issued: seq<MotorEvent>,
                      left': PidState, leftOutput: real, right': PidState, rightOutput: real)
    requires |readings| > 0 && !Settled(leftThreshold, rightThreshold)(readings[0])
    requires MovementPidLoop.Step(g, integralLimit, s.0, (readings[0].leftReflection - leftThreshold) as real) == (left', leftOutput)
    requires MovementPidLoop.Step(g, integralLimit, s.1, (readings[0].rightReflection - rightThreshold) as real) == (right', rightOutput)
    ensures Prepend(issued, Square(g, integralLimit, leftThreshold, rightThreshold, position, s, readings))
            == Prepend(issued + [PheasantLineSquare.Command(position)(leftOutput, rightOutput)],
                       Square(g, integralLimit, leftThreshold, rightThreshold, position, (left', right'), readings[1..]))
  {
    var tick := Tick(g, integralLimit, leftThreshold, rightThreshold, position);
    assert PheasantLineSquare.LeftError(leftThreshold)(readings[0]) == (readings[0].leftReflection - leftThreshold) as real;
    assert PheasantLineSquare.RightError(rightThreshold)(readings[0]) == (readings[0].rightReflection - rightThreshold) as real;
    assert tick(s, readings[0]) == ((left', right'), PheasantLineSquare.Command(position)(leftOutput, rightOutput));
    PollAdvance(Settled(leftThreshold, rightThreshold), tick, s, readings, issued,
                (left', right'), PheasantLineSquare.Command(position)(leftOutput, rightOutput));
  }

  /** The loop body is the two controllers' updates side by side, commanded through the multiplier. */
  lemma TickSplits(g: Gains, integralLimit: Option<real>, leftThreshold: int, rightThreshold: int,
                   position: PheasantLineSquare.LinePosition, s0: (PidState, PidState), r: SquareReading)
    ensures var update := MovementPidLoop.Updater(g, integralLimit);
            var le := PheasantLineSquare.LeftError(leftThreshold);
            var re := PheasantLineSquare.RightError(rightThreshold);
            Tick(g, integralLimit, leftThreshold, rightThreshold, position)(s0, r)
            == ((update(s0.0, le(r)).0, update(s0.1, re(r)).0),
                PheasantLineSquare.Command(position)(update(s0.0, le(r)).1, update(s0.1, re(r)).1))
  {
    var update := MovementPidLoop.Updater(g, integralLimit);
    var le := PheasantLineSquare.LeftError(leftThreshold);
    var re := PheasantLineSquare.RightError(rightThreshold);
    assert update(s0.0, le(r)) == MovementPidLoop.Step(g, integralLimit, s0.0, le(r));
    assert update(s0.1, re(r)) == MovementPidLoop.Step(g, integralLimit, s0.1, re(r));
  }

  /**
   * The loop leaves only at a reading where both reflections equal their thresholds and both
   * wheels are stopped, after one command per earlier reading.
   */
  lemma SquareExit(g: Gains, integralLimit: Option<real>, leftThreshold: int, rightThreshold: int,
                   position: PheasantLineSquare.LinePosition, s: (PidState, PidState), readings: seq<SquareReading>)
    ensures var o := Square(g, integralLimit, leftThreshold, rightThreshold, position, s, readings);
            var k := FirstDone(Settled(leftThreshold, rightThreshold), readings);
            && (o.exited <==> k < |readings|)
            && (o.exited ==> readings[k].leftReflection == leftThreshold && readings[k].rightReflection == rightThreshold
                             && readings[k].leftSpeed == 0 && readings[k].rightSpeed == 0)
            && |o.events| == k
  {
    PollExitsAtFirstDone(Settled(leftThreshold, rightThreshold),
                         Tick(g, integralLimit, leftThreshold, rightThreshold, position), s, readings);
  }

  /**
   * Before the loop leaves, each wheel's command is its own controller's response to its own
   * side's errors, times the multiplier, and each controller ends where its own errors lead.
   */
  lemma SquareFollowsControllers(g: Gains, integralLimit: Option<real>, leftThreshold: int,
                                 rightThreshold: int, position: PheasantLineSquare.LinePosition,
                                 s: (PidState, PidState), readings: seq<SquareReading>)
    ensures var o := Square(g, integralLimit, leftThreshold, rightThreshold, position, s, readings);
            var k := FirstDone(Settled(leftThreshold, rightThreshold), readings);
            var update := MovementPidLoop.Updater(g, integralLimit);
            var lefts := Map(PheasantLineSquare.LeftError(leftThreshold), readings[..k]);
            var rights := Map(PheasantLineSquare.RightError(rightThreshold), readings[..k]);
            var m := PheasantLineSquare.Multiplier(position);
            && |o.events| == k
            && (forall i :: 0 <= i < k ==>
                  o.events[i] == Drive(Responses(update, s.0, lefts)[i] * m, Responses(update, s.1, rights)[i] * m))
            && o.state == (Settle(update, s.0, lefts), Settle(update, s.1, rights))
  {
    var done := Settled(leftThreshold, rightThreshold);
    var tick := Tick(g, integralLimit, leftThreshold, rightThreshold, position);
    var update := MovementPidLoop.Updater(g, integralLimit);
    var le := PheasantLineSquare.LeftError(leftThreshold);
    var re := PheasantLineSquare.RightError(rightThreshold);
    var lefts := Map(le, readings[..FirstDone(done, readings)]);
    var rights := Map(re, readings[..FirstDone(done, readings)]);
    var outsL := Responses(update, s.0, lefts);
    var outsR := Responses(update, s.1, rights);
    var o := Poll(done, tick, s, readings);
    assert o.state == (Settle(update, s.0, lefts), Settle(update, s.1, rights))
           && |o.events| == FirstDone(done, readings)
           && (forall i :: 0 <= i < |o.events| ==> o.events[i] == PheasantLineSquare.Command(position)(outsL[i], outsR[i])) by {
      forall s0: (PidState, PidState), r: SquareReading
        ensures tick(s0, r) == ((update(s0.0, le(r)).0, update(s0.1, re(r)).0),
                                PheasantLineSquare.Command(position)(update(s0.0, le(r)).1, update(s0.1, re(r)).1))
      {
        TickSplits(g, integralLimit, leftThreshold, rightThreshold, position, s0, r);
      }
      PollThroughTwoControllers(done, tick, update, le, re, PheasantLineSquare.Command(position), s, readings);
    }
    forall i | 0 <= i < |o.events|
      ensures o.events[i] == Drive(outsL[i] * PheasantLineSquare.Multiplier(position), outsR[i] * PheasantLineSquare.Multiplier(position))
    {
      PheasantLineSquare.CommandDrives(position, outsL[i], outsR[i]);
    }
  }

  /** With the positions told apart, starting BEHIND reverses every command and nothing else. */
  lemma BehindReverses(g: Gains, integralLimit: Option<real>, leftThreshold: int, rightThreshold: int,
                       s: (PidState, PidState), readings: seq<SquareReading>)
    ensures var ahead := Square(g, integralLimit, leftThreshold, rightThreshold, PheasantLineSquare.Ahead, s, readings);
            Square(g, integralLimit, leftThreshold, rightThreshold, PheasantLineSquare.Behind, s, readings)
            == Outcome(Map(Reversed, ahead.events), ahead.exited, ahead.consumed, ahead.state)
  {
    var tickAhead := Tick(g, integralLimit, leftThreshold, rightThreshold, PheasantLineSquare.Ahead);
    var tickBehind := Tick(g, integralLimit, leftThreshold, rightThreshold, PheasantLineSquare.Behind);
    assert PheasantLineSquare.Multiplier(PheasantLineSquare.Ahead) == 1.0;
    assert PheasantLineSquare.Multiplier(PheasantLineSquare.Behind) == -1.0;
    forall s0: (PidState, PidState), r: SquareReading
      ensures tickBehind(s0, r) == (tickAhead(s0, r).0, Reversed(tickAhead(s0, r).1))
    {
      var ul := MovementPidLoop.Step(g, integralLimit, s0.0, PheasantLineSquare.LeftError(leftThreshold)(r));
      var ur := MovementPidLoop.Step(g, integralLimit, s0.1, PheasantLineSquare.RightError(rightThreshold)(r));
      assert tickAhead(s0, r) == ((ul.0, ur.0), PheasantLineSquare.Command(PheasantLineSquare.Ahead)(ul.1, ur.1));
      assert tickBehind(s0, r) == ((ul.0, ur.0), PheasantLineSquare.Command(PheasantLineSquare.Behind)(ul.1, ur.1));
      assert PheasantLineSquare.Command(PheasantLineSquare.Ahead)(ul.1, ur.1) == Drive(ul.1, ur.1);
      assert PheasantLineSquare.Command(PheasantLineSquare.Behind)(ul.1, ur.1) == Drive(-ul.1, -ur.1);
    }
    PollMapsCommands(Settled(leftThreshold, rightThreshold), tickAhead, tickBehind, Reversed, s, readings);
  }

  class LineSquare {
    const leftThreshold: int
    const rightThreshold: int
    const linePosition: PheasantLineSquare.LinePosition
    const leftSensor: ColorSensor
    const rightSensor: ColorSensor
    const leftMotor: Motor
    const rightMotor: Motor
    const leftPid: MovementPidLoop.PIDLoop
    const rightPid: MovementPidLoop.PIDLoop
    /** The commands given to the two drive motors so far. */
    var commands: seq<MotorEvent>

    /** Two controller objects of the same class with the same gains. */
    predicate Valid()
    {
      && leftPid != rightPid && leftPid.lineage == rightPid.lineage
      && leftPid.kp == rightPid.kp && leftPid.ki == rightPid.ki && leftPid.kd == rightPid.kd
    }

    /**
     * `LineSquare(leftThreshold, rightThreshold, linePosition, leftSensor, rightSensor,
     * leftMotor, rightMotor, kp, ki, kd, integralLimit, outputLimit)` with the controllers built
     * by `InitIntended`, each with its side's threshold as setpoint; the loop then runs over
     * `readings`.
     */
    constructor (classes: MovementPidLoop.PidLoopClasses, leftThreshold: int, rightThreshold: int,
                 linePosition: PheasantLineSquare.LinePosition, leftSensor: ColorSensor, rightSensor: ColorSensor,
                 leftMotor: Motor, rightMotor: Motor, kp: Option<real>, ki: Option<real>, kd: Option<real>,
                 integralLimit: Option<real>, outputLimit: Option<real>, readings: seq<SquareReading>)
      requires var r := InitIntended(classes, Tuning(kp, ki, kd, integralLimit, outputLimit));
               r.Ok? && r.value.kp.Some? && r.value.ki.Some? && r.value.kd.Some?
      ensures Valid()
      ensures var t := InitIntended(classes, Tuning(kp, ki, kd, integralLimit, outputLimit)).value;
              leftPid.kp == t.kp && leftPid.ki == t.ki && leftPid.kd == t.kd
      ensures leftPid.lineage == ControllerLineage
      ensures leftPid.setpoint == Some(leftThreshold) && rightPid.setpoint == Some(rightThreshold)
      ensures this.leftThreshold == leftThreshold && this.rightThreshold == rightThreshold
      ensures this.linePosition == linePosition
      ensures this.leftSensor == leftSensor && this.rightSensor == rightSensor
      ensures this.leftMotor == leftMotor && this.rightMotor == rightMotor
      ensures var o := Square(leftPid.Gains(), classes.IntegralLimit(ControllerLineage), leftThreshold, rightThreshold,
                              linePosition, (Zero, Zero), readings);
              commands == o.events && (leftPid.State(), rightPid.State()) == o.state
      ensures fresh(leftPid) && fresh(rightPid)
    {
      var t := InitIntended(classes, Tuning(kp, ki, kd, integralLimit, outputLimit)).value;
      this.leftThreshold, this.rightThreshold, this.linePosition := leftThreshold, rightThreshold, linePosition;
      this.leftSensor, this.rightSensor := leftSensor, rightSensor;
      this.leftMotor, this.rightMotor := leftMotor, rightMotor;
      this.leftPid := new MovementPidLoop.PIDLoop(ControllerLineage, Some(leftThreshold), t.kp, t.ki, t.kd);
      this.rightPid := new MovementPidLoop.PIDLoop(ControllerLineage, Some(rightThreshold), t.kp, t.ki, t.kd);
      commands := [];
      new;
      var _ := Run(classes, readings);
    }

    /**
     * One pass of the loop body of `run()` on `reading`: each controller is updated on its own
     * side's error and one command, each output times the multiplier, goes to the motors.
     */
    method RunOnce(classes: MovementPidLoop.PidLoopClasses, reading: SquareReading) returns (event: MotorEvent)
      requires Valid() && leftPid.Configured()
      modifies this, leftPid, rightPid
      ensures var il := classes.IntegralLimit(leftPid.lineage);
              var ul := MovementPidLoop.Step(leftPid.Gains(), il, old(leftPid.State()),
                                             (reading.leftReflection - leftThreshold) as real);
              var ur := MovementPidLoop.Step(leftPid.Gains(), il, old(rightPid.State()),
                                             (reading.rightReflection - rightThreshold) as real);
              && leftPid.State() == ul.0 && rightPid.State() == ur.0
              && event == PheasantLineSquare.Command(linePosition)(ul.1, ur.1)
              && commands == old(commands) + [event]
    {
      assert rightPid.Configured() && rightPid.Gains() == leftPid.Gains();
      var l := leftPid.Update(classes, (reading.leftReflection - leftThreshold) as real);
      var r := rightPid.Update(classes, (reading.rightReflection - rightThreshold) as real);
      event := Drive(l.value * PheasantLineSquare.Multiplier(linePosition), r.value * PheasantLineSquare.Multiplier(linePosition));
      PheasantLineSquare.CommandDrives(linePosition, l.value, r.value);
      commands := commands + [event];
    }

    /**
     * `run()` over `readings`: the commands of `Square` and no hold; `exited` is `false` when
     * the readings ran out before both sides settled.
     */
    method Run(classes: MovementPidLoop.PidLoopClasses, readings: seq<SquareReading>) returns (exited: bool)
      requires Valid() && leftPid.Configured()
      modifies this, leftPid, rightPid
      ensures var o := Square(leftPid.Gains(), classes.IntegralLimit(leftPid.lineage), leftThreshold, rightThreshold,
                              linePosition, (old(leftPid.State()), old(rightPid.State())), readings);
              && commands == old(commands) + o.events
              && (leftPid.State(), rightPid.State()) == o.state
              && exited == o.exited
    {
      var lt, rt := leftThreshold, rightThreshold;
      ghost var g := leftPid.Gains();
      ghost var il := classes.IntegralLimit(leftPid.lineage);
      ghost var issued: seq<MotorEvent> := [];
      ghost var start := (leftPid.State(), rightPid.State());
      ghost var st := start;
      PrependNothing(Square(g, il, lt, rt, linePosition, start, readings));
      var i := 0;
      while i < |readings| && !((readings[i].leftReflection == lt && readings[i].leftSpeed == 0)
                                && (readings[i].rightReflection == rt && readings[i].rightSpeed == 0))
        invariant 0 <= i <= |readings|
        invariant (leftPid.State(), rightPid.State()) == st
        invariant commands == old(commands) + issued
        invariant Square(g, il, lt, rt, linePosition, start, readings)
                  == Prepend(issued, Square(g, il, lt, rt, linePosition, st, readings[i..]))
      {
        ghost var ul := MovementPidLoop.Step(g, il, st.0, (readings[i].leftReflection - lt) as real);
        ghost var ur := MovementPidLoop.Step(g, il, st.1, (readings[i].rightReflection - rt) as real);
        var event := RunOnce(classes, readings[i]);
        assert !Settled(lt, rt)(readings[i..][0]);
        SquareAdvance(g, il, lt, rt, linePosition, st, readings[i..], issued, ul.0, ul.1, ur.0, ur.1);
        assert readings[i..][1..] == readings[i + 1..];
        issued := issued + [event];
        st := (ul.0, ur.0);
        i := i + 1;
      }
      exited := i < |readings|;
      assert Square(g, il, lt, rt, linePosition, st, readings[i..]).events == [];
    }
  }
}
