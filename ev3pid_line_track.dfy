/**
 * Following one edge of a line with a colour sensor (ev3pid/LineTrack.py): the controller
 * works on the reflected light minus the threshold, its output is signed by the edge being
 * followed, and it is added to the left wheel's speed and taken off the right wheel's.
 */
module Ev3pidLineTrack {
  import opened Wrappers
  import opened ClassAttributes
  import opened PidCommon
  import opened Hardware
  import opened Polling
  import PidController
  import ColorInputUtils
  import DoubleMotorBaseEv3move

  /** The edge of the line the sensor follows (`LineEdge.LEFT`, `LineEdge.RIGHT`). */
  datatype LineEdge = Left | Right

  /** The classes `self.__class__` attribute reads search for a LineTrack object. */
  const ClassLineage: Lineage := ["LineTrack", "PIDController", "ColorInput", "DoubleMotorBase"]

  /** `1 if trackingEdge == LineEdge.LEFT else -1` */
  function Sign(edge: LineEdge): (m: real)
    ensures m == 1.0 || m == -1.0
    ensures m == 1.0 <==> edge == Left
  {
    if edge == Left then 1.0 else -1.0
  }

  /** The exit test: `stopCondition()`. */
  function Stopped(r: TrackReading): bool
  {
    r.stop
  }

  /** The error fed to the controller: `sensor.reflection() - threshold`. */
  function ReflectionError(threshold: int): TrackReading -> real
  {
    (r: TrackReading) => (r.reflection - threshold) as real
  }

  /** `leftMotor.run(speed + output)` and `rightMotor.run(speed - output)`, on the signed output. */
  function Command(speed: real): real -> MotorEvent
  {
    (output: real) => Drive(speed + output, speed - output)
  }

  /** The same command with the two wheels exchanged. */
  function Swapped(e: MotorEvent): MotorEvent
  {
    match e
    case Drive(l, r) => Drive(r, l)
    case HoldBoth => HoldBoth
  }

  /** The command for a controller output: `Command` on the output signed by the edge. */
  function Steer(speed: real, edge: LineEdge): real -> MotorEvent
  {
    (output: real) => Command(speed)(output * Sign(edge))
  }

  /** A steering command adds the signed output to the left wheel and takes it off the right. */
  lemma SteerIs(speed: real, edge: LineEdge, output: real)
    ensures Steer(speed, edge)(output) == Drive(speed + output * Sign(edge), speed - output * Sign(edge))
    ensures Steer(speed, edge)(output).left + Steer(speed, edge)(output).right == 2.0 * speed
  {
    assert Steer(speed, edge)(output) == Command(speed)(output * Sign(edge));
  }

  /** Steering on the right edge is steering on the left edge with the two wheels exchanged. */
  lemma SteerMirrors(speed: real, output: real)
    ensures Steer(speed, Right)(output) == Swapped(Steer(speed, Left)(output))
  {
    SteerIs(speed, Left, output);
    SteerIs(speed, Right, output);
    assert output * Sign(Right) == -output;
  }

  /** One iteration of the loop body, on the controller's state. */
  function Tick(g: Gains, integralLimit: Option<real>, outputLimit: Option<real>, threshold: int, edge: LineEdge, speed: real)
    : (PidState, TrackReading) -> (PidState, MotorEvent)
  {
    (s: PidState, r: TrackReading) =>
      var u := PidController.Step(g, integralLimit, outputLimit, s, ReflectionError(threshold)(r), 1);
      (u.0, Steer(speed, edge)(u.1))
  }

  /** What `runUntil(stopCondition)` does with `readings`. */
  function Track(g: Gains, integralLimit: Option<real>, outputLimit: Option<real>, threshold: int, edge: LineEdge,
                 speed: real, s: PidState, readings: seq<TrackReading>): Outcome<PidState>
  {
    Poll(Stopped, Tick(g, integralLimit, outputLimit, threshold, edge, speed), s, readings)
  }

  /** One iteration of `runUntil`, as the loop performs it. */
  lemma TrackAdvance(g: Gains, integralLimit: Option<real>, outputLimit: Option<real>, threshold: int, edge: LineEdge,
                     speed: real, s: PidState, readings: seq<TrackReading>, issued: seq<MotorEvent>, s': PidState, output: real)
    requires |readings| > 0 && !readings[0].stop
    requires PidController.Step(g, integralLimit, outputLimit, s, (readings[0].reflection - threshold) as real, 1) == (s', output)
    ensures Prepend(issued, Track(g, integralLimit, outputLimit, threshold, edge, speed, s, readings))
            == Prepend(issued + [Steer(speed, edge)(output)],
                       Track(g, integralLimit, outputLimit, threshold, edge, speed, s', readings[1..]))
  {
    var tick := Tick(g, integralLimit, outputLimit, threshold, edge, speed);
    assert ReflectionError(threshold)(readings[0]) == (readings[0].reflection - threshold) as real;
    assert tick(s, readings[0]) == (s', Steer(speed, edge)(output));
    PollAdvance(Stopped, tick, s, readings, issued, s', Steer(speed, edge)(output));
  }

  /**
   * The loop issues one command per reading before the first one whose stop condition holds;
   * each adds the controller's response to that reading's reflection error, signed by the
   * edge, to the left wheel and takes it off the right, so the wheel speeds average to `speed`.
   */
  lemma {:induction false} TrackFollowsController(g: Gains, integralLimit: Option<real>, outputLimit: Option<real>,
                                                  threshold: int, edge: LineEdge, speed: real,
                                                  s: PidState, readings: seq<TrackReading>)
    ensures var o := Track(g, integralLimit, outputLimit, threshold, edge, speed, s, readings);
            var k := FirstDone(Stopped, readings);
            var errors := Map(ReflectionError(threshold), readings[..k]);
            var outputs := Responses(PidController.Updater(g, integralLimit, outputLimit, 1), s, errors);
            && (o.exited <==> k < |readings|)
            && |o.events| == k
            && (forall i :: 0 <= i < k ==>
                  o.events[i] == Drive(speed + outputs[i] * Sign(edge), speed - outputs[i] * Sign(edge)))
            && (forall i :: 0 <= i < k ==> o.events[i].left + o.events[i].right == 2.0 * speed)
            && o.state == Settle(PidController.Updater(g, integralLimit, outputLimit, 1), s, errors)
  {
    var tick := Tick(g, integralLimit, outputLimit, threshold, edge, speed);
    var update := PidController.Updater(g, integralLimit, outputLimit, 1);
    forall s0: PidState, r: TrackReading
      ensures tick(s0, r) == (update(s0, ReflectionError(threshold)(r)).0, Steer(speed, edge)(update(s0, ReflectionError(threshold)(r)).1))
    {
      assert update(s0, ReflectionError(threshold)(r)) == PidController.Step(g, integralLimit, outputLimit, s0, ReflectionError(threshold)(r), 1);
    }
    PollExitsAtFirstDone(Stopped, tick, s, readings);
    PollThroughController(Stopped, tick, update, ReflectionError(threshold), Steer(speed, edge), s, readings);
    var k := FirstDone(Stopped, readings);
    var outputs := Responses(update, s, Map(ReflectionError(threshold), readings[..k]));
    forall i | 0 <= i < k
      ensures Steer(speed, edge)(outputs[i]) == Drive(speed + outputs[i] * Sign(edge), speed - outputs[i] * Sign(edge))
      ensures Steer(speed, edge)(outputs[i]).left + Steer(speed, edge)(outputs[i]).right == 2.0 * speed
    {
      SteerIs(speed, edge, outputs[i]);
    }
  }

  /**
   * Following the right edge instead of the left gives, reading for reading, the same
   * controller history and the same commands with the two wheels exchanged.
   */
  lemma EdgesMirror(g: Gains, integralLimit: Option<real>, outputLimit: Option<real>, threshold: int, speed: real,
                    s: PidState, readings: seq<TrackReading>)
    ensures var left := Track(g, integralLimit, outputLimit, threshold, Left, speed, s, readings);
            Track(g, integralLimit, outputLimit, threshold, Right, speed, s, readings)
            == Outcome(Map(Swapped, left.events), left.exited, left.consumed, left.state)
  {
    var tickLeft := Tick(g, integralLimit, outputLimit, threshold, Left, speed);
    var tickRight := Tick(g, integralLimit, outputLimit, threshold, Right, speed);
    forall s0: PidState, r: TrackReading ensures tickRight(s0, r) == (tickLeft(s0, r).0, Swapped(tickLeft(s0, r).1)) {
      var u := PidController.Step(g, integralLimit, outputLimit, s0, ReflectionError(threshold)(r), 1);
      SteerMirrors(speed, u.1);
      assert tickLeft(s0, r) == (u.0, Steer(speed, Left)(u.1));
      assert tickRight(s0, r) == (u.0, Steer(speed, Right)(u.1));
    }
    PollMapsCommands(Stopped, tickLeft, tickRight, Swapped, s, readings);
  }

  class LineTrack {
    /** `self.speed`: a plain attribute a caller may reassign between runs; every tick reads it. */
    var speed: real
    const trackingEdge: LineEdge
    const sensor: Option<ColorSensor>
    const threshold: Option<int>
    const leftMotor: Option<Motor>
    const rightMotor: Option<Motor>
    const pid: PidController.PIDController
    /** The commands given to the two drive motors so far. */
    var commands: seq<MotorEvent>

    /**
     * `LineTrack(speed, trackingEdge, sensor, threshold, leftMotor, rightMotor, kp, ki, kd,
     * integralLimit, outputLimit)`: sensor and threshold resolved as the colour-sensor mixin
     * does, motors against their defaults; the controller's setpoint is the threshold
     * ARGUMENT, which may be `None`. Nothing runs.
     */
    constructor (colors: ColorInputUtils.ColorDefaults, motors: DoubleMotorBaseEv3move.MotorDefaults, pidDefaults: TuningDefaults,
                 speed: real, trackingEdge: LineEdge, sensor: Option<ColorSensor>, threshold: Option<int>,
                 leftMotor: Option<Motor>, rightMotor: Option<Motor>,
                 kp: Option<real>, ki: Option<real>, kd: Option<real>,
                 integralLimit: Option<real>, outputLimit: Option<real>)
      ensures pid.Tuning() == Tuning(kp, ki, kd, integralLimit, outputLimit).Or(pidDefaults.Defaults(ClassLineage))
      ensures pid.setpoint == threshold && pid.State() == Zero
      ensures this.speed == speed && this.trackingEdge == trackingEdge
      ensures this.sensor == colors.Sensor(ClassLineage, sensor)
      ensures this.threshold == colors.Threshold(ClassLineage, sensor, threshold)
      ensures (this.leftMotor, this.rightMotor) == motors.Motors(ClassLineage, leftMotor, rightMotor)
      ensures commands == []
      ensures fresh(pid)
    {
      this.speed, this.trackingEdge := speed, trackingEdge;
      this.sensor := colors.Sensor(ClassLineage, sensor);
      this.threshold := colors.Threshold(ClassLineage, sensor, threshold);
      var m := motors.Motors(ClassLineage, leftMotor, rightMotor);
      this.leftMotor, this.rightMotor := m.0, m.1;
      this.pid := new PidController.PIDController(pidDefaults, ClassLineage, threshold, kp, ki, kd, integralLimit, outputLimit);
      commands := [];
    }

    /**
     * `runUntil(stopCondition)` over `readings`: the commands of `Track`, no hold; `stopped` is
     * `false` when the readings ran out before the stop condition held.
     */
    method RunUntil(readings: seq<TrackReading>) returns (stopped: bool)
      requires pid.Configured() && threshold.Some?
      modifies this, pid
      ensures speed == old(speed)
      ensures var o := Track(pid.Gains(), pid.integralLimit, pid.outputLimit, threshold.value, trackingEdge, speed,
                             old(pid.State()), readings);
              && commands == old(commands) + o.events
              && pid.State() == o.state
              && stopped == o.exited
    {
      ghost var g := pid.Gains();
      ghost var issued: seq<MotorEvent> := [];
      PrependNothing(Track(g, pid.integralLimit, pid.outputLimit, threshold.value, trackingEdge, speed, pid.State(), readings));
      var i := 0;
      while i < |readings| && !readings[i].stop
        invariant 0 <= i <= |readings|
        invariant commands == old(commands) + issued
        invariant speed == old(speed)
        invariant Track(g, pid.integralLimit, pid.outputLimit, threshold.value, trackingEdge, speed, old(pid.State()), readings)
                  == Prepend(issued, Track(g, pid.integralLimit, pid.outputLimit, threshold.value, trackingEdge, speed,
                                           pid.State(), readings[i..]))
      {
        ghost var before := pid.State();
        var r := pid.Update((readings[i].reflection - threshold.value) as real, 1);
        var event := Steer(speed, trackingEdge)(r.value);
        commands := commands + [event];
        TrackAdvance(g, pid.integralLimit, pid.outputLimit, threshold.value, trackingEdge, speed, before, readings[i..],
                     issued, pid.State(), r.value);
        assert readings[i..][1..] == readings[i + 1..];
        issued := issued + [event];
        i := i + 1;
      }
      stopped := i < |readings|;
      assert Track(g, pid.integralLimit, pid.outputLimit, threshold.value, trackingEdge, speed, pid.State(), readings[i..]).events == [];
    }

    /**
     * `rawControllerOutput()` for the reflection read: one update, signed by the edge, which is
     * the command offset one tick of `runUntil` would apply; with no threshold resolved the
     * subtraction raises TypeError before the controller is touched.
     */
    method RawControllerOutput(reflection: int) returns (r: Result<real>)
      modifies pid
      ensures threshold.None? ==> r == Err(TypeError) && pid.State() == old(pid.State())
      ensures threshold.Some? && pid.Configured() ==>
                r.Ok? &&
                Tick(pid.Gains(), pid.integralLimit, pid.outputLimit, threshold.value, trackingEdge, speed)
                  (old(pid.State()), TrackReading(false, reflection))
                == (pid.State(), Command(speed)(r.value))
    {
      if threshold.None? {
        return Err(TypeError);
      }
      var u := pid.Update((reflection - threshold.value) as real, 1);
      if u.Err? {
        return u;
      }
      r := Ok(u.value * Sign(trackingEdge));
      assert ReflectionError(threshold.value)(TrackReading(false, reflection)) == (reflection - threshold.value) as real;
      assert Steer(speed, trackingEdge)(u.value) == Command(speed)(r.value);
    }
  }
}
