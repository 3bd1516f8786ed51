/**
 * Following one edge of a line, first version (movement/LineTrack.py): the same signed,
 * differential steering as the later version, with devices and the stop condition stored as
 * passed, the controller of the earlier base class, and the loop run from the constructor.
 * The base class it imports (movement/base/PIDLoop.py) is not part of this model; the
 * earlier base controller, whose constructor takes the same six arguments, stands in for it.
 */
module MovementLineTrack {
  import opened Wrappers
  import opened ClassAttributes
  import opened PidCommon
  import opened Hardware
  import opened Polling
  import BasePidLoop
  import Ev3pidLineTrack

  /** The classes `self.__class__` attribute reads search for a LineTrack object. */
  const ClassLineage: Lineage := ["LineTrack", "PIDLoop"]

  /** One iteration of the loop body, on the controller's state. */
  function Tick(g: Gains, integralLimit: Option<real>, outputLimit: Option<real>, threshold: int,
                edge: Ev3pidLineTrack.LineEdge, speed: real): (PidState, TrackReading) -> (PidState, MotorEvent)
  {
    (s: PidState, r: TrackReading) =>
      var u := BasePidLoop.Step(g, integralLimit, outputLimit, s, Ev3pidLineTrack.ReflectionError(threshold)(r));
      (u.0, Ev3pidLineTrack.Steer(speed, edge)(u.1))
  }

  /** What `run` does with `readings`. */
  function Track(g: Gains, integralLimit: Option<real>, outputLimit: Option<real>, threshold: int,
                 edge: Ev3pidLineTrack.LineEdge, speed: real, s: PidState, readings: seq<TrackReading>): Outcome<PidState>
  {
    Poll(Ev3pidLineTrack.Stopped, Tick(g, integralLimit, outputLimit, threshold, edge, speed), s, readings)
  }

  /** One iteration of `run`, as the loop performs it. */
  lemma TrackAdvance(g: Gains, integralLimit: Option<real>, outputLimit: Option<real>, threshold: int,
                     edge: Ev3pidLineTrack.LineEdge, speed: real, s: PidState, readings: seq<TrackReading>,
                     issued: seq<MotorEvent>, s': PidState, output: real)
    requires |readings| > 0 && !readings[0].stop
    requires BasePidLoop.Step(g, integralLimit, outputLimit, s, (readings[0].reflection - threshold) as real) == (s', output)
    ensures Prepend(issued, Track(g, integralLimit, outputLimit, threshold, edge, speed, s, readings))
            == Prepend(issued + [Ev3pidLineTrack.Steer(speed, edge)(output)],
                       Track(g, integralLimit, outputLimit, threshold, edge, speed, s', readings[1..]))
  {
    var tick := Tick(g, integralLimit, outputLimit, threshold, edge, speed);
    assert Ev3pidLineTrack.ReflectionError(threshold)(readings[0]) == (readings[0].reflection - threshold) as real;
    assert tick(s, readings[0]) == (s', Ev3pidLineTrack.Steer(speed, edge)(output));
    PollAdvance(Ev3pidLineTrack.Stopped, tick, s, readings, issued, s', Ev3pidLineTrack.Steer(speed, edge)(output));
  }

  /**
   * The loop issues one command per reading before the first one whose stop condition holds;
   * each adds the controller's response to that reading's reflection error, signed by the
   * edge, to the left wheel and takes it off the right.
   */
  lemma {:induction false} TrackFollowsController(g: Gains, integralLimit: Option<real>, outputLimit: Option<real>,
                                                  threshold: int, edge: Ev3pidLineTrack.LineEdge, speed: real,
                                                  s: PidState, readings: seq<TrackReading>)
    ensures var o := Track(g, integralLimit, outputLimit, threshold, edge, speed, s, readings);
            var k := FirstDone(Ev3pidLineTrack.Stopped, readings);
            var errors := Map(Ev3pidLineTrack.ReflectionError(threshold), readings[..k]);
            var outputs := Responses(BasePidLoop.Updater(g, integralLimit, outputLimit), s, errors);
            var m := Ev3pidLineTrack.Sign(edge);
            && (o.exited <==> k < |readings|)
            && |o.events| == k
            && (forall i :: 0 <= i < k ==> o.events[i] == Drive(speed + outputs[i] * m, speed - outputs[i] * m))
            && o.state == Settle(BasePidLoop.Updater(g, integralLimit, outputLimit), s, errors)
  {
    var tick := Tick(g, integralLimit, outputLimit, threshold, edge, speed);
    var update := BasePidLoop.Updater(g, integralLimit, outputLimit);
    var err := Ev3pidLineTrack.ReflectionError(threshold);
    forall s0: PidState, r: TrackReading
      ensures tick(s0, r) == (update(s0, err(r)).0, Ev3pidLineTrack.Steer(speed, edge)(update(s0, err(r)).1))
    {
      assert update(s0, err(r)) == BasePidLoop.Step(g, integralLimit, outputLimit, s0, err(r));
    }
    PollExitsAtFirstDone(Ev3pidLineTrack.Stopped, tick, s, readings);
    PollThroughController(Ev3pidLineTrack.Stopped, tick, update, err, Ev3pidLineTrack.Steer(speed, edge), s, readings);
    var k := FirstDone(Ev3pidLineTrack.Stopped, readings);
    var outputs := Responses(update, s, Map(err, readings[..k]));
    forall i | 0 <= i < k
      ensures Ev3pidLineTrack.Steer(speed, edge)(outputs[i])
              == Drive(speed + outputs[i] * Ev3pidLineTrack.Sign(edge), speed - outputs[i] * Ev3pidLineTrack.Sign(edge))
    {
      Ev3pidLineTrack.SteerIs(speed, edge, outputs[i]);
    }
  }

  /** Following the right edge gives the same controller history and the wheels exchanged. */
  lemma EdgesMirror(g: Gains, integralLimit: Option<real>, outputLimit: Option<real>, threshold: int, speed: real,
                    s: PidState, readings: seq<TrackReading>)
    ensures var left := Track(g, integralLimit, outputLimit, threshold, Ev3pidLineTrack.Left, speed, s, readings);
            Track(g, integralLimit, outputLimit, threshold, Ev3pidLineTrack.Right, speed, s, readings)
            == Outcome(Map(Ev3pidLineTrack.Swapped, left.events), left.exited, left.consumed, left.state)
  {
    var tickLeft := Tick(g, integralLimit, outputLimit, threshold, Ev3pidLineTrack.Left, speed);
    var tickRight := Tick(g, integralLimit, outputLimit, threshold, Ev3pidLineTrack.Right, speed);
    forall s0: PidState, r: TrackReading
      ensures tickRight(s0, r) == (tickLeft(s0, r).0, Ev3pidLineTrack.Swapped(tickLeft(s0, r).1))
    {
      var u := BasePidLoop.Step(g, integralLimit, outputLimit, s0, Ev3pidLineTrack.ReflectionError(threshold)(r));
      Ev3pidLineTrack.SteerMirrors(speed, u.1);
      assert tickLeft(s0, r) == (u.0, Ev3pidLineTrack.Steer(speed, Ev3pidLineTrack.Left)(u.1));
      assert tickRight(s0, r) == (u.0, Ev3pidLineTrack.Steer(speed, Ev3pidLineTrack.Right)(u.1));
    }
    PollMapsCommands(Ev3pidLineTrack.Stopped, tickLeft, tickRight, Ev3pidLineTrack.Swapped, s, readings);
  }

  class LineTrack {
    const threshold: int
    const trackingEdge: Ev3pidLineTrack.LineEdge
    /** `self.speed`: a plain attribute a caller may reassign between runs; every tick reads it. */
    var speed: real
    const sensor: ColorSensor
    const leftMotor: Motor
    const rightMotor: Motor
    const pid: BasePidLoop.PIDLoop
    /** The commands given to the two drive motors so far. */
    var commands: seq<MotorEvent>

    /**
     * `LineTrack(threshold, trackingEdge, speed, stopCondition, sensor, leftMotor, rightMotor,
     * kp, ki, kd, integralLimit, outputLimit)`: everything stored as passed, the controller built
     * by the base constructor with the threshold as setpoint; the loop then runs over
     * `readings`, whose `stop` fields are what `stopCondition()` returns.
     */
    constructor (pidDefaults: TuningDefaults, threshold: int, trackingEdge: Ev3pidLineTrack.LineEdge, speed: real,
                 sensor: ColorSensor, leftMotor: Motor, rightMotor: Motor,
                 kp: Option<real>, ki: Option<real>, kd: Option<real>,
                 integralLimit: Option<real>, outputLimit: Option<real>, readings: seq<TrackReading>)
      requires var t := BasePidLoop.ResolveTuning(Tuning(kp, ki, kd, integralLimit, outputLimit), pidDefaults.Defaults(ClassLineage));
               t.kp.Some? && t.ki.Some? && t.kd.Some?
      ensures pid.Tuning() == BasePidLoop.ResolveTuning(Tuning(kp, ki, kd, integralLimit, outputLimit), pidDefaults.Defaults(ClassLineage))
      ensures pid.setpoint == Some(threshold)
      ensures this.threshold == threshold && this.trackingEdge == trackingEdge && this.speed == speed
      ensures this.sensor == sensor && this.leftMotor == leftMotor && this.rightMotor == rightMotor
      ensures var o := Track(pid.Gains(), pid.integralLimit, pid.outputLimit, threshold, trackingEdge, speed, Zero, readings);
              commands == o.events && pid.State() == o.state
      ensures fresh(pid)
    {
      this.threshold, this.trackingEdge, this.speed := threshold, trackingEdge, speed;
      this.sensor, this.leftMotor, this.rightMotor := sensor, leftMotor, rightMotor;
      this.pid := new BasePidLoop.PIDLoop(pidDefaults, ClassLineage, Some(threshold), kp, ki, kd, integralLimit, outputLimit);
      commands := [];
      new;
      var _ := Run(readings);
    }

    /**
     * `run()` over `readings`: the commands of `Track`, no hold; `stopped` is `false` when the
     * readings ran out before the stop condition held.
     */
    method Run(readings: seq<TrackReading>) returns (stopped: bool)
      requires pid.Configured()
      modifies this, pid
      ensures speed == old(speed)
      ensures var o := Track(pid.Gains(), pid.integralLimit, pid.outputLimit, threshold, trackingEdge, speed,
                             old(pid.State()), readings);
              && commands == old(commands) + o.events
              && pid.State() == o.state
              && stopped == o.exited
    {
      var directionMultiplier := Ev3pidLineTrack.Sign(trackingEdge);
      ghost var g := pid.Gains();
      ghost var issued: seq<MotorEvent> := [];
      PrependNothing(Track(g, pid.integralLimit, pid.outputLimit, threshold, trackingEdge, speed, pid.State(), readings));
      var i := 0;
      while i < |readings| && !readings[i].stop
        invariant 0 <= i <= |readings|
        invariant commands == old(commands) + issued
        invariant speed == old(speed)
        invariant Track(g, pid.integralLimit, pid.outputLimit, threshold, trackingEdge, speed, old(pid.State()), readings)
                  == Prepend(issued, Track(g, pid.integralLimit, pid.outputLimit, threshold, trackingEdge, speed,
                                           pid.State(), readings[i..]))
      {
        ghost var before := pid.State();
        var r := pid.Update((readings[i].reflection - threshold) as real);
        var output := r.value * directionMultiplier;
        var event := Ev3pidLineTrack.Command(speed)(output);
        assert event == Ev3pidLineTrack.Steer(speed, trackingEdge)(r.value);
        commands := commands + [event];
        TrackAdvance(g, pid.integralLimit, pid.outputLimit, threshold, trackingEdge, speed, before, readings[i..],
                     issued, pid.State(), r.value);
        assert readings[i..][1..] == readings[i + 1..];
        issued := issued + [event];
        i := i + 1;
      }
      stopped := i < |readings|;
      assert Track(g, pid.integralLimit, pid.outputLimit, threshold, trackingEdge, speed, pid.State(), readings[i..]).events == [];
    }
  }
}
