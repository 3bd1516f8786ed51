/**
 * The first PID controller (movement/PIDLoop.py): gains are stored as passed, the integral
 * limit is one class-level `INTEGRAL_LIMIT` read at every update, the I term is taken before
 * the clamp, and the output is never clamped.
 */
module MovementPidLoop {
  import opened Wrappers
  import opened ClassAttributes
  import opened PidCommon
  import Polling
  import BasePidLoop

  /**
   * One `update(error)` with gains `g` and the class's integral limit: the earlier base
   * controller's step with no output limit.
   */
  function Step(g: Gains, integralLimit: Option<real>, s: PidState, error: real): (u: (PidState, real))
    ensures u.1 == error * g.kp + (s.integral + error) * g.ki + (error - s.prevError) * g.kd
    ensures u.0.prevError == error
    ensures integralLimit.Some? && 0.0 <= integralLimit.value ==>
              -integralLimit.value <= u.0.integral <= integralLimit.value
    ensures integralLimit.None? ==> u.0.integral == s.integral + error
  {
    BasePidLoop.Step(g, integralLimit, None, s, error)
  }

  /** `update` as a function of state and error. */
  function Updater(g: Gains, integralLimit: Option<real>): (PidState, real) -> (PidState, real)
  {
    (s: PidState, e: real) => Step(g, integralLimit, s, e)
  }

  /** With no integral limit, the accumulator is the plain sum of every error fed so far. */
  lemma {:induction false} AccumulatorIsSumOfErrors(g: Gains, s: PidState, errors: seq<real>)
    ensures Polling.Settle(Updater(g, None), s, errors).integral == s.integral + Sum(errors)
    decreases |errors|
  {
    if |errors| > 0 {
      AccumulatorIsSumOfErrors(g, Step(g, None, s, errors[0]).0, errors[1..]);
    }
  }

  function Sum(xs: seq<real>): real
    decreases |xs|
  {
    if |xs| == 0 then 0.0 else xs[0] + Sum(xs[1..])
  }

  /**
   * The class attributes of PIDLoop and its subclasses: `INTEGRAL_LIMIT` (declared `None`) and
   * the `kp_DEFAULT`, `ki_DEFAULT`, `kd_DEFAULT` that `setDefaultTuning` writes and no class
   * declares.
   */
  class PidLoopClasses {
    var integralLimit: map<ClassName, Option<real>>
    var kpDefault: map<ClassName, Option<real>>
    var kiDefault: map<ClassName, Option<real>>
    var kdDefault: map<ClassName, Option<real>>

    constructor ()
      ensures integralLimit == kpDefault == kiDefault == kdDefault == map[]
    {
      integralLimit, kpDefault, kiDefault, kdDefault := map[], map[], map[], map[];
    }

    /** `self.__class__.INTEGRAL_LIMIT` for an object whose class has `lineage`. */
    function IntegralLimit(lineage: Lineage): Option<real>
      reads this
    {
      Lookup(integralLimit, lineage, None)
    }

    /** `cls.setIntegralLimit(limit)` */
    method SetIntegralLimit(cls: ClassName, limit: Option<real>)
      modifies this
      ensures integralLimit == old(integralLimit)[cls := limit]
      ensures kpDefault == old(kpDefault) && kiDefault == old(kiDefault) && kdDefault == old(kdDefault)
    {
      integralLimit := integralLimit[cls := limit];
    }

    /** `cls.setDefaultTuning(kp, ki, kd)` */
    method SetDefaultTuning(cls: ClassName, kp: Option<real>, ki: Option<real>, kd: Option<real>)
      modifies this
      ensures kpDefault == old(kpDefault)[cls := kp]
      ensures kiDefault == old(kiDefault)[cls := ki]
      ensures kdDefault == old(kdDefault)[cls := kd]
      ensures integralLimit == old(integralLimit)
    {
      kpDefault := kpDefault[cls := kp];
      kiDefault := kiDefault[cls := ki];
      kdDefault := kdDefault[cls := kd];
    }
  }

  /**
   * Python binding the positional arguments of a call `PIDLoop(...)` to
   * `__init__(self, setpoint, kp, ki, kd)`: any other count raises TypeError.
   */
  function BindInit(positional: nat): (r: Result<()>)
    ensures r.Ok? <==> positional == 4
    ensures r.Err? ==> r.error == TypeError
  {
    if positional == 4 then Ok(()) else Err(TypeError)
  }

  /**
   * `PIDLoop(setpoint, kp, ki, kd)`: the four-argument call the movement primitives evidently
   * intend, which binds and keeps the three gains; no limit reaches the object.
   */
  function InitWithGains(args: Tuning): (r: Result<Tuning>)
    ensures r.Ok? && r.value.kp == args.kp && r.value.ki == args.ki && r.value.kd == args.kd
    ensures r.value.integralLimit.None? && r.value.outputLimit.None?
  {
    var passed := [args.kp, args.ki, args.kd];
    match BindInit(1 + |passed|)
    case Ok(_) => Ok(Tuning(args.kp, args.ki, args.kd, None, None))
    case Err(e) => Err(e)
  }

  /** A controller object of the class at the head of `lineage`. */
  class PIDLoop {
    const lineage: Lineage
    const setpoint: Option<int>
    const kp: Option<real>
    const ki: Option<real>
    const kd: Option<real>
    var integral: real
    var prevError: real

    function State(): PidState
      reads this
    {
      PidState(integral, prevError)
    }

    predicate Configured()
    {
      kp.Some? && ki.Some? && kd.Some?
    }

    function Gains(): Gains
      requires Configured()
    {
      PidCommon.Gains(kp.value, ki.value, kd.value)
    }

    /** `PIDLoop(setpoint, kp, ki, kd)`: everything stored exactly as passed, no defaults read. */
    constructor (lineage: Lineage, setpoint: Option<int>, kp: Option<real>, ki: Option<real>, kd: Option<real>)
      ensures this.lineage == lineage && this.setpoint == setpoint
      ensures this.kp == kp && this.ki == ki && this.kd == kd
      ensures State() == Zero
    {
      this.lineage, this.setpoint := lineage, setpoint;
      this.kp, this.ki, this.kd := kp, ki, kd;
      prevError, integral := 0.0, 0.0;
    }

    /**
     * `update(error)`, reading the class's current `INTEGRAL_LIMIT`. A `None` gain raises
     * TypeError where Python meets it.
     */
    method Update(classes: PidLoopClasses, error: real) returns (r: Result<real>)
      modifies this
      ensures Configured() ==>
                var u := Step(Gains(), classes.IntegralLimit(lineage), old(State()), error);
                r == Ok(u.1) && State() == u.0
      ensures kp.None? ==> r == Err(TypeError) && State() == old(State())
      ensures kp.Some? && ki.None? ==>
                r == Err(TypeError) && State() == PidState(old(integral) + error, old(prevError))
      ensures kp.Some? && ki.Some? && kd.None? ==>
                r == Err(TypeError)
                && State() == PidState(ClampTo(old(integral) + error, classes.IntegralLimit(lineage)), old(prevError))
    {
      if kp.None? {
        return Err(TypeError);
      }
      var before := State();
      integral := integral + error;
      if ki.None? {
        return Err(TypeError);
      }
      integral := ClampTo(integral, classes.IntegralLimit(lineage));
      if kd.None? {
        return Err(TypeError);
      }
      // P + I + D, the I term on the sum before its clamp, with no output clamp
      var u := Step(Gains(), classes.IntegralLimit(lineage), before, error);
      prevError := error;
      r := Ok(u.1);
    }
  }

  /**
   * `setIntegralLimit` on the class takes effect in the next update of an object built
   * before the call; `setDefaultTuning` changes nothing a later construction stores.
   */
  method ClassSettersSeenByInstances() returns (integralAfterLimit: real, kpAfterTuning: Option<real>)
    ensures integralAfterLimit == 1.0
    ensures kpAfterTuning == None
  {
    var classes := new PidLoopClasses();
    var pid := new PIDLoop(["PIDLoop"], Some(0), Some(1.0), Some(0.0), Some(0.0));
    classes.SetIntegralLimit("PIDLoop", Some(1.0));
    var _ := pid.Update(classes, 5.0);
    integralAfterLimit := pid.integral;
    classes.SetDefaultTuning("PIDLoop", Some(2.0), Some(2.0), Some(2.0));
    var other := new PIDLoop(["PIDLoop"], Some(0), None, None, None);
    kpAfterTuning := other.kp;
  }
}
