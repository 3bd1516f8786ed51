/**
 * The earlier PID controller (ev3pid/base/PIDLoop.py): the accumulator grows by the error, the
 * I term is taken from it BEFORE the clamp, and only then is the stored accumulator clamped.
 * Its constructor assigns the resolved output limit to `integralLimit` and keeps the raw
 * `outputLimit` argument.
 */
module BasePidLoop {
  import opened Wrappers
  import opened ClassAttributes
  import opened PidCommon
  import Polling
  import PidController

  /**
   * The tuning the constructor stores, as written: gains resolve as usual, `integralLimit`
   * ends up holding the output limit (argument, else `OUTPUT_LIMIT_DEFAULT`), and
   * `outputLimit` is the argument as passed.
   */
  function ResolveTuning(args: Tuning, defaults: Tuning): (t: Tuning)
    ensures t.kp == args.Or(defaults).kp && t.ki == args.Or(defaults).ki && t.kd == args.Or(defaults).kd
    ensures t.integralLimit == args.Or(defaults).outputLimit
    ensures t.outputLimit == args.outputLimit
  {
    var r := args.Or(defaults);
    Tuning(r.kp, r.ki, r.kd, r.outputLimit, args.outputLimit)
  }

  /** Neither the `integralLimit` argument nor `INTEGRAL_LIMIT_DEFAULT` has any effect. */
  lemma IntegralLimitIgnored(args: Tuning, defaults: Tuning, limit: Option<real>, defaultLimit: Option<real>)
    ensures ResolveTuning(args.(integralLimit := limit), defaults.(integralLimit := defaultLimit)) == ResolveTuning(args, defaults)
  {
  }

  /** `OUTPUT_LIMIT_DEFAULT` never clamps the output: with no argument, no output limit is stored. */
  lemma OutputDefaultNeverStored(args: Tuning, defaults: Tuning)
    requires args.outputLimit.None?
    ensures ResolveTuning(args, defaults).outputLimit.None?
    ensures ResolveTuning(args, defaults).integralLimit == defaults.outputLimit
  {
  }

  /** One `update(error)` with resolved gains: the new state and the output. */
  function Step(g: Gains, integralLimit: Option<real>, outputLimit: Option<real>, s: PidState, error: real): (u: (PidState, real))
    ensures u.0.prevError == error
    ensures u.0.integral == ClampTo(s.integral + error, integralLimit)
    ensures integralLimit.Some? && 0.0 <= integralLimit.value ==>
              -integralLimit.value <= u.0.integral <= integralLimit.value
    ensures outputLimit.Some? && 0.0 <= outputLimit.value ==>
              -outputLimit.value <= u.1 <= outputLimit.value
    // the I term uses the accumulator before its clamp
    ensures outputLimit.None? ==> u.1 == error * g.kp + (s.integral + error) * g.ki + (error - s.prevError) * g.kd
  {
    var pTerm := error * g.kp;
    var grown := s.integral + error;
    var iTerm := grown * g.ki;
    var dTerm := (error - s.prevError) * g.kd;
    (PidState(ClampTo(grown, integralLimit), error), ClampTo(pTerm + iTerm + dTerm, outputLimit))
  }

  /**
   * Without an output limit the output is linear in the gains: summing two gain tuples sums the
   * outputs, scaling a tuple scales the output, and the new state does not depend on the gains.
   */
  lemma OutputLinearInGains(g1: Gains, g2: Gains, c: real, integralLimit: Option<real>, s: PidState, error: real)
    ensures var u1 := Step(g1, integralLimit, None, s, error);
            var u2 := Step(g2, integralLimit, None, s, error);
            var sum := Step(Gains(g1.kp + g2.kp, g1.ki + g2.ki, g1.kd + g2.kd), integralLimit, None, s, error);
            var scaled := Step(Gains(c * g1.kp, c * g1.ki, c * g1.kd), integralLimit, None, s, error);
            && sum.0 == u1.0 == u2.0 == scaled.0
            && sum.1 == u1.1 + u2.1
            && scaled.1 == c * u1.1
  {
  }

  /** `update` as a function of state and error. */
  function Updater(g: Gains, integralLimit: Option<real>, outputLimit: Option<real>): (PidState, real) -> (PidState, real)
  {
    (s: PidState, e: real) => Step(g, integralLimit, outputLimit, s, e)
  }

  /**
   * Taking the I term before the clamp lets one tick's I term exceed `ki * L` although the
   * stored accumulator respects L: with kp = kd = 0, ki = 1, L = 1, a stored integral of 1 and
   * an error of 1, this controller answers 2 while the later one answers 1.
   */
  lemma ClampOrderDiffers()
    ensures Step(Gains(0.0, 1.0, 0.0), Some(1.0), None, PidState(1.0, 0.0), 1.0) == (PidState(1.0, 1.0), 2.0)
    ensures PidController.Step(Gains(0.0, 1.0, 0.0), Some(1.0), None, PidState(1.0, 0.0), 1.0, 1) == (PidState(1.0, 1.0), 1.0)
  {
  }

  /** With an integral limit L >= 0 the stored accumulator stays in [-L, L] over any run. */
  lemma {:induction false} IntegralStaysWithinLimit(g: Gains, l: real, outputLimit: Option<real>, s: PidState, errors: seq<real>)
    requires 0.0 <= l && -l <= s.integral <= l
    ensures var t := Polling.Settle(Updater(g, Some(l), outputLimit), s, errors);
            -l <= t.integral <= l
  {
    var inv := (t: PidState) => -l <= t.integral <= l;
    Polling.SettleKeeps(Updater(g, Some(l), outputLimit), inv, s, errors);
  }

  /** With an output limit M >= 0 stored, no response in any run leaves [-M, M]. */
  lemma {:induction false} OutputAlwaysWithinLimit(g: Gains, integralLimit: Option<real>, m: real, s: PidState, errors: seq<real>)
    requires 0.0 <= m
    ensures forall i :: 0 <= i < |errors| ==> -m <= Polling.Responses(Updater(g, integralLimit, Some(m)), s, errors)[i] <= m
  {
    Polling.ResponsesKeep(Updater(g, integralLimit, Some(m)), (o: real) => -m <= o <= m, s, errors);
  }

  /** A controller object: tuning fixed at construction, running terms updated in place. */
  class PIDLoop {
    const setpoint: Option<int>
    const kp: Option<real>
    const ki: Option<real>
    const kd: Option<real>
    const integralLimit: Option<real>
    const outputLimit: Option<real>
    var integral: real
    var prevError: real

    function State(): PidState
      reads this
    {
      PidState(integral, prevError)
    }

    function Tuning(): Tuning
    {
      PidCommon.Tuning(kp, ki, kd, integralLimit, outputLimit)
    }

    /** Every gain resolved, so that `update` cannot meet `None`. */
    predicate Configured()
    {
      kp.Some? && ki.Some? && kd.Some?
    }

    function Gains(): Gains
      requires Configured()
    {
      PidCommon.Gains(kp.value, ki.value, kd.value)
    }

    /** `PIDLoop(setpoint, kp, ki, kd, integralLimit, outputLimit)` for an object whose class has `lineage`. */
    constructor (defaults: TuningDefaults, lineage: Lineage, setpoint: Option<int>,
                 kp: Option<real>, ki: Option<real>, kd: Option<real>,
                 integralLimit: Option<real>, outputLimit: Option<real>)
      ensures Tuning() == ResolveTuning(PidCommon.Tuning(kp, ki, kd, integralLimit, outputLimit), defaults.Defaults(lineage))
      ensures this.setpoint == setpoint
      ensures State() == Zero
    {
      var t := ResolveTuning(PidCommon.Tuning(kp, ki, kd, integralLimit, outputLimit), defaults.Defaults(lineage));
      this.setpoint := setpoint;
      this.kp, this.ki, this.kd := t.kp, t.ki, t.kd;
      this.integralLimit, this.outputLimit := t.integralLimit, t.outputLimit;
      prevError, integral := 0.0, 0.0;
    }

    /**
     * `update(error)`. A `None` gain raises TypeError where Python meets it: `kp` before any
     * change, `ki` after the unclamped `+= error`, `kd` after the clamp.
     */
    method Update(error: real) returns (r: Result<real>)
      modifies this
      ensures Configured() ==>
                var u := Step(Gains(), integralLimit, outputLimit, old(State()), error);
                r == Ok(u.1) && State() == u.0
      ensures kp.None? ==> r == Err(TypeError) && State() == old(State())
      ensures kp.Some? && ki.None? ==>
                r == Err(TypeError) && State() == PidState(old(integral) + error, old(prevError))
      ensures kp.Some? && ki.Some? && kd.None? ==>
                r == Err(TypeError) && State() == PidState(ClampTo(old(integral) + error, integralLimit), old(prevError))
    {
      if kp.None? {
        return Err(TypeError);
      }
      var before := State();
      integral := integral + error;
      if ki.None? {
        return Err(TypeError);
      }
      integral := ClampTo(integral, integralLimit);
      if kd.None? {
        return Err(TypeError);
      }
      // P + I + D, the I term on the sum before its clamp, clamped to the output limit
      var u := Step(Gains(), integralLimit, outputLimit, before, error);
      prevError := error;
      r := Ok(u.1);
    }

    /** `reset()`: the running terms go back to zero; tuning and setpoint are constants. */
    method Reset()
      modifies this
      ensures State() == Zero
    {
      integral := 0.0;
      prevError := 0.0;
    }
  }

  /**
   * Built with an output limit of 1 and no integral limit, the controller stores 1 as both
   * limits: the integral limit because the output limit overwrites it, the output limit because
   * the raw argument is kept. Built with only an integral limit of 1, it stores neither limit:
   * the unset output limit overwrites the integral limit with `None`.
   */
  method LimitsAsStored() returns (withOutputLimit: (Option<real>, Option<real>), withIntegralLimit: (Option<real>, Option<real>))
    ensures withOutputLimit == (Some(1.0), Some(1.0))
    ensures withIntegralLimit == (None, None)
  {
    var defaults := new TuningDefaults();
    var a := new PIDLoop(defaults, ["PIDLoop"], Some(0), Some(1.0), Some(0.0), Some(0.0), None, Some(1.0));
    withOutputLimit := (a.integralLimit, a.outputLimit);
    var b := new PIDLoop(defaults, ["PIDLoop"], Some(0), Some(1.0), Some(0.0), Some(0.0), Some(1.0), None);
    withIntegralLimit := (b.integralLimit, b.outputLimit);
  }
}
