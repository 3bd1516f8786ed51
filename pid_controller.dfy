/**
 * The PID controller of the latest generation (pheasant/ev3pid/utils/PIDController.py): the
 * accumulator is scaled by `integralMultiplier`, clamped, and only then multiplied by `ki`; the
 * sum of the three terms is clamped to the output limit.
 */
module PidController {
  import opened Wrappers
  import opened ClassAttributes
  import opened PidCommon
  import Polling

  /** The new accumulator: `integral * integralMultiplier + error`, clamped if a limit is set. */
  function Accumulate(integral: real, error: real, integralMultiplier: int, integralLimit: Option<real>): real
  {
    ClampTo(integral * integralMultiplier as real + error, integralLimit)
  }

  /** One `update(error, integralMultiplier)` with resolved gains: the new state and the output. */
  function Step(g: Gains, integralLimit: Option<real>, outputLimit: Option<real>,
                s: PidState, error: real, integralMultiplier: int): (u: (PidState, real))
    ensures u.0.prevError == error
    ensures integralLimit.Some? && 0.0 <= integralLimit.value ==>
              -integralLimit.value <= u.0.integral <= integralLimit.value
    ensures outputLimit.Some? && 0.0 <= outputLimit.value ==>
              -outputLimit.value <= u.1 <= outputLimit.value
  {
    var pTerm := error * g.kp;
    var integral := Accumulate(s.integral, error, integralMultiplier, integralLimit);
    var iTerm := integral * g.ki;
    var dTerm := (error - s.prevError) * g.kd;
    (PidState(integral, error), ClampTo(pTerm + iTerm + dTerm, outputLimit))
  }

  /**
   * Without an output limit the output is P + I + D, with the I term taken from the accumulator
   * as stored, after its clamp.
   */
  lemma UnlimitedOutputIsSum(g: Gains, integralLimit: Option<real>, s: PidState, error: real, integralMultiplier: int)
    ensures var u := Step(g, integralLimit, None, s, error, integralMultiplier);
            u.1 == error * g.kp + u.0.integral * g.ki + (error - s.prevError) * g.kd
  {
  }

  /** A zero `integralMultiplier` discards the history: the accumulator is the clamped error alone. */
  lemma ZeroMultiplierForgets(g: Gains, integralLimit: Option<real>, outputLimit: Option<real>, s: PidState, error: real)
    ensures Step(g, integralLimit, outputLimit, s, error, 0).0 == PidState(ClampTo(error, integralLimit), error)
  {
    assert s.integral * 0 as real + error == error;
  }

  /**
   * Without an output limit the output is linear in the gains: summing two gain tuples sums the
   * outputs, scaling a tuple scales the output, and the new state does not depend on the gains.
   */
  lemma OutputLinearInGains(g1: Gains, g2: Gains, c: real, integralLimit: Option<real>, s: PidState,
                            error: real, integralMultiplier: int)
    ensures var u1 := Step(g1, integralLimit, None, s, error, integralMultiplier);
            var u2 := Step(g2, integralLimit, None, s, error, integralMultiplier);
            var sum := Step(Gains(g1.kp + g2.kp, g1.ki + g2.ki, g1.kd + g2.kd), integralLimit, None, s, error, integralMultiplier);
            var scaled := Step(Gains(c * g1.kp, c * g1.ki, c * g1.kd), integralLimit, None, s, error, integralMultiplier);
            && sum.0 == u1.0 == u2.0 == scaled.0
            && sum.1 == u1.1 + u2.1
            && scaled.1 == c * u1.1
  {
    var g3 := Gains(g1.kp + g2.kp, g1.ki + g2.ki, g1.kd + g2.kd);
    var g4 := Gains(c * g1.kp, c * g1.ki, c * g1.kd);
    UnlimitedOutputIsSum(g1, integralLimit, s, error, integralMultiplier);
    UnlimitedOutputIsSum(g2, integralLimit, s, error, integralMultiplier);
    UnlimitedOutputIsSum(g3, integralLimit, s, error, integralMultiplier);
    UnlimitedOutputIsSum(g4, integralLimit, s, error, integralMultiplier);
  }

  /** `update` as a function of state and error, the form the movement loops feed. */
  function Updater(g: Gains, integralLimit: Option<real>, outputLimit: Option<real>, integralMultiplier: int)
    : (PidState, real) -> (PidState, real)
  {
    (s: PidState, e: real) => Step(g, integralLimit, outputLimit, s, e, integralMultiplier)
  }

  /** With kp = 1, ki = 0, kd = 0 and no output limit, every call returns its error exactly. */
  lemma {:induction false} ProportionalPassThrough(integralLimit: Option<real>, s: PidState, errors: seq<real>)
    ensures Polling.Responses(Updater(Gains(1.0, 0.0, 0.0), integralLimit, None, 1), s, errors) == errors
    decreases |errors|
  {
    if |errors| > 0 {
      var u := Updater(Gains(1.0, 0.0, 0.0), integralLimit, None, 1);
      ProportionalPassThrough(integralLimit, u(s, errors[0]).0, errors[1..]);
    }
  }

  /** With an output limit M >= 0, no call in any sequence returns a value outside [-M, M]. */
  lemma {:induction false} OutputAlwaysWithinLimit(g: Gains, integralLimit: Option<real>, m: real,
                                                   integralMultiplier: int, s: PidState, errors: seq<real>)
    requires 0.0 <= m
    ensures forall i :: 0 <= i < |errors| ==>
              -m <= Polling.Responses(Updater(g, integralLimit, Some(m), integralMultiplier), s, errors)[i] <= m
    decreases |errors|
  {
    if |errors| > 0 {
      var u := Updater(g, integralLimit, Some(m), integralMultiplier);
      OutputAlwaysWithinLimit(g, integralLimit, m, integralMultiplier, u(s, errors[0]).0, errors[1..]);
    }
  }

  /**
   * With an integral limit L >= 0, the stored accumulator stays in [-L, L] after any number of
   * calls, whatever the errors (from a state that starts inside the bound, such as a new one).
   */
  lemma {:induction false} IntegralStaysWithinLimit(g: Gains, l: real, outputLimit: Option<real>,
                                                    integralMultiplier: int, s: PidState, errors: seq<real>)
    requires 0.0 <= l && -l <= s.integral <= l
    ensures var t := Polling.Settle(Updater(g, Some(l), outputLimit, integralMultiplier), s, errors);
            -l <= t.integral <= l
    decreases |errors|
  {
    if |errors| > 0 {
      var u := Updater(g, Some(l), outputLimit, integralMultiplier);
      IntegralStaysWithinLimit(g, l, outputLimit, integralMultiplier, u(s, errors[0]).0, errors[1..]);
    }
  }

  /** A controller object: tuning fixed at construction, running terms updated in place. */
  class PIDController {
    const setpoint: Option<int>
    const kp: Option<real>
    const ki: Option<real>
    const kd: Option<real>
    const integralLimit: Option<real>
    const outputLimit: Option<real>
    var integral: real
    var prevError: real

    function State(): PidState
      reads this
    {
      PidState(integral, prevError)
    }

    function Tuning(): Tuning
    {
      PidCommon.Tuning(kp, ki, kd, integralLimit, outputLimit)
    }

    /** Every gain resolved, so that `update` cannot meet `None`. */
    predicate Configured()
    {
      kp.Some? && ki.Some? && kd.Some?
    }

    function Gains(): Gains
      requires Configured()
    {
      PidCommon.Gains(kp.value, ki.value, kd.value)
    }

    /**
     * `PIDController(setpoint, kp, ki, kd, integralLimit, outputLimit)` for an object whose
     * class has `lineage`: every `None` argument becomes that class's default, which may
     * itself be `None`; nothing raises.
     */
    constructor (defaults: TuningDefaults, lineage: Lineage, setpoint: Option<int>,
                 kp: Option<real>, ki: Option<real>, kd: Option<real>,
                 integralLimit: Option<real>, outputLimit: Option<real>)
      ensures Tuning() == PidCommon.Tuning(kp, ki, kd, integralLimit, outputLimit).Or(defaults.Defaults(lineage))
      ensures this.setpoint == setpoint
      ensures State() == Zero
    {
      var t := PidCommon.Tuning(kp, ki, kd, integralLimit, outputLimit).Or(defaults.Defaults(lineage));
      this.setpoint := setpoint;
      this.kp, this.ki, this.kd := t.kp, t.ki, t.kd;
      this.integralLimit, this.outputLimit := t.integralLimit, t.outputLimit;
      prevError, integral := 0.0, 0.0;
    }

    /**
     * `update(error, integralMultiplier)`. A `None` gain raises TypeError where Python meets
     * it: `kp` before anything changes, `ki` and `kd` after the accumulator has been updated.
     */
    method Update(error: real, integralMultiplier: int) returns (r: Result<real>)
      modifies this
      ensures Configured() ==>
                var u := Step(Gains(), integralLimit, outputLimit, old(State()), error, integralMultiplier);
                r == Ok(u.1) && State() == u.0
      ensures kp.None? ==> r == Err(TypeError) && State() == old(State())
      ensures kp.Some? && !Configured() ==>
                && r == Err(TypeError)
                && integral == Accumulate(old(integral), error, integralMultiplier, integralLimit)
                && prevError == old(prevError)
    {
      if kp.None? {
        return Err(TypeError);
      }
      var before := State();
      integral := Accumulate(integral, error, integralMultiplier, integralLimit);
      if ki.None? {
        return Err(TypeError);
      }
      if kd.None? {
        return Err(TypeError);
      }
      // P + I + D on the accumulator just stored, clamped to the output limit
      var u := Step(Gains(), integralLimit, outputLimit, before, error, integralMultiplier);
      prevError := error;
      r := Ok(u.1);
    }

    /** `reset()`: the running terms go back to zero; tuning and setpoint are constants. */
    method Reset()
      modifies this
      ensures State() == Zero
    {
      integral := 0.0;
      prevError := 0.0;
    }
  }

  /**
   * `reset()` followed by `update(e)` answers exactly as a newly built controller with the
   * same arguments does, whatever the earlier history.
   */
  method ResetMatchesFresh(defaults: TuningDefaults, lineage: Lineage, setpoint: Option<int>,
                           kp: Option<real>, ki: Option<real>, kd: Option<real>,
                           integralLimit: Option<real>, outputLimit: Option<real>,
                           history: seq<real>, e: real)
    returns (afterReset: Result<real>, brandNew: Result<real>)
    ensures afterReset == brandNew
  {
    var used := new PIDController(defaults, lineage, setpoint, kp, ki, kd, integralLimit, outputLimit);
    for i := 0 to |history| {
      var _ := used.Update(history[i], 1);
    }
    used.Reset();
    afterReset := used.Update(e, 1);
    var other := new PIDController(defaults, lineage, setpoint, kp, ki, kd, integralLimit, outputLimit);
    brandNew := other.Update(e, 1);
  }

  /**
   * A purely proportional controller with kp = 2 answers 10 to an error of 5 and then -10 to
   * an error of -5: with ki = 0 nothing carries over between the two ticks.
   */
  method ProportionalScenario() returns (first: Result<real>, second: Result<real>)
    ensures first == Ok(10.0) && second == Ok(-10.0)
  {
    var defaults := new TuningDefaults();
    var pid := new PIDController(defaults, ["PIDController"], Some(0), Some(2.0), Some(0.0), Some(0.0), None, None);
    first := pid.Update(5.0, 1);
    second := pid.Update(-5.0, 1);
  }
}
