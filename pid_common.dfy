/** Values shared by the three generations of the PID controller. */
module PidCommon {
  import opened Wrappers
  import opened ClassAttributes

  /** Python's `min` and `max` on two numbers. */
  function Min(a: real, b: real): real { if a <= b then a else b }
  function Max(a: real, b: real): real { if a >= b then a else b }

  /**
   * `x = min(x, limit); x = max(x, limit * -1)`: a symmetric clamp. With a negative limit
   * the second step wins and the result is always `-limit`.
   */
  function Clamp(x: real, limit: real): (r: real)
    ensures 0.0 <= limit ==> -limit <= r <= limit
    ensures 0.0 <= limit && -limit <= x <= limit ==> r == x
    ensures 0.0 <= limit < x ==> r == limit
    ensures x < -limit <= 0.0 ==> r == -limit
    ensures limit < 0.0 ==> r == -limit
  {
    Max(Min(x, limit), limit * -1.0)
  }

  /** The clamp applied only `if limit is not None`. */
  function ClampTo(x: real, limit: Option<real>): (r: real)
    ensures limit.None? ==> r == x
    ensures limit.Some? && 0.0 <= limit.value ==> -limit.value <= r <= limit.value
  {
    match limit
    case None => x
    case Some(l) => Clamp(x, l)
  }

  /** The running terms of a controller: `integral` and `prevError`. */
  datatype PidState = PidState(integral: real, prevError: real)

  /** `self.prevError = 0; self.integral = 0`, as after construction or `reset()`. */
  const Zero := PidState(0.0, 0.0)

  /** Resolved gains. */
  datatype Gains = Gains(kp: real, ki: real, kd: real)

  /** The five optional tuning values a constructor takes or a registry holds. */
  datatype Tuning = Tuning(kp: Option<real>, ki: Option<real>, kd: Option<real>,
                           integralLimit: Option<real>, outputLimit: Option<real>)
  {
    /** Each value of `this` that is not `None`, else the one of `fallback`. */
    function Or(fallback: Tuning): (t: Tuning)
      ensures kp.Some? ==> t.kp == kp
      ensures kp.None? ==> t.kp == fallback.kp
      ensures ki.Some? ==> t.ki == ki
      ensures ki.None? ==> t.ki == fallback.ki
      ensures kd.Some? ==> t.kd == kd
      ensures kd.None? ==> t.kd == fallback.kd
      ensures integralLimit.Some? ==> t.integralLimit == integralLimit
      ensures integralLimit.None? ==> t.integralLimit == fallback.integralLimit
      ensures outputLimit.Some? ==> t.outputLimit == outputLimit
      ensures outputLimit.None? ==> t.outputLimit == fallback.outputLimit
    {
      Tuning(Wrappers.Or(kp, fallback.kp), Wrappers.Or(ki, fallback.ki), Wrappers.Or(kd, fallback.kd),
             Wrappers.Or(integralLimit, fallback.integralLimit), Wrappers.Or(outputLimit, fallback.outputLimit))
    }
  }

  /** Nothing given and nothing registered. */
  const Unset := Tuning(None, None, None, None, None)

  /**
   * The class-level defaults `kp_DEFAULT`, `ki_DEFAULT`, `kd_DEFAULT`, `INTEGRAL_LIMIT_DEFAULT`
   * and `OUTPUT_LIMIT_DEFAULT` of a controller class and its subclasses: for each, the classes that
   * assigned it through a setter. All five are declared `None` on the base class.
   */
  class TuningDefaults {
    var kpDefault: map<ClassName, Option<real>>
    var kiDefault: map<ClassName, Option<real>>
    var kdDefault: map<ClassName, Option<real>>
    var integralLimitDefault: map<ClassName, Option<real>>
    var outputLimitDefault: map<ClassName, Option<real>>

    constructor ()
      ensures kpDefault == kiDefault == kdDefault == integralLimitDefault == outputLimitDefault == map[]
    {
      kpDefault, kiDefault, kdDefault := map[], map[], map[];
      integralLimitDefault, outputLimitDefault := map[], map[];
    }

    /** The five defaults as `self.__class__.X_DEFAULT` reads them for a class with this lineage. */
    function Defaults(lineage: Lineage): Tuning
      reads this
    {
      Tuning(Lookup(kpDefault, lineage, None), Lookup(kiDefault, lineage, None), Lookup(kdDefault, lineage, None),
             Lookup(integralLimitDefault, lineage, None), Lookup(outputLimitDefault, lineage, None))
    }

    /** `cls.setDefaultTuning(kp, ki, kd)` */
    method SetDefaultTuning(cls: ClassName, kp: Option<real>, ki: Option<real>, kd: Option<real>)
      modifies this
      ensures kpDefault == old(kpDefault)[cls := kp]
      ensures kiDefault == old(kiDefault)[cls := ki]
      ensures kdDefault == old(kdDefault)[cls := kd]
      ensures integralLimitDefault == old(integralLimitDefault) && outputLimitDefault == old(outputLimitDefault)
    {
      kpDefault := kpDefault[cls := kp];
      kiDefault := kiDefault[cls := ki];
      kdDefault := kdDefault[cls := kd];
    }

    /** `cls.setDefaultIntegralLimit(limit)` */
    method SetDefaultIntegralLimit(cls: ClassName, limit: Option<real>)
      modifies this
      ensures integralLimitDefault == old(integralLimitDefault)[cls := limit]
      ensures kpDefault == old(kpDefault) && kiDefault == old(kiDefault) && kdDefault == old(kdDefault)
      ensures outputLimitDefault == old(outputLimitDefault)
    {
      integralLimitDefault := integralLimitDefault[cls := limit];
    }

    /** `cls.setDefaultOutputLimit(limit)` */
    method SetDefaultOutputLimit(cls: ClassName, limit: Option<real>)
      modifies this
      ensures outputLimitDefault == old(outputLimitDefault)[cls := limit]
      ensures kpDefault == old(kpDefault) && kiDefault == old(kiDefault) && kdDefault == old(kdDefault)
      ensures integralLimitDefault == old(integralLimitDefault)
    {
      outputLimitDefault := outputLimitDefault[cls := limit];
    }
  }
}
