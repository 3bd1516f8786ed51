/** Default drive motor resolution of the `DoubleMotorBase` mixin of the competition code (pheasant/ev3move/utils/DoubleMotorBase.py). */
module DoubleMotorBasePheasant {
  import opened Wrappers
  import opened ClassAttributes
  import opened Hardware

  /** `LEFT_MOTOR_DEFAULT` and `RIGHT_MOTOR_DEFAULT`: declared `None`, assigned per class. */
  class MotorDefaults {
    var leftMotorDefault: map<ClassName, Option<Motor>>
    var rightMotorDefault: map<ClassName, Option<Motor>>

    constructor ()
      ensures leftMotorDefault == map[] && rightMotorDefault == map[]
    {
      leftMotorDefault, rightMotorDefault := map[], map[];
    }

    /** `cls.setDefaultMotors(leftMotor, rightMotor)` */
    method SetDefaultMotors(cls: ClassName, leftMotor: Option<Motor>, rightMotor: Option<Motor>)
      modifies this
      ensures leftMotorDefault == old(leftMotorDefault)[cls := leftMotor]
      ensures rightMotorDefault == old(rightMotorDefault)[cls := rightMotor]
    {
      leftMotorDefault := leftMotorDefault[cls := leftMotor];
      rightMotorDefault := rightMotorDefault[cls := rightMotor];
    }

    /** `self.leftMotor` and `self.rightMotor` as the constructor resolves them. */
    function Motors(lineage: Lineage, leftMotor: Option<Motor>, rightMotor: Option<Motor>): (m: (Option<Motor>, Option<Motor>))
      reads this
      ensures leftMotor.Some? ==> m.0 == leftMotor
      ensures rightMotor.Some? ==> m.1 == rightMotor
      // an omitted motor is the first registration along the lineage, else `None`
      ensures leftMotor.None? ==> m.0 == Lookup(leftMotorDefault, lineage, None)
      ensures rightMotor.None? ==> m.1 == Lookup(rightMotorDefault, lineage, None)
    {
      (Resolve(leftMotor, leftMotorDefault, lineage), Resolve(rightMotor, rightMotorDefault, lineage))
    }
  }

  /**
   * Each side is resolved on its own: what is given or registered for one side never
   * changes the motor chosen for the other.
   */
  lemma SidesIndependent(defaults: MotorDefaults, lineage: Lineage, leftMotor: Option<Motor>,
                         rightMotor: Option<Motor>, otherLeft: Option<Motor>, otherRight: Option<Motor>)
    ensures defaults.Motors(lineage, leftMotor, rightMotor).0 == defaults.Motors(lineage, leftMotor, otherRight).0
    ensures defaults.Motors(lineage, leftMotor, rightMotor).1 == defaults.Motors(lineage, otherLeft, rightMotor).1
  {
  }

  /**
   * Motors registered on a base class reach a subclass that registered nothing itself; with
   * nothing registered anywhere, omitted motors stay `None` without an error.
   */
  method RegisteredOnBaseReachesSubclass(sub: ClassName, base: ClassName, l: Motor, r: Motor)
    returns (unregistered: (Option<Motor>, Option<Motor>), inherited: (Option<Motor>, Option<Motor>))
    requires sub != base
    ensures unregistered == (None, None)
    ensures inherited == (Some(l), Some(r))
  {
    var defaults := new MotorDefaults();
    unregistered := defaults.Motors([sub, base], None, None);
    defaults.SetDefaultMotors(base, Some(l), Some(r));
    AssignmentInherited(map[], [sub, base], 1, base, Some(l), None);
    AssignmentInherited(map[], [sub, base], 1, base, Some(r), None);
    inherited := defaults.Motors([sub, base], None, None);
  }
}
