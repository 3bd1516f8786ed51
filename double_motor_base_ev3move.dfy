/**
 * Default drive motor resolution of the `DoubleMotorBase` mixin of the earlier ev3move package
 * (ev3move/utils/DoubleMotorBase.py). Its class attributes, setter and constructor are those of
 * pheasant/ev3move/utils/DoubleMotorBase.py; the one textual difference, `leftMotor != None`
 * where the later file writes `is not None`, selects the same branch for a pybricks `Motor`,
 * whose equality is identity. So the ev3pid primitives share the one registry class.
 */
module DoubleMotorBaseEv3move {
  import DoubleMotorBasePheasant

  /** `LEFT_MOTOR_DEFAULT` and `RIGHT_MOTOR_DEFAULT`, with `setDefaultMotors` and the constructor's resolution. */
  type MotorDefaults = DoubleMotorBasePheasant.MotorDefaults
}
