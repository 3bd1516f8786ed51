/**
 * Default gyro sensor resolution of the `GyroMovement` mixin of the movement package
 * (movement/base/GyroMovement.py). It declares and resolves `DEFAULT_GYRO` as
 * ev3pid/utils/GyroInput.py does (its `sensor != None` test agrees with `is not None` on a
 * pybricks `GyroSensor`), and its setter, named `setDefaultGyroSensor`, assigns the attribute on
 * the class it is called on just as `setDefaultSensor` does. So it shares that module's
 * registry class, whose `SetDefaultSensor` stands for `setDefaultGyroSensor`.
 */
module GyroMovementBase {
  import GyroInputUtils

  /** `DEFAULT_GYRO`, with `setDefaultGyroSensor` and the constructor's resolution. */
  type GyroDefaults = GyroInputUtils.GyroDefaults
}
