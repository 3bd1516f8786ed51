/**
 * Default gyro sensor resolution of the earlier `GyroInput` mixin (ev3pid/base/GyroInput.py).
 * It declares, sets and resolves `DEFAULT_GYRO` exactly as ev3pid/utils/GyroInput.py does; its
 * `sensor != None` test selects the same branch as `is not None` for a pybricks `GyroSensor`,
 * whose equality is identity. So it shares that module's registry class.
 */
module GyroInputBase {
  import GyroInputUtils

  /** `DEFAULT_GYRO`, with `setDefaultSensor` and the constructor's resolution. */
  type GyroDefaults = GyroInputUtils.GyroDefaults
}
