/** Default gyro sensor resolution of the later `GyroInput` mixin (ev3pid/utils/GyroInput.py). */
module GyroInputUtils {
  import opened Wrappers
  import opened ClassAttributes
  import opened Hardware

  /** The `DEFAULT_GYRO` attribute: declared `None`, assigned per class by the setter. */
  class GyroDefaults {
    var defaultGyro: map<ClassName, Option<GyroSensor>>

    constructor ()
      ensures defaultGyro == map[]
    {
      defaultGyro := map[];
    }

    /** `cls.setDefaultSensor(sensor)` */
    method SetDefaultSensor(cls: ClassName, sensor: Option<GyroSensor>)
      modifies this
      ensures defaultGyro == old(defaultGyro)[cls := sensor]
    {
      defaultGyro := defaultGyro[cls := sensor];
    }

    /** The `self.sensor` the constructor stores for an object whose class has `lineage`. */
    function Sensor(lineage: Lineage, sensor: Option<GyroSensor>): (r: Option<GyroSensor>)
      reads this
      ensures sensor.Some? ==> r == sensor
      // an omitted sensor is the first registration along the lineage, else `None`
      ensures sensor.None? ==> r == Lookup(defaultGyro, lineage, None)
    {
      Resolve(sensor, defaultGyro, lineage)
    }
  }

  /**
   * With nothing registered an omitted sensor stays `None`; after the setter is called on a
   * class, later constructions of that class use the registered sensor, an explicit argument
   * still wins, and a value resolved earlier is not affected.
   */
  method SetterAffectsLaterConstructions(cls: ClassName, g: GyroSensor, explicit: GyroSensor)
    returns (before: Option<GyroSensor>, after: Option<GyroSensor>, overridden: Option<GyroSensor>)
    ensures before == None
    ensures after == Some(g)
    ensures overridden == Some(explicit)
  {
    var defaults := new GyroDefaults();
    before := defaults.Sensor([cls], None);
    defaults.SetDefaultSensor(cls, Some(g));
    after := defaults.Sensor([cls], None);
    overridden := defaults.Sensor([cls], Some(explicit));
  }
}
