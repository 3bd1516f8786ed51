/**
 * Colour sensor and threshold resolution of the earlier `ColorInput` mixin
 * (ev3pid/base/ColorInput.py). Known thresholds are a dictionary from sensor to threshold,
 * one dictionary shared by the class and every subclass.
 */
module ColorInputBase {
  import opened Wrappers
  import opened ClassAttributes
  import opened Hardware

  /** `checkKnownThresholds(sensor)`: the mapped threshold, or `None` on a `KeyError`. */
  function CheckKnownThresholds(known: map<Option<ColorSensor>, int>, sensor: Option<ColorSensor>): (r: Option<int>)
    ensures r.Some? <==> sensor in known
    ensures r.Some? ==> r.value == known[sensor]
  {
    if sensor in known then Some(known[sensor]) else None
  }

  /**
   * `update` overwrites: after registering `more`, a sensor it names gets its new threshold
   * and every other sensor keeps the answer it had.
   */
  lemma UpdateOverwrites(known: map<Option<ColorSensor>, int>, more: map<Option<ColorSensor>, int>,
                         sensor: Option<ColorSensor>)
    ensures CheckKnownThresholds(known + more, sensor)
            == if sensor in more then Some(more[sensor]) else CheckKnownThresholds(known, sensor)
  {
  }

  /** `KNOWN_THRESHOLDS` (one dictionary for the whole hierarchy) and `DEFAULT_COLOR` (per class). */
  class ColorDefaults {
    var knownThresholds: map<Option<ColorSensor>, int>
    var defaultColor: map<ClassName, Option<ColorSensor>>

    constructor ()
      ensures knownThresholds == map[] && defaultColor == map[]
    {
      knownThresholds, defaultColor := map[], map[];
    }

    /** `cls.setDefaultSensor(sensor)` */
    method SetDefaultSensor(cls: ClassName, sensor: Option<ColorSensor>)
      modifies this
      ensures defaultColor == old(defaultColor)[cls := sensor]
      ensures knownThresholds == old(knownThresholds)
    {
      defaultColor := defaultColor[cls := sensor];
    }

    /** `cls.setKnownThresholds(thresholds)`: `update` on the dictionary every class shares. */
    method SetKnownThresholds(thresholds: map<Option<ColorSensor>, int>)
      modifies this
      ensures knownThresholds == old(knownThresholds) + thresholds
      ensures defaultColor == old(defaultColor)
    {
      knownThresholds := knownThresholds + thresholds;
    }

    /**
     * `self.sensor` as the constructor resolves it. It reads this class's own `DEFAULT_COLOR`
     * registry, which is separate from the later mixin's, so each registry class keeps its own
     * copy of the resolution.
     */
    function Sensor(lineage: Lineage, sensor: Option<ColorSensor>): (r: Option<ColorSensor>)
      reads this
      ensures sensor.Some? ==> r == sensor
      // an omitted sensor is the first registration along the lineage, else `None`
      ensures sensor.None? ==> r == Lookup(defaultColor, lineage, None)
    {
      Resolve(sensor, defaultColor, lineage)
    }

    /**
     * `self.threshold` as the constructor resolves it: an explicit threshold is kept;
     * otherwise the lookup uses the sensor ARGUMENT, so an omitted sensor looks up `None`
     * even when a default sensor was resolved for `self.sensor`.
     */
    function Threshold(sensor: Option<ColorSensor>, threshold: Option<int>): (r: Option<int>)
      reads this
      ensures threshold.Some? ==> r == threshold
      ensures threshold.None? ==> r == CheckKnownThresholds(knownThresholds, sensor)
    {
      if threshold.Some? then threshold else CheckKnownThresholds(knownThresholds, sensor)
    }
  }

  /**
   * With a default sensor whose threshold is known, omitting both arguments still gives no
   * threshold (the lookup was for `None`), although `self.sensor` is the default; a
   * re-registration for the sensor replaces its threshold.
   */
  method DefaultSensorNotLookedUp(cls: ClassName, s: ColorSensor, t: int, t': int)
    returns (sensor: Option<ColorSensor>, threshold: Option<int>, explicitLookup: Option<int>)
    ensures sensor == Some(s)
    ensures threshold == None
    ensures explicitLookup == Some(t')
  {
    var defaults := new ColorDefaults();
    defaults.SetDefaultSensor(cls, Some(s));
    defaults.SetKnownThresholds(map[Some(s) := t]);
    sensor := defaults.Sensor([cls], None);
    threshold := defaults.Threshold(None, None);
    defaults.SetKnownThresholds(map[Some(s) := t']);
    explicitLookup := defaults.Threshold(Some(s), None);
  }
}
