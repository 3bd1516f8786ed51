/**
 * Colour sensor and threshold resolution of the later `ColorInput` mixin
 * (ev3pid/utils/ColorInput.py). Known thresholds are an association list of
 * (sensor, threshold) pairs, one list shared by the class and every subclass.
 */
module ColorInputUtils {
  import opened Wrappers
  import opened ClassAttributes
  import opened Hardware

  /** One `[sensor, threshold]` pair of `KNOWN_THRESHOLDS`. */
  datatype KnownThreshold = KnownThreshold(sensor: Option<ColorSensor>, threshold: int)

  /**
   * `checkKnownThresholds(sensor)`: the threshold of the first pair registered for `sensor`,
   * or `None` when no pair names it.
   */
  function CheckKnownThresholds(known: seq<KnownThreshold>, sensor: Option<ColorSensor>): (r: Option<int>)
    ensures r.None? <==> forall i :: 0 <= i < |known| ==> known[i].sensor != sensor
    ensures r.Some? ==> exists i :: && 0 <= i < |known| && known[i].sensor == sensor && r.value == known[i].threshold
                                    && forall j :: 0 <= j < i ==> known[j].sensor != sensor
    decreases |known|
  {
    if |known| == 0 then None
    else if known[0].sensor == sensor then Some(known[0].threshold)
    else
      var r := CheckKnownThresholds(known[1..], sensor);
      assert forall i :: 1 <= i < |known| ==> known[i] == known[1..][i - 1];
      r
  }

  /**
   * Registering more pairs never changes the answer for a sensor that already had one: the
   * first registration shadows later ones. For a sensor not yet known, the new pairs decide.
   */
  lemma {:induction false} ExtendKeepsEarlierAnswers(known: seq<KnownThreshold>, extra: seq<KnownThreshold>,
                                                     sensor: Option<ColorSensor>)
    ensures CheckKnownThresholds(known + extra, sensor)
            == if CheckKnownThresholds(known, sensor).Some? then CheckKnownThresholds(known, sensor)
               else CheckKnownThresholds(extra, sensor)
    decreases |known|
  {
    if |known| > 0 {
      assert (known + extra)[1..] == known[1..] + extra;
      ExtendKeepsEarlierAnswers(known[1..], extra, sensor);
    } else {
      assert known + extra == extra;
    }
  }

  /** `KNOWN_THRESHOLDS` (one list for the whole hierarchy) and `DEFAULT_COLOR` (per class). */
  class ColorDefaults {
    var knownThresholds: seq<KnownThreshold>
    var defaultColor: map<ClassName, Option<ColorSensor>>

    constructor ()
      ensures knownThresholds == [] && defaultColor == map[]
    {
      knownThresholds, defaultColor := [], map[];
    }

    /** `cls.setDefaultSensor(sensor)` */
    method SetDefaultSensor(cls: ClassName, sensor: Option<ColorSensor>)
      modifies this
      ensures defaultColor == old(defaultColor)[cls := sensor]
      ensures knownThresholds == old(knownThresholds)
    {
      defaultColor := defaultColor[cls := sensor];
    }

    /**
     * `cls.setKnownThresholds(pairs)`: `extend` on the list every class shares, so the class it
     * is called through makes no difference; existing pairs are kept in place.
     */
    method SetKnownThresholds(pairs: seq<KnownThreshold>)
      modifies this
      ensures knownThresholds == old(knownThresholds) + pairs
      ensures defaultColor == old(defaultColor)
    {
      knownThresholds := knownThresholds + pairs;
    }

    /** `self.sensor` as the constructor resolves it. */
    function Sensor(lineage: Lineage, sensor: Option<ColorSensor>): (r: Option<ColorSensor>)
      reads this
      ensures sensor.Some? ==> r == sensor
      // an omitted sensor is the first registration along the lineage, else `None`
      ensures sensor.None? ==> r == Lookup(defaultColor, lineage, None)
    {
      Resolve(sensor, defaultColor, lineage)
    }

    /**
     * `self.threshold` as the constructor resolves it: an explicit threshold is kept;
     * otherwise it is looked up for the sensor just resolved, default included.
     */
    function Threshold(lineage: Lineage, sensor: Option<ColorSensor>, threshold: Option<int>): (r: Option<int>)
      reads this
      ensures threshold.Some? ==> r == threshold
      ensures threshold.None? ==> r == CheckKnownThresholds(knownThresholds, Sensor(lineage, sensor))
    {
      if threshold.Some? then threshold else CheckKnownThresholds(knownThresholds, Sensor(lineage, sensor))
    }
  }

  /**
   * A sensor registered as a class's default finds its known threshold when the sensor
   * argument is omitted; a second registration for it does not change that threshold.
   */
  method DefaultSensorThreshold(cls: ClassName, s: ColorSensor, t: int, t': int)
    returns (resolved: Option<int>, afterReregistering: Option<int>)
    ensures resolved == Some(t)
    ensures afterReregistering == Some(t)
  {
    var defaults := new ColorDefaults();
    defaults.SetDefaultSensor(cls, Some(s));
    defaults.SetKnownThresholds([KnownThreshold(Some(s), t)]);
    resolved := defaults.Threshold([cls], None, None);
    defaults.SetKnownThresholds([KnownThreshold(Some(s), t')]);
    afterReregistering := defaults.Threshold([cls], None, None);
  }
}
