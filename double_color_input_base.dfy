/** Two-sensor resolution of the earlier `DoubleColorInput` mixin (ev3pid/base/DoubleColorInput.py), a subclass of the earlier `ColorInput`. */
module DoubleColorInputBase {
  import opened Wrappers
  import opened ClassAttributes
  import opened Hardware
  import ColorInputBase

  /** The four fields the constructor assigns. */
  datatype Sides = Sides(leftSensor: Option<ColorSensor>, rightSensor: Option<ColorSensor>,
                         leftThreshold: Option<int>, rightThreshold: Option<int>)

  /** `DEFAULT_LEFT_COLOR` and `DEFAULT_RIGHT_COLOR`: declared `None`, assigned per class. */
  class SideDefaults {
    var defaultLeftColor: map<ClassName, Option<ColorSensor>>
    var defaultRightColor: map<ClassName, Option<ColorSensor>>

    constructor ()
      ensures defaultLeftColor == map[] && defaultRightColor == map[]
    {
      defaultLeftColor, defaultRightColor := map[], map[];
    }

    /** `cls.setDefaultSensors(leftSensor, rightSensor)` */
    method SetDefaultSensors(cls: ClassName, leftSensor: Option<ColorSensor>, rightSensor: Option<ColorSensor>)
      modifies this
      ensures defaultLeftColor == old(defaultLeftColor)[cls := leftSensor]
      ensures defaultRightColor == old(defaultRightColor)[cls := rightSensor]
    {
      defaultLeftColor := defaultLeftColor[cls := leftSensor];
      defaultRightColor := defaultRightColor[cls := rightSensor];
    }

    /**
     * `DoubleColorInput.__init__`: each sensor is the argument or that side's default; each
     * threshold is the argument or a lookup in the shared table (looked up for the sensor ARGUMENT, so an omitted sensor looks up `None`).
     */
    function Fields(known: ColorInputBase.ColorDefaults, lineage: Lineage,
                     leftSensor: Option<ColorSensor>, rightSensor: Option<ColorSensor>,
                     leftThreshold: Option<int>, rightThreshold: Option<int>): (r: Sides)
      reads this, known
      ensures leftSensor.Some? ==> r.leftSensor == leftSensor
      ensures rightSensor.Some? ==> r.rightSensor == rightSensor
      // an omitted sensor is the first registration along the lineage, else `None`
      ensures leftSensor.None? ==> r.leftSensor == ClassAttributes.Lookup(defaultLeftColor, lineage, None)
      ensures rightSensor.None? ==> r.rightSensor == ClassAttributes.Lookup(defaultRightColor, lineage, None)
      ensures leftThreshold.Some? ==> r.leftThreshold == leftThreshold
      ensures rightThreshold.Some? ==> r.rightThreshold == rightThreshold
      ensures leftThreshold.None? ==> r.leftThreshold == ColorInputBase.CheckKnownThresholds(known.knownThresholds, leftSensor)
      ensures rightThreshold.None? ==> r.rightThreshold == ColorInputBase.CheckKnownThresholds(known.knownThresholds, rightSensor)
    {
      var left := ClassAttributes.Resolve(leftSensor, defaultLeftColor, lineage);
      var right := ClassAttributes.Resolve(rightSensor, defaultRightColor, lineage);
      Sides(left, right,
            if leftThreshold.Some? then leftThreshold else ColorInputBase.CheckKnownThresholds(known.knownThresholds, leftSensor),
            if rightThreshold.Some? then rightThreshold else ColorInputBase.CheckKnownThresholds(known.knownThresholds, rightSensor))
    }
  }

  /** Neither side's arguments affect the other side's sensor or threshold. */
  lemma SidesIndependent(defaults: SideDefaults, known: ColorInputBase.ColorDefaults, lineage: Lineage,
                         leftSensor: Option<ColorSensor>, rightSensor: Option<ColorSensor>,
                         leftThreshold: Option<int>, rightThreshold: Option<int>,
                         otherSensor: Option<ColorSensor>, otherThreshold: Option<int>)
    ensures var r := defaults.Fields(known, lineage, leftSensor, rightSensor, leftThreshold, rightThreshold);
            var a := defaults.Fields(known, lineage, leftSensor, otherSensor, leftThreshold, otherThreshold);
            var b := defaults.Fields(known, lineage, otherSensor, rightSensor, otherThreshold, rightThreshold);
            && r.leftSensor == a.leftSensor && r.leftThreshold == a.leftThreshold
            && r.rightSensor == b.rightSensor && r.rightThreshold == b.rightThreshold
  {
  }
}
