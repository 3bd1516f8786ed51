/** Two-sensor resolution of the later `DoubleColorInput` mixin (ev3pid/utils/DoubleColorInput.py), a subclass of the later `ColorInput`. */
module DoubleColorInputUtils {
  import opened Wrappers
  import opened ClassAttributes
  import opened Hardware
  import ColorInputUtils

  /** The four fields the constructor assigns. */
  datatype Sides = Sides(leftSensor: Option<ColorSensor>, rightSensor: Option<ColorSensor>,
                         leftThreshold: Option<int>, rightThreshold: Option<int>)

  /** `DEFAULT_LEFT_COLOR` and `DEFAULT_RIGHT_COLOR`: declared `None`, assigned per class. */
  class SideDefaults {
    var defaultLeftColor: map<ClassName, Option<ColorSensor>>
    var defaultRightColor: map<ClassName, Option<ColorSensor>>

    constructor ()
      ensures defaultLeftColor == map[] && defaultRightColor == map[]
    {
      defaultLeftColor, defaultRightColor := map[], map[];
    }

    /** `cls.setDefaultSensors(leftSensor, rightSensor)` */
    method SetDefaultSensors(cls: ClassName, leftSensor: Option<ColorSensor>, rightSensor: Option<ColorSensor>)
      modifies this
      ensures defaultLeftColor == old(defaultLeftColor)[cls := leftSensor]
      ensures defaultRightColor == old(defaultRightColor)[cls := rightSensor]
    {
      defaultLeftColor := defaultLeftColor[cls := leftSensor];
      defaultRightColor := defaultRightColor[cls := rightSensor];
    }

    /**
     * `DoubleColorInput.__init__`: each sensor is the argument or that side's default; each
     * threshold is the argument or a lookup in the shared table (looked up for the sensor just resolved, default included).
     */
    function Fields(known: ColorInputUtils.ColorDefaults, lineage: Lineage,
                     leftSensor: Option<ColorSensor>, rightSensor: Option<ColorSensor>,
                     leftThreshold: Option<int>, rightThreshold: Option<int>): (r: Sides)
      reads this, known
      ensures leftSensor.Some? ==> r.leftSensor == leftSensor
      ensures rightSensor.Some? ==> r.rightSensor == rightSensor
      // an omitted sensor is the first registration along the lineage, else `None`
      ensures leftSensor.None? ==> r.leftSensor == ClassAttributes.Lookup(defaultLeftColor, lineage, None)
      ensures rightSensor.None? ==> r.rightSensor == ClassAttributes.Lookup(defaultRightColor, lineage, None)
      ensures leftThreshold.Some? ==> r.leftThreshold == leftThreshold
      ensures rightThreshold.Some? ==> r.rightThreshold == rightThreshold
      ensures leftThreshold.None? ==> r.leftThreshold == ColorInputUtils.CheckKnownThresholds(known.knownThresholds, ClassAttributes.Resolve(leftSensor, defaultLeftColor, lineage))
      ensures rightThreshold.None? ==> r.rightThreshold == ColorInputUtils.CheckKnownThresholds(known.knownThresholds, ClassAttributes.Resolve(rightSensor, defaultRightColor, lineage))
    {
      var left := ClassAttributes.Resolve(leftSensor, defaultLeftColor, lineage);
      var right := ClassAttributes.Resolve(rightSensor, defaultRightColor, lineage);
      Sides(left, right,
            if leftThreshold.Some? then leftThreshold else ColorInputUtils.CheckKnownThresholds(known.knownThresholds, left),
            if rightThreshold.Some? then rightThreshold else ColorInputUtils.CheckKnownThresholds(known.knownThresholds, right))
    }
  }

  /** Neither side's arguments affect the other side's sensor or threshold. */
  lemma SidesIndependent(defaults: SideDefaults, known: ColorInputUtils.ColorDefaults, lineage: Lineage,
                         leftSensor: Option<ColorSensor>, rightSensor: Option<ColorSensor>,
                         leftThreshold: Option<int>, rightThreshold: Option<int>,
                         otherSensor: Option<ColorSensor>, otherThreshold: Option<int>)
    ensures var r := defaults.Fields(known, lineage, leftSensor, rightSensor, leftThreshold, rightThreshold);
            var a := defaults.Fields(known, lineage, leftSensor, otherSensor, leftThreshold, otherThreshold);
            var b := defaults.Fields(known, lineage, otherSensor, rightSensor, otherThreshold, rightThreshold);
            && r.leftSensor == a.leftSensor && r.leftThreshold == a.leftThreshold
            && r.rightSensor == b.rightSensor && r.rightThreshold == b.rightThreshold
  {
  }
}
