/**
 * The EV3 devices the movement layer talks to. Devices are handles (equality is identity of
 * the port they are plugged into); what the program reads from them during a loop is
 * abstracted as one reading per evaluation of the loop's exit test.
 */
module Hardware {
  import opened Wrappers

  datatype Port = A | B | C | D | S1 | S2 | S3 | S4

  datatype Motor = Motor(port: Port)
  datatype GyroSensor = GyroSensor(port: Port)
  datatype ColorSensor = ColorSensor(port: Port)

  /** The colours a colour sensor can report; `color()` may also report none (`None`). */
  datatype Color = Black | Blue | Green | Yellow | Red | White | Brown

  /** `sensor.angle()`, `leftMotor.speed()`, `rightMotor.speed()` (degrees, degrees/s). */
  datatype TurnReading = TurnReading(heading: int, leftSpeed: int, rightSpeed: int)

  /** `stopCondition()` and `sensor.angle()`. */
  datatype StraightReading = StraightReading(stop: bool, heading: int)

  /** `stopCondition()` and `sensor.reflection()` (percent). */
  datatype TrackReading = TrackReading(stop: bool, reflection: int)

  /**
   * Both colour sensors' `color()` and `reflection()`, and both drive motors' `speed()`:
   * each version of the line-squaring loop reads the subset it needs.
   */
  datatype SquareReading = SquareReading(leftColor: Option<Color>, rightColor: Option<Color>,
                                         leftReflection: int, rightReflection: int,
                                         leftSpeed: int, rightSpeed: int)

  /** Python's `abs` on integers. */
  function Abs(x: int): (r: nat)
    ensures r == x || r == -x
  {
    if x < 0 then -x else x
  }
}
