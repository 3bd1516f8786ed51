/**
 * Block colour and presence from the side colour sensor (pheasant_utils/SideScan.py). The
 * sensor's raw reading `sensor.read('RGB-RAW')` is the triple `(r, g, b)` passed in.
 */
module SideScan {
  import opened Wrappers
  import opened Hardware

  /** Channel `x` exceeds both other channels by at least 3. */
  predicate Dominant(x: int, y: int, z: int)
  {
    x - y >= 3 && x - z >= 3
  }

  /**
   * `sideScanColor(sensor)`: YELLOW, BLUE or GREEN when red, blue or green (respectively) leads
   * both other channels by at least 3, and `None` when no channel does. Each colour is decided
   * by its own channel alone, whatever the order of the tests.
   */
  function SideScanColor(r: int, g: int, b: int): (c: Option<Color>)
    ensures c == Some(Yellow) <==> Dominant(r, g, b)
    ensures c == Some(Blue) <==> Dominant(b, r, g)
    ensures c == Some(Green) <==> Dominant(g, r, b)
    ensures c.None? <==> !Dominant(r, g, b) && !Dominant(b, r, g) && !Dominant(g, r, b)
    ensures c.Some? ==> c.value in {Yellow, Blue, Green}
  {
    if r - b >= 3 && r - g >= 3 then Some(Yellow)
    else if b - r >= 3 && b - g >= 3 then Some(Blue)
    else if g - r >= 3 && g - b >= 3 then Some(Green)
    else None
  }

  /** At most one channel can lead both others by 3, so the three tests never compete. */
  lemma AtMostOneDominant(r: int, g: int, b: int)
    ensures !(Dominant(r, g, b) && Dominant(b, r, g))
    ensures !(Dominant(r, g, b) && Dominant(g, r, b))
    ensures !(Dominant(b, r, g) && Dominant(g, r, b))
  {
  }

  /** Brightening or dimming all three channels by the same amount never changes the colour. */
  lemma ColorIgnoresCommonOffset(r: int, g: int, b: int, k: int)
    ensures SideScanColor(r + k, g + k, b + k) == SideScanColor(r, g, b)
  {
  }

  /** `sideScanPresence(sensor)`: something is there when the three channels sum to more than 15. */
  function SideScanPresence(r: int, g: int, b: int): (present: bool)
    ensures present <==> r + g + b >= 16
  {
    r + g + b > 15
  }

  /** A brighter reading on every channel never loses a block that a dimmer one detected. */
  lemma PresenceMonotone(r: int, g: int, b: int, r': int, g': int, b': int)
    requires r <= r' && g <= g' && b <= b'
    ensures SideScanPresence(r, g, b) ==> SideScanPresence(r', g', b')
  {
  }

  /** Colour and presence are decided independently: a dim reading can still have a colour. */
  lemma ColorWithoutPresence()
    ensures SideScanColor(3, 0, 0) == Some(Yellow) && !SideScanPresence(3, 0, 0)
    ensures SideScanColor(10, 10, 10).None? && SideScanPresence(10, 10, 10)
  {
  }
}
