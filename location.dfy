/** The participant's position in front of the door.
    A raw location lives on the asymmetric range [MinLocation, MaxLocation];
    the normalised distance is an integer percentage with 0 fully retreated,
    50 at the origin and 100 fully approached. */
module Location {
  import opened PyRound

  const MinLocation: real := -1.1
  const MaxLocation: real := 1.85

  /** The door picture is drawn at a scale kept within [MinScale, MaxScale]. */
  const MinScale: real := 0.5
  const MaxScale: real := 2.0
  const ScaleStep: real := 0.1

  /** A raw location held within [MinLocation, MaxLocation]. */
  function Clamp(location: real): (c: real)
    ensures MinLocation <= c <= MaxLocation
    ensures MinLocation <= location <= MaxLocation ==> c == location
    ensures location >= MaxLocation ==> c == MaxLocation
    ensures location <= MinLocation ==> c == MinLocation
  {
    if location > MaxLocation then MaxLocation
    else if location < MinLocation then MinLocation
    else location
  }

  /** The signed percentage of a clamped location: a positive location is
      measured against MaxLocation, a non-positive one against -MinLocation. */
  function SignedPercent(c: real): (p: int)
    requires MinLocation <= c <= MaxLocation
    ensures -100 <= p <= 100
    ensures c > 0.0 ==> p >= 0
    ensures c <= 0.0 ==> p <= 0
  {
    if c > 0.0 then RoundHalfEven((c * 100.0) / MaxLocation)
    else RoundHalfEven((c * 100.0) / (-1.0 * MinLocation))
  }

  /** `normalize_location`: clamp, take the signed percentage, then halve and
      shift it to centre 50, rounding once more. */
  function NormalizeLocation(location: real): (d: int)
    ensures 0 <= d <= 100
  {
    var p := SignedPercent(Clamp(location));
    RoundHalfEven(p as real / 2.0 + 50.0)
  }

  /** The origin is the middle of the scale. */
  lemma NormalizeOrigin()
    ensures NormalizeLocation(0.0) == 50
  {
    RoundHalfEvenOfInt(0);
    RoundHalfEvenOfInt(50);
  }

  /** Every location at or past a bound gives that bound's end of the scale,
      so the normaliser is constant outside the clamp range. */
  lemma NormalizeSaturates(location: real)
    ensures location >= MaxLocation ==> NormalizeLocation(location) == 100
    ensures location <= MinLocation ==> NormalizeLocation(location) == 0
  {
    RoundHalfEvenOfInt(100);
    RoundHalfEvenOfInt(-100);
    RoundHalfEvenOfInt(0);
  }

  lemma SignedPercentMonotone(a: real, b: real)
    requires MinLocation <= a <= b <= MaxLocation
    ensures SignedPercent(a) <= SignedPercent(b)
  {
    if a > 0.0 {
      RoundHalfEvenMonotone((a * 100.0) / MaxLocation, (b * 100.0) / MaxLocation);
    } else if b <= 0.0 {
      RoundHalfEvenMonotone((a * 100.0) / (-1.0 * MinLocation), (b * 100.0) / (-1.0 * MinLocation));
    }
  }

  /** Moving closer never lowers the normalised distance. */
  lemma NormalizeMonotone(x: real, y: real)
    requires x <= y
    ensures NormalizeLocation(x) <= NormalizeLocation(y)
  {
    var px, py := SignedPercent(Clamp(x)), SignedPercent(Clamp(y));
    SignedPercentMonotone(Clamp(x), Clamp(y));
    RoundHalfEvenMonotone(px as real / 2.0 + 50.0, py as real / 2.0 + 50.0);
  }

  /** Both roundings are half-to-even: 0.1 gives 5.4 -> 5, then 52.5 -> 52;
      -0.1 gives -9.09 -> -9, then 45.5 -> 46; 0.13 gives 7.03 -> 7, then
      53.5 -> 54. */
  lemma NormalizeExamples()
    ensures NormalizeLocation(0.1) == 52
    ensures NormalizeLocation(-0.1) == 46
    ensures NormalizeLocation(0.13) == 54
  {
    RoundHalfEvenUnique(0.1 * 100.0 / MaxLocation, 5);
    RoundHalfEvenUnique(52.5, 52);
    RoundHalfEvenUnique(-0.1 * 100.0 / (-1.0 * MinLocation), -9);
    RoundHalfEvenUnique(45.5, 46);
    RoundHalfEvenUnique(0.13 * 100.0 / MaxLocation, 7);
    RoundHalfEvenUnique(53.5, 54);
  }

  /** Normalising a value that is already a normalised distance (an integer in
      [0, 100]) collapses it: 0 stays at the origin's 50, 1 becomes 77, and
      everything from 2 up is past MaxLocation and becomes 100. */
  lemma NormalizeOfDistance(d: int)
    requires 0 <= d <= 100
    ensures NormalizeLocation(d as real) == if d == 0 then 50 else if d == 1 then 77 else 100
  {
    if d == 0 {
      NormalizeOrigin();
    } else if d == 1 {
      RoundHalfEvenUnique(1.0 * 100.0 / MaxLocation, 54);
      RoundHalfEvenOfInt(77);
    } else {
      NormalizeSaturates(d as real);
    }
  }

  /** `move_screen`: step the raw location by units/100, then normalise.
      The result is a normalised distance, not a raw location. */
  function MoveScreen(location: real, units: int): (d: int)
    ensures 0 <= d <= 100
  {
    NormalizeLocation(location + units as real / 100.0)
  }

  /** A forward step never lowers the normalised distance of the location it
      starts from, and a backward step never raises it. */
  lemma MoveScreenDirection(location: real, units: int)
    ensures units >= 0 ==> MoveScreen(location, units) >= NormalizeLocation(location)
    ensures units <= 0 ==> MoveScreen(location, units) <= NormalizeLocation(location)
  {
    var moved := location + units as real / 100.0;
    if units >= 0 {
      NormalizeMonotone(location, moved);
    } else {
      NormalizeMonotone(moved, location);
    }
  }

  /** `max(0.5, min(2.0, scale + delta))`: the scale after one press. */
  function StepScale(scale: real, delta: real): (s: real)
    ensures MinScale <= s <= MaxScale
    ensures MinScale <= scale + delta <= MaxScale ==> s == scale + delta
    ensures scale + delta > MaxScale ==> s == MaxScale
    ensures scale + delta < MinScale ==> s == MinScale
  {
    var upper := if scale + delta < MaxScale then scale + delta else MaxScale;
    if MinScale > upper then MinScale else upper
  }
}
