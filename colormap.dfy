/** getColorForIntensity (script.js:409-422): an intensity, clamped to [0,1],
    mapped through four linear pieces blue → cyan → green → yellow → red,
    each channel rounded with `Math.round`, alpha fixed at 0.7. */
module ColorMap {
  import opened Numeric

  /** The `rgba(r,g,b,0.7)` fill the mapper returns. */
  datatype Rgba = Rgba(r: int, g: int, b: int, alpha: real)

  const Alpha: real := 0.7

  predicate IsByteColor(c: Rgba)
  {
    0 <= c.r <= 255 && 0 <= c.g <= 255 && 0 <= c.b <= 255 && c.alpha == Alpha
  }

  /** Which piece a clamped intensity falls in: [0,0.25), [0.25,0.5),
      [0.5,0.75) or [0.75,1]. */
  function SegmentOf(t: real): (k: int)
    ensures 0 <= k <= 3
    ensures k as real * 0.25 <= t || k == 0
    ensures t < (k + 1) as real * 0.25 || k == 3
  {
    if t < 0.25 then 0 else if t < 0.5 then 1 else if t < 0.75 then 2 else 3
  }

  /** The `k`-th linear piece at `t` (script.js:413, 415, 417, 419). In each
      piece two channels are fixed and one ramps: green rises over blue,
      blue falls under green, red rises over green, green falls under red. */
  function Segment(k: int, t: real): (c: Rgba)
    requires 0 <= k <= 3
    ensures c.alpha == Alpha
    ensures k == 0 ==> c.r == 0 && c.b == 255
    ensures k == 1 ==> c.r == 0 && c.g == 255
    ensures k == 2 ==> c.g == 255 && c.b == 0
    ensures k == 3 ==> c.r == 255 && c.b == 0
  {
    if k == 0 then
      var u := t * 4.0;
      Rgba(0, Round(255.0 * u), 255, Alpha)
    else if k == 1 then
      var u := (t - 0.25) * 4.0;
      Rgba(0, 255, Round(255.0 * (1.0 - u)), Alpha)
    else if k == 2 then
      var u := (t - 0.5) * 4.0;
      Rgba(Round(255.0 * u), 255, 0, Alpha)
    else
      var u := (t - 0.75) * 4.0;
      Rgba(255, Round(255.0 * (1.0 - u)), 0, Alpha)
  }

  /** Every piece gives byte channels on its own interval. */
  lemma SegmentInRange(t: real)
    requires 0.0 <= t <= 1.0
    ensures IsByteColor(Segment(SegmentOf(t), t))
  {
    var k := SegmentOf(t);
    if k == 0 {
      RoundWithin(255.0 * (t * 4.0), 0, 255);
    } else if k == 1 {
      RoundWithin(255.0 * (1.0 - (t - 0.25) * 4.0), 0, 255);
    } else if k == 2 {
      RoundWithin(255.0 * ((t - 0.5) * 4.0), 0, 255);
    } else {
      RoundWithin(255.0 * (1.0 - (t - 0.75) * 4.0), 0, 255);
    }
  }

  /** getColorForIntensity. Every channel is a byte; 0 (and below) is pure
      blue, 1 (and above) pure red; red is off under 0.5 and blue from 0.5 on. */
  function ColorForIntensity(intensity: real): (c: Rgba)
    ensures IsByteColor(c)
    ensures intensity <= 0.0 ==> c == Rgba(0, 0, 255, Alpha)
    ensures intensity >= 1.0 ==> c == Rgba(255, 0, 0, Alpha)
    ensures intensity < 0.5 ==> c.r == 0
    ensures intensity >= 0.5 ==> c.b == 0
  {
    var t := Clamp01(intensity);
    SegmentInRange(t);
    Segment(SegmentOf(t), t)
  }

  /** The mapper clamps before it maps. */
  lemma ColorClampsFirst(x: real)
    ensures ColorForIntensity(x) == ColorForIntensity(Clamp01(x))
  {
    Clamp01Idempotent(x);
  }

  /** The pieces meet at 0.25, 0.5 and 0.75: the colour is continuous. */
  lemma SegmentsMeet()
    ensures Segment(0, 0.25) == Segment(1, 0.25) == Rgba(0, 255, 255, Alpha)
    ensures Segment(1, 0.5) == Segment(2, 0.5) == Rgba(0, 255, 0, Alpha)
    ensures Segment(2, 0.75) == Segment(3, 0.75) == Rgba(255, 255, 0, Alpha)
  {
  }

  /** A stronger intensity never has less red nor more blue. */
  lemma {:induction false} ColorMonotone(x: real, y: real)
    requires x <= y
    ensures ColorForIntensity(x).r <= ColorForIntensity(y).r
    ensures ColorForIntensity(x).b >= ColorForIntensity(y).b
  {
    var s, t := Clamp01(x), Clamp01(y);
    Clamp01Monotone(x, y);
    var j, k := SegmentOf(s), SegmentOf(t);
    if j == k {
      if j == 1 {
        RoundMonotone(255.0 * (1.0 - (t - 0.25) * 4.0), 255.0 * (1.0 - (s - 0.25) * 4.0));
      } else if j == 2 {
        RoundMonotone(255.0 * ((s - 0.5) * 4.0), 255.0 * ((t - 0.5) * 4.0));
      }
    }
  }
}
