/** The pattern builders calculateDipolePattern, calculateMonopolePattern,
    calculateArrayPattern and calculateYagiPattern (script.js:427-549).

    Each returns two cuts of 361 samples, one per integer degree 0..360. The
    cosine, sine and power terms that the script evaluates in floating point
    are inputs here: one sequence per term, indexed by degree. What the model
    keeps is everything the script does around them: the guards, the
    ground-plane cut-off, the main-lobe tests and the normalisation. */
module Patterns {
  import opened Numeric
  import opened Normalize

  /** One sample per integer degree 0..360. */
  const Samples: nat := 361

  /** The `1e-6` bound under which sin θ counts as zero. */
  const SinGuard: real := 0.000001

  /** The azimuth and elevation cuts, indexed by degree. */
  datatype Pattern = Pattern(azimuth: seq<real>, elevation: seq<real>)

  /** `theta = a·π/180`, the angle of sample `a` in radians: 0° is 0 and
      180° is π. */
  function Theta(a: int): (t: real)
    ensures a == 0 ==> t == 0.0
    ensures a == 180 ==> t == Pi
  {
    (a as real * Pi) / 180.0
  }

  ghost predicate IsUnitCut(cut: seq<real>)
  {
    |cut| == Samples && forall a :: 0 <= a < Samples ==> cut[a] == 1.0
  }

  /** The omnidirectional azimuth cut of the dipole and the monopole:
      `for (a = 0; a <= 360; a++) azimuth[a] = 1.0` (script.js:430, 455). */
  method UnitCut() returns (cut: seq<real>)
    ensures IsUnitCut(cut)
  {
    cut := [];
    var a := 0;
    while a <= 360
      invariant 0 <= a <= Samples && |cut| == a
      invariant forall k :: 0 <= k < a ==> cut[k] == 1.0
    {
      cut := cut + [1.0];
      a := a + 1;
    }
  }

  // ---------------------------------------------------------------- dipole

  /** `|num / den|` when `|den| > 1e-6`, and 0 otherwise (script.js:438-441),
      with `num = cos(kl·cos θ) − cos(kl)` and `den = sin θ`. */
  function GuardedRatio(num: real, den: real): (v: real)
    ensures v >= 0.0
    ensures Abs(den) <= SinGuard ==> v == 0.0
    ensures Abs(den) > SinGuard ==> v * Abs(den) == Abs(num)
  {
    if Abs(den) > SinGuard then
      assert Abs(num / den) * Abs(den) == Abs(num) by {
        assert (num / den) * den == num;
      }
      Abs(num / den)
    else 0.0
  }

  /** The raw dipole elevation samples, before normalisation. */
  function DipoleRaw(num: seq<real>, den: seq<real>): (raw: seq<real>)
    requires |num| == |den|
    ensures |raw| == |num| && NonNegative(raw)
  {
    seq(|num|, a requires 0 <= a < |num| => GuardedRatio(num[a], den[a]))
  }

  /** Loop-body helper of DipolePattern: the statements that compute one
      dipole sample (script.js:436-441), proved equal to GuardedRatio. */
  method DipoleStep(num: real, den: real) returns (v: real)
    ensures v == GuardedRatio(num, den)
  {
    v := 0.0;
    if Abs(den) > SinGuard {
      v := Abs(num / den);
    }
  }

  /** calculateDipolePattern (script.js:427-450). */
  method DipolePattern(num: seq<real>, den: seq<real>) returns (p: Pattern)
    requires |num| == Samples && |den| == Samples
    ensures IsUnitCut(p.azimuth)
    ensures p.elevation == Normalized(DipoleRaw(num, den))
    ensures |p.elevation| == Samples && IsNormalizedCut(p.elevation)
    ensures forall a :: 0 <= a < Samples && Abs(den[a]) <= SinGuard ==> p.elevation[a] == 0.0
  {
    var azimuth := UnitCut();
    ghost var raw := DipoleRaw(num, den);
    var max := 0.0;
    var tmp := new real[Samples];
    var a := 0;
    while a <= 360
      invariant 0 <= a <= Samples
      invariant forall k :: 0 <= k < a ==> tmp[k] == raw[k]
      invariant max == MaxFrom(0.0, raw[..a])
    {
      var v := DipoleStep(num[a], den[a]);
      assert v == raw[a];
      tmp[a] := v;
      MaxFromSnoc(0.0, raw, a);
      max := Max(max, v);
      a := a + 1;
    }
    assert raw[..a] == raw;
    assert tmp[..] == raw;
    max := OrOne(max);
    var elevation := ScaleCut(tmp[..], max);
    p := Pattern(azimuth, elevation);
    NormalizedIsCut(raw);
    forall a | 0 <= a < Samples && Abs(den[a]) <= SinGuard
      ensures p.elevation[a] == 0.0
    {
      NormalizedKeepsZero(raw, a);
    }
  }

  // -------------------------------------------------------------- monopole

  /** The ground-plane test `theta >= 0 && theta <= Math.PI` (script.js:461)
      holds exactly for the degrees 0..180. */
  lemma UpperHemisphere(a: int)
    ensures (Theta(a) >= 0.0 && Theta(a) <= Pi) <==> 0 <= a <= 180
  {
  }

  /** One raw monopole elevation sample (script.js:459-468). */
  function MonopoleSample(a: int, num: real, den: real): (v: real)
    ensures v >= 0.0
    ensures !(0 <= a <= 180) || Abs(den) <= SinGuard ==> v == 0.0
    ensures 0 <= a <= 180 ==> v == GuardedRatio(num, den)
  {
    UpperHemisphere(a);
    if Theta(a) >= 0.0 && Theta(a) <= Pi then GuardedRatio(num, den) else 0.0
  }

  /** Loop-body helper of MonopolePattern: the statements that compute one
      monopole sample (script.js:459-468), proved equal to MonopoleSample. */
  method MonopoleStep(a: int, num: real, den: real) returns (v: real)
    ensures v == MonopoleSample(a, num, den)
  {
    var theta := Theta(a);
    v := 0.0;
    if theta >= 0.0 && theta <= Pi {
      if Abs(den) > SinGuard {
        v := Abs(num / den);
      }
    }
  }

  function MonopoleRaw(num: seq<real>, den: seq<real>): (raw: seq<real>)
    requires |num| == |den|
    ensures |raw| == |num| && NonNegative(raw)
  {
    seq(|num|, a requires 0 <= a < |num| => MonopoleSample(a, num[a], den[a]))
  }

  /** calculateMonopolePattern (script.js:452-477). Every sample past 180°
      and every sample with a vanishing sin θ is 0 after normalisation. */
  method MonopolePattern(num: seq<real>, den: seq<real>) returns (p: Pattern)
    requires |num| == Samples && |den| == Samples
    ensures IsUnitCut(p.azimuth)
    ensures p.elevation == Normalized(MonopoleRaw(num, den))
    ensures |p.elevation| == Samples && IsNormalizedCut(p.elevation)
    ensures forall a :: 180 < a < Samples ==> p.elevation[a] == 0.0
    ensures forall a :: 0 <= a < Samples && Abs(den[a]) <= SinGuard ==> p.elevation[a] == 0.0
  {
    var azimuth := UnitCut();
    ghost var raw := MonopoleRaw(num, den);
    var max := 0.0;
    var tmp := new real[Samples];
    var a := 0;
    while a <= 360
      invariant 0 <= a <= Samples
      invariant forall k :: 0 <= k < a ==> tmp[k] == raw[k]
      invariant max == MaxFrom(0.0, raw[..a])
    {
      var v := MonopoleStep(a, num[a], den[a]);
      assert v == raw[a];
      tmp[a] := v;
      MaxFromSnoc(0.0, raw, a);
      max := Max(max, v);
      a := a + 1;
    }
    assert raw[..a] == raw;
    assert tmp[..] == raw;
    max := OrOne(max);
    var elevation := ScaleCut(tmp[..], max);
    p := Pattern(azimuth, elevation);
    NormalizedIsCut(raw);
    forall a | 0 <= a < Samples && (180 < a || Abs(den[a]) <= SinGuard)
      ensures p.elevation[a] == 0.0
    {
      NormalizedKeepsZero(raw, a);
    }
  }

  // ----------------------------------------------------------------- array

  /** `|2·cos(psi/2)| · |sin θ|`: array factor times element pattern
      (script.js:486-495); `cosHalfPsi = cos(psi/2)` and `sinTheta = sin θ`. */
  function ArraySample(cosHalfPsi: real, sinTheta: real): (v: real)
    ensures v >= 0.0
    ensures Abs(sinTheta) == 0.0 ==> v == 0.0
    ensures Abs(cosHalfPsi) <= 1.0 && Abs(sinTheta) <= 1.0 ==> v <= 2.0
  {
    assert Abs(2.0 * cosHalfPsi) * Abs(sinTheta) <= Abs(2.0 * cosHalfPsi) * 1.0
      || !(Abs(sinTheta) <= 1.0);
    Abs(2.0 * cosHalfPsi) * Abs(sinTheta)
  }

  function ArrayRaw(cosHalfPsi: seq<real>, sinTheta: seq<real>): (raw: seq<real>)
    requires |cosHalfPsi| == |sinTheta|
    ensures |raw| == |sinTheta| && NonNegative(raw)
  {
    seq(|sinTheta|, a requires 0 <= a < |sinTheta| => ArraySample(cosHalfPsi[a], sinTheta[a]))
  }

  /** The sampling loop of calculateArrayPattern (script.js:484-497) for one
      cut: the raw samples, with their running maximum. */
  method SampleArrayCut(cosHalfPsi: seq<real>, sinTheta: seq<real>) returns (tmp: array<real>, max: real)
    requires |cosHalfPsi| == Samples && |sinTheta| == Samples
    ensures fresh(tmp)
    ensures tmp[..] == ArrayRaw(cosHalfPsi, sinTheta)
    ensures max == MaxFrom(0.0, ArrayRaw(cosHalfPsi, sinTheta))
  {
    ghost var raw := ArrayRaw(cosHalfPsi, sinTheta);
    max := 0.0;
    tmp := new real[Samples];
    var angle := 0;
    while angle <= 360
      invariant 0 <= angle <= Samples
      invariant forall k :: 0 <= k < angle ==> tmp[k] == raw[k]
      invariant max == MaxFrom(0.0, raw[..angle])
    {
      var v := ArraySample(cosHalfPsi[angle], sinTheta[angle]);
      assert v == raw[angle];
      tmp[angle] := v;
      MaxFromSnoc(0.0, raw, angle);
      max := Max(max, v);
      angle := angle + 1;
    }
    assert raw[..angle] == raw;
    assert tmp[..] == raw;
  }

  /** calculateArrayPattern (script.js:479-506): `cosHalfPsiA[a]` is
      cos(psiA/2) with psiA = 2π·S·cos θ + P, `cosHalfPsiE[a]` the same with
      sin θ in place of cos θ. Each cut is normalised by its own maximum. */
  method ArrayPattern(cosHalfPsiA: seq<real>, cosHalfPsiE: seq<real>, sinTheta: seq<real>)
    returns (p: Pattern)
    requires |cosHalfPsiA| == Samples && |cosHalfPsiE| == Samples && |sinTheta| == Samples
    ensures p.azimuth == Normalized(ArrayRaw(cosHalfPsiA, sinTheta))
    ensures p.elevation == Normalized(ArrayRaw(cosHalfPsiE, sinTheta))
    ensures |p.azimuth| == Samples && IsNormalizedCut(p.azimuth)
    ensures |p.elevation| == Samples && IsNormalizedCut(p.elevation)
  {
    ghost var rawA := ArrayRaw(cosHalfPsiA, sinTheta);
    ghost var rawE := ArrayRaw(cosHalfPsiE, sinTheta);
    var tmpA, maxA := SampleArrayCut(cosHalfPsiA, sinTheta);
    var tmpE, maxE := SampleArrayCut(cosHalfPsiE, sinTheta);
    maxA := OrOne(maxA);
    maxE := OrOne(maxE);
    var azimuth, elevation := [], [];
    var a := 0;
    while a <= 360
      invariant 0 <= a <= Samples && |azimuth| == a && |elevation| == a
      invariant forall k :: 0 <= k < a ==> azimuth[k] == rawA[k] / maxA
      invariant forall k :: 0 <= k < a ==> elevation[k] == rawE[k] / maxE
    {
      assert tmpA[a] == rawA[a] && tmpE[a] == rawE[a];
      azimuth := azimuth + [tmpA[a] / maxA];
      elevation := elevation + [tmpE[a] / maxE];
      a := a + 1;
    }
    assert azimuth == Scaled(rawA, maxA) && elevation == Scaled(rawE, maxE);
    p := Pattern(azimuth, elevation);
    NormalizedIsCut(rawA);
    NormalizedIsCut(rawE);
  }

  // ------------------------------------------------------------------ yagi

  /** `directivity = 0.15·directors` (script.js:511). */
  function Directivity(n: int): (d: real)
    ensures n >= 0 ==> d >= 0.0
    ensures n > 0 ==> d > 0.0
  {
    0.15 * n as real
  }

  /** `bwA = 180 / (1 + 2·directivity)` degrees (script.js:512). */
  function BeamwidthAz(n: int): (bw: real)
    requires n >= 0
    ensures 0.0 < bw <= 180.0
  {
    180.0 / (1.0 + 2.0 * Directivity(n))
  }

  /** `bwE = 120 / (1 + 2·directivity)` degrees (script.js:513). */
  function BeamwidthEl(n: int): (bw: real)
    requires n >= 0
    ensures 0.0 < bw <= 120.0
  {
    120.0 / (1.0 + 2.0 * Directivity(n))
  }

  /** `0.15 / (1 + directivity)`, the azimuth side-lobe floor (script.js:524). */
  function SideLobeAz(n: int): (level: real)
    requires n >= 0
    ensures 0.0 < level <= 0.15
  {
    0.15 / (1.0 + Directivity(n))
  }

  /** `0.1 / (1 + directivity)`, the elevation side-lobe floor (script.js:536). */
  function SideLobeEl(n: int): (level: real)
    requires n >= 0
    ensures 0.0 < level <= 0.1
  {
    0.1 / (1.0 + Directivity(n))
  }

  /** The azimuth main-lobe test, within half a beamwidth of 0 or of 2π
      (script.js:517-518). Degree 0, the boresight, always passes. */
  predicate InAzLobe(n: int, a: int): (r: bool)
    requires n >= 0
    ensures a == 0 ==> r
  {
    var half := (BeamwidthAz(n) * Pi / 180.0) / 2.0;
    Abs(Theta(a)) < half || Abs(Theta(a) - 2.0 * Pi) < half
  }

  /** The elevation main-lobe test, within half a beamwidth of π/2
      (script.js:530). Degree 90, the horizon, always passes. */
  predicate InElLobe(n: int, a: int): (r: bool)
    requires n >= 0
    ensures a == 90 ==> r
  {
    Abs(Theta(a) - Pi / 2.0) < (BeamwidthEl(n) * Pi / 180.0) / 2.0
  }

  /** One Yagi sample (script.js:516-528 and 529-540): the shaped lobe value
      inside the main lobe, 0 outside it, and `floor·|sin(...)|` in place of
      any value under the side-lobe floor. `lobe` is the value of
      `Math.pow(Math.max(0, cos(normAngle·π/2)), 1/(1+directivity))` and
      `side` the sine of the side-lobe term. Whatever the inputs, the sample
      is non-negative; off the main lobe it never exceeds the floor. */
  function YagiSample(inLobe: bool, lobe: real, floor: real, side: real): (v: real)
    requires floor > 0.0
    ensures v >= 0.0
    ensures inLobe && lobe >= floor ==> v == lobe
    ensures Abs(side) <= 1.0 && !inLobe ==> v <= floor
    ensures Abs(side) <= 1.0 ==> v <= Max(floor, lobe)
  {
    var w := if inLobe then lobe else 0.0;
    var s := Abs(side);
    if w < floor then
      assert floor * s >= 0.0 && (s <= 1.0 ==> floor * s <= floor) by {
        if s <= 1.0 { MulFraction(floor, s); }
      }
      floor * s
    else w
  }

  function YagiAzRaw(n: int, lobe: seq<real>, side: seq<real>): (raw: seq<real>)
    requires n >= 0 && |lobe| == |side|
    ensures |raw| == |lobe| && NonNegative(raw)
  {
    seq(|lobe|, a requires 0 <= a < |lobe| => YagiSample(InAzLobe(n, a), lobe[a], SideLobeAz(n), side[a]))
  }

  function YagiElRaw(n: int, lobe: seq<real>, side: seq<real>): (raw: seq<real>)
    requires n >= 0 && |lobe| == |side|
    ensures |raw| == |lobe| && NonNegative(raw)
  {
    seq(|lobe|, a requires 0 <= a < |lobe| => YagiSample(InElLobe(n, a), lobe[a], SideLobeEl(n), side[a]))
  }

  /** Loop-body helper of FillYagiCuts, proved equal to YagiSample: the
      statements that compute one Yagi sample (script.js:516-527, 529-539):
      start from 0, take the lobe value inside the main lobe, and
      fall back to the side-lobe term under the floor. */
  method YagiStep(inLobe: bool, lobe: real, floor: real, side: real) returns (v: real)
    requires floor > 0.0
    ensures v == YagiSample(inLobe, lobe, floor, side)
  {
    v := 0.0;
    if inLobe {
      v := lobe;
    }
    if v < floor {
      v := floor * Abs(side);
    }
  }

  /** The sampling loop of calculateYagiPattern (script.js:514-541): writes
      the raw azimuth and elevation samples into the two cuts. */
  method FillYagiCuts(n: int, lobeA: seq<real>, sideA: seq<real>, lobeE: seq<real>, sideE: seq<real>,
                      azimuth: array<real>, elevation: array<real>)
    requires n >= 0
    requires |lobeA| == Samples && |sideA| == Samples && |lobeE| == Samples && |sideE| == Samples
    requires azimuth.Length == Samples && elevation.Length == Samples && azimuth != elevation
    modifies azimuth, elevation
    ensures azimuth[..] == YagiAzRaw(n, lobeA, sideA)
    ensures elevation[..] == YagiElRaw(n, lobeE, sideE)
  {
    ghost var rawA := YagiAzRaw(n, lobeA, sideA);
    ghost var rawE := YagiElRaw(n, lobeE, sideE);
    var floorA, floorE := SideLobeAz(n), SideLobeEl(n);
    var a := 0;
    while a <= 360
      invariant 0 <= a <= Samples
      invariant forall k :: 0 <= k < a ==> azimuth[k] == rawA[k]
      invariant forall k :: 0 <= k < a ==> elevation[k] == rawE[k]
    {
      var vA := YagiStep(InAzLobe(n, a), lobeA[a], floorA, sideA[a]);
      assert vA == rawA[a];
      azimuth[a] := vA;
      var vE := YagiStep(InElLobe(n, a), lobeE[a], floorE, sideE[a]);
      assert vE == rawE[a];
      elevation[a] := vE;
      a := a + 1;
    }
    assert azimuth[..] == rawA;
    assert elevation[..] == rawE;
  }

  /** calculateYagiPattern (script.js:508-549): the samples are written in
      place, then `Math.max(...values) || 1` divides each cut in place. */
  method YagiPattern(n: int, lobeA: seq<real>, sideA: seq<real>, lobeE: seq<real>, sideE: seq<real>)
    returns (p: Pattern)
    requires n >= 0
    requires |lobeA| == Samples && |sideA| == Samples && |lobeE| == Samples && |sideE| == Samples
    ensures p.azimuth == Normalized(YagiAzRaw(n, lobeA, sideA))
    ensures p.elevation == Normalized(YagiElRaw(n, lobeE, sideE))
    ensures |p.azimuth| == Samples && IsNormalizedCut(p.azimuth)
    ensures |p.elevation| == Samples && IsNormalizedCut(p.elevation)
  {
    ghost var rawA := YagiAzRaw(n, lobeA, sideA);
    ghost var rawE := YagiElRaw(n, lobeE, sideE);
    var azimuth := new real[Samples];
    var elevation := new real[Samples];
    FillYagiCuts(n, lobeA, sideA, lobeE, sideE, azimuth, elevation);
    var maxA := OrOne(Largest(azimuth[..]));
    var maxE := OrOne(Largest(elevation[..]));
    LargestIsRunningMax(rawA);
    LargestIsRunningMax(rawE);
    DivideInPlace(azimuth, maxA);
    DivideInPlace(elevation, maxE);
    p := Pattern(azimuth[..], elevation[..]);
    NormalizedIsCut(rawA);
    NormalizedIsCut(rawE);
  }

  /** The main-lobe tests in degrees: the azimuth lobe is the degrees within
      half a beamwidth of 0° or of 360°, the elevation lobe those within half
      a beamwidth of 90°. */
  lemma LobeInDegrees(n: int, a: int)
    requires n >= 0
    ensures InAzLobe(n, a) <==>
              Abs(a as real) < BeamwidthAz(n) / 2.0 || Abs(a as real - 360.0) < BeamwidthAz(n) / 2.0
    ensures InElLobe(n, a) <==> Abs(a as real - 90.0) < BeamwidthEl(n) / 2.0
  {
  }

  /** The azimuth lobe is symmetric about 0°: degree `a` is in it exactly
      when `360 − a` is. */
  lemma LobeAzSymmetric(n: int, a: int)
    requires n >= 0
    ensures InAzLobe(n, a) <==> InAzLobe(n, 360 - a)
  {
    LobeInDegrees(n, a);
    LobeInDegrees(n, 360 - a);
  }

  /** The elevation lobe is symmetric about 90°: degree `a` is in it exactly
      when `180 − a` is. */
  lemma LobeElSymmetric(n: int, a: int)
    requires n >= 0
    ensures InElLobe(n, a) <==> InElLobe(n, 180 - a)
  {
    LobeInDegrees(n, a);
    LobeInDegrees(n, 180 - a);
  }

  /** 0° and 360° are always in the azimuth lobe, 90° in the elevation lobe,
      whatever the number of directors. */
  lemma LobeCentres(n: int)
    requires n >= 0
    ensures InAzLobe(n, 0) && InAzLobe(n, 360) && InElLobe(n, 90)
  {
    LobeInDegrees(n, 0);
    LobeInDegrees(n, 360);
    LobeInDegrees(n, 90);
  }

  /** More directors narrow both main lobes. */
  lemma LobeNarrows(n: int, m: int, a: int)
    requires 0 <= n <= m
    ensures BeamwidthAz(m) <= BeamwidthAz(n) && BeamwidthEl(m) <= BeamwidthEl(n)
    ensures InAzLobe(m, a) ==> InAzLobe(n, a)
    ensures InElLobe(m, a) ==> InElLobe(n, a)
  {
    var dn, dm := 1.0 + 2.0 * Directivity(n), 1.0 + 2.0 * Directivity(m);
    assert 1.0 <= dn <= dm;
    DivideAntitone(180.0, dn, dm);
    DivideAntitone(120.0, dn, dm);
    LobeInDegrees(n, a);
    LobeInDegrees(m, a);
  }
}
