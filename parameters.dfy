/** The closed-form metrics of calculateDipoleParameters,
    calculateMonopoleParameters (script.js:552-586),
    calculateArrayParameters (script.js:588-603) and calculateYagiParameters
    (script.js:605-615). Only their rational parts are modelled: the
    `Math.exp` beamwidth and front-to-back terms of the dipole and the
    monopole and the `Math.log10` gain of the array are not, and the array's
    `|cos P|` is an input. */
module Parameters {
  import opened Numeric

  // ------------------------------------------------------------------ yagi

  /** `gain = 7.5 + 2.2·directors` dBi (script.js:607). */
  function YagiGain(n: int): (g: real)
    ensures n >= 0 ==> g >= 7.5
  {
    7.5 + 2.2 * n as real
  }

  /** `beamwidth = 65 / (1 + 0.4·directors)` degrees (script.js:608). */
  function YagiBeamwidth(n: int): (bw: real)
    requires n >= 0
    ensures 0.0 < bw <= 65.0
  {
    DivideAntitone(65.0, 1.0, 1.0 + 0.4 * n as real);
    65.0 / (1.0 + 0.4 * n as real)
  }

  /** `fbRatio = 12 + 6·directors` dB (script.js:609). */
  function YagiFrontToBack(n: int): (f: real)
    ensures n >= 0 ==> f >= 12.0
  {
    12.0 + 6.0 * n as real
  }

  /** `efficiency = Math.min(95, 80 + 1.5·directors)` percent (script.js:610). */
  function YagiEfficiency(n: int): (e: real)
    ensures e <= 95.0
    ensures n >= 10 <==> e == 95.0
  {
    Min(95.0, 80.0 + 1.5 * n as real)
  }

  /** The four values the panel shows, with beamwidth and efficiency passed
      through `Math.round` (script.js:611-614). */
  datatype Readout = Readout(gainDbi: real, beamwidthDeg: int, frontToBackDb: real, efficiencyPct: int)

  function YagiReadout(n: int): (r: Readout)
    requires n >= 0
    ensures 0 <= r.beamwidthDeg <= 65 && 80 <= r.efficiencyPct <= 95
  {
    RoundWithin(YagiBeamwidth(n), 0, 65);
    RoundWithin(YagiEfficiency(n), 80, 95);
    Readout(YagiGain(n), Round(YagiBeamwidth(n)), YagiFrontToBack(n), Round(YagiEfficiency(n)))
  }

  /** More directors: strictly more gain and front-to-back ratio, a strictly
      narrower beam (and a shown beamwidth that never grows), and an
      efficiency that never drops. */
  lemma YagiMonotone(n: int, m: int)
    requires 0 <= n < m
    ensures YagiGain(n) < YagiGain(m)
    ensures YagiFrontToBack(n) < YagiFrontToBack(m)
    ensures YagiBeamwidth(m) < YagiBeamwidth(n)
    ensures YagiReadout(m).beamwidthDeg <= YagiReadout(n).beamwidthDeg
    ensures YagiEfficiency(n) <= YagiEfficiency(m)
  {
    DivideStrictlyAntitone(65.0, 1.0 + 0.4 * n as real, 1.0 + 0.4 * m as real);
    RoundMonotone(YagiBeamwidth(m), YagiBeamwidth(n));
  }

  /** Three directors, the default: 14.1 dBi, about 30°, 30 dB and 85 %. */
  lemma YagiThreeDirectors()
    ensures YagiReadout(3) == Readout(14.1, 30, 30.0, 85)
  {
    assert YagiBeamwidth(3) == 65.0 / 2.2;
    assert 29.5 <= 65.0 / 2.2 < 30.5;
  }

  // ----------------------------------------------------------------- array

  /** `beamwidth = 78 / (1 + spacing)` degrees (script.js:596). */
  function ArrayBeamwidth(spacing: real): (bw: real)
    requires spacing >= 0.0
    ensures 0.0 < bw <= 78.0
  {
    DivideAntitone(78.0, 1.0, 1.0 + spacing);
    78.0 / (1.0 + spacing)
  }

  /** `fbRatio = 20 + 30·|cos P|` dB (script.js:597); `absCos = |cos P|`. */
  function ArrayFrontToBack(absCos: real): (f: real)
    ensures 0.0 <= absCos <= 1.0 ==> 20.0 <= f <= 50.0
  {
    20.0 + 30.0 * absCos
  }

  /** `efficiency = 90 + 5·|cos P|` percent (script.js:598). */
  function ArrayEfficiency(absCos: real): (e: real)
    ensures 0.0 <= absCos <= 1.0 ==> 90.0 <= e <= 95.0
  {
    90.0 + 5.0 * absCos
  }

  /** The four values the array panel shows (script.js:593-602). The gain
      is `2.15 + 10·log10Term` dBi, where `log10Term` stands for
      `Math.log10(2·|2·cos(P/2)|)`, an input here. For `absCos = |cos P|` in
      [0,1] the beamwidth lies within 0..78°, the ratio within 20..50 dB and
      the efficiency within 90..95 %; the ratio is at its top exactly when
      the elements are in phase or in antiphase (`|cos P| = 1`), and the
      efficiency is then 95 %. */
  function ArrayReadout(spacing: real, absCos: real, log10Term: real): (r: Readout)
    requires spacing >= 0.0 && 0.0 <= absCos <= 1.0
    ensures 0 <= r.beamwidthDeg <= 78
    ensures 20.0 <= r.frontToBackDb <= 50.0 && 90 <= r.efficiencyPct <= 95
    ensures r.frontToBackDb == 50.0 <==> absCos == 1.0
    ensures absCos == 1.0 ==> r.efficiencyPct == 95
    ensures absCos == 0.0 ==> r.frontToBackDb == 20.0 && r.efficiencyPct == 90
  {
    RoundWithin(ArrayBeamwidth(spacing), 0, 78);
    RoundWithin(ArrayEfficiency(absCos), 90, 95);
    Readout(2.15 + 10.0 * log10Term, Round(ArrayBeamwidth(spacing)), ArrayFrontToBack(absCos), Round(ArrayEfficiency(absCos)))
  }

  /** Wider spacing never widens the beam; a larger `|cos P|` never lowers
      the front-to-back ratio nor the shown efficiency. */
  lemma ArrayMonotone(s1: real, s2: real, c1: real, c2: real, g1: real, g2: real)
    requires 0.0 <= s1 <= s2 && 0.0 <= c1 <= c2 <= 1.0
    ensures ArrayBeamwidth(s2) <= ArrayBeamwidth(s1)
    ensures ArrayReadout(s2, c2, g2).beamwidthDeg <= ArrayReadout(s1, c1, g1).beamwidthDeg
    ensures ArrayReadout(s1, c1, g1).frontToBackDb <= ArrayReadout(s2, c2, g2).frontToBackDb
    ensures ArrayReadout(s1, c1, g1).efficiencyPct <= ArrayReadout(s2, c2, g2).efficiencyPct
  {
    DivideAntitone(78.0, 1.0 + s1, 1.0 + s2);
    RoundMonotone(ArrayBeamwidth(s2), ArrayBeamwidth(s1));
    RoundMonotone(ArrayEfficiency(c1), ArrayEfficiency(c2));
  }

  // ----------------------------------------------------- dipole, monopole

  /** The gain of a resonant element of length `l` (in wavelengths): `peak`
      at `center`, less 4 per wavelength below it and 3 above it, floored at
      0 (script.js:554-560, 572-578). */
  function ResonantGain(peak: real, center: real, l: real): (g: real)
    ensures g >= 0.0
    ensures l == center ==> g == Max(0.0, peak)
  {
    var gain :=
      if l < center then peak - 4.0 * Abs(center - l)
      else if l > center then peak - 3.0 * (l - center)
      else peak;
    Max(0.0, gain)
  }

  /** calculateDipoleParameters' gain: 2.15 dBi at half a wavelength, never
      more and never negative. */
  function DipoleGain(l: real): (g: real)
    ensures 0.0 <= g <= 2.15
    ensures l == 0.5 ==> g == 2.15
  {
    ResonantGainBounds(2.15, 0.5, l);
    ResonantGain(2.15, 0.5, l)
  }

  /** calculateMonopoleParameters' gain: 5.15 dBi at a quarter wavelength,
      never more and never negative. */
  function MonopoleGain(l: real): (g: real)
    ensures 0.0 <= g <= 5.15
    ensures l == 0.25 ==> g == 5.15
  {
    ResonantGainBounds(5.15, 0.25, l);
    ResonantGain(5.15, 0.25, l)
  }

  /** The shown efficiency `Math.max(50, Math.round(95 − 20·|l − center|))`
      percent (script.js:563, 567, 581, 585). */
  function ResonantEfficiency(center: real, l: real): (e: int)
    ensures e >= 50
  {
    var e := Round(95.0 - 20.0 * Abs(l - center));
    if 50 >= e then 50 else e
  }

  /** The gain lies in [0, peak], is exactly `peak` at resonance and strictly
      less anywhere else (while it is positive). */
  lemma ResonantGainBounds(peak: real, center: real, l: real)
    requires peak >= 0.0
    ensures 0.0 <= ResonantGain(peak, center, l) <= peak
    ensures l == center ==> ResonantGain(peak, center, l) == peak
    ensures l != center && peak > 0.0 ==> ResonantGain(peak, center, l) < peak
  {
  }

  /** The gain rises up to resonance and falls after it, and it falls faster
      below resonance than above: a step `d` short of resonance costs at
      least as much as the same step past it. */
  lemma ResonantGainShape(peak: real, center: real, l1: real, l2: real, d: real)
    requires l1 <= l2 && d >= 0.0
    ensures l2 <= center ==> ResonantGain(peak, center, l1) <= ResonantGain(peak, center, l2)
    ensures center <= l1 ==> ResonantGain(peak, center, l1) >= ResonantGain(peak, center, l2)
    ensures ResonantGain(peak, center, center - d) <= ResonantGain(peak, center, center + d)
  {
  }

  /** The shown efficiency lies in [50, 95] and is 95 at resonance. */
  lemma ResonantEfficiencyBounds(center: real, l: real)
    ensures 50 <= ResonantEfficiency(center, l) <= 95
    ensures ResonantEfficiency(center, center) == 95
  {
    RoundMonotone(95.0 - 20.0 * Abs(l - center), 95.0);
  }

  /** At their resonant lengths the dipole shows 2.15 dBi and the monopole
      5.15 dBi, both at 95 % efficiency. */
  lemma AtResonance()
    ensures DipoleGain(0.5) == 2.15 && ResonantEfficiency(0.5, 0.5) == 95
    ensures MonopoleGain(0.25) == 5.15 && ResonantEfficiency(0.25, 0.25) == 95
  {
    ResonantEfficiencyBounds(0.5, 0.5);
    ResonantEfficiencyBounds(0.25, 0.25);
  }
}
