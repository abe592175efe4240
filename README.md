# Antenna radiation-pattern visualiser: a Dafny model of its computing core

The visualiser is a single browser script. It samples the far-field radiation
pattern of four antennas at every integer degree from 0 to 360. The antennas
are a dipole, a monopole over a ground plane, a two-element phased array and
a Yagi-Uda. The script normalises each cut by its largest sample and draws
two polar plots and a shaded pseudo-3D surface. It also shows gain,
beamwidth, front-to-back ratio and efficiency computed from closed-form
formulas.

This project models the deterministic core of that script in Dafny, over
exact `real` numbers:

- `numeric.dfy` (module `Numeric`): `Math.round`, JavaScript's `%`, `Math.PI`
  and the script's `clamp01`.
- `normalize.dfy` (module `Normalize`): normalise-by-max with the zero guard
  `max || 1`, shared by all four pattern builders. It holds the running
  maximum, the divisor, the division loops and the invariant of a normalised
  cut.
- `patterns.dfy` (module `Patterns`): the four pattern builders as
  imperative methods, written the way the script writes them. The dipole,
  monopole and array builders have a sampling loop that tracks the running
  maximum, then a division loop. The Yagi builder takes the maximum of its
  samples after its loop (`Math.max(...values)`) and divides in place. Each builder is proved against a
  specification function of its raw samples.
- `colormap.dfy` (module `ColorMap`): the four-piece intensity-to-colour map.
- `projection.dfy` (module `Projection`): the fixed oblique 3D-to-2D
  projection.
- `render.dfy` (module `Render`): the loop and index structure of the polar
  outline (181 vertices, every 2°) and of the 3D mesh (36 × 18 quads, drawn
  in column-then-row order), plus the panel geometry.
- `parameters.dfy` (module `Parameters`): the rational parts of the Yagi,
  array, dipole and monopole metric formulas.

The script evaluates `Math.cos`, `Math.sin`, `Math.pow` and `Math.log10`
around the modelled logic. In the model their values are inputs: one sequence per term,
indexed by degree (or by mesh column and row), or one value per metric. The
model keeps the script's own logic around those values: the `1e-6` sine
guard, the ground-plane cut-off, the Yagi main-lobe tests and side-lobe
floor, the normalisation, `clamp01` and the rounding. The Yagi main-lobe
shaping is an input as a whole (see "Left out"). `Math.PI` is the real
literal `3.141592653589793`, so the angle tests on `theta = a·π/180`
appear in their original form, and lemmas restate them in degrees.

The dipole sample is `|num / den|` (script.js:440), the absolute value of
the whole quotient. The Yagi azimuth cut is not periodic (script.js:517-519):
sample 360 lies in the main lobe through the test against 2π, but its
shaping angle is `normAngle = 360/bwA`, not 0. So no `cut[0] == cut[360]`
claim is made.

## Model

| member | source | states |
|---|---|---|
| Numeric.Max | script.js:443 | `Math.max(a, b)` is at least both arguments and is one of them |
| Numeric.Min | script.js:424 | `Math.min(a, b)` is at most both arguments and is one of them |
| Numeric.Abs | script.js:439-440 | `Math.abs(x)` is non-negative and is x or −x |
| Numeric.Round | script.js:413-419 | `Math.round(x)` is the integer n with n − ½ ≤ x < n + ½ |
| Numeric.Trunc | script.js:349-350 | the whole part of a quotient, truncated towards zero as `%` uses it: never larger in size than the quotient, less than one below it in size, and with the quotient's sign |
| Numeric.JsRem | script.js:349-350 | JavaScript's `x % m` differs from x by a whole number of m, and lies in [0, m) for x ≥ 0 and m > 0 |
| Numeric.Clamp01 | script.js:424 | `clamp01(x)` lies in [0,1], is x on [0,1], 0 below and 1 above |
| Numeric.Clamp01Idempotent | script.js:424 | clamping twice is clamping once |
| Numeric.Clamp01Monotone | script.js:424 | the clamp is monotone |
| Normalize.MaxFrom | script.js:443 | the running maximum `max = Math.max(max, v)` from a seed is at least the seed and the last sample folded in (the same step recurs at lines 470, 491 and 497) |
| Normalize.MaxFromBounds | script.js:443 | the running maximum is at least every sample |
| Normalize.MaxFromAttained | script.js:443 | the running maximum is its seed or one of the samples |
| Normalize.MaxFromSnoc | script.js:443 | one loop step folds the next sample into the running maximum |
| Normalize.Largest | script.js:542-543 | `Math.max(...values)` is at least the first and the last value |
| Normalize.LargestIsRunningMax | script.js:542-543 | for non-negative samples, the unseeded `Math.max(...values)` used by the Yagi builder equals the running maximum from 0 used by the others |
| Normalize.OrOne | script.js:445 | `max \|\| 1` is never 0; it is `max` whenever `max` is not 0, and 1 when it is (also at lines 472, 499-500 and 542-543) |
| Normalize.Scaled | script.js:446-448 | dividing every sample by d keeps the length, and multiplying back by d restores each sample |
| Normalize.Divisor | script.js:443-445 | the divisor `max \|\| 1` of a cut is positive and no sample exceeds it |
| Normalize.Normalized | script.js:445-448 | the normalised cut has the raw cut's length, and each sample times the divisor is the raw sample (the same division at lines 473-475 and 501-504) |
| Normalize.RunningMaxZero | script.js:445 | the maximum of non-negative samples is ≥ 0, and it is 0 exactly when every sample is 0 (when `max \|\| 1` takes over) |
| Normalize.NormalizedAt | script.js:445-448 | the divisor is positive (no division by zero), length is kept, sample a becomes raw[a] / divisor |
| Normalize.NormalizedSampleWithin | script.js:446-448 | a normalised sample lies in [0,1], and times the divisor it gives back the raw sample |
| Normalize.NormalizedInUnitRange | script.js:446-448 | every normalised sample of a non-negative cut lies in [0,1] |
| Normalize.NormalizedMonotone | script.js:446-448 | normalisation keeps the order of samples |
| Normalize.NormalizedPeakOrZero | script.js:443-448 | the normalised cut is all zero iff the raw cut is; otherwise some sample is exactly 1 |
| Normalize.NormalizedIsCut | script.js:443-448 | the invariant of a normalised cut: all in [0,1], and peak 1 unless identically 0 |
| Normalize.NormalizedKeepsZero | script.js:473-475 | a raw 0 stays 0 after normalisation |
| Normalize.ScaleCut | script.js:446-448 | the division loop produces every tmp[a] / max, in order |
| Normalize.DivideInPlace | script.js:544-547 | the in-place division loop leaves every element divided by the divisor |
| Patterns.Theta | script.js:434 | `theta = a·π/180` maps 0° to 0 and 180° to π |
| Patterns.UnitCut | script.js:430 | the omnidirectional azimuth cut is 1.0 at each of the 361 degrees |
| Patterns.GuardedRatio | script.js:436-441 | the dipole sample is ≥ 0, is 0 when \|sin θ\| ≤ 1e-6, and otherwise times \|sin θ\| gives \|num\| |
| Patterns.DipoleRaw | script.js:433-444 | the raw dipole elevation cut has the input's length and is non-negative |
| Patterns.DipolePattern | script.js:427-450 | azimuth is all 1.0; elevation is the normalised raw cut, satisfies the normalised-cut invariant, and is 0 wherever the sine guard fires |
| Patterns.UpperHemisphere | script.js:461 | `theta >= 0 && theta <= Math.PI` holds exactly for degrees 0..180 |
| Patterns.MonopoleSample | script.js:458-468 | the monopole sample is ≥ 0, equals the dipole's guarded ratio on 0..180°, and is 0 past 180° or under the sine guard |
| Patterns.MonopoleRaw | script.js:457-471 | the raw monopole cut has the input's length and is non-negative |
| Patterns.MonopolePattern | script.js:452-477 | azimuth all 1.0; elevation normalised, satisfies the invariant, and is 0 at every degree 181..360 and wherever the sine guard fires |
| Patterns.ArraySample | script.js:486-495 | `\|2·cos(ψ/2)\|·\|sin θ\|` is ≥ 0, 0 when sin θ = 0, and at most 2 for cosines and sines in [−1,1] |
| Patterns.ArrayRaw | script.js:484-498 | the raw array cut has the input's length and is non-negative |
| Patterns.SampleArrayCut | script.js:484-497 | the sampling loop writes exactly the raw array samples of a cut, and its running maximum is the maximum of that raw cut from 0 |
| Patterns.ArrayPattern | script.js:479-506 | each cut is its raw cut normalised by its own maximum, and both satisfy the invariant |
| Patterns.Directivity | script.js:511 | `directivity = 0.15·N` is non-negative, and positive once there is a director |
| Patterns.BeamwidthAz | script.js:512 | the azimuth beamwidth lies in (0, 180] degrees |
| Patterns.BeamwidthEl | script.js:513 | the elevation beamwidth lies in (0, 120] degrees |
| Patterns.SideLobeAz | script.js:524 | the azimuth side-lobe floor lies in (0, 0.15] |
| Patterns.SideLobeEl | script.js:536 | the elevation side-lobe floor lies in (0, 0.1] |
| Patterns.InAzLobe | script.js:517-518 | the azimuth main-lobe test on θ always passes at the boresight, 0° (LobeInDegrees gives its full meaning) |
| Patterns.InElLobe | script.js:530 | the elevation main-lobe test on θ always passes at the horizon, 90° (LobeInDegrees gives its full meaning) |
| Patterns.YagiSample | script.js:516-540 | whatever the lobe value, the Yagi sample is ≥ 0; a lobe value at or above the floor inside the main lobe is kept; for a side-lobe sine \|side\| ≤ 1, the sample off the main lobe never exceeds the floor, and never exceeds the larger of floor and lobe value anywhere |
| Patterns.YagiAzRaw | script.js:514-528 | the raw Yagi azimuth cut has the input's length and is non-negative |
| Patterns.YagiElRaw | script.js:529-540 | the raw Yagi elevation cut has the input's length and is non-negative |
| Patterns.FillYagiCuts | script.js:514-541 | the sampling loop writes exactly the raw Yagi samples into both cuts |
| Patterns.YagiPattern | script.js:508-549 | dividing in place by `Math.max(...values) \|\| 1` gives the normalised raw cuts, which satisfy the invariant |
| Patterns.LobeInDegrees | script.js:517-530 | the radian main-lobe tests mean: within half a beamwidth of 0° or 360° (azimuth), of 90° (elevation) |
| Patterns.LobeAzSymmetric | script.js:517-518 | degree a is in the azimuth lobe exactly when 360 − a is |
| Patterns.LobeElSymmetric | script.js:530 | degree a is in the elevation lobe exactly when 180 − a is |
| Patterns.LobeCentres | script.js:517-530 | 0° and 360° are always in the azimuth lobe and 90° in the elevation lobe |
| Patterns.LobeNarrows | script.js:511-513 | more directors never widen either beamwidth or either main lobe |
| ColorMap.SegmentOf | script.js:412-418 | the piece index is 0..3 and the intensity lies in that piece's quarter |
| ColorMap.Segment | script.js:412-420 | each piece has alpha 0.7 and its two fixed channels: (r=0, b=255), (r=0, g=255), (g=255, b=0), (r=255, b=0) |
| ColorMap.SegmentInRange | script.js:412-420 | each piece gives byte channels (0..255) on its own quarter |
| ColorMap.ColorForIntensity | script.js:409-422 | channels are bytes with alpha 0.7; ≤ 0 gives (0,0,255), ≥ 1 gives (255,0,0); red is 0 below 0.5 and blue is 0 from 0.5 on |
| ColorMap.ColorClampsFirst | script.js:410 | `colorFor(t) == colorFor(clamp01(t))` |
| ColorMap.SegmentsMeet | script.js:412-420 | adjacent pieces agree at 0.25, 0.5 and 0.75 (cyan, green, yellow) |
| ColorMap.ColorMonotone | script.js:409-421 | a higher intensity never has less red nor more blue |
| Projection.Project | script.js:404-407 | the horizontal offset is 0 exactly when x = y, the vertical one exactly when 2z = x + y |
| Projection.ProjectOrigin | script.js:404-407 | the origin projects to (0,0) |
| Projection.ProjectHomogeneous | script.js:404-407 | `project(k·x, k·y, k·z) == k·project(x, y, z)` |
| Projection.ProjectAdditive | script.js:404-407 | the projection of a sum is the sum of the projections |
| Projection.ProjectKernel | script.js:404-407 | exactly the points with x = y = z project to the origin |
| Render.CanvasGeometry | script.js:231-236 | the centre is the canvas midpoint; `maxRadius + margin` fits both half-sides and equals the shorter one |
| Render.Lookup | script.js:318 | `cut[k] ?? 0` is 0 for a missing sample, and lies in [0,1] when the cut does (the same lookup at lines 351-352) |
| Render.OutlineRadius | script.js:319 | `maxRadius·clamp01(v)` lies in [0, maxRadius] when maxRadius ≥ 0, and is `maxRadius·v` for v in [0,1] |
| Render.OutlineVertex | script.js:316-326 | the vertex at angle a is a move iff a = 0; its radius lies in [0, maxRadius] when maxRadius ≥ 0; it is `maxRadius·v` for a sample v in [0,1] |
| Render.PolarOutline | script.js:315-328 | the outline has 181 vertices at 0°, 2°, …, 360°; only the first is a move; every radius lies in [0, maxRadius] when maxRadius ≥ 0 |
| Render.MeshTheta | script.js:344-345 | column 0 is at angle 0 and column 36 a full turn 2π round |
| Render.DegreeIndex | script.js:349-350 | `Math.round((θ·180/π) % 360)` for column i is `10·i mod 360`, in [0,359]; column 36 reads sample 0 |
| Render.OnCanvas | script.js:364-367 | a canvas point minus the centre, with y flipped, gives back the projected point |
| Render.CornerRadius | script.js:355-358 | a corner radius `maxRadius·v·sin φ` is 0 on a pole row |
| Render.QuadIntensity | script.js:369 | the shading intensity, a product of two clamped means, lies in [0,1] |
| Render.Corner | script.js:359-364 | a corner of radius 0 lands on the canvas centre |
| Render.MeshQuad | script.js:344-374 | quad (i,j) reads azimuth samples `10i mod 360` and `10(i+1) mod 360` (0 when i = 35); its path has 4 corners; its intensity lies in [0,1] with a byte colour; at a pole row its first two corners meet at the centre |
| Render.MeshColumn | script.js:346-375 | the inner loop emits the 18 quads of column i, row j at position j |
| Render.Mesh | script.js:341-376 | the nested loops emit 36 × 18 = 648 quads, the k-th being cell (k div 18, k mod 18) |
| Render.MeshOrder | script.js:343-346 | quads come column-major with rows inner, and cell (i,j) is drawn (18·i + j)-th |
| Parameters.YagiGain | script.js:607 | `7.5 + 2.2·N` dBi is at least 7.5 for N ≥ 0 |
| Parameters.YagiBeamwidth | script.js:608 | `65/(1 + 0.4N)` lies in (0, 65] for N ≥ 0 |
| Parameters.YagiFrontToBack | script.js:609 | `12 + 6·N` dB is at least 12 for N ≥ 0 |
| Parameters.YagiEfficiency | script.js:610 | `min(95, 80 + 1.5N)` never exceeds 95 and reaches it exactly from 10 directors on |
| Parameters.YagiReadout | script.js:611-614 | the shown beamwidth lies in 0..65° and the shown efficiency in 80..95 % |
| Parameters.YagiMonotone | script.js:605-610 | more directors give strictly more gain and front-to-back, a strictly narrower beam, a shown beamwidth that never grows and an efficiency that never drops |
| Parameters.YagiThreeDirectors | script.js:605-614 | three directors show 14.1 dBi, 30°, 30 dB and 85 % |
| Parameters.ArrayBeamwidth | script.js:596 | `78/(1 + spacing)` lies in (0, 78] for a non-negative spacing |
| Parameters.ArrayFrontToBack | script.js:597 | `20 + 30·\|cos P\|` dB lies in [20, 50] |
| Parameters.ArrayEfficiency | script.js:598 | `90 + 5·\|cos P\|` % lies in [90, 95] |
| Parameters.ArrayReadout | script.js:593-602 | for \|cos P\| in [0,1] the shown beamwidth lies in 0..78°, the front-to-back ratio in 20..50 dB (50 exactly when \|cos P\| = 1) and the efficiency in 90..95 % (95 % in phase or antiphase; 20 dB and 90 % in quadrature) |
| Parameters.ArrayMonotone | script.js:596-598 | wider spacing never widens the beam; a larger \|cos P\| never lowers the front-to-back ratio or the shown efficiency |
| Parameters.ResonantGain | script.js:554-560 | the resonant gain is never negative, and at resonance it is the peak (floored at 0); the monopole repeats it at lines 572-578 |
| Parameters.DipoleGain | script.js:553-560 | the dipole gain lies in [0, 2.15] dBi and is 2.15 at L = 0.5 |
| Parameters.MonopoleGain | script.js:571-578 | the monopole gain lies in [0, 5.15] dBi and is 5.15 at L = 0.25 |
| Parameters.ResonantEfficiency | script.js:563 | `Math.max(50, Math.round(95 − 20·\|L − c\|))` is at least 50 (also at lines 567, 581 and 585) |
| Parameters.ResonantGainBounds | script.js:554-560 | the gain lies in [0, peak], equals peak at resonance and is strictly below it elsewhere |
| Parameters.ResonantGainShape | script.js:554-560 | the gain rises to resonance and falls after it, and a step below resonance costs at least as much as the same step above |
| Parameters.ResonantEfficiencyBounds | script.js:563-567 | the shown efficiency lies in 50..95 % and is 95 % at resonance |
| Parameters.AtResonance | script.js:552-585 | dipole gain 2.15 dBi at L = 0.5 and monopole gain 5.15 dBi at L = 0.25, both at 95 % |

## Left out

- DOM lookup, sliders, view-mode buttons, the reset handler and the timestamp
  timers (script.js:1-180). They are UI wiring and mutate global state only.
- The string dispatch in updateVisualization and updateParameters
  (script.js:183-223). It only selects one of the modelled builders or
  formulas.
- All canvas calls. This covers clearCanvas, drawConcentricCircles, the
  radial gradient, draw3DAxes, and the move/line/fill/stroke calls of the
  polar outline and the mesh. These are side effects on a foreign drawing
  API. The model returns the vertices and quads those calls receive, in the
  same order.
- captureScreenshot and getAntennaTypeName (script.js:617-663). These are
  image export and labels.
- Evaluating `Math.cos`, `Math.sin`, `Math.pow` and `Math.log10`. This is
  transcendental floating-point arithmetic, so the builders and metrics take
  those values as inputs. The pattern builders assume nothing about them
  beyond what the surrounding `Math.abs` and guards give. The array metrics
  (Parameters.ArrayReadout, Parameters.ArrayMonotone) assume
  0 ≤ |cos P| ≤ 1, which holds for a cosine. `Math.exp` appears only in
  metrics that are left out as a whole (see the line on the dipole and monopole metrics below).
- IEEE-754 rounding: the model computes in exact reals. `DegreeIndex`
  models the mesh's float-to-degree round trip with exact reals, where it
  yields exactly `10·i mod 360`.
- The dipole and monopole beamwidth and front-to-back ratio
  (script.js:561-562, 565-566, 579-580, 583-584). Each is an affine function
  of one `Math.exp` term: `78·exp(…)` shown through `Math.round`, and
  `20 + 15·exp(…)` or `30 + 20·exp(…)`. The `Math.exp` term is left out, so
  these metrics are not modelled.
- Parameters.ArrayReadout: the `Math.log10` term of the array gain
  (script.js:594) is an input, so nothing is stated about the gain. In exact
  arithmetic that term is log10(0) at a 180° phase difference; in the
  script's floating point it is a large negative finite number there.
- Patterns.YagiSample: the `lobe` input stands for the whole main-lobe
  shaping of script.js:519-522 and 531-534: the `normAngle` computation, the
  cosine, the `Math.max(0, ·)` clamp and the `Math.pow`. The model does not
  reproduce that clamp, and it does not require `lobe` to be non-negative.
  The sample is still shown non-negative, because a value under the floor is
  replaced by the side-lobe term.
- Patterns.YagiPattern: the script divides both cuts in one loop
  (script.js:544-547). The model divides them with two calls of
  Normalize.DivideInPlace. Each element is divided by the same divisor
  either way, so the arrays end the same.
- Patterns.ArrayPattern: the script fills both raw cuts in one loop
  (script.js:484-497). The model fills them in two passes of
  Patterns.SampleArrayCut. The samples of one cut do not depend on the
  other's, so the arrays and maxima are the same.
- `toFixed` and the text formatting of the metrics. `Math.round` of the
  shown beamwidth and efficiency is modelled.
- Periodicity `cut[0] == cut[360]` is not stated. For the dipole, monopole
  and array cuts it depends only on the trigonometric input values. For the
  Yagi azimuth cut it does not hold.
- The symmetry of the array elevation cut about 90° at zero phase is not
  stated. It follows from trigonometric identities on the inputs, not from
  the script's own logic.
- Patterns.YagiPattern: the shaped main-lobe value is an input. The model
  therefore does not show that sample 0 of the Yagi azimuth cut (or sample
  90 of its elevation cut) is the peak. It shows only that these samples lie
  in the main lobe.
