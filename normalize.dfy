/** Normalise-by-max with the zero guard, shared by the four pattern builders
    (script.js:431-448, 456-475, 482-504, 542-547): track the largest raw
    sample, replace a largest value of 0 by 1 (`max || 1`), divide every
    sample by it. */
module Normalize {
  import opened Numeric

  /** The running maximum `max = Math.max(max, v)`, started at `seed` and
      folded over `s` from left to right. */
  function MaxFrom(seed: real, s: seq<real>): (m: real)
    ensures seed <= m
    ensures s != [] ==> s[|s| - 1] <= m
    decreases |s|
  {
    if s == [] then seed else Max(MaxFrom(seed, s[..|s| - 1]), s[|s| - 1])
  }

  /** One step of the running maximum: taking one more sample folds it in. */
  lemma MaxFromSnoc(seed: real, s: seq<real>, i: int)
    requires 0 <= i < |s|
    ensures MaxFrom(seed, s[..i + 1]) == Max(MaxFrom(seed, s[..i]), s[i])
  {
    assert s[..i + 1][..i] == s[..i];
  }

  /** `Math.max(...values)` over a non-empty list (no seed). */
  function Largest(s: seq<real>): (m: real)
    requires |s| > 0
    ensures s[0] <= m && s[|s| - 1] <= m
  {
    MaxFrom(s[0], s)
  }

  /** `max || 1`: a largest value of 0 is replaced by 1, so the division is defined. */
  function OrOne(m: real): (d: real)
    ensures d != 0.0
    ensures m != 0.0 ==> d == m
    ensures m == 0.0 ==> d == 1.0
  {
    if m == 0.0 then 1.0 else m
  }

  /** Every sample divided by `d`: multiplying back by `d` restores it. */
  function Scaled(s: seq<real>, d: real): (r: seq<real>)
    requires d != 0.0
    ensures |r| == |s|
    ensures forall i :: 0 <= i < |s| ==> r[i] * d == s[i]
  {
    seq(|s|, i requires 0 <= i < |s| => s[i] / d)
  }

  /** The divisor the dipole, monopole and array builders use: positive,
      and no sample exceeds it. */
  function Divisor(raw: seq<real>): (d: real)
    ensures d > 0.0
    ensures forall i :: 0 <= i < |raw| ==> raw[i] <= d
  {
    MaxFromBounds(0.0, raw);
    OrOne(MaxFrom(0.0, raw))
  }

  /** A cut after normalisation: each sample is its raw sample divided by
      the divisor, so multiplying back restores the raw cut. */
  function Normalized(raw: seq<real>): (out: seq<real>)
    ensures |out| == |raw|
    ensures forall i :: 0 <= i < |raw| ==> out[i] * Divisor(raw) == raw[i]
  {
    Scaled(raw, Divisor(raw))
  }

  ghost predicate NonNegative(s: seq<real>)
  {
    forall i :: 0 <= i < |s| ==> s[i] >= 0.0
  }

  ghost predicate AllZero(s: seq<real>)
  {
    forall i :: 0 <= i < |s| ==> s[i] == 0.0
  }

  ghost predicate InUnitRange(s: seq<real>)
  {
    forall i :: 0 <= i < |s| ==> 0.0 <= s[i] <= 1.0
  }

  ghost predicate HasPeak(s: seq<real>)
  {
    exists i :: 0 <= i < |s| && s[i] == 1.0
  }

  /** The invariant of a normalised cut: every value in [0,1], and the value 1
      is reached unless the cut is identically 0. */
  ghost predicate IsNormalizedCut(s: seq<real>)
  {
    InUnitRange(s) && (HasPeak(s) || AllZero(s))
  }

  /** The running maximum bounds its seed and every sample. */
  lemma {:induction false} MaxFromBounds(seed: real, s: seq<real>)
    ensures forall i :: 0 <= i < |s| ==> s[i] <= MaxFrom(seed, s)
    decreases |s|
  {
    if s != [] {
      var init := s[..|s| - 1];
      MaxFromBounds(seed, init);
      forall i | 0 <= i < |s| ensures s[i] <= MaxFrom(seed, s) {
        if i < |s| - 1 {
          assert s[i] == init[i];
        }
      }
    }
  }

  /** The running maximum is its seed or one of the samples. */
  lemma {:induction false} MaxFromAttained(seed: real, s: seq<real>)
    ensures MaxFrom(seed, s) == seed || exists i :: 0 <= i < |s| && s[i] == MaxFrom(seed, s)
    decreases |s|
  {
    if s != [] {
      var init := s[..|s| - 1];
      MaxFromAttained(seed, init);
      if MaxFrom(seed, s) != s[|s| - 1] && MaxFrom(seed, init) != seed {
        var i :| 0 <= i < |init| && init[i] == MaxFrom(seed, init);
        assert s[i] == MaxFrom(seed, s);
      }
    }
  }

  /** For non-negative samples `Math.max(...values)` and the running maximum
      from 0 agree, so the Yagi builder divides by the same value as the others. */
  lemma LargestIsRunningMax(s: seq<real>)
    requires |s| > 0 && NonNegative(s)
    ensures Largest(s) == MaxFrom(0.0, s)
  {
    MaxFromBounds(s[0], s);
    MaxFromBounds(0.0, s);
    MaxFromAttained(s[0], s);
    MaxFromAttained(0.0, s);
  }

  /** The running maximum from 0 of non-negative samples is 0 exactly when
      every sample is 0. */
  lemma RunningMaxZero(raw: seq<real>)
    requires NonNegative(raw)
    ensures MaxFrom(0.0, raw) >= 0.0
    ensures MaxFrom(0.0, raw) == 0.0 <==> AllZero(raw)
  {
    MaxFromBounds(0.0, raw);
    MaxFromAttained(0.0, raw);
  }

  /** Normalisation divides each sample by a positive divisor and keeps the length. */
  lemma NormalizedAt(raw: seq<real>)
    requires NonNegative(raw)
    ensures Divisor(raw) > 0.0
    ensures |Normalized(raw)| == |raw|
    ensures forall i :: 0 <= i < |raw| ==> Normalized(raw)[i] == raw[i] / Divisor(raw)
  {
    RunningMaxZero(raw);
  }

  /** One normalised sample of non-negative raw samples lies in [0,1], and
      multiplying it back by the divisor gives the raw sample. */
  lemma NormalizedSampleWithin(raw: seq<real>, i: int)
    requires NonNegative(raw) && 0 <= i < |raw|
    ensures |Normalized(raw)| == |raw|
    ensures 0.0 <= Normalized(raw)[i] <= 1.0
    ensures Normalized(raw)[i] * Divisor(raw) == raw[i]
  {
    NormalizedAt(raw);
    MaxFromBounds(0.0, raw);
    DivideWithin(raw[i], Divisor(raw));
  }

  /** Every normalised value of non-negative raw samples lies in [0,1]. */
  lemma NormalizedInUnitRange(raw: seq<real>)
    requires NonNegative(raw)
    ensures |Normalized(raw)| == |raw|
    ensures InUnitRange(Normalized(raw))
  {
    NormalizedAt(raw);
    forall i | 0 <= i < |raw| ensures 0.0 <= Normalized(raw)[i] <= 1.0 {
      NormalizedSampleWithin(raw, i);
    }
  }

  /** Normalisation keeps the order of the samples. */
  lemma NormalizedMonotone(raw: seq<real>, i: int, j: int)
    requires NonNegative(raw)
    requires 0 <= i < |raw| && 0 <= j < |raw| && raw[i] <= raw[j]
    ensures Normalized(raw)[i] <= Normalized(raw)[j]
  {
    NormalizedAt(raw);
    DivideMonotone(raw[i], raw[j], Divisor(raw));
  }

  /** A normalised cut is all zero exactly when the raw cut is; otherwise its
      largest sample becomes exactly 1. */
  lemma NormalizedPeakOrZero(raw: seq<real>)
    requires NonNegative(raw)
    ensures AllZero(Normalized(raw)) <==> AllZero(raw)
    ensures HasPeak(Normalized(raw)) <==> !AllZero(raw)
  {
    var m := MaxFrom(0.0, raw);
    var out := Normalized(raw);
    NormalizedAt(raw);
    RunningMaxZero(raw);
    if AllZero(raw) {
      assert AllZero(out);
    } else {
      MaxFromAttained(0.0, raw);
      var k :| 0 <= k < |raw| && raw[k] == m;
      assert Divisor(raw) == m;
      DivideWithin(m, m);
      assert out[k] == 1.0;
    }
  }

  /** The invariant of every normalised cut (for non-negative raw samples). */
  lemma NormalizedIsCut(raw: seq<real>)
    requires NonNegative(raw)
    ensures |Normalized(raw)| == |raw|
    ensures IsNormalizedCut(Normalized(raw))
  {
    NormalizedAt(raw);
    NormalizedInUnitRange(raw);
    NormalizedPeakOrZero(raw);
  }

  /** A raw sample of 0 stays 0 after normalisation: the guarded and the
      cut-off samples of the builders survive it. */
  lemma NormalizedKeepsZero(raw: seq<real>, i: int)
    requires 0 <= i < |raw| && raw[i] == 0.0
    ensures |Normalized(raw)| == |raw| && Normalized(raw)[i] == 0.0
  {
  }

  /** The division loop `cut[a] = tmp[a] / max` of the builders. */
  method ScaleCut(tmp: seq<real>, d: real) returns (cut: seq<real>)
    requires d != 0.0
    ensures cut == Scaled(tmp, d)
  {
    cut := [];
    var a := 0;
    while a < |tmp|
      invariant 0 <= a <= |tmp|
      invariant cut == Scaled(tmp[..a], d)
    {
      cut := cut + [tmp[a] / d];
      a := a + 1;
    }
    assert tmp[..a] == tmp;
  }

  /** In-place division of a cut by its divisor (script.js:544-547). */
  method DivideInPlace(cut: array<real>, d: real)
    requires d != 0.0
    modifies cut
    ensures cut[..] == Scaled(old(cut[..]), d)
  {
    var a := 0;
    while a < cut.Length
      invariant 0 <= a <= cut.Length
      invariant forall k :: 0 <= k < a ==> cut[k] == old(cut[k]) / d
      invariant forall k :: a <= k < cut.Length ==> cut[k] == old(cut[k])
    {
      cut[a] := cut[a] / d;
      a := a + 1;
    }
  }
}
