/** The few JavaScript `Math` operations the script applies to exact values,
    and its `clamp01` helper (script.js:424). Numbers are exact reals: the
    model does not reproduce IEEE-754 rounding. */
module Numeric {

  /** `Math.PI`, as the decimal the script's engine prints for it. */
  const Pi: real := 3.141592653589793

  function Max(a: real, b: real): (m: real)
    ensures m >= a && m >= b
    ensures m == a || m == b
  {
    if a >= b then a else b
  }

  function Min(a: real, b: real): (m: real)
    ensures m <= a && m <= b
    ensures m == a || m == b
  {
    if a <= b then a else b
  }

  function Abs(x: real): (r: real)
    ensures r >= 0.0
    ensures r == x || r == -x
  {
    if x < 0.0 then -x else x
  }

  /** `Math.round`: the nearest integer, ties going towards +infinity. */
  function Round(x: real): (n: int)
    ensures n as real - 0.5 <= x < n as real + 0.5
  {
    (x + 0.5).Floor
  }

  lemma RoundMonotone(x: real, y: real)
    requires x <= y
    ensures Round(x) <= Round(y)
  {
  }

  /** `Math.round` of a value in [lo, hi] with integer bounds stays in [lo, hi]. */
  lemma RoundWithin(x: real, lo: int, hi: int)
    requires lo as real <= x <= hi as real
    ensures lo <= Round(x) <= hi
  {
  }

  /** A non-negative value scaled by a fraction in [0,1] stays between 0 and itself. */
  lemma MulFraction(f: real, s: real)
    requires f >= 0.0 && 0.0 <= s <= 1.0
    ensures 0.0 <= f * s <= f
  {
  }

  /** Dividing by a larger positive number gives a smaller result. */
  lemma DivideAntitone(x: real, d: real, e: real)
    requires x >= 0.0 && 0.0 < d <= e
    ensures 0.0 <= x / e <= x / d
  {
    assert x / e * e == x == x / d * d;
    assert x / e * d <= x / e * e;
  }

  lemma DivideStrictlyAntitone(x: real, d: real, e: real)
    requires x > 0.0 && 0.0 < d < e
    ensures x / e < x / d
  {
    assert x / e * e == x == x / d * d;
    assert x / e * d < x / e * e;
  }

  /** Dividing by a positive bound at least the value gives a fraction in [0,1]. */
  lemma DivideWithin(x: real, d: real)
    requires 0.0 <= x <= d && d > 0.0
    ensures 0.0 <= x / d <= 1.0
    ensures (x / d) * d == x
  {
  }

  lemma DivideMonotone(x: real, y: real, d: real)
    requires x <= y && d > 0.0
    ensures x / d <= y / d
  {
  }

  /** Multiplying by a positive number keeps the order, strictly or not. */
  lemma MulMonotone(f: real, g: real, m: real)
    requires m > 0.0
    ensures f <= g ==> f * m <= g * m
    ensures f < g ==> f * m < g * m
  {
  }

  /** When `q` is the whole part of `x / m`, what is left of `x` after taking
      `q` times `m` lies in [0, m). */
  lemma RemainderBounds(x: real, m: real, q: real)
    requires m > 0.0 && q <= x / m < q + 1.0
    ensures 0.0 <= x - m * q < m
  {
    var f := x / m;
    MulMonotone(q, f, m);
    MulMonotone(f, q + 1.0, m);
    assert f * m == x;
    assert q * m <= x < (q + 1.0) * m;
    assert (q + 1.0) * m == q * m + m;
  }

  /** Truncation towards zero, as JavaScript's `%` uses it. */
  function Trunc(x: real): (n: int)
    ensures Abs(n as real) <= Abs(x) < Abs(n as real) + 1.0
    ensures x >= 0.0 ==> n >= 0
    ensures x <= 0.0 ==> n <= 0
  {
    if x >= 0.0 then x.Floor else -((-x).Floor)
  }

  /** JavaScript's remainder `x % m`: for a non-negative dividend and a
      positive modulus it lies in [0, m), and `x` is a whole number of `m`
      away from it. */
  function JsRem(x: real, m: real): (r: real)
    requires m != 0.0
    ensures x >= 0.0 && m > 0.0 ==> 0.0 <= r < m
    ensures x - r == m * (Trunc(x / m) as real)
  {
    var q := Trunc(x / m) as real;
    assert x >= 0.0 && m > 0.0 ==> 0.0 <= x - m * q < m by {
      if x >= 0.0 && m > 0.0 {
        RemainderBounds(x, m, q);
      }
    }
    x - m * q
  }

  /** `clamp01(x) = Math.max(0, Math.min(1, x))` (script.js:424). */
  function Clamp01(x: real): (r: real)
    ensures 0.0 <= r <= 1.0
    ensures 0.0 <= x <= 1.0 ==> r == x
    ensures x < 0.0 ==> r == 0.0
    ensures x > 1.0 ==> r == 1.0
  {
    Max(0.0, Min(1.0, x))
  }

  lemma Clamp01Idempotent(x: real)
    ensures Clamp01(Clamp01(x)) == Clamp01(x)
  {
  }

  lemma Clamp01Monotone(x: real, y: real)
    requires x <= y
    ensures Clamp01(x) <= Clamp01(y)
  {
  }
}
