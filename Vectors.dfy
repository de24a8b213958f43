/** Three-component vectors over the reals, standing for the vectors the
    playground builds with its renderer's vector type. Lengths need a square
    root, which Dafny cannot compute: every operation that uses a length takes
    it as an argument `len`, and the lemmas about such an operation assume
    IsLength(len, v). */
module Vectors {

  datatype Vec3 = Vec3(x: real, y: real, z: real)

  const Zero := Vec3(0.0, 0.0, 0.0)
  const One := Vec3(1.0, 1.0, 1.0)

  function Add(a: Vec3, b: Vec3): Vec3 {
    Vec3(a.x + b.x, a.y + b.y, a.z + b.z)
  }

  function Sub(a: Vec3, b: Vec3): Vec3 {
    Vec3(a.x - b.x, a.y - b.y, a.z - b.z)
  }

  function Scale(a: Vec3, k: real): Vec3 {
    Vec3(a.x * k, a.y * k, a.z * k)
  }

  /** The squared Euclidean length. */
  function LenSq(a: Vec3): real {
    a.x * a.x + a.y * a.y + a.z * a.z
  }

  /** `len` is the Euclidean length of `v`. */
  predicate IsLength(len: real, v: Vec3) {
    len >= 0.0 && len * len == LenSq(v)
  }

  function Min(a: real, b: real): real { if a <= b then a else b }
  function Max(a: real, b: real): real { if a >= b then a else b }
  function Abs(a: real): real { if a >= 0.0 then a else -a }

  /** Linear interpolation of every component from `a` toward `b` by `t`,
      as the renderer's in-place `lerp` does. */
  function Lerp(a: Vec3, b: Vec3, t: real): (r: Vec3)
    ensures Sub(r, b) == Scale(Sub(a, b), 1.0 - t)
  {
    Vec3(a.x + (b.x - a.x) * t, a.y + (b.y - a.y) * t, a.z + (b.z - a.z) * t)
  }

  /** Scaling a vector scales its squared length by the square of the factor. */
  lemma LenSqScale(a: Vec3, k: real)
    ensures LenSq(Scale(a, k)) == k * k * LenSq(a)
  {
    calc {
      LenSq(Scale(a, k));
      (a.x * k) * (a.x * k) + (a.y * k) * (a.y * k) + (a.z * k) * (a.z * k);
      k * k * (a.x * a.x) + k * k * (a.y * a.y) + k * k * (a.z * a.z);
    }
  }

  lemma DivThenMul(m: real, d: real)
    requires d != 0.0
    ensures (m / d) * d == m
  {
  }

  lemma SquareOfProduct(c: real, t: real, len: real)
    requires t == len * len
    ensures c * c * t == (c * len) * (c * len)
  {
  }

  /** Scaling a vector of length `len` > 0 by `m / len` gives a vector of
      length `m`. */
  lemma ScaleToLength(v: Vec3, len: real, m: real)
    requires IsLength(len, v) && len > 0.0 && m >= 0.0
    ensures IsLength(m, Scale(v, m / len))
  {
    var c := m / len;
    LenSqScale(v, c);
    SquareOfProduct(c, LenSq(v), len);
    DivThenMul(m, len);
  }

  lemma SquareMonotone(a: real, b: real)
    requires 0.0 <= a < b
    ensures a * a < b * b
  {
    ProductPositive(b - a, b + a);
    assert (b - a) * (b + a) == b * b - a * a;
  }

  /** A vector no longer than `cap` has squared length at most cap * cap. */
  lemma LengthBound(v: Vec3, m: real, cap: real)
    requires IsLength(m, v) && m <= cap
    ensures LenSq(v) <= cap * cap
  {
    if m < cap {
      SquareMonotone(m, cap);
    }
  }

  lemma ProductPositive(a: real, b: real)
    requires a > 0.0 && b > 0.0
    ensures a * b > 0.0
  {
  }

  /** The renderer's `normalize` for a vector of length `len`: divide by
      the length, or by 1 when the length is 0. */
  function Normalize(v: Vec3, len: real): Vec3 {
    Scale(v, 1.0 / (if len == 0.0 then 1.0 else len))
  }

  /** A non-zero vector normalises to the unit vector along itself; the
      zero vector is left as it is. */
  lemma NormalizeSpec(v: Vec3, len: real)
    requires IsLength(len, v)
    ensures len > 0.0 ==> IsLength(1.0, Normalize(v, len)) && Normalize(v, len) == Scale(v, 1.0 / len)
    ensures len == 0.0 ==> Normalize(v, len) == v
  {
    if len > 0.0 {
      ScaleToLength(v, len, 1.0);
    }
  }

  /** The renderer's `clampLength(0, maxLen)` for a vector of length `len`:
      divide by the length (or by 1 when it is 0), then multiply by the
      length clamped into [0, maxLen]. */
  function ClampLength(v: Vec3, len: real, maxLen: real): Vec3 {
    Scale(Normalize(v, len), Max(0.0, Min(maxLen, len)))
  }

  /** A vector no longer than `maxLen` comes back unchanged; a longer one is
      scaled down along its own direction to length exactly `maxLen`; the
      result is never longer than `maxLen`. */
  lemma ClampLengthSpec(v: Vec3, len: real, maxLen: real)
    requires IsLength(len, v) && maxLen >= 0.0
    ensures IsLength(Min(len, maxLen), ClampLength(v, len, maxLen))
    ensures 0.0 < len <= maxLen ==> ClampLength(v, len, maxLen) == v
    ensures len == 0.0 ==> ClampLength(v, len, maxLen) == Zero
    ensures len > maxLen ==> ClampLength(v, len, maxLen) == Scale(v, maxLen / len)
  {
    var k := Max(0.0, Min(maxLen, len));
    assert k == Min(len, maxLen);
    if len == 0.0 {
      assert k == 0.0;
      assert ClampLength(v, len, maxLen) == Zero;
    } else {
      ClampScaled(v, len, k);
    }
  }

  lemma ClampScaled(v: Vec3, len: real, k: real)
    requires IsLength(len, v) && len > 0.0 && k >= 0.0
    ensures Scale(Scale(v, 1.0 / len), k) == Scale(v, k / len)
    ensures IsLength(k, Scale(v, k / len))
    ensures k == len ==> Scale(v, k / len) == v
  {
    var c := k / len;
    assert (v.x * (1.0 / len)) * k == v.x * c;
    assert (v.y * (1.0 / len)) * k == v.y * c;
    assert (v.z * (1.0 / len)) * k == v.z * c;
    ScaleToLength(v, len, k);
    if k == len {
      assert c == 1.0;
    }
  }
}
