/**
  The part of the engine's math library that the calibration code relies on:
  a three-component vector over the reals and the scalar helpers of `Mathf`
  and `Vector3` with the engine's own clamping conventions; and the optional
  reference the components use for fields that may be unassigned.

  Floats are modelled as exact reals; IEEE rounding is not modelled.
 */
module UnityMath {

  /** An object reference that may be null (or a destroyed object). */
  datatype Option<T> = None | Some(value: T)

  /** A `Vector3`: three real components. */
  datatype Vec3 = Vec3(x: real, y: real, z: real)

  const Zero: Vec3 := Vec3(0.0, 0.0, 0.0)

  function Add(a: Vec3, b: Vec3): Vec3 {
    Vec3(a.x + b.x, a.y + b.y, a.z + b.z)
  }

  function Neg(a: Vec3): Vec3 {
    Vec3(-a.x, -a.y, -a.z)
  }

  function Sub(a: Vec3, b: Vec3): Vec3 {
    Vec3(a.x - b.x, a.y - b.y, a.z - b.z)
  }

  /** Squared Euclidean distance; `Vector3.Distance(a, b) < d` is decided on it (see `WithinDistance`). */
  function SqrDistance(a: Vec3, b: Vec3): real {
    (a.x - b.x) * (a.x - b.x) + (a.y - b.y) * (a.y - b.y) + (a.z - b.z) * (a.z - b.z)
  }

  /**
    `Vector3.Distance(a, b) < d`. The distance is a non-negative square root,
    so it is below `d` exactly when `d` is positive and its square is below `d * d`.
   */
  predicate WithinDistance(a: Vec3, b: Vec3, d: real) {
    d > 0.0 && SqrDistance(a, b) < d * d
  }

  /** `Mathf.Min(a, b)`. */
  function Min(a: real, b: real): (r: real)
    ensures r <= a && r <= b && (r == a || r == b)
  {
    if a < b then a else b
  }

  /** `Mathf.Max(a, b)`. */
  function Max(a: real, b: real): (r: real)
    ensures r >= a && r >= b && (r == a || r == b)
  {
    if a > b then a else b
  }

  /** `Mathf.Clamp(value, min, max)`: the lower bound is tested first. */
  function Clamp(value: real, min: real, max: real): (r: real)
    ensures min <= max ==> min <= r <= max
    ensures min <= value <= max ==> r == value
  {
    if value < min then min else if value > max then max else value
  }

  /** `Mathf.Clamp01(value)`. */
  function Clamp01(value: real): (r: real)
    ensures 0.0 <= r <= 1.0
    ensures 0.0 <= value <= 1.0 ==> r == value
  {
    if value < 0.0 then 0.0 else if value > 1.0 then 1.0 else value
  }

  /** `Mathf.InverseLerp(a, b, value)`: clamped to [0,1], and 0 when the bounds coincide. */
  function InverseLerp(a: real, b: real, value: real): (r: real)
    ensures 0.0 <= r <= 1.0
    ensures a == b ==> r == 0.0
  {
    if a != b then Clamp01((value - a) / (b - a)) else 0.0
  }

  /** `Mathf.Lerp(a, b, t)`: `t` is clamped to [0,1] first. */
  function Lerp(a: real, b: real, t: real): real {
    a + (b - a) * Clamp01(t)
  }

  /** `Vector3.Lerp(a, b, t)`: component-wise, with one clamped `t`. */
  function LerpVec(a: Vec3, b: Vec3, t: real): Vec3 {
    Vec3(Lerp(a.x, b.x, t), Lerp(a.y, b.y, t), Lerp(a.z, b.z, t))
  }

  /** `Vector3.Min(a, b)`. */
  function MinVec(a: Vec3, b: Vec3): Vec3 {
    Vec3(Min(a.x, b.x), Min(a.y, b.y), Min(a.z, b.z))
  }

  /** `Vector3.Max(a, b)`. */
  function MaxVec(a: Vec3, b: Vec3): Vec3 {
    Vec3(Max(a.x, b.x), Max(a.y, b.y), Max(a.z, b.z))
  }

  /** Component-wise `lo <= p <= hi`. */
  predicate InBox(p: Vec3, lo: Vec3, hi: Vec3) {
    lo.x <= p.x <= hi.x && lo.y <= p.y <= hi.y && lo.z <= p.z <= hi.z
  }

  /** Component-wise `a <= b`. */
  predicate LessEq(a: Vec3, b: Vec3) {
    a.x <= b.x && a.y <= b.y && a.z <= b.z
  }

  // ---------------------------------------------------------------------------
  // Real-arithmetic steps the solver does not take on its own

  lemma MulNonneg(p: real, q: real)
    requires p >= 0.0 && q >= 0.0
    ensures p * q >= 0.0
  {
  }

  lemma MulDiv(p: real, q: real)
    requires q != 0.0
    ensures (q * p) / q == p
  {
  }

  lemma DivMul(p: real, q: real)
    requires q != 0.0
    ensures (p / q) * q == p
  {
  }

  lemma DivBounds(p: real, q: real)
    requires q > 0.0
    ensures p < 0.0 ==> p / q < 0.0
    ensures 0.0 <= p <= q ==> 0.0 <= p / q <= 1.0
    ensures p > q ==> p / q > 1.0
  {
  }

  // ---------------------------------------------------------------------------
  // Lerp and InverseLerp

  /** A lerp never leaves the interval spanned by its end points. */
  lemma LerpBetween(a: real, b: real, t: real)
    ensures Min(a, b) <= Lerp(a, b, t) <= Max(a, b)
  {
    var c := Clamp01(t);
    if a <= b {
      MulNonneg(b - a, c);
      MulNonneg(b - a, 1.0 - c);
    } else {
      MulNonneg(a - b, c);
      MulNonneg(a - b, 1.0 - c);
    }
  }

  /** At the clamped ends a lerp returns its end points. */
  lemma LerpEnds(a: real, b: real)
    ensures Lerp(a, b, 0.0) == a && Lerp(a, b, 1.0) == b
  {
  }

  /** Component-wise form of `LerpEnds`. */
  lemma LerpVecEnds(a: Vec3, b: Vec3)
    ensures LerpVec(a, b, 0.0) == a && LerpVec(a, b, 1.0) == b
  {
    LerpEnds(a.x, b.x);
    LerpEnds(a.y, b.y);
    LerpEnds(a.z, b.z);
  }

  /** Component-wise form of `LerpBetween`: the lerp of two points in a box stays in the box. */
  lemma LerpVecInBox(a: Vec3, b: Vec3, t: real, lo: Vec3, hi: Vec3)
    requires InBox(a, lo, hi) && InBox(b, lo, hi)
    ensures InBox(LerpVec(a, b, t), lo, hi)
  {
    LerpBetween(a.x, b.x, t);
    LerpBetween(a.y, b.y, t);
    LerpBetween(a.z, b.z, t);
  }

  /** `InverseLerp` undoes `Lerp` over distinct bounds, up to the clamping of `t`. */
  lemma InverseLerpOfLerp(a: real, b: real, t: real)
    requires a != b
    ensures InverseLerp(a, b, Lerp(a, b, t)) == Clamp01(t)
  {
    var c := Clamp01(t);
    assert Lerp(a, b, t) - a == (b - a) * c;
    MulDiv(c, b - a);
    assert (Lerp(a, b, t) - a) / (b - a) == c;
  }

  /** `Lerp` undoes `InverseLerp` over increasing bounds, up to the clamping of the value. */
  lemma LerpOfInverseLerp(a: real, b: real, v: real)
    requires a < b
    ensures Lerp(a, b, InverseLerp(a, b, v)) == Clamp(v, a, b)
  {
    DivBounds(v - a, b - a);
    if a <= v <= b {
      DivMul(v - a, b - a);
    }
  }
}
