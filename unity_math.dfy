/**
 * Vector values and the engine math helpers the behaviours call: Vector3
 * addition, Vector3.Lerp, Mathf.Clamp01 and Mathf.Clamp, as the engine
 * documents them. Coordinates are exact reals, not single-precision floats.
 */
module UnityMath {

  datatype Vec2 = Vec2(x: real, y: real)

  datatype Vec3 = Vec3(x: real, y: real, z: real)

  /** Vector3 + Vector3, component by component. */
  function Add(a: Vec3, b: Vec3): Vec3 {
    Vec3(a.x + b.x, a.y + b.y, a.z + b.z)
  }

  function Abs(v: real): real {
    if v < 0.0 then -v else v
  }

  /** v lies on the closed segment between a and b, whichever of the two is smaller. */
  predicate Between(a: real, b: real, v: real) {
    (a <= v <= b) || (b <= v <= a)
  }

  /** Mathf.Clamp01: below 0 gives 0, above 1 gives 1, otherwise the value itself. */
  function Clamp01(t: real): (r: real)
    ensures 0.0 <= r <= 1.0
    ensures 0.0 <= t <= 1.0 ==> r == t
    ensures t >= 1.0 ==> r == 1.0
    ensures t <= 0.0 ==> r == 0.0
  {
    if t < 0.0 then 0.0 else if t > 1.0 then 1.0 else t
  }

  /** Mathf.Clamp: below min gives min, otherwise above max gives max. */
  function Clamp(v: real, min: real, max: real): (r: real)
    ensures min <= max ==> min <= r <= max
    ensures min <= v <= max ==> r == v
    ensures v < min ==> r == min
    ensures v >= min && v > max ==> r == max
    ensures r == v || r == min || r == max
  {
    if v < min then min else if v > max then max else v
  }

  /** Clamping twice is clamping once, whenever the interval is not empty. */
  lemma ClampIdempotent(v: real, min: real, max: real)
    requires min <= max
    ensures Clamp(Clamp(v, min, max), min, max) == Clamp(v, min, max)
  {
  }

  /**
   * The per-component formula of Vector3.Lerp, from + (to - from) * t, with
   * t not yet clamped. What remains of the way to `to` is the fraction 1 - t
   * of the whole way.
   */
  function Interpolate(from: real, to: real, t: real): (r: real)
    ensures t == 0.0 ==> r == from
    ensures t == 1.0 ==> r == to
    ensures 0.0 <= t <= 1.0 ==> Between(from, to, r)
    ensures to - r == (to - from) * (1.0 - t)
  {
    ScaledStaysBetween(to - from, t);
    from + (to - from) * t
  }

  /** 0 <= d * t <= d, or the mirror image for a negative d, when t is in [0, 1]. */
  lemma ScaledStaysBetween(d: real, t: real)
    ensures 0.0 <= t <= 1.0 ==> Between(0.0, d, d * t)
  {
  }

  /**
   * Vector3.Lerp(a, b, t): t is clamped to [0, 1] first, so the result always
   * lies on the segment from a to b, is a itself for t <= 0 and b itself for
   * t >= 1.
   */
  function Lerp(a: Vec3, b: Vec3, t: real): (r: Vec3)
    ensures t <= 0.0 ==> r == a
    ensures t >= 1.0 ==> r == b
    ensures Between(a.x, b.x, r.x) && Between(a.y, b.y, r.y) && Between(a.z, b.z, r.z)
    ensures r.x == Interpolate(a.x, b.x, Clamp01(t))
    ensures r.y == Interpolate(a.y, b.y, Clamp01(t))
    ensures r.z == Interpolate(a.z, b.z, Clamp01(t))
  {
    var c := Clamp01(t);
    Vec3(Interpolate(a.x, b.x, c), Interpolate(a.y, b.y, c), Interpolate(a.z, b.z, c))
  }

  /** With a larger interpolation parameter the result is no farther from the goal. */
  lemma InterpolateApproaches(from: real, to: real, t1: real, t2: real)
    requires 0.0 <= t1 <= t2 <= 1.0
    ensures Abs(to - Interpolate(from, to, t2)) <= Abs(to - Interpolate(from, to, t1))
  {
    var d := to - from;
    assert to - Interpolate(from, to, t1) == d * (1.0 - t1);
    assert to - Interpolate(from, to, t2) == d * (1.0 - t2);
    assert d * (1.0 - t1) - d * (1.0 - t2) == d * (t2 - t1);
    if d >= 0.0 {
      assert d * (t2 - t1) >= 0.0;
      assert d * (1.0 - t2) >= 0.0;
    } else {
      assert (-d) * (t2 - t1) >= 0.0;
      assert (-d) * (1.0 - t2) >= 0.0;
    }
  }

  /**
   * Lerp moves monotonically towards its goal: on every axis, a larger t
   * leaves the result no farther from b.
   */
  lemma LerpApproaches(a: Vec3, b: Vec3, t1: real, t2: real)
    requires t1 <= t2
    ensures Abs(b.x - Lerp(a, b, t2).x) <= Abs(b.x - Lerp(a, b, t1).x)
    ensures Abs(b.y - Lerp(a, b, t2).y) <= Abs(b.y - Lerp(a, b, t1).y)
    ensures Abs(b.z - Lerp(a, b, t2).z) <= Abs(b.z - Lerp(a, b, t1).z)
  {
    var c1, c2 := Clamp01(t1), Clamp01(t2);
    InterpolateApproaches(a.x, b.x, c1, c2);
    InterpolateApproaches(a.y, b.y, c1, c2);
    InterpolateApproaches(a.z, b.z, c1, c2);
  }
}
