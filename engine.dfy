/** Stand-ins for the values the Unity engine hands to the game scripts: optional
    references, 3-vectors, distances that may be Mathf.Infinity, single-precision
    limits, and the Mathf helpers the scripts call. Floats are modelled as reals. */
module Engine {

  /** A reference that may be null. */
  datatype Option<T> = None | Some(value: T)

  /** Opaque identities of engine objects (colliders, game objects, clips, ...). */
  type ObjectId = nat

  /** UnityEngine.Vector3. */
  datatype Vec3 = Vec3(x: real, y: real, z: real)

  /** Vector3.zero. */
  const Zero: Vec3 := Vec3(0.0, 0.0, 0.0)

  /** A distance as stored in an AITarget: finite, or Mathf.Infinity. */
  datatype Dist = Finite(value: real) | Infinity

  /** `d < bound` in single precision, where the bound may be +Infinity. */
  predicate Below(d: real, bound: Dist) {
    bound.Infinity? || d < bound.value
  }

  /** `a <= b` for distances that may be +Infinity. */
  predicate AtMost(a: Dist, b: Dist) {
    b.Infinity? || (a.Finite? && a.value <= b.value)
  }

  /** float.MaxValue and float.MinValue. */
  const FloatMax: real := 340282347000000000000000000000000000000.0
  const FloatMin: real := -FloatMax

  /** Mathf.Epsilon, the smallest positive single-precision value. */
  const FloatEpsilon: real := 0.000000000000000000000000000000000000000000001401298

  /** Mathf.Max. */
  function Max(a: real, b: real): (r: real)
    ensures r >= a && r >= b
    ensures r == a || r == b
  {
    if a > b then a else b
  }

  /** Mathf.Min. */
  function Min(a: real, b: real): (r: real)
    ensures r <= a && r <= b
    ensures r == a || r == b
  {
    if a < b then a else b
  }

  /** lo <= v <= hi; the range a float Random.Range(lo, hi) draws from. */
  predicate Within(v: real, lo: real, hi: real) {
    lo <= v <= hi
  }

  /** Mathf.Clamp01. */
  function Clamp01(v: real): (r: real)
    ensures 0.0 <= r <= 1.0
    ensures 0.0 <= v <= 1.0 ==> r == v
    ensures v < 0.0 ==> r == 0.0
    ensures v > 1.0 ==> r == 1.0
  {
    if v < 0.0 then 0.0 else if v > 1.0 then 1.0 else v
  }

  /** Mathf.Lerp: interpolates from a to b with the parameter clamped to [0, 1]. */
  function Lerp(a: real, b: real, t: real): (r: real)
    ensures Min(a, b) <= r <= Max(a, b)
    ensures t <= 0.0 ==> r == a
    ensures t >= 1.0 ==> r == b
  {
    var c := Clamp01(t);
    LerpBetween(a, b, c);
    a + (b - a) * c
  }

  /** The interpolated value lies between its two ends. */
  lemma LerpBetween(a: real, b: real, c: real)
    requires 0.0 <= c <= 1.0
    ensures Min(a, b) <= a + (b - a) * c <= Max(a, b)
  {
    var t := (b - a) * c;
    if a <= b {
      var d := b - a;
      ScaleDown(d, c);
      var dc := d * c;
      assert 0.0 <= dc <= d;
      assert t == dc;
      assert a <= a + t <= b;
    } else {
      var d := a - b;
      ScaleDown(d, c);
      var dc := d * c;
      assert 0.0 <= dc <= d;
      assert t == -dc;
      assert b <= a + t <= a;
    }
  }

  /** Scaling a non-negative value by a factor in [0, 1] keeps it between 0 and itself. */
  lemma ScaleDown(x: real, c: real)
    requires x >= 0.0 && 0.0 <= c <= 1.0
    ensures 0.0 <= x * c <= x
  {
    assert x - x * c == x * (1.0 - c);
  }

  /** The total time of a sequence of frame times, oldest first. */
  function Elapsed(dts: seq<real>): real
    decreases |dts|
  {
    if dts == [] then 0.0 else Elapsed(dts[..|dts| - 1]) + dts[|dts| - 1]
  }

  /** The product of two non-negative reals is non-negative. */
  lemma MulNonNegative(x: real, y: real)
    requires x >= 0.0 && y >= 0.0
    ensures x * y >= 0.0
  {
  }

  /** The product of two positive reals is positive. */
  lemma MulPositive(x: real, y: real)
    requires x > 0.0 && y > 0.0
    ensures x * y > 0.0
  {
  }

  /** Multiplication distributes over a sum. */
  lemma Distribute(a: real, b: real, c: real)
    ensures (a + b) * c == a * c + b * c
  {
  }
}
