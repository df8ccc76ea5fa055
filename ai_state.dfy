/** The static helpers of the AIState base class: converting a sphere collider to
    world space and signing an angle between two vectors. */
module AIState {
  import opened Engine

  /** A SphereCollider as the conversion reads it: its transform's position and
      lossy scale, and the collider's local center and radius. */
  datatype SphereCollider = SphereCollider(position: Vec3, center: Vec3, lossyScale: Vec3, radius: real)

  /** The two out-parameters of ConvertSphereColliderToWorldSpace. */
  datatype WorldSphere = WorldSphere(position: Vec3, radius: real)

  /** A null collider yields the zero position and radius 0. Otherwise every axis of the
      position is offset by the center scaled on that axis, and the radius is the largest
      of the radius scaled on each axis. */
  function ConvertSphereColliderToWorldSpace(col: Option<SphereCollider>): (r: WorldSphere)
    ensures col.None? ==> r == WorldSphere(Zero, 0.0)
    ensures col.Some? ==>
      var c := col.value;
      && r.position.x == c.position.x + c.center.x * c.lossyScale.x
      && r.position.y == c.position.y + c.center.y * c.lossyScale.y
      && r.position.z == c.position.z + c.center.z * c.lossyScale.z
    ensures col.Some? ==>
      var c := col.value;
      && r.radius >= c.radius * c.lossyScale.x
      && r.radius >= c.radius * c.lossyScale.y
      && r.radius >= c.radius * c.lossyScale.z
      && (r.radius == c.radius * c.lossyScale.x
          || r.radius == c.radius * c.lossyScale.y
          || r.radius == c.radius * c.lossyScale.z)
  {
    match col
    case None => WorldSphere(Zero, 0.0)
    case Some(c) =>
      var p := Vec3(c.position.x + c.center.x * c.lossyScale.x,
                    c.position.y + c.center.y * c.lossyScale.y,
                    c.position.z + c.center.z * c.lossyScale.z);
      var radius := Max(c.radius * c.lossyScale.x, c.radius * c.lossyScale.y);
      WorldSphere(p, Max(radius, c.radius * c.lossyScale.z))
  }

  /** A uniformly scaled sphere keeps its radius scaled by that factor. */
  lemma UniformScaleRadius(c: SphereCollider, s: real)
    requires c.lossyScale == Vec3(s, s, s)
    ensures ConvertSphereColliderToWorldSpace(Some(c)).radius == c.radius * s
  {
  }

  /** Mathf.Sign: 1 for zero and positive values, -1 for negative ones. */
  function Sign(f: real): (r: real)
    ensures r == 1.0 || r == -1.0
    ensures r == 1.0 <==> f >= 0.0
  {
    if f >= 0.0 then 1.0 else -1.0
  }

  /** The y component of Vector3.Cross(a, b). */
  function CrossY(a: Vec3, b: Vec3): real {
    a.z * b.x - a.x * b.z
  }

  /** FindSignedAngle. `angle` is Vector3.Angle(from, to), an engine value in [0, 180];
      the result carries that magnitude, negated when the cross product points down.
      Equal vectors give 0. */
  function FindSignedAngle(from: Vec3, to: Vec3, angle: real): (r: real)
    requires 0.0 <= angle <= 180.0
    ensures from == to ==> r == 0.0
    ensures -180.0 <= r <= 180.0
    ensures from != to ==> (r == angle || r == -angle)
    ensures from != to && angle > 0.0 ==> (r < 0.0 <==> CrossY(from, to) < 0.0)
  {
    if from == to then 0.0
    else angle * Sign(CrossY(from, to))
  }

  /** Swapping the vectors flips the sign of the angle, unless they are parallel in the
      horizontal plane (a zero cross product counts as positive for both orders). */
  lemma FindSignedAngleAntisymmetric(from: Vec3, to: Vec3, angle: real)
    requires 0.0 <= angle <= 180.0
    requires from != to && CrossY(from, to) != 0.0
    ensures FindSignedAngle(to, from, angle) == -FindSignedAngle(from, to, angle)
  {
    assert CrossY(to, from) == -CrossY(from, to);
  }
}
