/**
 * The turret-aiming step at the end of drawScene (updateAimFromMouse). The pointer ray is
 * taken as given: its origin is the unprojected near-plane point and its direction the
 * normalised near-to-far vector; None stands for a view-projection matrix that could not be
 * inverted, in which case the step does nothing at all. The ray is intersected with the
 * ground plane y = 0 to move the aim point, and the turret is turned to face it.
 */
module Aiming {
  import opened Wrappers
  import opened Numeric
  import opened Constants
  import opened Angles

  /** A pointer ray. */
  datatype Ray = Ray(origin: Vec3, dir: Vec3)

  /** The point of the ray at parameter `t` (vec3.scaleAndAdd). */
  function At(r: Ray, t: real): Vec3 {
    Vec3(r.origin.x + r.dir.x * t, r.origin.y + r.dir.y * t, r.origin.z + r.dir.z * t)
  }

  /**
   * Where the ray meets the ground plane in front of its origin: only when the ray is not
   * within GROUND_EPS of horizontal and the crossing parameter is positive.
   */
  function GroundHit(r: Ray): (hit: Option<Vec3>)
    ensures hit.Some? ==> hit.value.y == 0.0
    ensures hit.Some? ==> Abs(r.dir.y) > GROUND_EPS
  {
    if Abs(r.dir.y) > GROUND_EPS then
      var t := -r.origin.y / r.dir.y;
      assert r.dir.y * t == -r.origin.y;
      if t > 0.0 then Some(At(r, t)) else None
    else None
  }

  /**
   * Any point of the ray strictly in front of the origin that lies on the ground is the hit,
   * provided the ray is steep enough; so the hit is the ray's unique ground crossing.
   */
  lemma GroundHitUnique(r: Ray, t: real)
    requires Abs(r.dir.y) > GROUND_EPS && 0.0 < t && At(r, t).y == 0.0
    ensures GroundHit(r) == Some(At(r, t))
  {
    assert r.dir.y * t == -r.origin.y;
    assert t == -r.origin.y / r.dir.y;
  }

  /**
   * Seen from above the ground, the ray hits it exactly when it points down more steeply
   * than GROUND_EPS; and every hit is a point of the ray ahead of the origin.
   */
  lemma GroundHitFromAbove(r: Ray)
    requires 0.0 < r.origin.y
    ensures GroundHit(r).Some? <==> r.dir.y < -GROUND_EPS
    ensures GroundHit(r).Some? ==> exists t :: 0.0 < t && GroundHit(r).value == At(r, t)
  {
    if Abs(r.dir.y) > GROUND_EPS {
      var t := -r.origin.y / r.dir.y;
      assert r.dir.y * t == -r.origin.y;
      if r.dir.y < 0.0 {
        assert 0.0 < t;
      } else {
        assert t < 0.0;
      }
    }
  }

  /** The turret offset that points the turret at `aim` from a tank at `tank` with body heading `heading`. */
  function TurretYaw(m: MathLib, aim: Vec3, tank: Vec3, heading: real): real {
    var desiredYaw := m.atan2(-(aim.x - tank.x), -(aim.z - tank.z));
    Wrap(desiredYaw - heading)
  }

  /**
   * The offset turns the body heading into the desired world yaw up to a whole turn, and
   * while the body heading stays within one turn (2 PI) of zero the offset lies in [-PI, PI].
   * The body heading itself is never reduced, so the range needs that precondition.
   */
  lemma TurretYawSound(m: MathLib, aim: Vec3, tank: Vec3, heading: real)
    requires Atan2InRange(m) && -2.0 * PI <= heading <= 2.0 * PI
    ensures var desiredYaw := m.atan2(-(aim.x - tank.x), -(aim.z - tank.z));
      var r := TurretYaw(m, aim, tank, heading);
      && -PI <= r <= PI
      && (heading + r == desiredYaw || heading + r == desiredYaw - 2.0 * PI || heading + r == desiredYaw + 2.0 * PI)
  {
    var desiredYaw := m.atan2(-(aim.x - tank.x), -(aim.z - tank.z));
    assert -PI <= desiredYaw <= PI;
  }

  /** The whole step: the new aim point and turret offset. */
  function AimStep(m: MathLib, ray: Option<Ray>, aim: Vec3, tank: Vec3, heading: real, turret: real): (Vec3, real) {
    match ray
    case None => (aim, turret)
    case Some(r) =>
      var aim' := match GroundHit(r) case Some(p) => p case None => aim;
      (aim', TurretYaw(m, aim', tank, heading))
  }

  /**
   * The aim point either stays or moves to a point on the ground, so an aim point on the
   * ground stays on the ground; without a ray nothing changes; with one, the turret faces
   * the new aim point.
   */
  lemma AimStepSound(m: MathLib, ray: Option<Ray>, aim: Vec3, tank: Vec3, heading: real, turret: real)
    ensures var r := AimStep(m, ray, aim, tank, heading, turret);
      && (r.0 == aim || r.0.y == 0.0)
      && (aim.y == 0.0 ==> r.0.y == 0.0)
      && (ray.None? ==> r == (aim, turret))
      && (ray.Some? ==> r.1 == TurretYaw(m, r.0, tank, heading))
      && (ray.Some? && GroundHit(ray.value).None? ==> r.0 == aim)
  {
  }

  /** updateAimFromMouse, writing the aim point and the turret offset as the source does. */
  method UpdateAim(m: MathLib, ray: Option<Ray>, aim: Vec3, tank: Vec3, heading: real, turret: real)
    returns (aim': Vec3, turret': real)
    ensures (aim', turret') == AimStep(m, ray, aim, tank, heading, turret)
  {
    aim', turret' := aim, turret;
    if ray.None? {
      return;
    }
    var r := ray.value;
    if Abs(r.dir.y) > GROUND_EPS {
      var t := -r.origin.y / r.dir.y;
      if t > 0.0 {
        aim' := Vec3(r.origin.x + r.dir.x * t, r.origin.y + r.dir.y * t, r.origin.z + r.dir.z * t);
      }
    }
    assert aim' == match GroundHit(r) case Some(p) => p case None => aim;
    var dx := aim'.x - tank.x;
    var dz := aim'.z - tank.z;
    var desiredYaw := m.atan2(-dx, -dz);
    turret' := desiredYaw - heading;
    if turret' > PI {
      turret' := turret' - 2.0 * PI;
    }
    if turret' < -PI {
      turret' := turret' + 2.0 * PI;
    }
    assert turret' == TurretYaw(m, aim', tank, heading);
  }
}
