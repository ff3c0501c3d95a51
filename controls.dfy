/**
 * What the player's inputs do, as values: driving forward or back (W and S in handleKeyDown),
 * the shell a shot fires (Space, and a mouse click), and the per-tick decay of the
 * invincibility timer at the top of the bullet section of drawScene. The class in
 * Simulation performs them on the game state.
 */
module Controls {
  import opened Wrappers
  import opened Numeric
  import opened Constants
  import opened Terrain
  import opened Entities

  /** The point `step` units along `heading` from `tank`, at the tank's current height. */
  function DriveTarget(m: MathLib, tank: Vec3, heading: real, step: real): Vec3 {
    Vec3(tank.x + m.sin(heading) * step, tank.y, tank.z + m.cos(heading) * step)
  }

  /** A tentative position the player may move to: no mountain blocks it and no enemy is too close. */
  predicate DriveAllowed(obs: seq<Obstacle>, enemies: seq<Enemy>, c: Vec3) {
    !Blocked(obs, c) && !EnemyNear(c, enemies, None)
  }

  /**
   * A W (step MOVE_SPEED) or S (step -MOVE_SPEED) press: the move is taken only if allowed,
   * and the height is then refreshed from the terrain either way.
   */
  function Drive(m: MathLib, obs: seq<Obstacle>, enemies: seq<Enemy>, tank: Vec3, heading: real, step: real): Vec3
    requires WellFormed(obs)
  {
    var c := DriveTarget(m, tank, heading, step);
    var x := if DriveAllowed(obs, enemies, c) then c.x else tank.x;
    var z := if DriveAllowed(obs, enemies, c) then c.z else tank.z;
    Vec3(x, Elevation(m, obs, x, z), z)
  }

  /**
   * After a drive the tank rests on the terrain; it moved to the point `step` ahead exactly
   * when no mountain blocks and no enemy crowds that point, and otherwise kept its x and z;
   * and a tank that was clear of mountains and enemies stays clear.
   */
  lemma DriveSound(m: MathLib, obs: seq<Obstacle>, enemies: seq<Enemy>, tank: Vec3, heading: real, step: real)
    requires WellFormed(obs)
    ensures var r := Drive(m, obs, enemies, tank, heading, step);
      var c := DriveTarget(m, tank, heading, step);
      && r.y == Elevation(m, obs, r.x, r.z)
      && (DriveAllowed(obs, enemies, c) ==> r.x == c.x && r.z == c.z)
      && (!DriveAllowed(obs, enemies, c) ==> r.x == tank.x && r.z == tank.z)
      && ((r.x == tank.x && r.z == tank.z) || (!Blocked(obs, r) && !EnemyNear(r, enemies, None)))
      && (!Blocked(obs, tank) ==> !Blocked(obs, r))
      && (!EnemyNear(tank, enemies, None) ==> !EnemyNear(r, enemies, None))
  {
    var c := DriveTarget(m, tank, heading, step);
    var r := Drive(m, obs, enemies, tank, heading, step);
    if DriveAllowed(obs, enemies, c) {
      BlockedIgnoresHeight(obs, c, r);
      EnemyNearIgnoresHeight(c, r, enemies, None);
    } else {
      BlockedIgnoresHeight(obs, tank, r);
      EnemyNearIgnoresHeight(tank, r, enemies, None);
    }
  }

  /** A displacement of `step` along a unit direction (s, k) has squared length step * step. */
  lemma StepLength(s: real, k: real, step: real, dx: real, dz: real)
    requires s * s + k * k == 1.0 && dx == s * step && dz == k * step
    ensures dx * dx + dz * dz == step * step
  {
    calc {
      dx * dx + dz * dz;
      (s * step) * (s * step) + (k * step) * (k * step);
      (s * s + k * k) * (step * step);
      step * step;
    }
  }

  /**
   * Where sin and cos satisfy the Pythagorean identity, a drive either leaves x and z alone
   * or covers exactly |step| horizontally.
   */
  lemma DriveLength(m: MathLib, obs: seq<Obstacle>, enemies: seq<Enemy>, tank: Vec3, heading: real, step: real)
    requires WellFormed(obs) && TrigSound(m)
    ensures var r := Drive(m, obs, enemies, tank, heading, step);
      Dist2(r, tank) == 0.0 || Dist2(r, tank) == step * step
  {
    var r := Drive(m, obs, enemies, tank, heading, step);
    if DriveAllowed(obs, enemies, DriveTarget(m, tank, heading, step)) {
      assert m.sin(heading) * m.sin(heading) + m.cos(heading) * m.cos(heading) == 1.0;
      StepLength(m.sin(heading), m.cos(heading), step, r.x - tank.x, r.z - tank.z);
    } else {
      assert r.x - tank.x == 0.0 && r.z - tank.z == 0.0;
    }
  }

  /**
   * The shell the player fires toward `aim`: the horizontal offset to the aim point with a
   * fixed rise, normalised, launched from the muzzle above and ahead of the tank.
   */
  function PlayerShell(m: MathLib, aim: Vec3, tank: Vec3): Bullet {
    var dir := m.normalize(Vec3(aim.x - tank.x, PLAYER_SHOT_RISE, aim.z - tank.z));
    Bullet(Vec3(tank.x + dir.x * MUZZLE_OFFSET, tank.y + MUZZLE_HEIGHT, tank.z + dir.z * MUZZLE_OFFSET),
           dir, BULLET_LIFETIME, ByPlayer)
  }

  /**
   * The direction (a, b, c) / h of a vector with positive length h and positive b: a unit
   * vector that climbs, whose horizontal part is parallel to (a, c) and not opposed to it.
   */
  lemma DividedDirection(a: real, b: real, c: real, h: real)
    requires 0.0 < b && 0.0 < h && h * h == a * a + b * b + c * c
    ensures (a / h) * (a / h) + (b / h) * (b / h) + (c / h) * (c / h) == 1.0
    ensures 0.0 < b / h
    ensures (a / h) * c == (c / h) * a
    ensures 0.0 <= (a / h) * a + (c / h) * c
  {
    UnitAfterDivide(a, b, c, h);
    var u := 1.0 / h;
    assert 0.0 < u;
    assert a / h == a * u && b / h == b * u && c / h == c * u;
    calc {
      (a * u) * a + (c * u) * c;
      (a * a + c * c) * u;
    }
    assert 0.0 <= a * a + c * c;
  }

  /** The root of a positive sum of squares is positive. */
  lemma RootPositive(h: real, x: real, y: real, z: real)
    requires 0.0 <= x && 0.0 < y && 0.0 <= z && 0.0 <= h && h * h == x + y + z
    ensures 0.0 < h
  {
  }

  /**
   * With vec3.normalize behaving as a normalisation, the player's shell is a player shell
   * with the full lifetime, starting MUZZLE_HEIGHT above the tank; its direction is a unit
   * vector that climbs, and its horizontal part points at the aim point (parallel to the
   * offset, never away from it).
   */
  lemma PlayerShellSound(m: MathLib, aim: Vec3, tank: Vec3)
    requires NormalizeSound(m)
    ensures var b := PlayerShell(m, aim, tank);
      var dx := aim.x - tank.x;
      var dz := aim.z - tank.z;
      && b.owner == ByPlayer && b.life == BULLET_LIFETIME
      && b.pos.y == tank.y + MUZZLE_HEIGHT
      && b.dir.x * b.dir.x + b.dir.y * b.dir.y + b.dir.z * b.dir.z == 1.0
      && 0.0 < b.dir.y
      && b.dir.x * dz == b.dir.z * dx
      && 0.0 <= b.dir.x * dx + b.dir.z * dz
  {
    var v := Vec3(aim.x - tank.x, PLAYER_SHOT_RISE, aim.z - tank.z);
    var h := m.hypot3(v.x, v.y, v.z);
    assert 0.0 <= h && h * h == v.x * v.x + v.y * v.y + v.z * v.z;
    SquareSign(v.x);
    SquareSign(v.z);
    RootPositive(h, v.x * v.x, v.y * v.y, v.z * v.z);
    var d := m.normalize(v);
    assert d == Vec3(v.x / h, v.y / h, v.z / h);
    DividedDirection(v.x, v.y, v.z, h);
    assert PlayerShell(m, aim, tank).dir == d;
  }

  /** The invincibility timer after one tick of length dt: counted down while positive, never below zero. */
  function Decay(t: real, dt: real): real {
    if t > 0.0 then (if t - dt < 0.0 then 0.0 else t - dt) else t
  }

  /**
   * A running timer drops by dt, stopping at zero; an expired one stays; so a timer in
   * [0, PLAYER_INVINCIBLE_TIME] stays in that range and never grows.
   */
  lemma DecaySound(t: real, dt: real)
    ensures t > 0.0 ==> Decay(t, dt) == Max(0.0, t - dt)
    ensures t <= 0.0 ==> Decay(t, dt) == t
    ensures 0.0 <= t && 0.0 <= dt ==> 0.0 <= Decay(t, dt) <= t
  {
  }
}
