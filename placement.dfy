/**
 * The two rejection samplers: `spawnEnemy` (a new enemy on one of four edges, behind the
 * player) and `respawnPlayer` (a free point near the centre). Math.random() is the stream
 * `env.rand`; both take the index of the next unused draw and return the next unused index
 * after their draws. Each sampler is a method with the source's bounded attempt loop, proved
 * against a recursive function whose contract states what the sampler guarantees.
 */
module Placement {
  import opened Wrappers
  import opened Numeric
  import opened Constants
  import opened Terrain
  import opened Entities

  // ---------------------------------------------------------------- spawnEnemy

  /** One attempt's choice: the point on the chosen edge and the heading assigned with it. */
  datatype EdgePoint = EdgePoint(x: real, z: real, heading: real)

  /**
   * The edge `Math.floor(sideDraw * 4)` selects, as the branches tell it: 0, 1 or 2 when the
   * scaled draw falls in [0, 1), [1, 2) or [2, 3), the last edge (3) for anything else.
   */
  function Side(sideDraw: real): int {
    var d := sideDraw * 4.0;
    if 0.0 <= d < 1.0 then 0 else if 1.0 <= d < 2.0 then 1 else if 2.0 <= d < 3.0 then 2 else 3
  }

  /** Side picks the same branch as the floor of the scaled draw, for every real draw. */
  lemma SideIsFloor(sideDraw: real)
    ensures var f := (sideDraw * 4.0).Floor;
      && (Side(sideDraw) == 0 <==> f == 0)
      && (Side(sideDraw) == 1 <==> f == 1)
      && (Side(sideDraw) == 2 <==> f == 2)
      && (Side(sideDraw) == 3 <==> (f != 0 && f != 1 && f != 2))
  {
  }

  /** The candidate for one attempt, from the edge draw and the position-along-edge draw. */
  function EdgeCandidate(sideDraw: real, alongDraw: real): EdgePoint
  {
    var side := Side(sideDraw);
    var off := (alongDraw * 2.0 - 1.0) * SPAWN_HALF;
    if side == 0 then EdgePoint(SPAWN_HALF + SPAWN_MARGIN, off, PI)
    else if side == 1 then EdgePoint(-SPAWN_HALF - SPAWN_MARGIN, off, 0.0)
    else if side == 2 then EdgePoint(off, SPAWN_HALF + SPAWN_MARGIN, -PI / 2.0)
    else EdgePoint(off, -SPAWN_HALF - SPAWN_MARGIN, PI / 2.0)
  }

  /** (x, z) lies on one of the four spawn edges: 13 out along one axis, within [-10, 10) on the other. */
  predicate OnSpawnEdge(x: real, z: real) {
    var far := SPAWN_HALF + SPAWN_MARGIN;
    ((x == far || x == -far) && -SPAWN_HALF <= z < SPAWN_HALF)
    || ((z == far || z == -far) && -SPAWN_HALF <= x < SPAWN_HALF)
  }

  /** The four headings spawnEnemy assigns, one per edge. */
  predicate SpawnHeading(h: real) {
    h == PI || h == 0.0 || h == -PI / 2.0 || h == PI / 2.0
  }

  lemma EdgeCandidateOnEdge(sideDraw: real, alongDraw: real)
    requires 0.0 <= alongDraw < 1.0
    ensures OnSpawnEdge(EdgeCandidate(sideDraw, alongDraw).x, EdgeCandidate(sideDraw, alongDraw).z)
    ensures SpawnHeading(EdgeCandidate(sideDraw, alongDraw).heading)
  {
    var off := (alongDraw * 2.0 - 1.0) * SPAWN_HALF;
    assert -SPAWN_HALF <= off < SPAWN_HALF;
  }

  /** Dot product of the vector from the player to (x, z) with the player's forward vector (fx, fz). */
  function FacingDot(tank: Vec3, fx: real, fz: real, x: real, z: real): real {
    (x - tank.x) * fx + (z - tank.z) * fz
  }

  /** A candidate spawnEnemy keeps: no mountain in the way, and behind the player. */
  predicate SpawnAccepted(obs: seq<Obstacle>, tank: Vec3, fx: real, fz: real, x: real, z: real) {
    !Blocked(obs, Vec3(x, 0.0, z)) && FacingDot(tank, fx, fz, x, z) < 0.0
  }

  /**
   * The attempts from number `a` on, with `heading` the heading the earlier attempts left on
   * the enemy and `k` the next draw; each attempt uses two draws. The result is the point
   * kept, with the heading written by its attempt, or, after SPAWN_ATTEMPTS rejections,
   * x = z = 0 with the heading of the last attempt; and the next unused draw.
   */
  function SpawnFrom(env: Env, tank: Vec3, fx: real, fz: real, a: nat, heading: real, k: nat): (EdgePoint, nat)
    requires a <= SPAWN_ATTEMPTS
    decreases SPAWN_ATTEMPTS - a
  {
    if a == SPAWN_ATTEMPTS then (EdgePoint(0.0, 0.0, heading), k)
    else
      var c := EdgeCandidate(env.rand(k), env.rand(k + 1));
      if SpawnAccepted(env.obstacles, tank, fx, fz, c.x, c.z) then (c, k + 2)
      else SpawnFrom(env, tank, fx, fz, a + 1, c.heading, k + 2)
  }

  /**
   * What the remaining attempts guarantee: one of the four headings, and a point that is
   * either on a spawn edge, unblocked and behind the player, or x = z = 0 with every remaining
   * attempt's draws used; at least one attempt's draws are used whenever one remains.
   */
  lemma {:induction false} SpawnFromSound(env: Env, tank: Vec3, fx: real, fz: real, a: nat, heading: real, k: nat)
    requires UnitStream(env.rand) && a <= SPAWN_ATTEMPTS && SpawnHeading(heading)
    ensures var r := SpawnFrom(env, tank, fx, fz, a, heading, k);
      && SpawnHeading(r.0.heading)
      && (k + 2 <= r.1 <= k + 2 * (SPAWN_ATTEMPTS - a) || (a == SPAWN_ATTEMPTS && r.1 == k))
      && (|| (OnSpawnEdge(r.0.x, r.0.z) && SpawnAccepted(env.obstacles, tank, fx, fz, r.0.x, r.0.z))
          || (r.0.x == 0.0 && r.0.z == 0.0 && r.1 == k + 2 * (SPAWN_ATTEMPTS - a)))
    decreases SPAWN_ATTEMPTS - a
  {
    if a < SPAWN_ATTEMPTS {
      var c := EdgeCandidate(env.rand(k), env.rand(k + 1));
      EdgeCandidateOnEdge(env.rand(k), env.rand(k + 1));
      if !SpawnAccepted(env.obstacles, tank, fx, fz, c.x, c.z) {
        SpawnFromSound(env, tank, fx, fz, a + 1, c.heading, k + 2);
      }
    }
  }

  /** What `spawnEnemy()` returns, and the next unused draw, for a player at `tank` with heading `tankHeading`. */
  function Spawned(env: Env, tank: Vec3, tankHeading: real, k: nat): (Enemy, nat)
    requires WellFormed(env.obstacles)
  {
    PlacedAt(env, SpawnFrom(env, tank, env.m.sin(tankHeading), env.m.cos(tankHeading), 0, 0.0, k + 1), env.rand(k) * ENEMY_FIRE_COOLDOWN)
  }

  /**
   * The first draw is the initial cooldown, in [0, ENEMY_FIRE_COOLDOWN), and the turret starts
   * straight. The enemy is either on a spawn edge, unblocked and behind the player, or (after
   * all 40 attempts failed, 81 draws in all) at x = z = 0. Either way it stands on the ground.
   */
  lemma SpawnedSound(env: Env, tank: Vec3, tankHeading: real, k: nat)
    requires EnvOk(env)
    ensures var r := Spawned(env, tank, tankHeading, k);
      && 0.0 <= r.0.cooldown < ENEMY_FIRE_COOLDOWN && r.0.turretOffset == 0.0 && SpawnHeading(r.0.heading)
      && r.0.pos.y == Elevation(env.m, env.obstacles, r.0.pos.x, r.0.pos.z)
      && k + 3 <= r.1 <= k + 1 + 2 * SPAWN_ATTEMPTS
      && (|| (OnSpawnEdge(r.0.pos.x, r.0.pos.z)
              && SpawnAccepted(env.obstacles, tank, env.m.sin(tankHeading), env.m.cos(tankHeading), r.0.pos.x, r.0.pos.z))
          || (r.0.pos.x == 0.0 && r.0.pos.z == 0.0 && r.1 == k + 1 + 2 * SPAWN_ATTEMPTS))
  {
    assert 0.0 <= env.rand(k) < 1.0;
    SpawnFromSound(env, tank, env.m.sin(tankHeading), env.m.cos(tankHeading), 0, 0.0, k + 1);
  }

  /** spawnEnemy() always consumes draws: the cooldown draw and at least one attempt's two. */
  lemma {:induction false} SpawnFromDraws(env: Env, tank: Vec3, fx: real, fz: real, a: nat, heading: real, k: nat)
    requires a <= SPAWN_ATTEMPTS
    ensures k <= SpawnFrom(env, tank, fx, fz, a, heading, k).1
    decreases SPAWN_ATTEMPTS - a
  {
    if a < SPAWN_ATTEMPTS {
      var c := EdgeCandidate(env.rand(k), env.rand(k + 1));
      SpawnFromDraws(env, tank, fx, fz, a + 1, c.heading, k + 2);
    }
  }

  lemma SpawnedDraws(env: Env, tank: Vec3, tankHeading: real, k: nat)
    requires WellFormed(env.obstacles)
    ensures k < Spawned(env, tank, tankHeading, k).1
  {
    SpawnFromDraws(env, tank, env.m.sin(tankHeading), env.m.cos(tankHeading), 0, 0.0, k + 1);
  }

  /** One attempt of spawnEnemy's loop: the edge point for the two draws, and whether it is kept. */
  method SpawnAttempt(obs: seq<Obstacle>, tank: Vec3, fx: real, fz: real, sideDraw: real, alongDraw: real)
    returns (c: EdgePoint, accepted: bool)
    ensures c == EdgeCandidate(sideDraw, alongDraw)
    ensures accepted == SpawnAccepted(obs, tank, fx, fz, c.x, c.z)
  {
    var side := (sideDraw * 4.0).Floor;
    SideIsFloor(sideDraw);
    var x, z, heading;
    if side == 0 {
      x := SPAWN_HALF + SPAWN_MARGIN;
      z := (alongDraw * 2.0 - 1.0) * SPAWN_HALF;
      heading := PI;
    } else if side == 1 {
      x := -SPAWN_HALF - SPAWN_MARGIN;
      z := (alongDraw * 2.0 - 1.0) * SPAWN_HALF;
      heading := 0.0;
    } else if side == 2 {
      z := SPAWN_HALF + SPAWN_MARGIN;
      x := (alongDraw * 2.0 - 1.0) * SPAWN_HALF;
      heading := -PI / 2.0;
    } else {
      z := -SPAWN_HALF - SPAWN_MARGIN;
      x := (alongDraw * 2.0 - 1.0) * SPAWN_HALF;
      heading := PI / 2.0;
    }
    c := EdgePoint(x, z, heading);
    var blocked := Collision(obs, Vec3(x, 0.0, z));
    if blocked {
      return c, false;
    }
    var dot := (x - tank.x) * fx + (z - tank.z) * fz;
    accepted := dot < 0.0;
  }

  /**
   * spawnEnemy's attempt loop: up to 40 edge points, the first unblocked one behind the player
   * is kept. `heading` tracks the enemy's heading, which every attempt overwrites.
   */
  method SearchEdge(env: Env, tank: Vec3, fx: real, fz: real, k0: nat) returns (c: EdgePoint, k: nat)
    ensures (c, k) == SpawnFrom(env, tank, fx, fz, 0, 0.0, k0)
  {
    k := k0;
    var heading := 0.0;
    for attempt := 0 to SPAWN_ATTEMPTS
      invariant SpawnFrom(env, tank, fx, fz, attempt, heading, k) == SpawnFrom(env, tank, fx, fz, 0, 0.0, k0)
    {
      var accepted;
      c, accepted := SpawnAttempt(env.obstacles, tank, fx, fz, env.rand(k), env.rand(k + 1));
      k := k + 2;
      heading := c.heading;
      if accepted {
        return;
      }
    }
    c := EdgePoint(0.0, 0.0, heading);
  }

  /**
   * `spawnEnemy()`: the cooldown draw, the attempt loop, and the enemy placed on the ground at
   * the kept point (or at x = z = 0) with the heading of the last attempt.
   */
  method SpawnEnemy(env: Env, tank: Vec3, tankHeading: real, k0: nat) returns (e: Enemy, k: nat)
    requires WellFormed(env.obstacles)
    ensures (e, k) == Spawned(env, tank, tankHeading, k0)
  {
    var cooldown := env.rand(k0) * ENEMY_FIRE_COOLDOWN;
    var fx := env.m.sin(tankHeading);
    var fz := env.m.cos(tankHeading);
    var c;
    c, k := SearchEdge(env, tank, fx, fz, k0 + 1);
    var y := GetElevation(env.m, env.obstacles, c.x, c.z);
    e := Enemy(Vec3(c.x, y, c.z), c.heading, 0.0, cooldown);
    SpawnedFromSearch(env, tank, tankHeading, k0, c, k, y);
  }

  /** The enemy built from the attempt loop's result and the elevation there is the spawned enemy. */
  lemma SpawnedFromSearch(env: Env, tank: Vec3, tankHeading: real, k0: nat, c: EdgePoint, k: nat, y: real)
    requires WellFormed(env.obstacles)
    requires (c, k) == SpawnFrom(env, tank, env.m.sin(tankHeading), env.m.cos(tankHeading), 0, 0.0, k0 + 1)
    requires y == Elevation(env.m, env.obstacles, c.x, c.z)
    ensures Spawned(env, tank, tankHeading, k0) == (Enemy(Vec3(c.x, y, c.z), c.heading, 0.0, env.rand(k0) * ENEMY_FIRE_COOLDOWN), k)
  {
  }

  /** The enemy spawnEnemy() builds from the attempt loop's result `s` and its cooldown draw. */
  function PlacedAt(env: Env, s: (EdgePoint, nat), cooldown: real): (Enemy, nat)
    requires WellFormed(env.obstacles)
  {
    (Enemy(Vec3(s.0.x, Elevation(env.m, env.obstacles, s.0.x, s.0.z), s.0.z), s.0.heading, 0.0, cooldown), s.1)
  }

  /** If every point of the four edges is blocked, spawnEnemy ends at x = z = 0 after all 40 attempts. */
  lemma {:induction false} SpawnFallsBack(env: Env, tank: Vec3, fx: real, fz: real, a: nat, heading: real, k: nat)
    requires UnitStream(env.rand) && a <= SPAWN_ATTEMPTS
    requires forall x: real, z: real :: OnSpawnEdge(x, z) ==> Blocked(env.obstacles, Vec3(x, 0.0, z))
    ensures SpawnFrom(env, tank, fx, fz, a, heading, k).0.x == 0.0
    ensures SpawnFrom(env, tank, fx, fz, a, heading, k).0.z == 0.0
    ensures SpawnFrom(env, tank, fx, fz, a, heading, k).1 == k + 2 * (SPAWN_ATTEMPTS - a)
    decreases SPAWN_ATTEMPTS - a
  {
    if a < SPAWN_ATTEMPTS {
      var c := EdgeCandidate(env.rand(k), env.rand(k + 1));
      EdgeCandidateOnEdge(env.rand(k), env.rand(k + 1));
      assert Blocked(env.obstacles, Vec3(c.x, 0.0, c.z));
      SpawnFallsBack(env, tank, fx, fz, a + 1, c.heading, k + 2);
    }
  }

  /** With the four edges blocked, spawnEnemy() places the enemy on the ground at the centre after 81 draws. */
  lemma SpawnedFallsBack(env: Env, tank: Vec3, tankHeading: real, k: nat)
    requires EnvOk(env)
    requires forall x: real, z: real :: OnSpawnEdge(x, z) ==> Blocked(env.obstacles, Vec3(x, 0.0, z))
    ensures Spawned(env, tank, tankHeading, k).0.pos == Vec3(0.0, Elevation(env.m, env.obstacles, 0.0, 0.0), 0.0)
    ensures Spawned(env, tank, tankHeading, k).1 == k + 1 + 2 * SPAWN_ATTEMPTS
  {
    SpawnFallsBack(env, tank, env.m.sin(tankHeading), env.m.cos(tankHeading), 0, 0.0, k + 1);
  }

  // ---------------------------------------------------------------- respawnPlayer

  /** The candidate respawn point from two draws: uniform in [-10, 10) on each axis, on the ground. */
  function RespawnCandidate(env: Env, xDraw: real, zDraw: real): Vec3
    requires WellFormed(env.obstacles)
  {
    var x := (xDraw * 2.0 - 1.0) * SPAWN_HALF;
    var z := (zDraw * 2.0 - 1.0) * SPAWN_HALF;
    Vec3(x, Elevation(env.m, env.obstacles, x, z), z)
  }

  /** (x, z) lies in the respawn square [-10, 10) x [-10, 10). */
  predicate InRespawnSquare(p: Vec3) {
    -SPAWN_HALF <= p.x < SPAWN_HALF && -SPAWN_HALF <= p.z < SPAWN_HALF
  }

  /** A point respawnPlayer accepts: no mountain in the way and no enemy overlapping. */
  predicate RespawnAccepted(obs: seq<Obstacle>, enemies: seq<Enemy>, p: Vec3) {
    !Blocked(obs, p) && !EnemyNear(p, enemies, None)
  }

  /**
   * The attempts from number `a` on, `k` the next draw, two draws per attempt; when every
   * attempt fails, the centre (0, elevation, 0), which is not checked against mountains or enemies.
   */
  function RespawnFrom(env: Env, enemies: seq<Enemy>, a: nat, k: nat): (Vec3, nat)
    requires WellFormed(env.obstacles) && a <= RESPAWN_ATTEMPTS
    decreases RESPAWN_ATTEMPTS - a
  {
    if a == RESPAWN_ATTEMPTS then
      (Vec3(0.0, Elevation(env.m, env.obstacles, 0.0, 0.0), 0.0), k)
    else
      var p := RespawnCandidate(env, env.rand(k), env.rand(k + 1));
      if RespawnAccepted(env.obstacles, enemies, p) then (p, k + 2)
      else RespawnFrom(env, enemies, a + 1, k + 2)
  }

  /** What `respawnPlayer()` returns with `enemies` alive, and the next unused draw. */
  function Respawned(env: Env, enemies: seq<Enemy>, k: nat): (Vec3, nat)
    requires WellFormed(env.obstacles)
  {
    RespawnFrom(env, enemies, 0, k)
  }

  /**
   * The remaining attempts return a point on the ground that is either an accepted point of
   * the respawn square, or the centre with every remaining attempt's draws used.
   */
  lemma {:induction false} RespawnFromSound(env: Env, enemies: seq<Enemy>, a: nat, k: nat)
    requires EnvOk(env) && a <= RESPAWN_ATTEMPTS
    ensures var r := RespawnFrom(env, enemies, a, k);
      && r.0.y == Elevation(env.m, env.obstacles, r.0.x, r.0.z)
      && k <= r.1 <= k + 2 * (RESPAWN_ATTEMPTS - a)
      && (|| (InRespawnSquare(r.0) && RespawnAccepted(env.obstacles, enemies, r.0) && k + 2 <= r.1)
          || (r.0 == Vec3(0.0, Elevation(env.m, env.obstacles, 0.0, 0.0), 0.0)
              && r.1 == k + 2 * (RESPAWN_ATTEMPTS - a)))
    decreases RESPAWN_ATTEMPTS - a
  {
    if a < RESPAWN_ATTEMPTS {
      var p := RespawnCandidate(env, env.rand(k), env.rand(k + 1));
      assert InRespawnSquare(p) by {
        assert 0.0 <= env.rand(k) < 1.0 && 0.0 <= env.rand(k + 1) < 1.0;
      }
      if !RespawnAccepted(env.obstacles, enemies, p) {
        RespawnFromSound(env, enemies, a + 1, k + 2);
      }
    }
  }

  /**
   * The respawn point is on the ground; it is a free point of the square (no mountain, no
   * enemy within two tank radii), or the centre once all 50 attempts (100 draws) have failed.
   */
  lemma RespawnedSound(env: Env, enemies: seq<Enemy>, k: nat)
    requires EnvOk(env)
    ensures var r := Respawned(env, enemies, k);
      && r.0.y == Elevation(env.m, env.obstacles, r.0.x, r.0.z)
      && k + 2 <= r.1 <= k + 2 * RESPAWN_ATTEMPTS
      && (|| (InRespawnSquare(r.0) && RespawnAccepted(env.obstacles, enemies, r.0))
          || (r.0 == Vec3(0.0, Elevation(env.m, env.obstacles, 0.0, 0.0), 0.0) && r.1 == k + 2 * RESPAWN_ATTEMPTS))
  {
    RespawnFromSound(env, enemies, 0, k);
  }

  /** respawnPlayer() only consumes draws. */
  lemma {:induction false} RespawnFromDraws(env: Env, enemies: seq<Enemy>, a: nat, k: nat)
    requires WellFormed(env.obstacles) && a <= RESPAWN_ATTEMPTS
    ensures k <= RespawnFrom(env, enemies, a, k).1
    decreases RESPAWN_ATTEMPTS - a
  {
    if a < RESPAWN_ATTEMPTS {
      RespawnFromDraws(env, enemies, a + 1, k + 2);
    }
  }

  /** One attempt of respawnPlayer's loop: the candidate for the two draws, and whether it is kept. */
  method RespawnAttempt(env: Env, enemies: seq<Enemy>, xDraw: real, zDraw: real) returns (testPos: Vec3, accepted: bool)
    requires WellFormed(env.obstacles)
    ensures testPos == RespawnCandidate(env, xDraw, zDraw)
    ensures accepted == RespawnAccepted(env.obstacles, enemies, testPos)
  {
    var x := (xDraw * 2.0 - 1.0) * SPAWN_HALF;
    var z := (zDraw * 2.0 - 1.0) * SPAWN_HALF;
    var y := GetElevation(env.m, env.obstacles, x, z);
    testPos := Vec3(x, y, z);
    var blocked := Collision(env.obstacles, testPos);
    if blocked {
      return testPos, false;
    }
    var near := CollidesWithEnemies(testPos, enemies, None);
    accepted := !near;
  }

  /** `respawnPlayer()`: up to 50 attempts at a free point in the centre square. */
  method RespawnPlayer(env: Env, enemies: seq<Enemy>, k0: nat) returns (p: Vec3, k: nat)
    requires WellFormed(env.obstacles)
    ensures (p, k) == Respawned(env, enemies, k0)
  {
    k := k0;
    for attempt := 0 to RESPAWN_ATTEMPTS
      invariant RespawnFrom(env, enemies, attempt, k) == Respawned(env, enemies, k0)
    {
      var testPos, accepted := RespawnAttempt(env, enemies, env.rand(k), env.rand(k + 1));
      k := k + 2;
      if accepted {
        p := testPos;
        return;
      }
    }
    var y := GetElevation(env.m, env.obstacles, 0.0, 0.0);
    p := Vec3(0.0, y, 0.0);
  }

  /**
   * When mountains cover the whole respawn square, respawnPlayer does not loop forever: after
   * its 50 attempts (100 draws) it returns the centre.
   */
  lemma {:induction false} RespawnFallsBack(env: Env, enemies: seq<Enemy>, a: nat, k: nat)
    requires EnvOk(env) && a <= RESPAWN_ATTEMPTS
    requires forall p: Vec3 :: InRespawnSquare(p) ==> Blocked(env.obstacles, p)
    ensures RespawnFrom(env, enemies, a, k) == (Vec3(0.0, Elevation(env.m, env.obstacles, 0.0, 0.0), 0.0), k + 2 * (RESPAWN_ATTEMPTS - a))
    decreases RESPAWN_ATTEMPTS - a
  {
    if a < RESPAWN_ATTEMPTS {
      var p := RespawnCandidate(env, env.rand(k), env.rand(k + 1));
      assert InRespawnSquare(p) by {
        assert 0.0 <= env.rand(k) < 1.0 && 0.0 <= env.rand(k + 1) < 1.0;
      }
      RespawnFallsBack(env, enemies, a + 1, k + 2);
    }
  }
}
