/**
 * The moving entities (enemy tanks and bullets), the fixed context every update reads
 * (math routines, obstacle field, random stream), and the tank-versus-tank and
 * bullet-versus-tank tests: `collidesWithPlayer`, `collidesWithEnemies`, and the
 * reverse scan for the enemy a player bullet hits.
 */
module Entities {
  import opened Wrappers
  import opened Numeric
  import opened Constants
  import opened Terrain

  /** An enemy tank; the game updates these fields in place each tick. */
  datatype Enemy = Enemy(pos: Vec3, heading: real, turretOffset: real, cooldown: real)

  /** Who fired a bullet (the strings "player" and "enemy" of the source). */
  datatype Owner = ByPlayer | ByEnemy

  datatype Bullet = Bullet(pos: Vec3, dir: Vec3, life: real, owner: Owner)

  /**
   * `s.splice(j, 1)`: s without its element at j, the elements after it moving down one.
   * Defined from the back so that only prefixes of s are taken.
   */
  function Splice<T>(s: seq<T>, j: nat): (r: seq<T>)
    requires j < |s|
    ensures |r| == |s| - 1
    ensures forall k :: 0 <= k < j ==> r[k] == s[k]
    ensures forall k :: j <= k < |r| ==> r[k] == s[k + 1]
    decreases |s|
  {
    if j == |s| - 1 then s[..j]
    else
      var front := s[..|s| - 1];
      var rest := Splice(front, j);
      assert forall k :: 0 <= k < |front| ==> front[k] == s[k];
      assert forall k :: 0 <= k < |rest| ==> (rest + [s[|s| - 1]])[k] == rest[k];
      rest + [s[|s| - 1]]
  }

  /** The splice is the elements before j followed by those after it. */
  lemma SpliceIsSlices<T>(s: seq<T>, j: nat)
    requires j < |s|
    ensures Splice(s, j) == s[..j] + s[j + 1..]
  {
    var r := Splice(s, j);
    var t := s[..j] + s[j + 1..];
    assert |r| == |t|;
    forall k | 0 <= k < |r|
      ensures r[k] == t[k]
    {
      if k < j {
        assert t[k] == s[..j][k];
      } else {
        assert t[k] == s[j + 1..][k - j];
      }
    }
  }

  /**
   * What stays fixed while the game runs: the math routines, the obstacle field (generated
   * once at start-up), and the stream of values Math.random() returns, draw by draw.
   */
  datatype Env = Env(m: MathLib, obstacles: seq<Obstacle>, rand: nat -> real)

  ghost predicate EnvOk(env: Env) {
    WellFormed(env.obstacles) && UnitStream(env.rand)
  }

  /** `collidesWithPlayer(testPos)` with the player at `tank`: the two tanks' circles overlap. */
  predicate TanksOverlap(p: Vec3, tank: Vec3) {
    var minDist := TANK_RADIUS * 2.0;
    Dist2(p, tank) < minDist * minDist
  }

  /**
   * Overlap is symmetric, holds when the two points coincide, and needs both coordinate
   * differences below two tank radii.
   */
  lemma TanksOverlapBounds(p: Vec3, tank: Vec3)
    ensures TanksOverlap(p, tank) == TanksOverlap(tank, p)
    ensures p.x == tank.x && p.z == tank.z ==> TanksOverlap(p, tank)
    ensures TanksOverlap(p, tank) ==> Abs(p.x - tank.x) < 2.0 * TANK_RADIUS && Abs(p.z - tank.z) < 2.0 * TANK_RADIUS
  {
    SquaresBelow(p.x - tank.x, p.z - tank.z, TANK_RADIUS * 2.0);
    assert Dist2(p, tank) == Dist2(tank, p) by {
      assert (p.x - tank.x) * (p.x - tank.x) == (tank.x - p.x) * (tank.x - p.x);
      assert (p.z - tank.z) * (p.z - tank.z) == (tank.z - p.z) * (tank.z - p.z);
    }
  }

  /** Some enemy at index j or later, other than the one at index `ignore`, overlaps a tank at p. */
  predicate NearFrom(p: Vec3, enemies: seq<Enemy>, ignore: Option<nat>, j: nat)
    decreases |enemies| - j
  {
    j < |enemies| && ((ignore != Some(j) && TanksOverlap(p, enemies[j].pos)) || NearFrom(p, enemies, ignore, j + 1))
  }

  /** Some enemy other than the one at index `ignore` overlaps a tank at p. */
  predicate EnemyNear(p: Vec3, enemies: seq<Enemy>, ignore: Option<nat>) {
    NearFrom(p, enemies, ignore, 0)
  }

  lemma {:induction false} NearFromWitness(p: Vec3, enemies: seq<Enemy>, ignore: Option<nat>, j: nat)
    ensures NearFrom(p, enemies, ignore, j)
        <==> exists k :: j <= k < |enemies| && ignore != Some(k) && TanksOverlap(p, enemies[k].pos)
    decreases |enemies| - j
  {
    if j < |enemies| {
      NearFromWitness(p, enemies, ignore, j + 1);
    }
  }

  /** EnemyNear means exactly: some enemy other than the ignored one overlaps p. */
  lemma EnemyNearWitness(p: Vec3, enemies: seq<Enemy>, ignore: Option<nat>)
    ensures EnemyNear(p, enemies, ignore)
        <==> exists k :: 0 <= k < |enemies| && ignore != Some(k) && TanksOverlap(p, enemies[k].pos)
  {
    NearFromWitness(p, enemies, ignore, 0);
  }

  /** Overlap looks at x and z only. */
  lemma {:induction false} NearFromIgnoresHeight(p: Vec3, q: Vec3, enemies: seq<Enemy>, ignore: Option<nat>, j: nat)
    requires p.x == q.x && p.z == q.z
    ensures NearFrom(p, enemies, ignore, j) == NearFrom(q, enemies, ignore, j)
    decreases |enemies| - j
  {
    if j < |enemies| {
      NearFromIgnoresHeight(p, q, enemies, ignore, j + 1);
    }
  }

  lemma EnemyNearIgnoresHeight(p: Vec3, q: Vec3, enemies: seq<Enemy>, ignore: Option<nat>)
    requires p.x == q.x && p.z == q.z
    ensures EnemyNear(p, enemies, ignore) == EnemyNear(q, enemies, ignore)
  {
    NearFromIgnoresHeight(p, q, enemies, ignore, 0);
  }

  /**
   * `collidesWithEnemies(testPos, ignoreEnemy)`. The source compares enemy objects by
   * identity; an enemy is identified here by its index in the list.
   */
  method CollidesWithEnemies(p: Vec3, enemies: seq<Enemy>, ignore: Option<nat>) returns (hit: bool)
    ensures hit <==> EnemyNear(p, enemies, ignore)
    ensures enemies == [] ==> !hit
  {
    for j := 0 to |enemies|
      invariant NearFrom(p, enemies, ignore, j) == EnemyNear(p, enemies, ignore)
    {
      if ignore == Some(j) {
        continue;
      }
      var e := enemies[j];
      var dx := p.x - e.pos.x;
      var dz := p.z - e.pos.z;
      var minDist := TANK_RADIUS * 2.0;
      assert dx * dx + dz * dz == Dist2(p, e.pos);
      if dx * dx + dz * dz < minDist * minDist {
        return true;
      }
    }
    return false;
  }

  /** A bullet at p is inside the tank at q (the tank radius, not the doubled one). */
  predicate BulletTouches(p: Vec3, q: Vec3) {
    Dist2(p, q) < TANK_RADIUS * TANK_RADIUS
  }

  /** The highest index of an enemy a bullet at p touches, or -1 if it touches none. */
  function LastHit(p: Vec3, enemies: seq<Enemy>): (j: int)
    ensures -1 <= j < |enemies|
    ensures 0 <= j ==> BulletTouches(p, enemies[j].pos)
    ensures forall k :: j < k < |enemies| ==> !BulletTouches(p, enemies[k].pos)
  {
    if enemies == [] then -1
    else if BulletTouches(p, enemies[|enemies| - 1].pos) then |enemies| - 1
    else LastHit(p, enemies[..|enemies| - 1])
  }

  /**
   * The search of the bullet pass's inner loop, `for (j = enemies.length - 1; j >= 0; j--)`
   * up to the first hit: the enemy it finds is the one the pass removes.
   */
  method LastEnemyHit(p: Vec3, enemies: seq<Enemy>) returns (j: int)
    ensures j == LastHit(p, enemies)
  {
    j := |enemies| - 1;
    while j >= 0
      invariant -1 <= j < |enemies|
      invariant forall k :: j < k < |enemies| ==> !BulletTouches(p, enemies[k].pos)
    {
      var e := enemies[j];
      var dx := p.x - e.pos.x;
      var dz := p.z - e.pos.z;
      assert dx * dx + dz * dz == Dist2(p, e.pos);
      if dx * dx + dz * dz < TANK_RADIUS * TANK_RADIUS {
        LastHitUnique(p, enemies, j);
        return;
      }
      j := j - 1;
    }
    LastHitUnique(p, enemies, -1);
  }

  /** LastHit is pinned down by its contract: nothing above the index hits, the index does. */
  lemma {:induction false} LastHitUnique(p: Vec3, enemies: seq<Enemy>, j: int)
    requires -1 <= j < |enemies|
    requires 0 <= j ==> BulletTouches(p, enemies[j].pos)
    requires forall k :: j < k < |enemies| ==> !BulletTouches(p, enemies[k].pos)
    ensures LastHit(p, enemies) == j
  {
    if enemies != [] && j < |enemies| - 1 {
      LastHitUnique(p, enemies[..|enemies| - 1], j);
    }
  }
}
