/**
 * The obstacle field and its queries: `collision` (tank blocked by a mountain),
 * `bulletHitsObstacle` (bullet inside a mountain) and `getElevation` (ground height
 * raised by hills). Each query is a scan over the obstacle list; each is a method with
 * the scan's loop, proved against a predicate or function that states what it computes.
 */
module Terrain {
  import opened Numeric
  import opened Constants

  /** A mountain blocks tanks and bullets; a hill only raises the ground. The colour is not modelled. */
  datatype Obstacle = Obstacle(pos: Vec3, scale: Vec3, isMountain: bool)

  /** Every obstacle has positive scales, as the field generator draws them (all at least 0.8). */
  predicate WellFormed(obs: seq<Obstacle>) {
    forall i :: 0 <= i < |obs| ==> 0.0 < obs[i].scale.x && 0.0 < obs[i].scale.y && 0.0 < obs[i].scale.z
  }

  /** The horizontal radius of an obstacle: half its larger horizontal scale. */
  function Radius(ob: Obstacle): real {
    Max(ob.scale.x, ob.scale.z) * 0.5
  }

  lemma RadiusPositive(obs: seq<Obstacle>, i: int)
    requires WellFormed(obs) && 0 <= i < |obs|
    ensures 0.0 < Radius(obs[i])
  {
  }

  // ---------------------------------------------------------------- collision

  /** Mountain `ob` keeps a tank centred at `p` out: the centres are closer than the two radii. */
  predicate BlocksTank(ob: Obstacle, p: Vec3) {
    ob.isMountain && Dist2(p, ob.pos) < (TANK_RADIUS + Radius(ob)) * (TANK_RADIUS + Radius(ob))
  }

  /** Some mountain at index i or later blocks a tank at p. */
  predicate BlockedFrom(obs: seq<Obstacle>, p: Vec3, i: nat)
    decreases |obs| - i
  {
    i < |obs| && (BlocksTank(obs[i], p) || BlockedFrom(obs, p, i + 1))
  }

  /** Some mountain of the field blocks a tank at p. */
  predicate Blocked(obs: seq<Obstacle>, p: Vec3) {
    BlockedFrom(obs, p, 0)
  }

  lemma {:induction false} BlockedFromWitness(obs: seq<Obstacle>, p: Vec3, i: nat)
    ensures BlockedFrom(obs, p, i) <==> exists k :: i <= k < |obs| && BlocksTank(obs[k], p)
    decreases |obs| - i
  {
    if i < |obs| {
      BlockedFromWitness(obs, p, i + 1);
    }
  }

  /** Blocked means exactly: some mountain of the list blocks p. */
  lemma BlockedWitness(obs: seq<Obstacle>, p: Vec3)
    ensures Blocked(obs, p) <==> exists k :: 0 <= k < |obs| && BlocksTank(obs[k], p)
  {
    BlockedFromWitness(obs, p, 0);
  }

  /** Blocking looks at x and z only: the height of the tank does not matter. */
  lemma {:induction false} BlockedFromIgnoresHeight(obs: seq<Obstacle>, p: Vec3, q: Vec3, i: nat)
    requires p.x == q.x && p.z == q.z
    ensures BlockedFrom(obs, p, i) == BlockedFrom(obs, q, i)
    decreases |obs| - i
  {
    if i < |obs| {
      BlockedFromIgnoresHeight(obs, p, q, i + 1);
    }
  }

  lemma BlockedIgnoresHeight(obs: seq<Obstacle>, p: Vec3, q: Vec3)
    requires p.x == q.x && p.z == q.z
    ensures Blocked(obs, p) == Blocked(obs, q)
  {
    BlockedFromIgnoresHeight(obs, p, q, 0);
  }

  /** `collision(testPos)`: is some mountain in the way of a tank at p? Hills are skipped. */
  method Collision(obs: seq<Obstacle>, p: Vec3) returns (hit: bool)
    ensures hit <==> Blocked(obs, p)
  {
    for i := 0 to |obs|
      invariant BlockedFrom(obs, p, i) == Blocked(obs, p)
    {
      var ob := obs[i];
      if !ob.isMountain {
        continue;
      }
      var dx := p.x - ob.pos.x;
      var dz := p.z - ob.pos.z;
      var mountainRadius := Max(ob.scale.x, ob.scale.z) * 0.5;
      var minDist := TANK_RADIUS + mountainRadius;
      if dx * dx + dz * dz < minDist * minDist {
        return true;
      }
    }
    return false;
  }

  // ---------------------------------------------------------------- bulletHitsObstacle

  /** Mountain `ob` stops a bullet at `p`: the bullet is inside the mountain's own radius. */
  predicate StopsBullet(ob: Obstacle, p: Vec3) {
    ob.isMountain && Dist2(p, ob.pos) < Radius(ob) * Radius(ob)
  }

  /** Some mountain at index i or later stops a bullet at p. */
  predicate BulletBlockedFrom(obs: seq<Obstacle>, p: Vec3, i: nat)
    decreases |obs| - i
  {
    i < |obs| && (StopsBullet(obs[i], p) || BulletBlockedFrom(obs, p, i + 1))
  }

  /** Some mountain of the field stops a bullet at p. */
  predicate BulletBlocked(obs: seq<Obstacle>, p: Vec3) {
    BulletBlockedFrom(obs, p, 0)
  }

  lemma {:induction false} BulletBlockedFromWitness(obs: seq<Obstacle>, p: Vec3, i: nat)
    ensures BulletBlockedFrom(obs, p, i) <==> exists k :: i <= k < |obs| && StopsBullet(obs[k], p)
    decreases |obs| - i
  {
    if i < |obs| {
      BulletBlockedFromWitness(obs, p, i + 1);
    }
  }

  /** BulletBlocked means exactly: some mountain of the list stops p. */
  lemma BulletBlockedWitness(obs: seq<Obstacle>, p: Vec3)
    ensures BulletBlocked(obs, p) <==> exists k :: 0 <= k < |obs| && StopsBullet(obs[k], p)
  {
    BulletBlockedFromWitness(obs, p, 0);
  }

  /** `bulletHitsObstacle(pos)`: is a bullet at p inside some mountain? Hills are skipped. */
  method BulletHitsObstacle(obs: seq<Obstacle>, p: Vec3) returns (hit: bool)
    ensures hit <==> BulletBlocked(obs, p)
  {
    for i := 0 to |obs|
      invariant BulletBlockedFrom(obs, p, i) == BulletBlocked(obs, p)
    {
      var ob := obs[i];
      if !ob.isMountain {
        continue;
      }
      var dx := p.x - ob.pos.x;
      var dz := p.z - ob.pos.z;
      var mountainRadius := Max(ob.scale.x, ob.scale.z) * 0.5;
      if dx * dx + dz * dz < mountainRadius * mountainRadius {
        return true;
      }
    }
    return false;
  }

  /**
   * With positive scales the bullet radius is the tighter one: wherever a bullet is stopped
   * by a mountain, a tank would be blocked by the same mountain.
   */
  lemma BulletBlockedImpliesBlocked(obs: seq<Obstacle>, p: Vec3)
    requires WellFormed(obs)
    ensures BulletBlocked(obs, p) ==> Blocked(obs, p)
  {
    BulletBlockedWitness(obs, p);
    BlockedWitness(obs, p);
    if BulletBlocked(obs, p) {
      var i :| 0 <= i < |obs| && StopsBullet(obs[i], p);
      var r := Radius(obs[i]);
      RadiusPositive(obs, i);
      SquareMonotone(r, TANK_RADIUS + r);
      assert BlocksTank(obs[i], p);
    }
  }

  /** A tank or bullet exactly at a mountain's centre is stopped by it. */
  lemma CentreIsBlocked(obs: seq<Obstacle>, i: int)
    requires WellFormed(obs) && 0 <= i < |obs| && obs[i].isMountain
    ensures BulletBlocked(obs, obs[i].pos) && Blocked(obs, obs[i].pos)
  {
    var ob := obs[i];
    RadiusPositive(obs, i);
    calc {
      Dist2(ob.pos, ob.pos);
      0.0;
    <
      Radius(ob) * Radius(ob);
    }
    assert StopsBullet(ob, ob.pos);
    BulletBlockedWitness(obs, obs[i].pos);
    BulletBlockedImpliesBlocked(obs, obs[i].pos);
  }

  // ---------------------------------------------------------------- getElevation

  /** Hill `ob` is under (x, z): its centre is closer than its radius. Mountains cover nothing. */
  predicate Covers(m: MathLib, ob: Obstacle, x: real, z: real) {
    !ob.isMountain && m.hypot(x - ob.pos.x, z - ob.pos.z) < Radius(ob)
  }

  /** The height hill `ob` gives at (x, z): scale.y at the centre, falling linearly to 0 at the rim. */
  function HillHeight(m: MathLib, ob: Obstacle, x: real, z: real): real
    requires 0.0 < Radius(ob)
  {
    ob.scale.y * (1.0 - m.hypot(x - ob.pos.x, z - ob.pos.z) / Radius(ob))
  }

  /** The value of `maxH` after getElevation has scanned `obs` in order, starting from 0. */
  function Elevation(m: MathLib, obs: seq<Obstacle>, x: real, z: real): real
    requires WellFormed(obs)
  {
    if obs == [] then 0.0
    else
      var acc := Elevation(m, obs[..|obs| - 1], x, z);
      var ob := obs[|obs| - 1];
      RadiusPositive(obs, |obs| - 1);
      if Covers(m, ob, x, z) && HillHeight(m, ob, x, z) > acc then HillHeight(m, ob, x, z) else acc
  }

  /** `getElevation(x, z)`: the highest hill contribution at (x, z), or 0. */
  method GetElevation(m: MathLib, obs: seq<Obstacle>, x: real, z: real) returns (maxH: real)
    requires WellFormed(obs)
    ensures maxH == Elevation(m, obs, x, z)
  {
    maxH := 0.0;
    for i := 0 to |obs|
      invariant maxH == Elevation(m, obs[..i], x, z)
    {
      assert obs[..i + 1][..i] == obs[..i];
      var ob := obs[i];
      if ob.isMountain {
        continue;
      }
      var dx := x - ob.pos.x;
      var dz := z - ob.pos.z;
      var rx := ob.scale.x * 0.5;
      var rz := ob.scale.z * 0.5;
      var r := Max(rx, rz);
      var dist := m.hypot(dx, dz);
      if dist < r {
        var t := 1.0 - dist / r;
        var hillHeight := ob.scale.y * t;
        if hillHeight > maxH {
          maxH := hillHeight;
        }
      }
    }
    assert obs[..|obs|] == obs;
  }

  /** The largest scale.y among the hills covering (x, z); 0 if there are none. */
  function Tallest(m: MathLib, obs: seq<Obstacle>, x: real, z: real): real
  {
    if obs == [] then 0.0
    else
      var t := Tallest(m, obs[..|obs| - 1], x, z);
      var ob := obs[|obs| - 1];
      if Covers(m, ob, x, z) && ob.scale.y > t then ob.scale.y else t
  }

  /** The obstacles that are hills, in order. */
  function Hills(obs: seq<Obstacle>): (hs: seq<Obstacle>)
    ensures forall i :: 0 <= i < |hs| ==> !hs[i].isMountain
  {
    if obs == [] then []
    else if obs[|obs| - 1].isMountain then Hills(obs[..|obs| - 1])
    else Hills(obs[..|obs| - 1]) + [obs[|obs| - 1]]
  }

  lemma {:induction false} HillsWellFormed(obs: seq<Obstacle>)
    requires WellFormed(obs)
    ensures WellFormed(Hills(obs))
  {
    if obs != [] {
      HillsWellFormed(obs[..|obs| - 1]);
    }
  }

  /** Elevation is never negative. */
  lemma {:induction false} ElevationNonNegative(m: MathLib, obs: seq<Obstacle>, x: real, z: real)
    requires WellFormed(obs)
    ensures 0.0 <= Elevation(m, obs, x, z)
  {
    if obs != [] {
      ElevationNonNegative(m, obs[..|obs| - 1], x, z);
    }
  }

  /** Where no hill covers (x, z) the ground is flat: elevation 0. */
  lemma {:induction false} ElevationZeroOffHills(m: MathLib, obs: seq<Obstacle>, x: real, z: real)
    requires WellFormed(obs)
    requires forall i :: 0 <= i < |obs| ==> !Covers(m, obs[i], x, z)
    ensures Elevation(m, obs, x, z) == 0.0
  {
    if obs != [] {
      ElevationZeroOffHills(m, obs[..|obs| - 1], x, z);
    }
  }

  /** Elevation is at least what each covering hill contributes (it is the maximum). */
  lemma {:induction false} ElevationAtLeastHill(m: MathLib, obs: seq<Obstacle>, x: real, z: real, i: int)
    requires WellFormed(obs) && 0 <= i < |obs| && Covers(m, obs[i], x, z)
    ensures 0.0 < Radius(obs[i])
    ensures HillHeight(m, obs[i], x, z) <= Elevation(m, obs, x, z)
  {
    RadiusPositive(obs, i);
    if i < |obs| - 1 {
      ElevationAtLeastHill(m, obs[..|obs| - 1], x, z, i);
    }
  }

  /** A covering hill contributes a height in (0, scale.y]. */
  lemma HillHeightBounds(m: MathLib, ob: Obstacle, x: real, z: real)
    requires HypotSound(m) && 0.0 < ob.scale.y && 0.0 < Radius(ob) && Covers(m, ob, x, z)
    ensures 0.0 < HillHeight(m, ob, x, z) <= ob.scale.y
  {
    var d := m.hypot(x - ob.pos.x, z - ob.pos.z);
    var r := Radius(ob);
    RatioBelowOne(d, r);
  }

  /** Elevation never exceeds the tallest hill covering (x, z). */
  lemma {:induction false} ElevationBelowTallest(m: MathLib, obs: seq<Obstacle>, x: real, z: real)
    requires HypotSound(m) && WellFormed(obs)
    ensures Elevation(m, obs, x, z) <= Tallest(m, obs, x, z)
  {
    if obs != [] {
      var pre := obs[..|obs| - 1];
      ElevationBelowTallest(m, pre, x, z);
      TallestMonotone(m, pre, x, z);
      var ob := obs[|obs| - 1];
      RadiusPositive(obs, |obs| - 1);
      if Covers(m, ob, x, z) {
        HillHeightBounds(m, ob, x, z);
      }
    }
  }

  lemma {:induction false} TallestMonotone(m: MathLib, obs: seq<Obstacle>, x: real, z: real)
    ensures 0.0 <= Tallest(m, obs, x, z)
  {
    if obs != [] {
      TallestMonotone(m, obs[..|obs| - 1], x, z);
    }
  }

  /** Mountains never affect elevation: scanning only the hills gives the same height. */
  lemma {:induction false} ElevationIgnoresMountains(m: MathLib, obs: seq<Obstacle>, x: real, z: real)
    requires WellFormed(obs)
    ensures WellFormed(Hills(obs)) && Elevation(m, Hills(obs), x, z) == Elevation(m, obs, x, z)
  {
    HillsWellFormed(obs);
    if obs != [] {
      var pre := obs[..|obs| - 1];
      ElevationIgnoresMountains(m, pre, x, z);
      if !obs[|obs| - 1].isMountain {
        assert Hills(obs)[..|Hills(obs)| - 1] == Hills(pre);
      }
    }
  }

  /**
   * A point strictly inside a hill (by squared distance, the way the collision tests measure)
   * stands above ground: its elevation is in (0, scale.y of the tallest covering hill].
   */
  lemma InsideHillIsRaised(m: MathLib, obs: seq<Obstacle>, x: real, z: real, i: int)
    requires HypotSound(m) && WellFormed(obs) && 0 <= i < |obs| && !obs[i].isMountain
    requires Dist2(Vec3(x, 0.0, z), obs[i].pos) < Radius(obs[i]) * Radius(obs[i])
    ensures 0.0 < Elevation(m, obs, x, z) <= Tallest(m, obs, x, z)
  {
    var ob := obs[i];
    var d := m.hypot(x - ob.pos.x, z - ob.pos.z);
    RadiusPositive(obs, i);
    assert d * d == (x - ob.pos.x) * (x - ob.pos.x) + (z - ob.pos.z) * (z - ob.pos.z);
    if Radius(ob) <= d {
      SquareMonotone(Radius(ob), d);
      assert false;
    }
    assert Covers(m, ob, x, z);
    HillHeightBounds(m, ob, x, z);
    ElevationAtLeastHill(m, obs, x, z, i);
    ElevationBelowTallest(m, obs, x, z);
  }
}
