/**
 * The bullet pass of drawScene: every bullet, from the last to the first, moves one step,
 * ages by dt and is resolved — against mountains, against enemies (player shells) and
 * against the player (enemy shells) — and is removed if it hit something or expired.
 * A kill removes the enemy, brings in a replacement while fewer than MAX_ENEMIES remain,
 * and scores KILL_BONUS; a hit on the player respawns them, resets the score and starts
 * the invincibility timer.
 */
module Projectiles {
  import opened Wrappers
  import opened Numeric
  import opened Constants
  import opened Terrain
  import opened Entities
  import opened Placement

  /** The part of the game state a bullet can change, and the next unused draw of Math.random(). */
  datatype Combat = Combat(tank: Vec3, enemies: seq<Enemy>, score: int, invincible: real, draws: nat)

  /** A resolved bullet: the state after it, and whether it leaves the bullet list. */
  datatype Outcome = Outcome(c: Combat, removed: bool)

  /** One step of flight: BULLET_SPEED along its direction, and dt off its remaining life. */
  function Advance(b: Bullet, dt: real): Bullet {
    b.(pos := Vec3(b.pos.x + b.dir.x * BULLET_SPEED, b.pos.y + b.dir.y * BULLET_SPEED, b.pos.z + b.dir.z * BULLET_SPEED),
       life := b.life - dt)
  }

  /** Out of time, or more than BULLET_BOUND from the centre on x or z. */
  predicate Expired(b: Bullet) {
    b.life <= 0.0 || Abs(b.pos.x) > BULLET_BOUND || Abs(b.pos.z) > BULLET_BOUND
  }

  /**
   * Enemy `j` is destroyed: it leaves the list, a replacement from spawnEnemy() is appended
   * while fewer than MAX_ENEMIES remain, and the score goes up by KILL_BONUS.
   */
  function Kill(env: Env, heading: real, c: Combat, j: nat): Combat
    requires WellFormed(env.obstacles) && j < |c.enemies|
  {
    var rest := Splice(c.enemies, j);
    if |rest| < MAX_ENEMIES then
      var spawned := Spawned(env, c.tank, heading, c.draws);
      c.(enemies := rest + [spawned.0], score := c.score + KILL_BONUS, draws := spawned.1)
    else
      c.(enemies := rest, score := c.score + KILL_BONUS)
  }

  /** The player is shot: respawnPlayer() places them, the score resets and invincibility starts. */
  function PlayerHit(env: Env, c: Combat): Combat
    requires WellFormed(env.obstacles)
  {
    var respawn := Respawned(env, c.enemies, c.draws);
    c.(tank := respawn.0, score := 0, invincible := PLAYER_INVINCIBLE_TIME, draws := respawn.1)
  }

  /**
   * Resolving bullet `b` (already advanced) with the player's heading `heading`. The kill test
   * runs for a player shell even when it has just hit a mountain; the player test and the
   * expiry test run only for a bullet not yet removed.
   */
  function Resolve(env: Env, heading: real, c: Combat, b: Bullet): Outcome
    requires WellFormed(env.obstacles)
  {
    var terrainHit := BulletBlocked(env.obstacles, b.pos);
    var j := if b.owner == ByPlayer then LastHit(b.pos, c.enemies) else -1;
    var c1 := if j >= 0 then Kill(env, heading, c, j) else c;
    var removed := terrainHit || j >= 0;
    if !removed && b.owner == ByEnemy && c1.invincible <= 0.0 && BulletTouches(b.pos, c1.tank) then
      Outcome(PlayerHit(env, c1), true)
    else
      Outcome(c1, removed || Expired(b))
  }

  /**
   * The pass over `bs`, last bullet first. The result is the state after the pass and the
   * surviving bullets, advanced, in their original order.
   */
  function Pass(env: Env, heading: real, dt: real, c: Combat, bs: seq<Bullet>): (Combat, seq<Bullet>)
    requires WellFormed(env.obstacles)
    decreases |bs|
  {
    if bs == [] then (c, [])
    else
      var b := Advance(bs[|bs| - 1], dt);
      var o := Resolve(env, heading, c, b);
      var rest := Pass(env, heading, dt, o.c, bs[..|bs| - 1]);
      (rest.0, rest.1 + (if o.removed then [] else [b]))
  }

  /** The pass over a non-empty list resolves its last bullet first, then passes over the rest. */
  lemma PassStep(env: Env, heading: real, dt: real, c: Combat, bs: seq<Bullet>, b: Bullet, o: Outcome)
    requires WellFormed(env.obstacles) && bs != []
    requires b == Advance(bs[|bs| - 1], dt) && o == Resolve(env, heading, c, b)
    ensures var rest := Pass(env, heading, dt, o.c, bs[..|bs| - 1]);
      Pass(env, heading, dt, c, bs) == (rest.0, rest.1 + if o.removed then [] else [b])
  {
  }

  // ---------------------------------------------------------------- properties of one bullet

  /** The combat invariant: at most MAX_ENEMIES enemies, a score that is a whole number of kills, a timer in [0, 3]. */
  predicate CombatOk(c: Combat) {
    && |c.enemies| <= MAX_ENEMIES
    && 0 <= c.score && c.score % KILL_BONUS == 0
    && 0.0 <= c.invincible <= PLAYER_INVINCIBLE_TIME
  }

  /**
   * A kill with at most MAX_ENEMIES enemies replaces the enemy: the count is unchanged, the
   * enemies before it keep their places, the others move up one, and the newcomer is last.
   */
  lemma KillReplaces(env: Env, heading: real, c: Combat, j: nat)
    requires WellFormed(env.obstacles) && j < |c.enemies| <= MAX_ENEMIES
    ensures var r := Kill(env, heading, c, j);
      && |r.enemies| == |c.enemies|
      && r.enemies[..j] == c.enemies[..j]
      && r.enemies[j..|r.enemies| - 1] == c.enemies[j + 1..]
      && r.enemies[|r.enemies| - 1] == Spawned(env, c.tank, heading, c.draws).0
      && r.score == c.score + KILL_BONUS && r.tank == c.tank && r.invincible == c.invincible
  {
    var rest := Splice(c.enemies, j);
    SpliceIsSlices(c.enemies, j);
    var r := Kill(env, heading, c, j);
    assert r.enemies == rest + [Spawned(env, c.tank, heading, c.draws).0];
    assert r.enemies[..j] == rest[..j];
    assert r.enemies[j..|r.enemies| - 1] == rest[j..];
  }

  /** A player shell never touches the player, and an enemy shell never touches the enemies. */
  lemma ResolveOwners(env: Env, heading: real, c: Combat, b: Bullet)
    requires WellFormed(env.obstacles)
    ensures var o := Resolve(env, heading, c, b);
      && (b.owner == ByPlayer ==> o.c.tank == c.tank && o.c.invincible == c.invincible)
      && (b.owner == ByEnemy ==> o.c.enemies == c.enemies)
  {
  }

  /**
   * The bullet is removed exactly when it hit a mountain, killed an enemy (a player shell
   * touching one), hit the player (an enemy shell touching a player whose timer has run out)
   * or expired.
   */
  lemma ResolveRemoval(env: Env, heading: real, c: Combat, b: Bullet)
    requires WellFormed(env.obstacles)
    ensures var o := Resolve(env, heading, c, b);
      o.removed <==> (|| BulletBlocked(env.obstacles, b.pos)
                      || (b.owner == ByPlayer && LastHit(b.pos, c.enemies) >= 0)
                      || (b.owner == ByEnemy && c.invincible <= 0.0 && BulletTouches(b.pos, c.tank))
                      || Expired(b))
  {
  }

  /** With at most MAX_ENEMIES enemies the count is kept, and draws are only consumed. */
  lemma ResolveCounts(env: Env, heading: real, c: Combat, b: Bullet)
    requires WellFormed(env.obstacles) && |c.enemies| <= MAX_ENEMIES
    ensures var o := Resolve(env, heading, c, b);
      |o.c.enemies| == |c.enemies| && o.c.draws >= c.draws
  {
    ResolveOutcome(env, heading, c, b);
    var j := LastHit(b.pos, c.enemies);
    if b.owner == ByPlayer && j >= 0 {
      KillReplaces(env, heading, c, j);
      SpawnedDraws(env, c.tank, heading, c.draws);
    } else if ShotHitsPlayer(env.obstacles, c, b) {
      RespawnFromDraws(env, c.enemies, 0, c.draws);
    }
  }

  /**
   * An enemy shell that no mountain stopped hits a player whose timer has run out exactly
   * when it is within TANK_RADIUS of them.
   */
  predicate ShotHitsPlayer(obs: seq<Obstacle>, c: Combat, b: Bullet) {
    b.owner == ByEnemy && !BulletBlocked(obs, b.pos) && c.invincible <= 0.0 && BulletTouches(b.pos, c.tank)
  }

  /**
   * The player is hit exactly when ShotHitsPlayer holds: then the shell is removed and the
   * player is where respawnPlayer() puts them, with score 0 and a full invincibility timer;
   * otherwise, in particular while invincible, the player and the timer are untouched.
   */
  lemma ResolvePlayerHit(env: Env, heading: real, c: Combat, b: Bullet)
    requires WellFormed(env.obstacles)
    ensures var o := Resolve(env, heading, c, b);
      && (ShotHitsPlayer(env.obstacles, c, b) ==>
            && o.removed
            && o.c.tank == Respawned(env, c.enemies, c.draws).0
            && o.c.score == 0 && o.c.invincible == PLAYER_INVINCIBLE_TIME)
      && (!ShotHitsPlayer(env.obstacles, c, b) ==> o.c.tank == c.tank && o.c.invincible == c.invincible)
      && (c.invincible > 0.0 ==> o.c.tank == c.tank && o.c.invincible == c.invincible)
  {
  }

  /**
   * Which outcome a bullet has: a player shell touching an enemy is exactly the kill of the
   * last enemy it touches; an enemy shell that hits the player is exactly PlayerHit; any other
   * bullet, in particular an enemy shell while the player is invincible, leaves the combat
   * state as it was (score and draws included).
   */
  lemma ResolveOutcome(env: Env, heading: real, c: Combat, b: Bullet)
    requires WellFormed(env.obstacles)
    ensures var o := Resolve(env, heading, c, b); var j := LastHit(b.pos, c.enemies);
      && (b.owner == ByPlayer && j >= 0 ==> o.c == Kill(env, heading, c, j))
      && (ShotHitsPlayer(env.obstacles, c, b) ==> o.c == PlayerHit(env, c))
      && (!(b.owner == ByPlayer && j >= 0) && !ShotHitsPlayer(env.obstacles, c, b) ==> o.c == c)
      && (b.owner == ByEnemy && c.invincible > 0.0 ==> o.c == c)
  {
  }

  /** One bullet adds KILL_BONUS to the score, resets it, or leaves it; it restarts the timer or leaves it. */
  lemma ResolveShape(env: Env, heading: real, c: Combat, b: Bullet)
    requires WellFormed(env.obstacles)
    ensures var o := Resolve(env, heading, c, b);
      && (o.c.score == c.score || o.c.score == c.score + KILL_BONUS || o.c.score == 0)
      && (o.c.invincible == c.invincible || o.c.invincible == PLAYER_INVINCIBLE_TIME)
  {
    var j := if b.owner == ByPlayer then LastHit(b.pos, c.enemies) else -1;
    var c1 := if j >= 0 then Kill(env, heading, c, j) else c;
    if j >= 0 {
      KillScores(env, heading, c, j);
    }
    PlayerHitScores(env, c1);
  }

  /** A kill adds KILL_BONUS to the score and leaves the timer alone. */
  lemma KillScores(env: Env, heading: real, c: Combat, j: nat)
    requires WellFormed(env.obstacles) && j < |c.enemies|
    ensures Kill(env, heading, c, j).score == c.score + KILL_BONUS
    ensures Kill(env, heading, c, j).invincible == c.invincible
  {
  }

  /** A hit on the player resets the score and restarts the timer. */
  lemma PlayerHitScores(env: Env, c: Combat)
    requires WellFormed(env.obstacles)
    ensures PlayerHit(env, c).score == 0 && PlayerHit(env, c).invincible == PLAYER_INVINCIBLE_TIME
  {
  }

  /** Adding a kill to, or resetting, a non-negative multiple of KILL_BONUS gives another. */
  lemma ScoreStep(s: int, s': int)
    requires 0 <= s && s % KILL_BONUS == 0
    requires s' == s || s' == s + KILL_BONUS || s' == 0
    ensures 0 <= s' && s' % KILL_BONUS == 0
  {
  }

  /** Resolving a bullet keeps the combat invariant. */
  lemma ResolvePreserves(env: Env, heading: real, c: Combat, b: Bullet)
    requires WellFormed(env.obstacles) && CombatOk(c)
    ensures CombatOk(Resolve(env, heading, c, b).c)
  {
    ResolveCounts(env, heading, c, b);
    ResolveShape(env, heading, c, b);
    var o := Resolve(env, heading, c, b);
    ScoreStep(c.score, o.c.score);
  }

  // ---------------------------------------------------------------- properties of the pass

  /** Every bullet advanced one step, in order. */
  function AdvanceAll(bs: seq<Bullet>, dt: real): (r: seq<Bullet>)
    ensures |r| == |bs|
    ensures forall i :: 0 <= i < |bs| ==> r[i] == Advance(bs[i], dt)
  {
    if bs == [] then [] else AdvanceAll(bs[..|bs| - 1], dt) + [Advance(bs[|bs| - 1], dt)]
  }

  /** A shell after `n` ticks of flight: advanced `n` times. */
  function Aged(b: Bullet, dt: real, n: nat): (r: Bullet)
    ensures r.life == b.life - (n as real) * dt
    ensures r.dir == b.dir && r.owner == b.owner
  {
    if n == 0 then b else Advance(Aged(b, dt, n - 1), dt)
  }

  /**
   * A shell fired with life L has expired once n ticks with n * dt >= L have passed, so with
   * dt > 0 it is gone by tick ceil(L / dt) whatever it meets.
   */
  lemma AgedExpires(b: Bullet, dt: real, n: nat)
    requires b.life <= (n as real) * dt
    ensures Expired(Aged(b, dt, n))
  {
  }

  /** `a` is `b` with some elements left out, the rest in the same order. */
  predicate Subseq<T(==)>(a: seq<T>, b: seq<T>)
    decreases |b|
  {
    if a == [] then true
    else if b == [] then false
    else (a[|a| - 1] == b[|b| - 1] && Subseq(a[..|a| - 1], b[..|b| - 1])) || Subseq(a, b[..|b| - 1])
  }

  lemma {:induction false} SubseqLength<T>(a: seq<T>, b: seq<T>)
    requires Subseq(a, b)
    ensures |a| <= |b|
    decreases |b|
  {
    if a != [] {
      if a[|a| - 1] == b[|b| - 1] && Subseq(a[..|a| - 1], b[..|b| - 1]) {
        SubseqLength(a[..|a| - 1], b[..|b| - 1]);
      } else {
        SubseqLength(a, b[..|b| - 1]);
      }
    }
  }

  /** Appending the same element to both sides keeps, and appending to the right side alone keeps, a subsequence. */
  lemma SubseqExtend<T>(a: seq<T>, b: seq<T>, x: T)
    requires Subseq(a, b)
    ensures Subseq(a + [x], b + [x]) && Subseq(a, b + [x])
  {
    assert (a + [x])[..|a|] == a;
    assert (b + [x])[..|b|] == b;
  }

  /** The pass keeps the combat invariant and the number of enemies, and only consumes draws. */
  lemma {:induction false} PassPreserves(env: Env, heading: real, dt: real, c: Combat, bs: seq<Bullet>)
    requires WellFormed(env.obstacles) && CombatOk(c)
    ensures var r := Pass(env, heading, dt, c, bs);
      CombatOk(r.0) && |r.0.enemies| == |c.enemies| && r.0.draws >= c.draws
    decreases |bs|
  {
    if bs != [] {
      var b := Advance(bs[|bs| - 1], dt);
      ResolvePreserves(env, heading, c, b);
      ResolveCounts(env, heading, c, b);
      PassPreserves(env, heading, dt, Resolve(env, heading, c, b).c, bs[..|bs| - 1]);
    }
  }

  /** The bullets the pass keeps are some of the advanced bullets, in their original order. */
  lemma {:induction false} PassKeepsOrder(env: Env, heading: real, dt: real, c: Combat, bs: seq<Bullet>)
    requires WellFormed(env.obstacles)
    ensures Subseq(Pass(env, heading, dt, c, bs).1, AdvanceAll(bs, dt))
    ensures |Pass(env, heading, dt, c, bs).1| <= |bs|
    decreases |bs|
  {
    if bs != [] {
      var b := Advance(bs[|bs| - 1], dt);
      var o := Resolve(env, heading, c, b);
      PassKeepsOrder(env, heading, dt, o.c, bs[..|bs| - 1]);
      var rest := Pass(env, heading, dt, o.c, bs[..|bs| - 1]);
      assert AdvanceAll(bs, dt) == AdvanceAll(bs[..|bs| - 1], dt) + [b];
      SubseqExtend(rest.1, AdvanceAll(bs[..|bs| - 1], dt), b);
      var kept := Pass(env, heading, dt, c, bs).1;
      if o.removed {
        assert kept == rest.1 + [];
        assert kept == rest.1;
      } else {
        assert kept == rest.1 + [b];
      }
      SubseqLength(kept, AdvanceAll(bs, dt));
    }
  }

  /**
   * Every survivor of the pass is one of the input bullets advanced by one tick, and it has
   * not expired: its life is positive and it is within BULLET_BOUND on x and z.
   */
  lemma {:induction false} PassSurvivorsLive(env: Env, heading: real, dt: real, c: Combat, bs: seq<Bullet>)
    requires WellFormed(env.obstacles)
    ensures forall x :: x in Pass(env, heading, dt, c, bs).1 ==>
      !Expired(x) && exists k :: 0 <= k < |bs| && x == Advance(bs[k], dt)
    decreases |bs|
  {
    if bs != [] {
      var b := Advance(bs[|bs| - 1], dt);
      var o := Resolve(env, heading, c, b);
      var front := bs[..|bs| - 1];
      PassSurvivorsLive(env, heading, dt, o.c, front);
      ResolveRemoval(env, heading, c, b);
      var rest := Pass(env, heading, dt, o.c, front);
      forall x | x in Pass(env, heading, dt, c, bs).1
        ensures !Expired(x) && exists k :: 0 <= k < |bs| && x == Advance(bs[k], dt)
      {
        if x in rest.1 {
          var k :| 0 <= k < |front| && x == Advance(front[k], dt);
          assert front[k] == bs[k];
        } else {
          assert x == b;
        }
      }
    }
  }

  /**
   * A shell of life L is no longer among the bullets once n ticks with n * dt >= L have passed:
   * its n-fold advance never survives a pass.
   */
  lemma ShellAgesOut(env: Env, heading: real, dt: real, c: Combat, bs: seq<Bullet>, b: Bullet, n: nat)
    requires WellFormed(env.obstacles) && b.life <= (n as real) * dt
    ensures Aged(b, dt, n) !in Pass(env, heading, dt, c, bs).1
  {
    AgedExpires(b, dt, n);
    PassSurvivorsLive(env, heading, dt, c, bs);
  }

  /** While the player is invincible, no bullet of the pass moves them or touches the timer. */
  lemma {:induction false} PassWhileInvincible(env: Env, heading: real, dt: real, c: Combat, bs: seq<Bullet>)
    requires WellFormed(env.obstacles) && c.invincible > 0.0
    ensures Pass(env, heading, dt, c, bs).0.tank == c.tank
    ensures Pass(env, heading, dt, c, bs).0.invincible == c.invincible
    decreases |bs|
  {
    if bs != [] {
      var b := Advance(bs[|bs| - 1], dt);
      ResolvePlayerHit(env, heading, c, b);
      PassWhileInvincible(env, heading, dt, Resolve(env, heading, c, b).c, bs[..|bs| - 1]);
    }
  }

  /** The score only drops when the player was shot during the pass, which leaves them invincible. */
  lemma {:induction false} PassScore(env: Env, heading: real, dt: real, c: Combat, bs: seq<Bullet>)
    requires WellFormed(env.obstacles)
    ensures var r := Pass(env, heading, dt, c, bs);
      r.0.score >= c.score || r.0.invincible == PLAYER_INVINCIBLE_TIME
    decreases |bs|
  {
    if bs != [] {
      var b := Advance(bs[|bs| - 1], dt);
      var o := Resolve(env, heading, c, b);
      ResolvePlayerHit(env, heading, c, b);
      PassScore(env, heading, dt, o.c, bs[..|bs| - 1]);
      if o.c.invincible != c.invincible {
        PassWhileInvincible(env, heading, dt, o.c, bs[..|bs| - 1]);
      }
    }
  }

  // ---------------------------------------------------------------- the methods

  /**
   * The body of the bullet loop for bullet `b`, already advanced: the mountain test, the
   * reverse scan for a struck enemy, the player test and the expiry test.
   */
  method ResolveBullet(env: Env, heading: real, c: Combat, b: Bullet) returns (o: Outcome)
    requires WellFormed(env.obstacles)
    ensures o == Resolve(env, heading, c, b)
  {
    var remove := BulletHitsObstacle(env.obstacles, b.pos);
    var cur := c;
    if b.owner == ByPlayer {
      var j := LastEnemyHit(b.pos, cur.enemies);
      if j >= 0 {
        cur := KillEnemy(env, heading, cur, j);
        remove := true;
      }
    }
    if !remove && b.owner == ByEnemy && cur.invincible <= 0.0 {
      var dx := b.pos.x - cur.tank.x;
      var dz := b.pos.z - cur.tank.z;
      assert dx * dx + dz * dz == Dist2(b.pos, cur.tank);
      if dx * dx + dz * dz < TANK_RADIUS * TANK_RADIUS {
        cur := HitPlayer(env, cur);
        remove := true;
      }
    }
    if !remove && (b.life <= 0.0 || Abs(b.pos.x) > FIELD_SIZE / 2.0 + 10.0 || Abs(b.pos.z) > FIELD_SIZE / 2.0 + 10.0) {
      remove := true;
    }
    o := Outcome(cur, remove);
  }

  /** The kill branch of the bullet pass: splice enemy j out, spawn a replacement if needed, score. */
  method KillEnemy(env: Env, heading: real, c: Combat, j: nat) returns (c': Combat)
    requires WellFormed(env.obstacles) && j < |c.enemies|
    ensures c' == Kill(env, heading, c, j)
  {
    var enemies := Splice(c.enemies, j);
    var draws := c.draws;
    if |enemies| < MAX_ENEMIES {
      var e;
      e, draws := SpawnEnemy(env, c.tank, heading, draws);
      enemies := enemies + [e];
    }
    c' := c.(enemies := enemies, score := c.score + KILL_BONUS, draws := draws);
  }

  /** The player-hit branch: respawnPlayer(), score reset, invincibility started. */
  method HitPlayer(env: Env, c: Combat) returns (c': Combat)
    requires WellFormed(env.obstacles)
    ensures c' == PlayerHit(env, c)
  {
    var p, k := RespawnPlayer(env, c.enemies, c.draws);
    c' := c.(tank := p, score := 0, invincible := PLAYER_INVINCIBLE_TIME, draws := k);
  }

  /** One step of the reverse splice loop keeps its invariant's shape: bs[..i+1] ends in bs[i]. */
  lemma BulletIteration(bs: seq<Bullet>, i: int, kept: seq<Bullet>)
    requires 0 <= i < |bs|
    ensures bs[..i + 1][..i] == bs[..i]
    ensures bs[..i + 1][i] == bs[i]
    ensures Splice(bs[..i + 1] + kept, i) == bs[..i] + kept
  {
    SpliceIsSlices(bs[..i + 1] + kept, i);
    assert (bs[..i + 1] + kept)[i + 1..] == kept;
  }

  /**
   * Resolving bullet i of bs[..i + 1] as `o` turns the pass over bs[..i + 1] into the pass
   * over bs[..i] from o's state, with the advanced bullet kept ahead of `kept` unless removed.
   */
  lemma TurnSplices(env: Env, heading: real, dt: real, c: Combat, bs: seq<Bullet>, i: nat, kept: seq<Bullet>,
                    b: Bullet, o: Outcome, kept': seq<Bullet>)
    requires WellFormed(env.obstacles) && i < |bs|
    requires b == Advance(bs[i], dt) && o == Resolve(env, heading, c, b)
    requires kept' == if o.removed then kept else [b] + kept
    ensures var before := Pass(env, heading, dt, c, bs[..i + 1]);
      var after := Pass(env, heading, dt, o.c, bs[..i]);
      (after.0, after.1 + kept') == (before.0, before.1 + kept)
  {
    assert bs[..i + 1][..i] == bs[..i] && bs[..i + 1][i] == bs[i];
    PassStep(env, heading, dt, c, bs[..i + 1], b, o);
    var rest := Pass(env, heading, dt, o.c, bs[..i]);
    if o.removed {
      assert rest.1 + [] + kept == rest.1 + kept;
    } else {
      assert rest.1 + [b] + kept == rest.1 + kept';
    }
  }

  /**
   * One turn of the bullet loop at index i: bullets[i] is advanced and resolved, then kept
   * in place or spliced out. `kept` is the already-processed tail of the list.
   */
  method BulletTurn(env: Env, heading: real, dt: real, c: Combat, bs: seq<Bullet>, i: nat, bullets: seq<Bullet>, ghost kept: seq<Bullet>)
    returns (c': Combat, bullets': seq<Bullet>, ghost kept': seq<Bullet>)
    requires WellFormed(env.obstacles) && i < |bs| && bullets == bs[..i + 1] + kept
    ensures bullets' == bs[..i] + kept'
    ensures var before := Pass(env, heading, dt, c, bs[..i + 1]);
      var after := Pass(env, heading, dt, c', bs[..i]);
      (after.0, after.1 + kept') == (before.0, before.1 + kept)
  {
    BulletIteration(bs, i, kept);
    var b := bullets[i];
    assert b == bs[i];
    b := Advance(b, dt);
    var o := ResolveBullet(env, heading, c, b);
    c' := o.c;
    if o.removed {
      bullets' := Splice(bullets, i);
      kept' := kept;
    } else {
      bullets' := bullets[i := b];
      kept' := [b] + kept;
      assert bullets' == bs[..i] + kept';
    }
    TurnSplices(env, heading, dt, c, bs, i, kept, b, o, kept');
  }

  /**
   * The bullet loop of drawScene over `bs` from state `c`: the last bullet first, each one
   * advanced and resolved in place and spliced out when removed. The result is Pass.
   */
  method RunBullets(env: Env, heading: real, dt: real, c: Combat, bs: seq<Bullet>) returns (c': Combat, bullets: seq<Bullet>)
    requires WellFormed(env.obstacles)
    ensures (c', bullets) == Pass(env, heading, dt, c, bs)
  {
    ghost var target := Pass(env, heading, dt, c, bs);
    ghost var kept: seq<Bullet> := [];
    assert bs[..|bs|] == bs;
    assert target.1 + kept == target.1;
    c', bullets := c, bs;
    var i := |bullets| - 1;
    while i >= 0
      invariant -1 <= i < |bs|
      invariant bullets == bs[..i + 1] + kept
      invariant var r := Pass(env, heading, dt, c', bs[..i + 1]); (r.0, r.1 + kept) == target
      decreases i
    {
      c', bullets, kept := BulletTurn(env, heading, dt, c', bs, i, bullets, kept);
      i := i - 1;
    }
    assert bs[..0] == [];
  }
}
