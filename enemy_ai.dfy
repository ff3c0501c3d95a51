/**
 * `updateEnemies(dt)`: each enemy in list order turns toward the player, creeps forward if
 * the way is clear, aims its turret at the player and fires when in range and cooled down.
 * Enemies are updated one after another, so an enemy's collision test sees the enemies
 * before it already moved this tick. One enemy's update is the function StepEnemy; the
 * whole pass is the fold UpdateFrom.
 */
module EnemyAI {
  import opened Wrappers
  import opened Numeric
  import opened Constants
  import opened Angles
  import opened Terrain
  import opened Entities

  /** The outcome of one enemy's update: the enemy as updated and the shell it fired, if any. */
  datatype Step = Step(enemy: Enemy, shot: Option<Bullet>)

  /** The bearing of the player at `tank` as seen from `p`: atan2(dx, dz). */
  function Bearing(m: MathLib, tank: Vec3, p: Vec3): real {
    m.atan2(tank.x - p.x, tank.z - p.z)
  }

  /** The tentative position one step of ENEMY_SPEED ahead along `heading`, at the old height. */
  function Ahead(m: MathLib, p: Vec3, heading: real): Vec3 {
    Vec3(p.x + m.sin(heading) * ENEMY_SPEED, p.y, p.z + m.cos(heading) * ENEMY_SPEED)
  }

  /** Enemy `i` may step to `c`: no mountain, not onto the player, not onto another enemy. */
  predicate MoveAllowed(obs: seq<Obstacle>, tank: Vec3, enemies: seq<Enemy>, i: nat, c: Vec3) {
    !Blocked(obs, c) && !TanksOverlap(c, tank) && !EnemyNear(c, enemies, Some(i))
  }

  /** Where enemy `i` ends up with its new heading: the accepted step, on the ground, or where it was. */
  function Moved(m: MathLib, obs: seq<Obstacle>, tank: Vec3, enemies: seq<Enemy>, i: nat, heading: real): Vec3
    requires WellFormed(obs) && i < |enemies|
  {
    var e := enemies[i];
    var c := Ahead(m, e.pos, heading);
    if Dist2(tank, e.pos) > ENEMY_STOP_DIST2 && MoveAllowed(obs, tank, enemies, i, c) then
      Vec3(c.x, Elevation(m, obs, c.x, c.z), c.z)
    else
      e.pos
  }

  /** The shell an enemy at `pos` fires along bearing `target`: from the muzzle, tilted slightly up. */
  function EnemyShell(m: MathLib, pos: Vec3, target: real): Bullet {
    var fx := m.sin(target);
    var fz := m.cos(target);
    Bullet(Vec3(pos.x + fx * MUZZLE_OFFSET, pos.y + MUZZLE_HEIGHT, pos.z + fz * MUZZLE_OFFSET),
           Vec3(fx, ENEMY_SHOT_RISE, fz), BULLET_LIFETIME, ByEnemy)
  }

  /**
   * One enemy's update against the current list; `jitter` is the draw used for the cooldown
   * reset if it fires. The range test uses the distance from before the move.
   */
  function StepEnemy(m: MathLib, obs: seq<Obstacle>, tank: Vec3, enemies: seq<Enemy>, i: nat, dt: real, jitter: real): Step
    requires WellFormed(obs) && i < |enemies|
  {
    var e := enemies[i];
    var dist2 := Dist2(tank, e.pos);
    var target := Bearing(m, tank, e.pos);
    var heading := e.heading + EnemyTurn(target, e.heading);
    var pos := Moved(m, obs, tank, enemies, i, heading);
    var turret := Wrap(target + PI - heading);
    var cooldown := e.cooldown - dt;
    if dist2 < ENEMY_FIRE_RANGE * ENEMY_FIRE_RANGE && cooldown <= 0.0 then
      Step(Enemy(pos, heading, turret, ENEMY_FIRE_COOLDOWN + jitter * COOLDOWN_JITTER), Some(EnemyShell(m, pos, target)))
    else
      Step(Enemy(pos, heading, turret, cooldown), None)
  }

  /**
   * What one enemy's update guarantees: the heading turns by the clamped single-wrap turn, so
   * by at most ENEMY_TURN_SPEED, and a heading in [-3 PI, 3 PI] stays there; more than 2 units
   * from the player the enemy steps to the one-step candidate, grounded, exactly when no
   * mountain, player or other enemy blocks it, and otherwise stays exactly where it was; the turret's world yaw is the bearing
   * plus PI up to whole turns; it fires exactly when in range with its cooldown run out, and then
   * the cooldown restarts in [10, 10.4); otherwise the cooldown just counts down.
   */
  lemma StepEnemySound(m: MathLib, obs: seq<Obstacle>, tank: Vec3, enemies: seq<Enemy>, i: nat, dt: real, jitter: real)
    requires WellFormed(obs) && i < |enemies|
    requires 0.0 <= jitter < 1.0
    ensures var e := enemies[i]; var s := StepEnemy(m, obs, tank, enemies, i, dt, jitter);
      && s.enemy.heading == e.heading + EnemyTurn(Bearing(m, tank, e.pos), e.heading)
      && Abs(s.enemy.heading - e.heading) <= ENEMY_TURN_SPEED
      && (Atan2InRange(m) && -3.0 * PI <= e.heading <= 3.0 * PI ==> -3.0 * PI <= s.enemy.heading <= 3.0 * PI)
      && (Dist2(tank, e.pos) <= ENEMY_STOP_DIST2 ==> s.enemy.pos == e.pos)
      && (var c := Ahead(m, e.pos, s.enemy.heading);
          if Dist2(tank, e.pos) > ENEMY_STOP_DIST2 && MoveAllowed(obs, tank, enemies, i, c)
          then s.enemy.pos == Vec3(c.x, Elevation(m, obs, c.x, c.z), c.z)
          else s.enemy.pos == e.pos)
      && (|| s.enemy.pos == e.pos
          || (&& !Blocked(obs, s.enemy.pos) && !TanksOverlap(s.enemy.pos, tank)
              && !EnemyNear(s.enemy.pos, enemies, Some(i))
              && s.enemy.pos.y == Elevation(m, obs, s.enemy.pos.x, s.enemy.pos.z)))
      && (var w := s.enemy.heading + s.enemy.turretOffset; var aim := Bearing(m, tank, e.pos) + PI;
          w == aim || w == aim - 2.0 * PI || w == aim + 2.0 * PI)
      && (s.shot.Some? <==> Dist2(tank, e.pos) < ENEMY_FIRE_RANGE * ENEMY_FIRE_RANGE && e.cooldown - dt <= 0.0)
      && (s.shot.Some? ==> && s.shot.value.owner == ByEnemy && s.shot.value.life == BULLET_LIFETIME
                           && ENEMY_FIRE_COOLDOWN <= s.enemy.cooldown < ENEMY_FIRE_COOLDOWN + COOLDOWN_JITTER)
      && (s.shot.None? ==> s.enemy.cooldown == e.cooldown - dt)
  {
    var e := enemies[i];
    var target := Bearing(m, tank, e.pos);
    var heading := e.heading + EnemyTurn(target, e.heading);
    if Atan2InRange(m) && -3.0 * PI <= e.heading <= 3.0 * PI {
      HeadingStaysBounded(target, e.heading);
    }
    var c := Ahead(m, e.pos, heading);
    var p := Vec3(c.x, Elevation(m, obs, c.x, c.z), c.z);
    BlockedIgnoresHeight(obs, c, p);
    EnemyNearIgnoresHeight(c, p, enemies, Some(i));
    assert TanksOverlap(c, tank) == TanksOverlap(p, tank);
  }

  /** The enemies, the live bullets and the next unused draw, as updateEnemies threads them. */
  datatype AiState = AiState(enemies: seq<Enemy>, bullets: seq<Bullet>, draws: nat)

  /** One enemy's update applied to the state: replace it, append its shell, consume a draw if it fired. */
  function Apply(env: Env, tank: Vec3, dt: real, s: AiState, i: nat): AiState
    requires WellFormed(env.obstacles) && i < |s.enemies|
  {
    var st := StepEnemy(env.m, env.obstacles, tank, s.enemies, i, dt, env.rand(s.draws));
    match st.shot
    case None => AiState(s.enemies[i := st.enemy], s.bullets, s.draws)
    case Some(b) => AiState(s.enemies[i := st.enemy], s.bullets + [b], s.draws + 1)
  }

  /**
   * `r` is `s` after enemy `i`'s update, as far as counting goes: only enemy `i` changed, and
   * its heading by at most ENEMY_TURN_SPEED; at most one shell was appended, an enemy shell,
   * with one draw per shell.
   */
  predicate OneStep(s: AiState, r: AiState, i: nat) {
    && |r.enemies| == |s.enemies| && i < |s.enemies|
    && (forall j :: 0 <= j < |s.enemies| && j != i ==> r.enemies[j] == s.enemies[j])
    && Abs(r.enemies[i].heading - s.enemies[i].heading) <= ENEMY_TURN_SPEED
    && |s.bullets| <= |r.bullets| <= |s.bullets| + 1
    && r.bullets[..|s.bullets|] == s.bullets
    && (forall j :: |s.bullets| <= j < |r.bullets| ==> r.bullets[j].owner == ByEnemy)
    && r.draws == s.draws + (|r.bullets| - |s.bullets|)
  }

  /**
   * `r` is `s` after the updates of enemies i, i+1, ...: same number of enemies, those before
   * i untouched, each later one turned by at most ENEMY_TURN_SPEED; at most one enemy shell
   * appended per updated enemy, and one draw per shell.
   */
  predicate Follows(s: AiState, r: AiState, i: nat) {
    && |r.enemies| == |s.enemies| && i <= |s.enemies|
    && r.enemies[..i] == s.enemies[..i]
    && |s.bullets| <= |r.bullets| <= |s.bullets| + (|s.enemies| - i)
    && r.bullets[..|s.bullets|] == s.bullets
    && (forall j :: |s.bullets| <= j < |r.bullets| ==> r.bullets[j].owner == ByEnemy)
    && r.draws == s.draws + (|r.bullets| - |s.bullets|)
    && (forall j :: i <= j < |s.enemies| ==> Abs(r.enemies[j].heading - s.enemies[j].heading) <= ENEMY_TURN_SPEED)
  }

  /** One step from enemy i followed by the updates from enemy i + 1 are the updates from enemy i. */
  lemma FollowsCompose(s: AiState, s': AiState, r: AiState, i: nat)
    requires OneStep(s, s', i) && Follows(s', r, i + 1)
    ensures Follows(s, r, i)
  {
    assert r.enemies[..i] == r.enemies[..i + 1][..i];
    assert s'.enemies[..i] == s.enemies[..i] by {
      assert forall j :: 0 <= j < i ==> s'.enemies[j] == s.enemies[j];
    }
    assert r.enemies[i] == s'.enemies[i] by {
      assert r.enemies[..i + 1][i] == s'.enemies[..i + 1][i];
    }
    assert r.bullets[..|s.bullets|] == r.bullets[..|s'.bullets|][..|s.bullets|];
    forall j | |s.bullets| <= j < |s'.bullets| ensures r.bullets[j] == s'.bullets[j] {
      assert r.bullets[..|s'.bullets|][j] == s'.bullets[j];
    }
  }

  /** One enemy's update is a step of the kind OneStep describes. */
  lemma ApplySound(env: Env, tank: Vec3, dt: real, s: AiState, i: nat)
    requires WellFormed(env.obstacles) && i < |s.enemies|
    ensures OneStep(s, Apply(env, tank, dt, s, i), i)
  {
  }

  /** The pass over enemies i, i+1, ... in list order. */
  function UpdateFrom(env: Env, tank: Vec3, dt: real, s: AiState, i: nat): AiState
    requires WellFormed(env.obstacles) && i <= |s.enemies|
    decreases |s.enemies| - i
  {
    if i == |s.enemies| then s
    else UpdateFrom(env, tank, dt, Apply(env, tank, dt, s, i), i + 1)
  }

  /** `updateEnemies(dt)` with the player at `tank`. */
  function UpdateEnemies(env: Env, tank: Vec3, dt: real, s: AiState): AiState
    requires WellFormed(env.obstacles)
  {
    UpdateFrom(env, tank, dt, s, 0)
  }

  /**
   * The pass from enemy i on is related to its start by Follows: it keeps the number of
   * enemies and the enemies before i; it only appends to the bullet list, at most one shell per
   * remaining enemy, every one an enemy shell; it uses exactly one draw per shell; and each
   * remaining enemy turns by at most ENEMY_TURN_SPEED.
   */
  lemma {:induction false} UpdateFromSound(env: Env, tank: Vec3, dt: real, s: AiState, i: nat)
    requires WellFormed(env.obstacles) && i <= |s.enemies|
    ensures Follows(s, UpdateFrom(env, tank, dt, s, i), i)
    decreases |s.enemies| - i
  {
    if i < |s.enemies| {
      var s' := Apply(env, tank, dt, s, i);
      ApplySound(env, tank, dt, s, i);
      UpdateFromSound(env, tank, dt, s', i + 1);
      FollowsCompose(s, s', UpdateFrom(env, tank, dt, s', i + 1), i);
    }
  }

  /** The whole pass: the enemy count is kept, and only enemy shells are added, one draw each. */
  lemma UpdateEnemiesSound(env: Env, tank: Vec3, dt: real, s: AiState)
    requires WellFormed(env.obstacles)
    ensures var r := UpdateEnemies(env, tank, dt, s);
      && |r.enemies| == |s.enemies|
      && |s.bullets| <= |r.bullets| <= |s.bullets| + |s.enemies|
      && r.bullets[..|s.bullets|] == s.bullets
      && (forall j :: |s.bullets| <= j < |r.bullets| ==> r.bullets[j].owner == ByEnemy)
      && r.draws == s.draws + (|r.bullets| - |s.bullets|)
      && (forall j :: 0 <= j < |s.enemies| ==> Abs(r.enemies[j].heading - s.enemies[j].heading) <= ENEMY_TURN_SPEED)
  {
    UpdateFromSound(env, tank, dt, s, 0);
  }

  /** Every enemy heading lies in [-3 PI, 3 PI]. */
  predicate HeadingsBounded(es: seq<Enemy>) {
    forall j :: 0 <= j < |es| ==> -3.0 * PI <= es[j].heading <= 3.0 * PI
  }

  /**
   * With atan2 in [-PI, PI], the pass from enemy i on keeps every heading in [-3 PI, 3 PI]:
   * enemy headings accumulate, but never beyond that range.
   */
  lemma {:induction false} UpdateFromKeepsHeadings(env: Env, tank: Vec3, dt: real, s: AiState, i: nat)
    requires WellFormed(env.obstacles) && i <= |s.enemies|
    requires Atan2InRange(env.m) && HeadingsBounded(s.enemies)
    ensures HeadingsBounded(UpdateFrom(env, tank, dt, s, i).enemies)
    decreases |s.enemies| - i
  {
    if i < |s.enemies| {
      var e := s.enemies[i];
      HeadingStaysBounded(Bearing(env.m, tank, e.pos), e.heading);
      var s' := Apply(env, tank, dt, s, i);
      assert HeadingsBounded(s'.enemies);
      UpdateFromKeepsHeadings(env, tank, dt, s', i + 1);
    }
  }

  /** `updateEnemies` keeps every enemy heading in [-3 PI, 3 PI]. */
  lemma UpdateEnemiesKeepsHeadings(env: Env, tank: Vec3, dt: real, s: AiState)
    requires WellFormed(env.obstacles) && Atan2InRange(env.m) && HeadingsBounded(s.enemies)
    ensures HeadingsBounded(UpdateEnemies(env, tank, dt, s).enemies)
  {
    UpdateFromKeepsHeadings(env, tank, dt, s, 0);
  }

  /** The movement part of updateEnemies' loop body for enemy `i`, `dist2` being its squared distance to the player. */
  method MoveEnemy(m: MathLib, obs: seq<Obstacle>, tank: Vec3, enemies: seq<Enemy>, i: nat, heading: real, dist2: real)
    returns (pos: Vec3)
    requires WellFormed(obs) && i < |enemies| && dist2 == Dist2(tank, enemies[i].pos)
    ensures pos == Moved(m, obs, tank, enemies, i, heading)
  {
    var e := enemies[i];
    pos := e.pos;
    if dist2 > ENEMY_STOP_DIST2 {
      var fx := m.sin(heading);
      var fz := m.cos(heading);
      var testPos := Vec3(e.pos.x + fx * ENEMY_SPEED, e.pos.y, e.pos.z + fz * ENEMY_SPEED);
      var blocked := Collision(obs, testPos);
      var near := false;
      if !blocked && !TanksOverlap(testPos, tank) {
        near := CollidesWithEnemies(testPos, enemies, Some(i));
      }
      if !blocked && !TanksOverlap(testPos, tank) && !near {
        var y := GetElevation(m, obs, testPos.x, testPos.z);
        pos := Vec3(testPos.x, y, testPos.z);
      }
    }
  }

  /**
   * The body of updateEnemies' loop for enemy `i`, with `k` the next draw: the update StepEnemy
   * describes, drawing Math.random() only when it fires.
   */
  method UpdateEnemy(env: Env, tank: Vec3, enemies: seq<Enemy>, i: nat, dt: real, k: nat) returns (st: Step, k': nat)
    requires WellFormed(env.obstacles) && i < |enemies|
    ensures st == StepEnemy(env.m, env.obstacles, tank, enemies, i, dt, env.rand(k))
    ensures k' == if st.shot.Some? then k + 1 else k
  {
    var e := enemies[i];
    var dx := tank.x - e.pos.x;
    var dz := tank.z - e.pos.z;
    var dist2 := dx * dx + dz * dz;
    assert dist2 == Dist2(tank, e.pos);
    var targetHeading := env.m.atan2(dx, dz);
    var diff := targetHeading - e.heading;
    if diff > PI {
      diff := diff - 2.0 * PI;
    }
    if diff < -PI {
      diff := diff + 2.0 * PI;
    }
    var turn := Max(-ENEMY_TURN_SPEED, Min(ENEMY_TURN_SPEED, diff));
    assert turn == EnemyTurn(targetHeading, e.heading);
    var heading := e.heading + turn;
    var pos := MoveEnemy(env.m, env.obstacles, tank, enemies, i, heading, dist2);
    var turretYaw := Wrap(targetHeading + PI - heading);
    var cooldown := e.cooldown - dt;
    if dist2 < ENEMY_FIRE_RANGE * ENEMY_FIRE_RANGE && cooldown <= 0.0 {
      var fx := env.m.sin(targetHeading);
      var fz := env.m.cos(targetHeading);
      var shell := Bullet(Vec3(pos.x + fx * MUZZLE_OFFSET, pos.y + MUZZLE_HEIGHT, pos.z + fz * MUZZLE_OFFSET),
                          Vec3(fx, ENEMY_SHOT_RISE, fz), BULLET_LIFETIME, ByEnemy);
      var jitter := env.rand(k);
      st := Step(Enemy(pos, heading, turretYaw, ENEMY_FIRE_COOLDOWN + jitter * COOLDOWN_JITTER), Some(shell));
      k' := k + 1;
    } else {
      st := Step(Enemy(pos, heading, turretYaw, cooldown), None);
      k' := k;
    }
  }

  /** One turn of updateEnemies' loop on the threaded state: enemy `i` updated, its shell appended. */
  method ApplyEnemy(env: Env, tank: Vec3, dt: real, s: AiState, i: nat) returns (s': AiState)
    requires WellFormed(env.obstacles) && i < |s.enemies|
    ensures s' == Apply(env, tank, dt, s, i)
    ensures |s'.enemies| == |s.enemies|
  {
    var st, k := UpdateEnemy(env, tank, s.enemies, i, dt, s.draws);
    if st.shot.Some? {
      s' := AiState(s.enemies[i := st.enemy], s.bullets + [st.shot.value], k);
    } else {
      s' := AiState(s.enemies[i := st.enemy], s.bullets, k);
    }
  }

  /** The loop of updateEnemies over enemies 0, 1, ... of `s`, drawing from the stream at s.draws. */
  method RunEnemies(env: Env, tank: Vec3, dt: real, s: AiState) returns (r: AiState)
    requires WellFormed(env.obstacles)
    ensures r == UpdateEnemies(env, tank, dt, s)
  {
    r := s;
    var i := 0;
    while i < |r.enemies|
      invariant 0 <= i <= |r.enemies| == |s.enemies|
      invariant UpdateFrom(env, tank, dt, r, i) == UpdateEnemies(env, tank, dt, s)
      decreases |r.enemies| - i
    {
      r := ApplyEnemy(env, tank, dt, r, i);
      i := i + 1;
    }
  }
}
