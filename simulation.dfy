/**
 * The game's global state and the handlers that change it: main() sets it up, handleKeyDown
 * and the mouse-click listener respond to input, and each frame of drawScene runs one tick
 * (timer decay, enemy update, bullet pass, turret aim). Drawing is not part of the model.
 */
module Simulation {
  import opened Wrappers
  import opened Numeric
  import opened Constants
  import opened Terrain
  import opened Entities
  import AI = EnemyAI
  import opened Projectiles
  import opened Aiming
  import opened Controls

  /** The key codes handleKeyDown distinguishes; every other key does nothing. */
  datatype Key = KeyW | KeyS | KeyA | KeyD | ArrowLeft | ArrowRight | Space | OtherKey

  /** An enemy as main() first creates it: at height 0, facing `heading`, cooldown drawn from rand(k). */
  function Placed(env: Env, x: real, z: real, heading: real, k: nat): Enemy {
    Enemy(Vec3(x, 0.0, z), heading, 0.0, env.rand(k) * ENEMY_FIRE_COOLDOWN)
  }

  /** The three enemies main() pushes, in order, drawing one cooldown each. */
  function PlacedEnemies(env: Env): seq<Enemy> {
    [Placed(env, 8.0, 5.0, PI, 0), Placed(env, -6.0, -4.0, PI / 2.0, 1), Placed(env, 3.0, -10.0, 0.0, 2)]
  }

  /** Enemy `e` set down on the terrain under it. */
  function Grounded(env: Env, e: Enemy): Enemy
    requires WellFormed(env.obstacles)
  {
    e.(pos := Vec3(e.pos.x, Elevation(env.m, env.obstacles, e.pos.x, e.pos.z), e.pos.z))
  }

  /** The enemies after main()'s grounding loop. */
  function StartingEnemies(env: Env): seq<Enemy>
    requires WellFormed(env.obstacles)
  {
    var ps := PlacedEnemies(env);
    [Grounded(env, ps[0]), Grounded(env, ps[1]), Grounded(env, ps[2])]
  }

  /**
   * main() starts MAX_ENEMIES enemies at (8, 5), (-6, -4) and (3, -10), facing PI, PI/2 and
   * 0, each resting on the terrain with its turret straight ahead and a cooldown in
   * [0, ENEMY_FIRE_COOLDOWN).
   */
  lemma StartingEnemiesSound(env: Env)
    requires EnvOk(env)
    ensures var es := StartingEnemies(env);
      && |es| == MAX_ENEMIES
      && es[0].pos.x == 8.0 && es[0].pos.z == 5.0 && es[0].heading == PI
      && es[1].pos.x == -6.0 && es[1].pos.z == -4.0 && es[1].heading == PI / 2.0
      && es[2].pos.x == 3.0 && es[2].pos.z == -10.0 && es[2].heading == 0.0
      && (forall j :: 0 <= j < |es| ==>
            && es[j].pos.y == Elevation(env.m, env.obstacles, es[j].pos.x, es[j].pos.z)
            && es[j].turretOffset == 0.0
            && 0.0 <= es[j].cooldown < ENEMY_FIRE_COOLDOWN)
  {
    var es := StartingEnemies(env);
    forall j | 0 <= j < |es|
      ensures 0.0 <= es[j].cooldown < ENEMY_FIRE_COOLDOWN
    {
      assert es[j].cooldown == env.rand(j) * ENEMY_FIRE_COOLDOWN;
      assert 0.0 <= env.rand(j) < 1.0;
    }
  }

  /** The whole mutable state of the game. */
  class Game {
    /** The world: the math routines, the obstacles and the stream of Math.random() draws. */
    const env: Env
    var tankPos: Vec3
    var tankHeading: real
    var turretOffset: real
    var aimPoint: Vec3
    var enemies: seq<Enemy>
    var bullets: seq<Bullet>
    var score: int
    var invincible: real
    /** How many draws of Math.random() have been used so far. */
    var draws: nat

    /**
     * The game invariant: well-formed obstacles, exactly MAX_ENEMIES enemies, a score that is
     * a whole number of kills, a timer in [0, PLAYER_INVINCIBLE_TIME], an aim point on the ground.
     */
    predicate Valid()
      reads this
    {
      && WellFormed(env.obstacles)
      && |enemies| == MAX_ENEMIES
      && CombatOk(Combat(tankPos, enemies, score, invincible, draws))
      && aimPoint.y == 0.0
    }

    /** main(): the player at the origin, three enemies placed and grounded, no bullets, score 0. */
    constructor (env: Env)
      requires WellFormed(env.obstacles)
      ensures Valid()
      ensures this.env == env
      ensures tankPos == Vec3(0.0, 0.0, 0.0) && tankHeading == 0.0 && turretOffset == 0.0
      ensures aimPoint == Vec3(0.0, 0.0, 0.0) && bullets == [] && score == 0 && invincible == 0.0
      ensures enemies == StartingEnemies(env) && draws == 3
    {
      var es := PlacedEnemies(env);
      var i := 0;
      while i < |es|
        invariant 0 <= i <= |es| == 3
        invariant forall j :: 0 <= j < 3 ==> es[j] == if j < i then Grounded(env, PlacedEnemies(env)[j]) else PlacedEnemies(env)[j]
      {
        var e := es[i];
        var y := GetElevation(env.m, env.obstacles, e.pos.x, e.pos.z);
        es := es[i := e.(pos := Vec3(e.pos.x, y, e.pos.z))];
        i := i + 1;
      }
      this.env := env;
      tankPos := Vec3(0.0, 0.0, 0.0);
      tankHeading := 0.0;
      turretOffset := 0.0;
      aimPoint := Vec3(0.0, 0.0, 0.0);
      enemies := es;
      bullets := [];
      score := 0;
      invincible := 0.0;
      draws := 3;
    }

    /**
     * The W (step MOVE_SPEED) and S (step -MOVE_SPEED) cases of handleKeyDown: the tentative
     * position is checked against the mountains and then against the enemies, taken only if
     * both are clear, and the height is refreshed either way.
     */
    method Move(step: real)
      requires Valid()
      modifies this
      ensures Valid()
      ensures tankPos == Drive(env.m, env.obstacles, enemies, old(tankPos), tankHeading, step)
      ensures tankHeading == old(tankHeading) && turretOffset == old(turretOffset) && aimPoint == old(aimPoint)
      ensures enemies == old(enemies) && bullets == old(bullets)
      ensures score == old(score) && invincible == old(invincible) && draws == old(draws)
    {
      var forwardX := env.m.sin(tankHeading);
      var forwardZ := env.m.cos(tankHeading);
      var newX := tankPos.x + forwardX * step;
      var newZ := tankPos.z + forwardZ * step;
      var testPos := Vec3(newX, tankPos.y, newZ);
      assert testPos == DriveTarget(env.m, tankPos, tankHeading, step);
      var blocked := Collision(env.obstacles, testPos);
      var crowded := false;
      if !blocked {
        crowded := CollidesWithEnemies(testPos, enemies, None);
      }
      if !blocked && !crowded {
        tankPos := tankPos.(x := newX, z := newZ);
      }
      var y := GetElevation(env.m, env.obstacles, tankPos.x, tankPos.z);
      tankPos := tankPos.(y := y);
    }

    /** The Space case of handleKeyDown and the mousedown listener: a player shell is appended. */
    method Fire()
      requires Valid()
      modifies this
      ensures Valid()
      ensures bullets == old(bullets) + [PlayerShell(env.m, aimPoint, tankPos)]
      ensures tankPos == old(tankPos) && tankHeading == old(tankHeading) && turretOffset == old(turretOffset)
      ensures aimPoint == old(aimPoint) && enemies == old(enemies)
      ensures score == old(score) && invincible == old(invincible) && draws == old(draws)
    {
      var d := Vec3(aimPoint.x - tankPos.x, aimPoint.y - tankPos.y, aimPoint.z - tankPos.z);
      d := d.(y := PLAYER_SHOT_RISE);
      var dir := env.m.normalize(d);
      var startPos := Vec3(tankPos.x + dir.x * MUZZLE_OFFSET, tankPos.y + MUZZLE_HEIGHT, tankPos.z + dir.z * MUZZLE_OFFSET);
      bullets := bullets + [Bullet(startPos, dir, BULLET_LIFETIME, ByPlayer)];
    }

    /**
     * handleKeyDown: W and S drive, A and D turn the body by TURN_SPEED, the arrow keys turn
     * the turret by TURRET_TURN_SPEED, Space fires; any other key changes nothing.
     */
    method HandleKey(key: Key)
      requires Valid()
      modifies this
      ensures Valid()
      ensures tankPos == match key
        case KeyW => Drive(env.m, env.obstacles, enemies, old(tankPos), old(tankHeading), MOVE_SPEED)
        case KeyS => Drive(env.m, env.obstacles, enemies, old(tankPos), old(tankHeading), -MOVE_SPEED)
        case _ => old(tankPos)
      ensures tankHeading == old(tankHeading) + match key
        case KeyA => TURN_SPEED
        case KeyD => -TURN_SPEED
        case _ => 0.0
      ensures turretOffset == old(turretOffset) + match key
        case ArrowLeft => TURRET_TURN_SPEED
        case ArrowRight => -TURRET_TURN_SPEED
        case _ => 0.0
      ensures bullets == old(bullets) + if key == Space then [PlayerShell(env.m, aimPoint, tankPos)] else []
      ensures aimPoint == old(aimPoint) && enemies == old(enemies)
      ensures score == old(score) && invincible == old(invincible) && draws == old(draws)
    {
      match key
      case KeyW => Move(MOVE_SPEED);
      case KeyS => Move(-MOVE_SPEED);
      case KeyA => tankHeading := tankHeading + TURN_SPEED;
      case KeyD => tankHeading := tankHeading - TURN_SPEED;
      case ArrowLeft => turretOffset := turretOffset + TURRET_TURN_SPEED;
      case ArrowRight => turretOffset := turretOffset - TURRET_TURN_SPEED;
      case Space => Fire();
      case OtherKey =>
    }

    /**
     * updateEnemies(dt): each enemy in list order takes its step against the list as updated
     * so far, and its shell, if any, is appended to the bullets.
     */
    method StepEnemies(dt: real)
      requires Valid()
      modifies this
      ensures Valid()
      ensures AI.AiState(enemies, bullets, draws) == AI.UpdateEnemies(env, tankPos, dt, AI.AiState(old(enemies), old(bullets), old(draws)))
      ensures tankPos == old(tankPos) && tankHeading == old(tankHeading) && turretOffset == old(turretOffset)
      ensures aimPoint == old(aimPoint) && score == old(score) && invincible == old(invincible)
    {
      AI.UpdateEnemiesSound(env, tankPos, dt, AI.AiState(enemies, bullets, draws));
      var r := AI.RunEnemies(env, tankPos, dt, AI.AiState(enemies, bullets, draws));
      enemies, bullets, draws := r.enemies, r.bullets, r.draws;
    }

    /**
     * The bullet loop of drawScene: from the last bullet to the first, each is advanced and
     * resolved, and spliced out of the list when removed.
     */
    method StepBullets(dt: real)
      requires Valid()
      modifies this
      ensures Valid()
      ensures var r := Pass(env, tankHeading, dt, Combat(old(tankPos), old(enemies), old(score), old(invincible), old(draws)), old(bullets));
        Combat(tankPos, enemies, score, invincible, draws) == r.0 && bullets == r.1
      ensures tankHeading == old(tankHeading) && turretOffset == old(turretOffset) && aimPoint == old(aimPoint)
    {
      var c := Combat(tankPos, enemies, score, invincible, draws);
      PassPreserves(env, tankHeading, dt, c, bullets);
      var c', kept := RunBullets(env, tankHeading, dt, c, bullets);
      assert CombatOk(c') && |c'.enemies| == MAX_ENEMIES;
      assert c' == Combat(c'.tank, c'.enemies, c'.score, c'.invincible, c'.draws);
      tankPos, enemies, score, invincible, draws := c'.tank, c'.enemies, c'.score, c'.invincible, c'.draws;
      bullets := kept;
    }

    /**
     * The drawScene tick: the invincibility timer decays, the enemies move and fire, the
     * bullets fly and are resolved, and the turret follows the pointer ray.
     */
    method Tick(ray: Option<Ray>)
      requires Valid()
      modifies this
      ensures Valid()
      ensures var t := Decay(old(invincible), DT);
        var ai := AI.UpdateEnemies(env, old(tankPos), DT, AI.AiState(old(enemies), old(bullets), old(draws)));
        var pass := Pass(env, old(tankHeading), DT, Combat(old(tankPos), ai.enemies, old(score), t, ai.draws), ai.bullets);
        && Combat(tankPos, enemies, score, invincible, draws) == pass.0
        && bullets == pass.1
        && tankHeading == old(tankHeading)
        && (aimPoint, turretOffset) == AimStep(env.m, ray, old(aimPoint), pass.0.tank, old(tankHeading), old(turretOffset))
      ensures score >= old(score) || invincible == PLAYER_INVINCIBLE_TIME
      ensures Decay(old(invincible), DT) > 0.0 ==> tankPos == old(tankPos)
    {
      if invincible > 0.0 {
        invincible := invincible - DT;
        if invincible < 0.0 {
          invincible := 0.0;
        }
      }
      DecaySound(old(invincible), DT);
      StepEnemies(DT);
      ghost var c := Combat(tankPos, enemies, score, invincible, draws);
      PassScore(env, tankHeading, DT, c, bullets);
      if invincible > 0.0 {
        PassWhileInvincible(env, tankHeading, DT, c, bullets);
      }
      StepBullets(DT);
      AimStepSound(env.m, ray, aimPoint, tankPos, tankHeading, turretOffset);
      aimPoint, turretOffset := UpdateAim(env.m, ray, aimPoint, tankPos, tankHeading, turretOffset);
    }
  }
}
