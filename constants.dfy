/** The tuning constants at the top of rasterize.js, as reals. */
module Constants {

  const MOVE_SPEED: real := 0.3
  const TURN_SPEED: real := 0.3
  const TURRET_TURN_SPEED: real := 0.06

  const TANK_RADIUS: real := 0.5

  const BULLET_SPEED: real := 0.7
  const BULLET_LIFETIME: real := 3.0

  const ENEMY_SPEED: real := 0.015
  const ENEMY_TURN_SPEED: real := 0.05
  const ENEMY_FIRE_RANGE: real := 25.0
  const ENEMY_FIRE_COOLDOWN: real := 10.0
  const MAX_ENEMIES: int := 3

  const FIELD_SIZE: real := 80.0
  const PLAYER_INVINCIBLE_TIME: real := 3.0

  /** The fixed step drawScene advances the simulation by. */
  const DT: real := 1.0 / 60.0

  /** Half-extent of the square both placement samplers draw from (FIELD_SIZE / 8). */
  const SPAWN_HALF: real := FIELD_SIZE / 8.0
  /** How far beyond SPAWN_HALF spawnEnemy puts a new enemy. */
  const SPAWN_MARGIN: real := 3.0
  /** A bullet whose |x| or |z| exceeds this is culled (FIELD_SIZE / 2 + 10). */
  const BULLET_BOUND: real := FIELD_SIZE / 2.0 + 10.0

  /** Attempt budgets of the two samplers. */
  const SPAWN_ATTEMPTS: nat := 40
  const RESPAWN_ATTEMPTS: nat := 50

  /** Score bonus for destroying an enemy. */
  const KILL_BONUS: int := 100

  /** An enemy closer to the player than 2 units (squared distance 4) stops advancing. */
  const ENEMY_STOP_DIST2: real := 4.0
  /** A shell leaves the barrel this far ahead of the tank's centre, and this high above it. */
  const MUZZLE_OFFSET: real := 1.2
  const MUZZLE_HEIGHT: real := 0.6
  /** The upward tilt of an enemy shell's direction. */
  const ENEMY_SHOT_RISE: real := 0.05
  /** The fixed vertical component of a player shell's direction before normalisation. */
  const PLAYER_SHOT_RISE: real := 0.1
  /** A pointer ray this close to horizontal (|dir.y| <= 1e-4) is taken to miss the ground. */
  const GROUND_EPS: real := 0.0001
  /** The random part added to an enemy's cooldown after it fires: up to 0.4 s. */
  const COOLDOWN_JITTER: real := 0.4
}
