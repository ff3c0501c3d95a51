# Battlezone simulation core, modelled in Dafny

This project models the game bookkeeping of `rasterize.js`, a browser tank-combat demo. It
leaves out the drawing. What it models:

- **The obstacle field and its queries.** `collision` tests whether a mountain blocks a tank.
  `bulletHitsObstacle` tests whether a shell is inside a mountain. `getElevation` gives the
  height of the ground raised by hills.
- **Tank-to-tank and shell-to-tank tests.** These are `collidesWithPlayer`,
  `collidesWithEnemies`, and the reverse scan of the enemy list for the enemy a shell strikes.
- **The player's input handlers.** The W/S/A/D/arrow/Space cases of `handleKeyDown` and the
  `mousedown` listener.
- **The two placement samplers.** `spawnEnemy` puts a new enemy on one of four edges, behind
  the player. `respawnPlayer` finds a free point near the centre.
- **`updateEnemies`.** Each enemy turns toward the player, creeps forward, aims its turret
  and fires.
- **One frame of `drawScene`.** The invincibility timer decays, the enemies are updated, the
  bullet pass runs with its in-place `splice`s, kills, respawns and score, and the turret
  follows the pointer ray onto the ground plane.
- **`loadOBJ`.** The vertex and face lines of a Wavefront OBJ file are read, each face is
  fan-triangulated, and one flat normal is computed per triangle. `createPyramidMesh` shares
  the same normal loop.

Modules follow the structure of the game:

| module | contents |
|---|---|
| `Numeric` | reals, vectors, the math routines |
| `Constants` | the tuning constants |
| `Angles` | angle wrapping and the enemy turn |
| `Terrain` | the obstacle field and its queries |
| `Entities` | enemies, bullets, the tank tests, `splice` |
| `Placement` | the two samplers |
| `EnemyAI` | `updateEnemies` |
| `Projectiles` | the bullet pass |
| `Aiming` | the ground-plane aim |
| `Controls` | driving, firing, timer decay |
| `Simulation` | the class `Game`, holding the globals and one method per handler |
| `ObjMesh` | the OBJ loader and the pyramid mesh |

The model takes three shapes:

- **Loops become methods.** Each loop of the source is a `method` with the same loop, proved
  equal to a recursive function. Lemmas then state what that function guarantees.
- **Globals become a class.** The global state is the class `Simulation.Game`. Its methods
  modify its fields. `Valid()` is the game invariant that every handler keeps:
  - exactly three enemies;
  - a score that is a whole number of kills;
  - a timer in [0, 3];
  - an aim point on the ground.
- **External inputs become parameters.** `Math.random()` is a stream `rand: nat -> real` of
  draws in [0, 1). Every sampler takes the index of its next unused draw and returns the index
  after its last one, so the exact draws each operation consumes are part of its contract.
  `Math.sin`/`cos`/`atan2`/`hypot` and `vec3.normalize` are fields of a `MathLib` value. Each
  proof that needs one of their properties states it as a precondition (`HypotSound`,
  `Hypot3Sound`, `TrigSound`, `Atan2InRange`, `NormalizeSound`).

Where the written description of the game and the code disagree, the model follows the code:

- **The angle wrap is one correction step.** `if (a > PI) a -= 2PI; if (a < -PI) a += 2PI`
  maps [-3π, 3π] into [-π, π], not (-π, π]: -π is kept. It is not a reduction of every
  angle.
- **Enemy shell directions are not unit vectors.** An enemy shell's direction is
  `(sin t, 0.05, cos t)` (rasterize.js:872). Only the player's shell is normalised.
- **A player shell can kill after hitting terrain.** The kill test runs even when the mountain
  test has already marked the shell for removal (rasterize.js:946-972).
- **A degenerate triangle gets the zero normal.** Its normal is the zero vector (the cross
  product divided by 1), not a unit vector.
- **The first attempts' headings leak into the fallback.** When every attempt of `spawnEnemy`
  fails, the enemy stands at x = z = 0 with the heading of the last rejected attempt.
- **The player starts at (0, 0, 0).** The starting `tankPos` is not grounded. Only the enemies
  are grounded by `main()`.
- **Enemy headings are never reduced either.** The enemy update turns by the single wrap step
  of the source. Its headings accumulate, but stay in [-3π, 3π]
  (EnemyAI.UpdateEnemiesKeepsHeadings), and it sometimes turns the long way (see Findings).
  The enemy turret offset is the single wrap of bearing + π - heading. Once the heading has
  accumulated it can lie outside [-π, π] (bearing π with heading -3π gives 3π), so only its
  congruence to the world yaw is promised.
- **Body headings are never reduced.** The turret offset is then only guaranteed to lie in
  [-π, π] while the body heading stays within one turn (2π) of zero.

## Model

| member | source | states |
|---|---|---|
| Angles.Wrap | rasterize.js:825-827 | The wrapped angle differs from the input by 0 or ±2π. An angle already in [-π, π] is unchanged. Any input in [-3π, 3π] lands in [-π, π] |
| Angles.EnemyTurn | rasterize.js:825-830 | The enemy turn never exceeds ENEMY_TURN_SPEED in size. A wrapped difference within the turn speed is taken in full. The turn has the sign of the wrapped difference |
| Angles.Normalize | rasterize.js:825-827 | The full reduction of any angle lies in [-π, π], keeps angles already there, and otherwise shifts by a whole number of turns |
| Angles.NormalizeAgreesWithWrap | rasterize.js:825-827 | On (-3π, 3π) the source's single wrap step equals the full reduction |
| Angles.EnemyTurnNormalized | rasterize.js:825-830 | The corrected turn (clamp of the fully reduced difference) is bounded by the turn speed, takes small differences in full, and turns the short way round |
| Angles.EnemyTurnAgrees | rasterize.js:825-830 | Wherever one wrap step suffices, the corrected turn equals the source's turn |
| Angles.HeadingStaysBounded | rasterize.js:822-830 | With the bearing in [-π, π], one turn keeps an enemy heading in [-3π, 3π] |
| Angles.EnemyTurnWrongWay | rasterize.js:825-830 | A state within those bounds, heading 2.9π with the player at bearing -0.95π: the short way is 0.15π to the left and the corrected turn is +0.05, but the source's turn is -0.05, the long way round |
| Terrain.RadiusPositive | rasterize.js:428 | An obstacle with positive scales has a positive horizontal radius |
| Terrain.BlockedFromWitness | rasterize.js:419-434 | The scan from obstacle i on reports a block exactly when some mountain at index ≥ i is strictly closer than TANK_RADIUS plus its radius |
| Terrain.BlockedWitness | rasterize.js:415-437 | `collision(p)` holds exactly when some mountain (never a hill) is strictly within TANK_RADIUS + max(sx, sz)/2 of p |
| Terrain.BlockedFromIgnoresHeight | rasterize.js:416-417 | The mountain scan reads only the x and z of the point it is given |
| Terrain.BlockedIgnoresHeight | rasterize.js:416-417 | Two points with the same x and z are blocked alike |
| Terrain.Collision | rasterize.js:415-437 | The loop with its early return answers exactly Blocked |
| Terrain.BulletBlockedFromWitness | rasterize.js:468-482 | The bullet scan from obstacle i on reports a hit exactly when some mountain at index ≥ i has the point strictly inside its radius |
| Terrain.BulletBlockedWitness | rasterize.js:464-484 | `bulletHitsObstacle(p)` holds exactly when p is strictly inside some mountain's radius; hills never stop bullets |
| Terrain.BulletHitsObstacle | rasterize.js:464-484 | The loop with its early return answers exactly BulletBlocked |
| Terrain.BulletBlockedImpliesBlocked | rasterize.js:428-479 | With positive scales, a point that stops a bullet also blocks a tank: the bullet radius is the tighter one |
| Terrain.CentreIsBlocked | rasterize.js:477-479 | A mountain's own centre stops bullets and blocks tanks |
| Terrain.GetElevation | rasterize.js:487-513 | The `maxH` loop returns Elevation: the largest of 0 and the contributions of the hills that cover the point |
| Terrain.Hills | rasterize.js:490-491 | The filtered list holds only non-mountain obstacles |
| Terrain.ElevationNonNegative | rasterize.js:488-512 | The elevation is never below 0 |
| Terrain.ElevationZeroOffHills | rasterize.js:501-509 | Where no hill has its centre strictly closer than its radius, the elevation is exactly 0 |
| Terrain.ElevationAtLeastHill | rasterize.js:502-508 | The elevation is at least the contribution of every covering hill |
| Terrain.HillHeightBounds | rasterize.js:501-504 | With hypot a length, a covering hill contributes a height in (0, scale.y] |
| Terrain.ElevationBelowTallest | rasterize.js:490-512 | The elevation never exceeds the largest scale.y among the hills covering the point |
| Terrain.ElevationIgnoresMountains | rasterize.js:490-491 | Removing every mountain from the field leaves every elevation unchanged |
| Terrain.InsideHillIsRaised | rasterize.js:497-508 | A point strictly inside a hill has elevation in (0, tallest covering scale.y] |
| Entities.Splice | rasterize.js:959 | `splice(j, 1)` leaves one element fewer; elements before j stay put and those after j move down one |
| Entities.SpliceIsSlices | rasterize.js:1002 | The splice equals s[..j] + s[j+1..] |
| Entities.TanksOverlapBounds | rasterize.js:440-445 | Tank overlap is symmetric, holds for coincident x and z, and needs both coordinate gaps below two tank radii |
| Entities.NearFromWitness | rasterize.js:449-459 | The enemy scan from index j on is true exactly when some enemy at index ≥ j, other than the ignored one, strictly overlaps |
| Entities.EnemyNearWitness | rasterize.js:448-461 | `collidesWithEnemies(p, ignore)` holds exactly when some enemy other than `ignore` is strictly within two tank radii |
| Entities.NearFromIgnoresHeight | rasterize.js:452-453 | The enemy scan reads only x and z |
| Entities.EnemyNearIgnoresHeight | rasterize.js:452-453 | Two points with the same x and z collide with enemies alike |
| Entities.CollidesWithEnemies | rasterize.js:448-461 | The loop answers exactly EnemyNear, and is false on an empty list |
| Entities.LastHit | rasterize.js:952-957 | The found index is in [-1, \|enemies\|). A found enemy is touched by the shell, and no enemy above it is |
| Entities.LastEnemyHit | rasterize.js:952-970 | The reverse loop with `break` stops at LastHit: the highest-index enemy within TANK_RADIUS |
| Entities.LastHitUnique | rasterize.js:952-969 | Any index satisfying LastHit's contract is LastHit: the hit enemy is uniquely the last one touched |
| Placement.SideIsFloor | rasterize.js:753-772 | The four branches on `Math.floor(r * 4)` select the same edge as the model's Side, for every real draw |
| Placement.EdgeCandidateOnEdge | rasterize.js:753-772 | Every candidate lies on an edge at ±13 with the other coordinate in [-10, 10), and carries one of the headings π, 0, -π/2, π/2 |
| Placement.SpawnFromSound | rasterize.js:752-788 | The remaining attempts end with an edge point that is unblocked and behind the player (dot < 0), or at x = z = 0 after every attempt; two draws per attempt |
| Placement.SpawnedSound | rasterize.js:739-790 | `spawnEnemy()` gives a cooldown in [0, 10), a straight turret, an edge heading and a grounded position. The position is an accepted edge point, or x = z = 0 after 81 draws |
| Placement.SpawnFromDraws | rasterize.js:752-786 | The attempt loop never moves the draw counter backwards |
| Placement.SpawnedDraws | rasterize.js:747-786 | `spawnEnemy()` always consumes at least one draw |
| Placement.SpawnAttempt | rasterize.js:753-780 | One attempt's code computes EdgeCandidate and accepts it exactly when it is unblocked and the dot product is negative |
| Placement.SearchEdge | rasterize.js:752-786 | The 40-attempt loop with early return yields exactly the result of the recursive SpawnFrom |
| Placement.SpawnEnemy | rasterize.js:739-790 | `spawnEnemy()` returns exactly Spawned, with the draw counter after its last draw |
| Placement.SpawnedFromSearch | rasterize.js:780-789 | The enemy built from the loop's point and the elevation there is Spawned |
| Placement.SpawnFallsBack | rasterize.js:752-788 | If every edge point is blocked, every remaining attempt fails and the loop ends at x = z = 0 having used all its draws |
| Placement.SpawnedFallsBack | rasterize.js:788-789 | With all edges blocked the enemy stands on the ground at (0, elevation(0, 0), 0) after 81 draws |
| Placement.RespawnFromSound | rasterize.js:796-810 | The remaining attempts give a grounded point that is either in the square [-10, 10)², free of mountains and enemies, or the centre fallback after every attempt |
| Placement.RespawnedSound | rasterize.js:793-811 | `respawnPlayer()` returns a grounded free point of the square or, after 50 failed attempts (100 draws), (0, elevation(0, 0), 0) |
| Placement.RespawnFromDraws | rasterize.js:796-807 | The respawn loop never moves the draw counter backwards |
| Placement.RespawnAttempt | rasterize.js:797-806 | One attempt's code computes the grounded candidate and accepts it exactly when neither a mountain nor an enemy is in the way |
| Placement.RespawnPlayer | rasterize.js:793-811 | The 50-attempt loop with fallback returns exactly Respawned |
| Placement.RespawnFallsBack | rasterize.js:809-810 | If mountains cover the whole square, the result is the centre after exactly 100 draws |
| EnemyAI.StepEnemySound | rasterize.js:816-879 | One enemy update. The heading turns by the clamped single-wrap turn, so by at most 0.05, and a heading in [-3π, 3π] stays there. More than 2 units from the player the enemy moves to the one-step candidate along its new heading, grounded, exactly when no mountain, the player or another enemy blocks it; otherwise its position is unchanged. The turret's world yaw is bearing + π up to whole turns. It fires exactly when dist² < 625 and the decremented cooldown is ≤ 0, and then the cooldown is in [10, 10.4); otherwise the cooldown just counts down |
| EnemyAI.FollowsCompose | rasterize.js:816-879 | Enemy i's update followed by the updates from i + 1 on is the update from i on: the counting facts compose |
| EnemyAI.ApplySound | rasterize.js:856-878 | Enemy i's update changes only enemy i, by at most ENEMY_TURN_SPEED in heading, and appends at most one enemy shell with one draw per shell |
| EnemyAI.UpdateFromSound | rasterize.js:815-880 | The pass from enemy i on keeps the enemy count and the enemies before i. It only appends enemy shells, at most one per remaining enemy, one draw each. Each remaining enemy turns by at most 0.05 |
| EnemyAI.UpdateEnemiesSound | rasterize.js:815-880 | `updateEnemies` keeps the enemy count, appends at most one enemy shell per enemy behind the existing bullets, uses one draw per shell, and turns every enemy by at most 0.05 |
| EnemyAI.UpdateFromKeepsHeadings | rasterize.js:816-830 | With atan2 in [-π, π], the pass from enemy i on keeps every enemy heading in [-3π, 3π] |
| EnemyAI.UpdateEnemiesKeepsHeadings | rasterize.js:815-880 | `updateEnemies` keeps every enemy heading in [-3π, 3π], so headings accumulate but stay bounded |
| EnemyAI.MoveEnemy | rasterize.js:833-847 | The move code (distance gate, tentative step, three collision tests, elevation refresh) yields exactly Moved |
| EnemyAI.UpdateEnemy | rasterize.js:817-878 | One loop body computes exactly StepEnemy and draws Math.random() only when it fires |
| EnemyAI.ApplyEnemy | rasterize.js:816-878 | One loop turn on the threaded state is Apply and keeps the enemy count |
| EnemyAI.RunEnemies | rasterize.js:815-880 | The loop over the enemies in list order computes exactly UpdateEnemies |
| Projectiles.PassStep | rasterize.js:933-1004 | The reverse pass over a non-empty list resolves the last bullet first, then passes over the rest from the resulting state |
| Projectiles.KillReplaces | rasterize.js:959-965 | A kill among at most three enemies keeps the count. Enemies before j keep their places, those after move up one, and the spawned enemy is last. The score rises by exactly 100; player and timer are untouched |
| Projectiles.ResolveOwners | rasterize.js:950-991 | A player shell never moves the player or touches the timer; an enemy shell never changes the enemies |
| Projectiles.ResolveRemoval | rasterize.js:943-999 | A bullet is removed exactly when it is inside a mountain, is a player shell touching an enemy, is an enemy shell touching a player whose timer is ≤ 0, or has expired (life ≤ 0 or \|x\| or \|z\| > 50) |
| Projectiles.ResolveCounts | rasterize.js:959-962 | With at most three enemies, resolving keeps their number, and draws are only consumed |
| Projectiles.ResolvePlayerHit | rasterize.js:975-991 | An enemy shell not stopped by a mountain, within TANK_RADIUS of a player whose timer is ≤ 0, is removed and puts the player at the respawnPlayer point with score 0 and timer 3. Any other bullet, and every bullet while the player is invincible, leaves the player and timer untouched |
| Projectiles.ResolveOutcome | rasterize.js:943-991 | A player shell touching an enemy kills exactly the last enemy it touches. An enemy shell hitting the vulnerable player is exactly the player hit. Any other bullet, including every enemy shell while the player is invincible, leaves the whole combat state (score and draws included) unchanged |
| Projectiles.ResolveShape | rasterize.js:965-988 | One bullet leaves the score, adds 100 or resets it to 0; it leaves the timer or sets it to 3 |
| Projectiles.KillScores | rasterize.js:965 | A kill adds exactly KILL_BONUS and leaves the timer alone |
| Projectiles.PlayerHitScores | rasterize.js:985-988 | A hit on the player sets score 0 and timer PLAYER_INVINCIBLE_TIME |
| Projectiles.ResolvePreserves | rasterize.js:946-999 | Resolving a bullet keeps the combat invariant: at most 3 enemies, score a non-negative multiple of 100, timer in [0, 3] |
| Projectiles.AdvanceAll | rasterize.js:937-941 | Every bullet is moved BULLET_SPEED along its direction and aged by dt, in order |
| Projectiles.PassPreserves | rasterize.js:933-1004 | The whole pass keeps the combat invariant and the enemy count, and only consumes draws |
| Projectiles.PassKeepsOrder | rasterize.js:1001-1003 | The survivors are a subsequence of the advanced bullets, in their original order, and no more numerous |
| Projectiles.Aged | rasterize.js:937-941 | A shell after n ticks has life L - n·dt, with its direction and owner unchanged |
| Projectiles.AgedExpires | rasterize.js:994-999 | Once n·dt ≥ L, the shell after n ticks has expired |
| Projectiles.PassSurvivorsLive | rasterize.js:933-1004 | Every survivor of the pass is an input bullet advanced one tick, and has not expired |
| Projectiles.ShellAgesOut | rasterize.js:994-1003 | A shell of life L is not among the bullets after n ticks with n·dt ≥ L: it is gone by tick ⌈L/dt⌉ even without collisions |
| Projectiles.PassWhileInvincible | rasterize.js:975 | While the timer is positive, no bullet of the pass moves the player or changes the timer |
| Projectiles.PassScore | rasterize.js:965-988 | The score only drops during a pass in which the player was shot, which leaves the timer at 3 |
| Projectiles.ResolveBullet | rasterize.js:943-999 | The loop body's tests in the source's order yield exactly Resolve |
| Projectiles.KillEnemy | rasterize.js:959-969 | The kill branch (splice, spawn while fewer than three remain, +100) yields exactly Kill |
| Projectiles.HitPlayer | rasterize.js:980-989 | The player-hit branch yields exactly PlayerHit |
| Projectiles.BulletIteration | rasterize.js:1001-1002 | Splicing index i out of bs[..i+1] + kept leaves bs[..i] + kept |
| Projectiles.TurnSplices | rasterize.js:933-1003 | Resolving bullet i turns the pass over bs[..i+1] into the pass over bs[..i], with the bullet kept ahead of the processed tail unless removed |
| Projectiles.BulletTurn | rasterize.js:934-1003 | One turn at index i leaves the list as bs[..i] + the new tail, and the pass still to run completes the original pass |
| Projectiles.RunBullets | rasterize.js:933-1004 | The reverse loop with in-place `splice` computes exactly Pass: final state and the survivors in order |
| Aiming.GroundHit | rasterize.js:1038-1043 | A hit lies on the plane y = 0 and needs \|dir.y\| > 1e-4 |
| Aiming.GroundHitUnique | rasterize.js:1038-1043 | Any ground point of a steep enough ray strictly ahead of its origin is the hit |
| Aiming.GroundHitFromAbove | rasterize.js:1038-1043 | From above the ground, the ray hits exactly when dir.y < -1e-4, and the hit is a point of the ray ahead of the origin |
| Aiming.TurretYawSound | rasterize.js:1045-1053 | Body heading plus the offset is the desired yaw up to one turn, and the offset lies in [-π, π] while the heading is within one turn (2π) of 0 |
| Aiming.AimStepSound | rasterize.js:1037-1053 | The aim point stays or moves onto the ground. Without a ray nothing changes; with one the turret faces the new aim point |
| Aiming.UpdateAim | rasterize.js:1037-1053 | The source's assignments compute exactly AimStep |
| Controls.DriveSound | rasterize.js:529-545 | After W or S the tank rests on the terrain. It moved to the point `step` ahead exactly when no mountain or enemy is in the way there, and otherwise kept its x and z. A clear tank stays clear |
| Controls.DriveLength | rasterize.js:531-541 | With sin² + cos² = 1 a drive moves 0 or exactly MOVE_SPEED horizontally |
| Controls.PlayerShellSound | rasterize.js:583-604 | With normalize a normalisation, the player's shell is a player shell with full life, 0.6 above the tank. Its direction is a climbing unit vector whose horizontal part points at the aim point |
| Controls.DecaySound | rasterize.js:928-931 | A running timer drops by dt and stops at 0; an expired one stays; a timer in [0, t] stays in [0, t] |
| Simulation.StartingEnemiesSound | rasterize.js:1160-1184 | main() makes three enemies at (8, 5), (-6, -4), (3, -10) headed π, π/2, 0, grounded, with straight turrets and cooldowns in [0, 10) |
| Simulation.Game.constructor | rasterize.js:1160-1184 | The start state is Valid: the player at the origin, three grounded enemies, no bullets, score 0, timer 0, three draws used |
| Simulation.Game.Move | rasterize.js:529-562 | W/S set the position to Drive of the old one, change nothing else, and keep Valid |
| Simulation.Game.Fire | rasterize.js:1205-1225 | A click appends the player shell and changes nothing else |
| Simulation.Game.HandleKey | rasterize.js:528-606 | Each key does exactly its case: W/S drive, A/D turn by ±0.3, the arrows turn the turret by ±0.06, Space fires, any other key does nothing; Valid is kept |
| Simulation.Game.StepEnemies | rasterize.js:932 | The enemies, bullets and draws become UpdateEnemies of the old ones; the rest is unchanged and Valid is kept |
| Simulation.Game.StepBullets | rasterize.js:933-1004 | The combat state and bullet list become Pass of the old ones; Valid is kept |
| Simulation.Game.Tick | rasterize.js:924-1054 | One frame is timer decay, then updateEnemies, then the bullet pass, then the aim step. The score drops only if the player was just shot, leaving the timer at 3. A player still invincible after the decay does not move |
| ObjMesh.BeforeSlash | rasterize.js:110-113 | `ref.split("/")[0]` is a prefix of the reference with no slash, ending at the first slash if any |
| ObjMesh.FanFromDefined | rasterize.js:117-130 | The fan from triangle k succeeds exactly when no triangles remain or refs[0] and every refs[j] with j ≥ k names a vertex already read |
| ObjMesh.FanFromContents | rasterize.js:117-130 | A successful fan from k emits 9 coordinates per triangle, \|refs\| - 1 - k triangles, the t-th being (refs[0], refs[k+t], refs[k+t+1]) |
| ObjMesh.FaceTriangulation | rasterize.js:104-131 | A face of k ≥ 3 references succeeds exactly when all of them resolve, and then emits k - 2 triangles (refs[0], refs[t+1], refs[t+2]) |
| ObjMesh.FanStep | rasterize.js:117-130 | Pushing one resolved triangle and continuing the fan gives the same result as the fan itself |
| ObjMesh.EmitFace | rasterize.js:106-130 | The inner `for k` loop yields exactly the face's fan, or fails on a missing vertex |
| ObjMesh.ParseLineGrows | rasterize.js:91-131 | A line only extends the vertex list (by exactly one for `v`, leaving the positions) and the position list (by whole triangles). Blank and `#` lines, faces with fewer than three references and other keywords change nothing |
| ObjMesh.ParseFromGrows | rasterize.js:90-132 | The whole parse only extends the positions, by a multiple of 9 |
| ObjMesh.ParseLines | rasterize.js:90-132 | The line loop with its branches yields exactly ParseFrom |
| ObjMesh.NormalsFromShape | rasterize.js:135-154 | For whole triangles there is one normal entry per position entry, and each triangle's three normals are its face normal |
| ObjMesh.CrossPerpendicular | rasterize.js:141-147 | The edge cross product is perpendicular to both edges |
| ObjMesh.FaceNormalSound | rasterize.js:140-153 | With hypot a length, a face normal is perpendicular to both edges and is unit length, or zero for a degenerate triangle |
| ObjMesh.ScaledNormal | rasterize.js:148-149 | Dividing a perpendicular vector by its length (or by 1 if 0) keeps it perpendicular and gives length 1 or 0 |
| ObjMesh.TriangleNormal | rasterize.js:136-149 | The edge, cross product and `\|\| 1.0` code computes exactly FaceNormal |
| ObjMesh.PushNormals | rasterize.js:151-153 | One normal-loop turn pushes triangle t's normal three times, the rest of the loop completing FlatNormals |
| ObjMesh.ComputeNormals | rasterize.js:135-154 | The normal loop, nine positions at a time, computes exactly FlatNormals |
| ObjMesh.MeshOfSound | rasterize.js:156-160 | The mesh of whole triangles has one normal entry per position entry, vertexCount a third of the positions, and each triangle's three normals are its face normal |
| ObjMesh.LoadedMeshSound | rasterize.js:78-160 | A loaded mesh has positions a multiple of 9, as many normal entries, vertexCount = positions/3, and each triangle's normals are its face normal |
| ObjMesh.LoadObj | rasterize.js:78-160 | The parse loop and the normal loop yield exactly LoadedMesh, or None when a face reads a missing vertex |
| ObjMesh.Flatten | rasterize.js:318-346 | A list of triangles flattens to 9 coordinates per triangle |
| ObjMesh.FlattenBlock | rasterize.js:318-346 | Block t of nine of the flat list is triangle t's coordinates |
| ObjMesh.PyramidMeshSound | rasterize.js:317-367 | The pyramid has 54 position entries, 54 normal entries and 18 vertices |
| ObjMesh.BlockGeometry | rasterize.js:351-356 | Read back from flat coordinates, a triangle's edges and centroid are those of its corners |
| ObjMesh.NormalKeepsSide | rasterize.js:358-362 | Normalising the cross product keeps it pointing away from an inside point |
| ObjMesh.PyramidFacesOutward | rasterize.js:318-365 | Every one of the pyramid's six faces, base included, has its normal pointing out of the solid |
| ObjMesh.PyramidFaceTurnsOut | rasterize.js:318-346 | Each face's edge cross product points away from a point inside the pyramid: the windings are all outward |

## Left out

- WebGL setup, shaders, buffers, `drawTank`, `drawRadar`, the ground mesh and all draw calls: rendering through a foreign API.
- The camera and the unprojection of the pointer. The view/projection algebra and `mat4.invert`/`transformMat4` of `updateAimFromMouse` are foreign matrix calls. The resulting ray is an input (`Option<Ray>`, None when the matrix cannot be inverted).
- `fetch` and the splitting of the OBJ text. The loader takes the file as lines already trimmed and split into tokens. `trim`, `split(/\s+/)` and the `Float32Array` conversion are not modelled.
- `parseFloat` and `parseInt`: parameters (`Parsers`). A NaN from `parseInt` is None, so a bad face reference fails the face. A NaN coordinate from `parseFloat` cannot be represented: `parseFloat` returns a real.
- DOM listeners, the `mousemove` conversion to device coordinates, the crosshair, `updateScore` text, `requestAnimationFrame`, and the `"!"` key that reloads the page in another mode: I/O and UI.
- `spawnObstacles`: the obstacle list is an input, assumed to have positive scales (WellFormed), as the generator's ranges guarantee.
- IEEE double arithmetic: the model computes in `real`. The facts about `sin`, `cos`, `atan2`, `hypot` and `normalize` are preconditions of the lemmas that need them.
- Updates in place: enemies and bullets are values in sequences, and the source's in-place updates of enemy and bullet objects are modelled as replacing them; object identity (`e === ignoreEnemy`) becomes an index.
- createPyramidMesh: the position list is written as six named triangles, and the buffer upload is not modelled.
- ObjMesh.FlatNormals: requires a whole number of triangles (9 entries each). The parser always produces that (ParseFromGrows), and the source reads past the array otherwise.
- ObjMesh.FaceNormalSound: states the degenerate normal by its length (0), which for reals means the zero vector.
- Aiming.TurretYawSound: the [-π, π] range needs the body heading within one turn (2π) of zero, because A/D never reduce the heading.

## Findings

| source | as written | input that shows it | evidently intended | confidence | as-written member | corrected member |
|---|---|---|---|---|---|---|
| rasterize.js:825-830 | The enemy's turn uses one wrap step on targetHeading - e.heading, while e.heading accumulates (rasterize.js:830). It stays in [-3π, 3π] (Angles.HeadingStaysBounded), but the difference can reach 4π | enemy heading 2.9π, reached after the player has circled the enemy, with the player at bearing -0.95π: the difference -3.85π wraps only to -1.85π, and the enemy turns -0.05, the long way round | turn toward the player the short way (+0.05 toward 0.15π), as the wrap's own comment "rotate enemy toward player" and the (-π, π] design intend | not executed | Angles.EnemyTurn, Angles.EnemyTurnWrongWay | Angles.EnemyTurnNormalized, Angles.EnemyTurnAgrees |

The game model (EnemyAI, Simulation) keeps the turn as written, so that it describes the
program. The corrected turn is defined and proved on its own in Angles.
