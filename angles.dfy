/**
 * The single-step angle wrap the game uses three times (the enemy turn in updateEnemies,
 * the enemy turret yaw, and the player turret yaw in drawScene), and the clamped enemy turn.
 */
module Angles {
  import opened Numeric
  import opened Constants

  /**
   * `if (a > PI) a -= 2 PI; if (a < -PI) a += 2 PI;` — one correction step, not a full
   * modulo. The result is congruent to the input, inputs already in [-PI, PI] are left alone,
   * and any input in [-3 PI, 3 PI] lands in [-PI, PI] (both ends included: -PI is kept).
   */
  function Wrap(a: real): (r: real)
    ensures r == a || r == a - 2.0 * PI || r == a + 2.0 * PI
    ensures -PI <= a <= PI ==> r == a
    ensures -3.0 * PI <= a <= 3.0 * PI ==> -PI <= r <= PI
  {
    var a1 := if a > PI then a - 2.0 * PI else a;
    if a1 < -PI then a1 + 2.0 * PI else a1
  }

  /**
   * The turn an enemy makes toward `target` in one tick: the wrapped difference clamped to
   * +-ENEMY_TURN_SPEED. It never exceeds the turn speed, it turns the same way as the wrapped
   * difference, and a difference within the turn speed is taken in full.
   */
  function EnemyTurn(target: real, heading: real): (t: real)
    ensures -ENEMY_TURN_SPEED <= t <= ENEMY_TURN_SPEED
    ensures -ENEMY_TURN_SPEED <= Wrap(target - heading) <= ENEMY_TURN_SPEED ==> t == Wrap(target - heading)
    ensures (t > 0.0 <==> Wrap(target - heading) > 0.0) && (t < 0.0 <==> Wrap(target - heading) < 0.0)
  {
    Max(-ENEMY_TURN_SPEED, Min(ENEMY_TURN_SPEED, Wrap(target - heading)))
  }

  /** How many whole turns separate `a` from [-PI, PI): the floor of (a + PI) / 2 PI. */
  function Turns(a: real): int {
    ((a + PI) / (2.0 * PI)).Floor
  }

  /**
   * The full reduction of an angle to [-PI, PI]: values already there are kept, any other is
   * shifted by a whole number of turns. Unlike Wrap it needs no bound on its input.
   */
  function Normalize(a: real): (r: real)
    ensures -PI <= r <= PI
    ensures -PI <= a <= PI ==> r == a
    ensures r == a || r == a - (Turns(a) as real) * (2.0 * PI)
  {
    if -PI <= a <= PI then a
    else
      var n := Turns(a);
      var q := (a + PI) / (2.0 * PI);
      assert (n as real) <= q < (n as real) + 1.0;
      assert q * (2.0 * PI) == a + PI;
      a - (n as real) * (2.0 * PI)
  }

  /** On (-3 PI, 3 PI), where the game's headings start out, one Wrap step is the full reduction. */
  lemma NormalizeAgreesWithWrap(a: real)
    requires -3.0 * PI < a < 3.0 * PI
    ensures Normalize(a) == Wrap(a)
  {
    if a > PI {
      var q := (a + PI) / (2.0 * PI);
      assert q * (2.0 * PI) == a + PI;
      assert 1.0 < q < 2.0;
      assert Turns(a) == 1;
    } else if a < -PI {
      var q := (a + PI) / (2.0 * PI);
      assert q * (2.0 * PI) == a + PI;
      assert -1.0 < q < 0.0;
      assert Turns(a) == -1;
    }
  }

  /**
   * The enemy turn with the difference fully reduced: the clamp of Normalize(target - heading).
   * It never exceeds the turn speed, turns the short way round, and takes a small difference
   * in full, whatever the heading has accumulated to.
   */
  function EnemyTurnNormalized(target: real, heading: real): (t: real)
    ensures -ENEMY_TURN_SPEED <= t <= ENEMY_TURN_SPEED
    ensures -ENEMY_TURN_SPEED <= Normalize(target - heading) <= ENEMY_TURN_SPEED ==> t == Normalize(target - heading)
    ensures (t > 0.0 <==> Normalize(target - heading) > 0.0) && (t < 0.0 <==> Normalize(target - heading) < 0.0)
  {
    Max(-ENEMY_TURN_SPEED, Min(ENEMY_TURN_SPEED, Normalize(target - heading)))
  }

  /** Wherever the single wrap step suffices, the corrected turn is the one the game makes. */
  lemma EnemyTurnAgrees(target: real, heading: real)
    requires -3.0 * PI < target - heading < 3.0 * PI
    ensures EnemyTurnNormalized(target, heading) == EnemyTurn(target, heading)
  {
    NormalizeAgreesWithWrap(target - heading);
  }

  /**
   * With the bearing in [-PI, PI] (as atan2 returns it), one turn keeps a heading in
   * [-3 PI, 3 PI]: a positive turn never passes target + 2 PI, a negative one never passes
   * target - 2 PI. Every starting and spawned heading lies in [-PI, PI], so enemy headings stay
   * in this range, but they do leave [-PI, PI] once the player circles an enemy.
   */
  lemma HeadingStaysBounded(target: real, heading: real)
    requires -PI <= target <= PI && -3.0 * PI <= heading <= 3.0 * PI
    ensures -3.0 * PI <= heading + EnemyTurn(target, heading) <= 3.0 * PI
  {
  }

  /**
   * A reachable state where the single wrap step turns the long way: heading 2.9 PI (within
   * the bound above) and the player at bearing -0.95 PI. The difference -3.85 PI is only
   * wrapped to -1.85 PI, so the enemy turns right by the full turn speed, while the short way
   * round is 0.15 PI to the left.
   */
  lemma EnemyTurnWrongWay()
    ensures var heading := 2.9 * PI; var target := -0.95 * PI;
      && -3.0 * PI <= heading <= 3.0 * PI && -PI <= target <= PI
      && Normalize(target - heading) == 0.15 * PI
      && EnemyTurnNormalized(target, heading) == ENEMY_TURN_SPEED
      && EnemyTurn(target, heading) == -ENEMY_TURN_SPEED
  {
    var heading := 2.9 * PI;
    var target := -0.95 * PI;
    var a := target - heading;
    assert Wrap(a) == a + 2.0 * PI;
    var q := (a + PI) / (2.0 * PI);
    assert q * (2.0 * PI) == a + PI;
    assert -2.0 < q < -1.0;
    assert Turns(a) == -2;
  }
}
