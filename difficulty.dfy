/** The difficulty curve of the obstacle spawner: two clamped linear
    functions of the time `t` elapsed since spawning started. The source
    computes them in single-precision floats; here they are over reals. */
module Difficulty {

  /** The six serialized difficulty settings of the spawner. */
  datatype Settings = Settings(
    initialSpawnInterval: real,
    minSpawnInterval: real,
    spawnIntervalDropRate: real,
    initialEnemySpeed: real,
    maxEnemySpeed: real,
    enemySpeedUpRate: real)

  /** The values the spawner is declared with. */
  const Defaults := Settings(1.0, 0.3, 0.05, 5.0, 15.0, 0.5)

  /** The settings under which the curve behaves as designed: both rates
      push the game towards harder, and the limits are reachable from the
      start values. */
  predicate WellFormed(s: Settings) {
    && s.spawnIntervalDropRate >= 0.0
    && s.enemySpeedUpRate >= 0.0
    && s.minSpawnInterval <= s.initialSpawnInterval
    && s.initialEnemySpeed <= s.maxEnemySpeed
  }

  /** `Mathf.Max`. */
  function Max(a: real, b: real): (r: real)
    ensures r >= a && r >= b
    ensures r == a || r == b
  {
    if a > b then a else b
  }

  /** `Mathf.Min`. */
  function Min(a: real, b: real): (r: real)
    ensures r <= a && r <= b
    ensures r == a || r == b
  {
    if a < b then a else b
  }

  /** Seconds to wait after a spawn at time `t`. The result is never below
      the minimum, never below the linear drop, and equals one of the two. */
  function SpawnInterval(s: Settings, t: real): (r: real)
    ensures r >= s.minSpawnInterval
    ensures r >= s.initialSpawnInterval - t * s.spawnIntervalDropRate
    ensures r == s.minSpawnInterval || r == s.initialSpawnInterval - t * s.spawnIntervalDropRate
  {
    Max(s.minSpawnInterval, s.initialSpawnInterval - t * s.spawnIntervalDropRate)
  }

  /** Speed given to the obstacle spawned at time `t`. The result is never
      above the maximum, never above the linear ramp, and equals one of the two. */
  function EnemySpeed(s: Settings, t: real): (r: real)
    ensures r <= s.maxEnemySpeed
    ensures r <= s.initialEnemySpeed + t * s.enemySpeedUpRate
    ensures r == s.maxEnemySpeed || r == s.initialEnemySpeed + t * s.enemySpeedUpRate
  {
    Min(s.maxEnemySpeed, s.initialEnemySpeed + t * s.enemySpeedUpRate)
  }

  /** The interval never grows as the run goes on. */
  lemma IntervalNonIncreasing(s: Settings, t1: real, t2: real)
    requires s.spawnIntervalDropRate >= 0.0
    requires t1 <= t2
    ensures SpawnInterval(s, t2) <= SpawnInterval(s, t1)
  {
    assert (t2 - t1) * s.spawnIntervalDropRate >= 0.0;
  }

  /** The speed never drops as the run goes on. */
  lemma SpeedNonDecreasing(s: Settings, t1: real, t2: real)
    requires s.enemySpeedUpRate >= 0.0
    requires t1 <= t2
    ensures EnemySpeed(s, t1) <= EnemySpeed(s, t2)
  {
    assert (t2 - t1) * s.enemySpeedUpRate >= 0.0;
  }

  /** With well-formed settings the curve starts at its initial values and
      stays between them and the limits for every `t >= 0`. */
  lemma CurveBounds(s: Settings, t: real)
    requires WellFormed(s)
    requires t >= 0.0
    ensures SpawnInterval(s, 0.0) == s.initialSpawnInterval
    ensures EnemySpeed(s, 0.0) == s.initialEnemySpeed
    ensures s.minSpawnInterval <= SpawnInterval(s, t) <= s.initialSpawnInterval
    ensures s.initialEnemySpeed <= EnemySpeed(s, t) <= s.maxEnemySpeed
  {
    IntervalNonIncreasing(s, 0.0, t);
    SpeedNonDecreasing(s, 0.0, t);
  }

  /** Once the linear drop has passed the minimum, the interval stays at the
      minimum; once the ramp has passed the maximum, the speed stays there. */
  lemma CurveSaturates(s: Settings, t: real)
    requires s.spawnIntervalDropRate > 0.0 && s.enemySpeedUpRate > 0.0
    requires t * s.spawnIntervalDropRate >= s.initialSpawnInterval - s.minSpawnInterval
    requires t * s.enemySpeedUpRate >= s.maxEnemySpeed - s.initialEnemySpeed
    ensures SpawnInterval(s, t) == s.minSpawnInterval
    ensures EnemySpeed(s, t) == s.maxEnemySpeed
  {
  }

  /** With the declared settings: the first spawn waits one second at speed
      5; after 100 seconds the interval is clamped at 0.3 and the speed at 15. */
  lemma DefaultCurve()
    ensures SpawnInterval(Defaults, 0.0) == 1.0 && EnemySpeed(Defaults, 0.0) == 5.0
    ensures SpawnInterval(Defaults, 100.0) == 0.3 && EnemySpeed(Defaults, 100.0) == 15.0
    ensures SpawnInterval(Defaults, 10.0) == 0.5 && EnemySpeed(Defaults, 10.0) == 10.0
  {
  }
}
