/** The obstacle spawner: a fixed pool of reusable obstacles, and a timed
    loop that activates one of them at each step, placed at one of the
    configured spawn positions and given the speed of the difficulty curve.

    A pooled object is a value here (tag, active flag, position and, when
    the object carries an `Enemy` component, that component's speed); the
    pool is the ordered sequence of them that the spawner owns. */
module Spawner {
  import opened Geometry
  import opened Optional
  import Difficulty

  /** What every instance of a prefab copies: its tag, its position and,
      when it carries an `Enemy` component, that component's speed. */
  datatype Prefab = Prefab(tag: string, position: Vec3, mover: Option<real>)

  /** A pooled game object. */
  datatype Obstacle = Obstacle(tag: string, active: bool, position: Vec3, mover: Option<real>)

  /** The outcome of one spawn attempt. `NoSpawnPosition` is the case the
      source does not guard: with an empty position list the index access
      throws, which also ends the spawning loop. For `Spawned`, `index` is
      the pool slot, `spot` the position index and `jitter` the horizontal
      offset drawn for a normal obstacle (0 for the other kinds). */
  datatype SpawnOutcome =
    | NoneInactive
    | NoSpawnPosition
    | Spawned(index: nat, spot: nat, jitter: real)

  /** Where the spawning loop is: not running, or waiting until `wake`
      (in level time) before its next step. */
  datatype Routine = Stopped | WaitingUntil(wake: real)

  const NormalCount: nat := 12
  const JumpCount: nat := 4
  const SlideCount: nat := 4
  /** Half-width of the horizontal jitter of a normal obstacle. */
  const Jitter: real := 1.8

  /** An instance of `prefab`, deactivated as soon as it is created. */
  function Pooled(prefab: Prefab): (o: Obstacle)
    ensures !o.active && o.tag == prefab.tag
  {
    Obstacle(prefab.tag, false, prefab.position, prefab.mover)
  }

  /** `n` freshly pooled instances of `prefab`, in creation order. */
  function Copies(prefab: Prefab, n: nat): (r: seq<Obstacle>)
    ensures |r| == n
    ensures forall k :: 0 <= k < n ==> r[k] == Pooled(prefab)
  {
    if n == 0 then [] else Copies(prefab, n - 1) + [Pooled(prefab)]
  }

  /** The pool built at start: the normal, then the jump, then the slide
      obstacles. */
  function InitialPool(normal: Prefab, jump: Prefab, slide: Prefab): seq<Obstacle> {
    Copies(normal, NormalCount) + Copies(jump, JumpCount) + Copies(slide, SlideCount)
  }

  /** Number of active objects in a pool. */
  function ActiveCount(pool: seq<Obstacle>): (n: nat)
    ensures n <= |pool|
  {
    if pool == [] then 0
    else ActiveCount(pool[..|pool| - 1]) + (if pool[|pool| - 1].active then 1 else 0)
  }

  /** The slots of the inactive objects, in pool order (`FindAll` with the
      test `!activeInHierarchy`). Exactly the inactive slots are listed. */
  function FindInactive(pool: seq<Obstacle>): (r: seq<nat>)
    ensures forall k :: 0 <= k < |r| ==> r[k] < |pool| && !pool[r[k]].active
    ensures forall i :: 0 <= i < |pool| && !pool[i].active ==> i in r
  {
    if pool == [] then []
    else
      var rest := FindInactive(pool[..|pool| - 1]);
      if pool[|pool| - 1].active then rest else rest + [|pool| - 1]
  }

  /** The spawn position of an object with tag `tag`, from the base position
      `base`: raised by 1 for the slide kind, shifted by `jitter` and raised
      by 0.5 for the normal kind, unchanged otherwise. The slide test comes
      first, as in the source. */
  function Placement(tag: string, normalTag: string, slideTag: string, base: Vec3, jitter: real): (r: Vec3)
    ensures r.z == base.z
    ensures r.y == base.y + 1.0 <==> tag == slideTag
    ensures r.y == base.y + 0.5 <==> tag != slideTag && tag == normalTag
    ensures tag != slideTag && tag == normalTag ==> r.x == base.x + jitter
    ensures tag == slideTag || tag != normalTag ==> r.x == base.x
    ensures r == base <==> tag != slideTag && tag != normalTag
  {
    if tag == slideTag then Raise(base, 1.0)
    else if tag == normalTag then Vec3(base.x + jitter, base.y + 0.5, base.z)
    else base
  }

  /** An object brought into play at `pos`; its `Enemy` component, when it
      has one, takes `speed`. */
  function Activate(o: Obstacle, pos: Vec3, speed: real): (r: Obstacle)
    ensures r.active && r.tag == o.tag && r.position == pos
    ensures r.mover.Some? <==> o.mover.Some?
    ensures r.mover.Some? ==> r.mover.value == speed
  {
    o.(active := true, position := pos, mover := if o.mover.Some? then Some(speed) else None)
  }

  /** The pool built at start holds 20 objects, 12 normal, 4 jump and
      4 slide in that order, none of them active. */
  lemma {:induction false} InitialPoolLayout(normal: Prefab, jump: Prefab, slide: Prefab)
    ensures var pool := InitialPool(normal, jump, slide);
      && |pool| == 20
      && (forall k :: 0 <= k < 12 ==> pool[k] == Pooled(normal))
      && (forall k :: 12 <= k < 16 ==> pool[k] == Pooled(jump))
      && (forall k :: 16 <= k < 20 ==> pool[k] == Pooled(slide))
      && ActiveCount(pool) == 0
  {
    var pool := InitialPool(normal, jump, slide);
    assert forall k :: 0 <= k < |pool| ==> !pool[k].active;
    NoneActive(pool);
  }

  /** A pool with no active object has an active count of zero. */
  lemma {:induction false} NoneActive(pool: seq<Obstacle>)
    requires forall k :: 0 <= k < |pool| ==> !pool[k].active
    ensures ActiveCount(pool) == 0
  {
    if pool != [] {
      NoneActive(pool[..|pool| - 1]);
    }
  }

  /** The active count is the number of slots that are not inactive. */
  lemma {:induction false} ActivePlusInactive(pool: seq<Obstacle>)
    ensures ActiveCount(pool) + |FindInactive(pool)| == |pool|
  {
    if pool != [] {
      ActivePlusInactive(pool[..|pool| - 1]);
    }
  }

  /** Bringing one inactive object into play raises the active count by
      exactly one. */
  lemma {:induction false} ActivateOneMore(pool: seq<Obstacle>, i: nat, o: Obstacle)
    requires i < |pool| && !pool[i].active && o.active
    ensures ActiveCount(pool[i := o]) == ActiveCount(pool) + 1
  {
    var last := |pool| - 1;
    if i == last {
      assert pool[i := o][..last] == pool[..last];
    } else {
      assert pool[i := o][..last] == pool[..last][i := o];
      ActivateOneMore(pool[..last], i, o);
    }
  }

  /** Taking one active object out of play lowers the active count by
      exactly one. */
  lemma {:induction false} DeactivateOneLess(pool: seq<Obstacle>, i: nat, o: Obstacle)
    requires i < |pool| && pool[i].active && !o.active
    ensures ActiveCount(pool[i := o]) + 1 == ActiveCount(pool)
  {
    var last := |pool| - 1;
    if i == last {
      assert pool[i := o][..last] == pool[..last];
    } else {
      assert pool[i := o][..last] == pool[..last][i := o];
      DeactivateOneLess(pool[..last], i, o);
    }
  }

  /** The spawn position stays within the jitter of the chosen base position:
      the depth is kept, the height rises by at most 1. An object of neither
      the slide nor the normal tag is placed exactly at the base. */
  lemma PlacementEnvelope(tag: string, normalTag: string, slideTag: string, base: Vec3, jitter: real)
    requires -Jitter <= jitter <= Jitter
    ensures var p := Placement(tag, normalTag, slideTag, base, jitter);
      && p.z == base.z
      && base.x - Jitter <= p.x <= base.x + Jitter
      && (tag != slideTag && tag == normalTag ==> p.x == base.x + jitter)
      && (tag == slideTag || tag != normalTag ==> p.x == base.x)
      && base.y <= p.y <= base.y + 1.0
      && (tag == slideTag ==> p == base.(y := base.y + 1.0))
      && (tag != slideTag && tag == normalTag ==> p.y == base.y + 0.5)
      && (tag != slideTag && tag != normalTag ==> p == base)
  {
  }

  class ObstacleSpawner {
    const obstaclePrefab: Prefab
    const jumpObstaclePrefab: Prefab
    const slideObstaclePrefab: Prefab
    const spawnPositions: seq<Vec3>
    /** Declared with 20 and never read: the pool size comes from the three
        counts of `PreparePool`. */
    const poolSize: int
    const settings: Difficulty.Settings

    var obstaclePool: seq<Obstacle>
    var gameStartTime: real
    var spawnInterval: real
    var currentSpeed: real
    var spawning: bool
    var routine: Routine
    /** The elapsed time of the last loop step, if there was one: the two
        difficulty fields hold the curve at that time. */
    ghost var lastT: Option<real>

    ghost predicate Valid()
      reads this
    {
      && (routine.WaitingUntil? ==> spawning)
      && (lastT.None? ==> spawnInterval == 0.0 && currentSpeed == 0.0)
      && (lastT.Some? ==>
            && spawnInterval == Difficulty.SpawnInterval(settings, lastT.value)
            && currentSpeed == Difficulty.EnemySpeed(settings, lastT.value))
    }

    constructor (normal: Prefab, jump: Prefab, slide: Prefab, positions: seq<Vec3>, s: Difficulty.Settings)
      ensures Valid()
      ensures obstaclePrefab == normal && jumpObstaclePrefab == jump && slideObstaclePrefab == slide
      ensures spawnPositions == positions && settings == s && poolSize == 20
      ensures obstaclePool == [] && !spawning && routine == Stopped && lastT == None
    {
      obstaclePrefab, jumpObstaclePrefab, slideObstaclePrefab := normal, jump, slide;
      spawnPositions, settings, poolSize := positions, s, 20;
      obstaclePool := [];
      gameStartTime, spawnInterval, currentSpeed := 0.0, 0.0, 0.0;
      spawning, routine := false, Stopped;
      lastT := None;
    }

    /** What a spawn attempt at speed `speed` did to the pool `before`: it
        finds no inactive object exactly when all are active, fails for want
        of a position exactly when there is an inactive object and no
        position, and otherwise activates one inactive object at a spawn
        position adjusted by its kind, giving it the speed. Only a spawn
        changes the pool. */
    ghost predicate SpawnResult(before: seq<Obstacle>, outcome: SpawnOutcome, speed: real)
      reads this
    {
      && (outcome.NoneInactive? <==> forall k :: 0 <= k < |before| ==> before[k].active)
      && (outcome.NoSpawnPosition? <==> !outcome.NoneInactive? && |spawnPositions| == 0)
      && (!outcome.Spawned? ==> obstaclePool == before)
      && (outcome.Spawned? ==>
            var i := outcome.index;
            && i < |before| && !before[i].active
            && outcome.spot < |spawnPositions|
            && -Jitter <= outcome.jitter <= Jitter
            && obstaclePool == before[i := Activate(before[i],
                                                    Placement(before[i].tag, obstaclePrefab.tag, slideObstaclePrefab.tag,
                                                              spawnPositions[outcome.spot], outcome.jitter),
                                                    speed)]
            && ActiveCount(obstaclePool) == ActiveCount(before) + 1)
    }

    /** Instantiates `prefab`, deactivates the copy and appends it. */
    method AddToPool(prefab: Prefab)
      modifies this`obstaclePool
      ensures obstaclePool == old(obstaclePool) + [Pooled(prefab)]
    {
      var obj := Pooled(prefab);
      obstaclePool := obstaclePool + [obj];
    }

    /** Called from `Start`: appends 12 normal, 4 jump and 4 slide objects,
        all inactive. */
    method PreparePool()
      modifies this`obstaclePool
      ensures obstaclePool == old(obstaclePool) + InitialPool(obstaclePrefab, jumpObstaclePrefab, slideObstaclePrefab)
    {
      var normalCount, jumpCount, slideCount := NormalCount, JumpCount, SlideCount;
      ghost var before := obstaclePool;

      var i := 0;
      while i < normalCount
        invariant 0 <= i <= normalCount
        invariant obstaclePool == before + Copies(obstaclePrefab, i)
      {
        AddToPool(obstaclePrefab);
        i := i + 1;
      }
      ghost var normals := obstaclePool;

      i := 0;
      while i < jumpCount
        invariant 0 <= i <= jumpCount
        invariant obstaclePool == normals + Copies(jumpObstaclePrefab, i)
      {
        AddToPool(jumpObstaclePrefab);
        i := i + 1;
      }
      ghost var jumps := obstaclePool;

      i := 0;
      while i < slideCount
        invariant 0 <= i <= slideCount
        invariant obstaclePool == jumps + Copies(slideObstaclePrefab, i)
      {
        AddToPool(slideObstaclePrefab);
        i := i + 1;
      }
      assert obstaclePool == before + (Copies(obstaclePrefab, NormalCount) + Copies(jumpObstaclePrefab, JumpCount)
                                       + Copies(slideObstaclePrefab, SlideCount));
    }

    /** One spawn attempt at speed `speed`: a random inactive object, if
        there is one, is placed at a random spawn position adjusted by its
        kind, activated and given the speed. Nothing else changes. */
    method SpawnFromPool(speed: real) returns (outcome: SpawnOutcome)
      modifies this`obstaclePool
      ensures SpawnResult(old(obstaclePool), outcome, speed)
    {
      var inactive := FindInactive(obstaclePool);
      if |inactive| == 0 {
        outcome := NoneInactive;
        return;
      }
      var pick :| 0 <= pick < |inactive|;
      var index := inactive[pick];
      var toSpawn := obstaclePool[index];

      if |spawnPositions| == 0 {
        outcome := NoSpawnPosition;
        return;
      }
      var spot :| 0 <= spot < |spawnPositions|;

      var jitter := 0.0;
      if toSpawn.tag != slideObstaclePrefab.tag && toSpawn.tag == obstaclePrefab.tag {
        jitter :| -Jitter <= jitter <= Jitter;
      }
      var spawnPos := Placement(toSpawn.tag, obstaclePrefab.tag, slideObstaclePrefab.tag, spawnPositions[spot], jitter);

      var spawned := Activate(toSpawn, spawnPos, speed);
      ActivateOneMore(obstaclePool, index, spawned);
      obstaclePool := obstaclePool[index := spawned];
      outcome := Spawned(index, spot, jitter);
    }

    /** One pass of the body of the spawning loop at level time `now`:
        evaluate the curve at the elapsed time, attempt a spawn at the new
        speed, then wait the new interval. A spawn attempt that throws ends
        the loop. */
    method SpawnStep(now: real) returns (outcome: SpawnOutcome)
      requires Valid() && spawning
      modifies this`spawnInterval, this`currentSpeed, this`obstaclePool, this`routine, this`lastT
      ensures Valid()
      ensures lastT == Some(now - gameStartTime)
      ensures spawnInterval == Difficulty.SpawnInterval(settings, now - gameStartTime)
      ensures currentSpeed == Difficulty.EnemySpeed(settings, now - gameStartTime)
      ensures routine == if outcome.NoSpawnPosition? then Stopped else WaitingUntil(now + spawnInterval)
      ensures SpawnResult(old(obstaclePool), outcome, currentSpeed)
    {
      var t := now - gameStartTime;
      spawnInterval := Difficulty.SpawnInterval(settings, t);
      currentSpeed := Difficulty.EnemySpeed(settings, t);
      lastT := Some(t);

      outcome := SpawnFromPool(currentSpeed);

      if outcome.NoSpawnPosition? {
        routine := Stopped;
      } else {
        routine := WaitingUntil(now + spawnInterval);
      }
    }

    /** Records the start time, switches spawning on and starts the loop,
        whose first spawn happens at once, before the first wait. */
    method StartSpawning(now: real) returns (outcome: SpawnOutcome)
      requires Valid()
      modifies this
      ensures Valid()
      ensures gameStartTime == now && spawning
      ensures spawnInterval == Difficulty.SpawnInterval(settings, 0.0)
      ensures currentSpeed == Difficulty.EnemySpeed(settings, 0.0)
      ensures routine == if outcome.NoSpawnPosition? then Stopped else WaitingUntil(now + spawnInterval)
      ensures SpawnResult(old(obstaclePool), outcome, currentSpeed)
    {
      gameStartTime := now;
      spawning := true;
      outcome := SpawnStep(now);
      assert now - gameStartTime == 0.0;
    }

    /** Switches spawning off and stops the loop; the pool is untouched.
        Stopping twice is the same as stopping once. */
    method StopSpawning()
      requires Valid()
      modifies this`spawning, this`routine
      ensures Valid()
      ensures !spawning && routine == Stopped
    {
      spawning := false;
      routine := Stopped;
    }

    /** The loop resuming at level time `now`: once the wait is over it runs
        the next step, otherwise nothing changes. */
    method Resume(now: real) returns (outcome: Option<SpawnOutcome>)
      requires Valid()
      modifies this`spawnInterval, this`currentSpeed, this`obstaclePool, this`routine, this`lastT
      ensures Valid()
      ensures outcome.Some? <==> old(routine).WaitingUntil? && now >= old(routine).wake
      ensures outcome.None? ==> unchanged(this)
      ensures outcome.Some? ==>
        && spawnInterval == Difficulty.SpawnInterval(settings, now - gameStartTime)
        && currentSpeed == Difficulty.EnemySpeed(settings, now - gameStartTime)
        && (outcome.value.NoSpawnPosition? ==> routine == Stopped)
        && (!outcome.value.NoSpawnPosition? ==> routine == WaitingUntil(now + spawnInterval))
        && SpawnResult(old(obstaclePool), outcome.value, currentSpeed)
    {
      if routine.WaitingUntil? && now >= routine.wake {
        var o := SpawnStep(now);
        outcome := Some(o);
      } else {
        outcome := None;
      }
    }

    /** `obstacle.SetActive(false)` on a pooled object, as the player does to
        the obstacle that killed it. */
    method Deactivate(index: nat)
      requires index < |obstaclePool|
      modifies this`obstaclePool
      ensures obstaclePool == old(obstaclePool)[index := old(obstaclePool)[index].(active := false)]
      ensures old(obstaclePool)[index].active ==> ActiveCount(obstaclePool) + 1 == ActiveCount(old(obstaclePool))
      ensures !old(obstaclePool)[index].active ==> obstaclePool == old(obstaclePool)
    {
      var released := obstaclePool[index].(active := false);
      if obstaclePool[index].active {
        DeactivateOneLess(obstaclePool, index, released);
      }
      obstaclePool := obstaclePool[index := released];
    }

    /** The speed most recently given by the curve, never above the maximum
        once the loop has run. */
    method GetCurrentSpeed() returns (r: real)
      requires Valid()
      ensures r == currentSpeed
      ensures lastT.Some? ==> r <= settings.maxEnemySpeed
    {
      r := currentSpeed;
    }
  }
}
