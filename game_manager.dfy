/** The game manager: the single instance that holds the score and its
    on-screen text, latches the start of the run on the first input, spawns
    enemies at one of its spawn points on a fixed period, and reloads the
    scene on restart. */
module Game {
  import opened Geometry
  import opened Optional
  import Decimal

  /** Where the enemy-spawning loop is: not running, or waiting until
      `wake` (in level time) before its next spawn. */
  datatype Routine = Stopped | WaitingUntil(wake: real)

  /** `score++` on a 32-bit `int`: one more, except that the largest value
      wraps to the smallest. */
  function Increment32(n: int): (r: int)
    requires Decimal.IsInt32(n)
    ensures Decimal.IsInt32(r)
    ensures n < Decimal.MaxInt32 ==> r == n + 1 && r > n
    ensures n == Decimal.MaxInt32 ==> r == Decimal.MinInt32
  {
    if n == Decimal.MaxInt32 then Decimal.MinInt32 else n + 1
  }

  /** The score after `k` increments from `n`. */
  function ScoreAfter(n: int, k: nat): (r: int)
    requires Decimal.IsInt32(n)
    ensures Decimal.IsInt32(r)
  {
    if k == 0 then n else Increment32(ScoreAfter(n, k - 1))
  }

  /** Short of the 32-bit limit, `k` increments add exactly `k`: the score
      never goes down during a run. */
  lemma {:induction false} ScoreCounts(n: int, k: nat)
    requires Decimal.IsInt32(n) && n + k <= Decimal.MaxInt32
    ensures ScoreAfter(n, k) == n + k
  {
    if k > 0 {
      ScoreCounts(n, k - 1);
    }
  }

  /** The static `GameManager.Instance`. */
  class Slot {
    var instance: GameManager?

    constructor ()
      ensures instance == null
    {
      instance := null;
    }
  }

  class GameManager {
    const enemySpawns: seq<Vec3>
    const spawnInterval: real

    var score: int
    var scoreText: string
    var scoreTextVisible: bool
    var gameStarted: bool
    /** Positions of the enemies instantiated so far, in order. */
    var enemies: seq<Vec3>
    var routine: Routine
    /** Number of scene reloads requested. */
    var sceneReloads: nat
    var destroyed: bool

    ghost predicate Valid()
      reads this
    {
      && Decimal.IsInt32(score)
      && (routine.WaitingUntil? ==> gameStarted)
    }

    constructor (spawns: seq<Vec3>, interval: real, text: string, textVisible: bool)
      ensures Valid()
      ensures enemySpawns == spawns && spawnInterval == interval
      ensures score == 0 && scoreText == text && scoreTextVisible == textVisible
      ensures !gameStarted && enemies == [] && routine == Stopped && sceneReloads == 0 && !destroyed
    {
      enemySpawns, spawnInterval := spawns, interval;
      score, scoreText, scoreTextVisible := 0, text, textVisible;
      gameStarted, enemies, routine := false, [], Stopped;
      sceneReloads, destroyed := 0, false;
    }

    /** The first manager to wake becomes the instance; any later one is
        destroyed and the instance stays. */
    method Awake(slot: Slot)
      modifies slot, this`destroyed
      ensures old(slot.instance) == null ==> slot.instance == this && destroyed == old(destroyed)
      ensures old(slot.instance) != null ==> slot.instance == old(slot.instance) && destroyed
    {
      if slot.instance == null {
        slot.instance := this;
      } else {
        destroyed := true;
      }
    }

    /** The score text is hidden until the run starts. */
    method Start()
      modifies this`scoreTextVisible
      ensures !scoreTextVisible
    {
      scoreTextVisible := false;
    }

    /** Instantiates an enemy at a randomly chosen spawn point. With no
        spawn point the index access throws and nothing is spawned. */
    method Spawn() returns (spot: Option<nat>)
      modifies this`enemies
      ensures spot.Some? <==> |enemySpawns| > 0
      ensures spot.None? ==> enemies == old(enemies)
      ensures spot.Some? ==> spot.value < |enemySpawns| && enemies == old(enemies) + [enemySpawns[spot.value]]
    {
      if |enemySpawns| == 0 {
        spot := None;
        return;
      }
      var k :| 0 <= k < |enemySpawns|;
      enemies := enemies + [enemySpawns[k]];
      spot := Some(k);
    }

    /** Latches the start of the run, shows the score and starts the enemy
        loop, which spawns at once and then waits `spawnInterval`. */
    method StartGame(now: real) returns (spot: Option<nat>)
      requires Valid()
      modifies this`gameStarted, this`scoreTextVisible, this`enemies, this`routine
      ensures Valid()
      ensures gameStarted && scoreTextVisible
      ensures spot.Some? <==> |enemySpawns| > 0
      ensures spot.None? ==> enemies == old(enemies) && routine == Stopped
      ensures spot.Some? ==> spot.value < |enemySpawns| && enemies == old(enemies) + [enemySpawns[spot.value]]
                             && routine == WaitingUntil(now + spawnInterval)
    {
      gameStarted := true;
      scoreTextVisible := true;
      spot := Spawn();
      routine := if spot.None? then Stopped else WaitingUntil(now + spawnInterval);
    }

    /** The spawn points with the given indices, in order. */
    function SpawnPoints(spots: seq<nat>): (r: seq<Vec3>)
      requires forall k :: 0 <= k < |spots| ==> spots[k] < |enemySpawns|
      ensures |r| == |spots|
      ensures forall k :: 0 <= k < |spots| ==> r[k] == enemySpawns[spots[k]]
    {
      if spots == [] then [] else [enemySpawns[spots[0]]] + SpawnPoints(spots[1..])
    }

    /** One frame before the run. The touch test is compiled only into
        Android and editor builds (`touchBuild`), the key test only into
        standalone and editor builds (`keyBuild`). Each test that is compiled
        in and sees a press calls `StartGame`; both are made against the
        latch as it was at the start of the frame, so in the editor a touch
        and a key in the same frame start the game twice. `starts` counts
        the calls and `spots` lists the spawn points they used. A throw in
        the spawning loop ends only that loop, never this frame. */
    method Update(touchPressed: bool, keyPressed: bool, now: real, touchBuild: bool, keyBuild: bool)
        returns (starts: nat, spots: seq<nat>)
      requires Valid()
      modifies this`gameStarted, this`scoreTextVisible, this`enemies, this`routine
      ensures Valid()
      ensures starts == if old(gameStarted) then 0
                        else (if touchBuild && touchPressed then 1 else 0) + (if keyBuild && keyPressed then 1 else 0)
      ensures starts == 0 ==> spots == [] && unchanged(this)
      ensures starts > 0 ==> gameStarted && scoreTextVisible
      ensures |spots| == if |enemySpawns| > 0 then starts else 0
      ensures forall k :: 0 <= k < |spots| ==> spots[k] < |enemySpawns|
      ensures enemies == old(enemies) + SpawnPoints(spots)
      ensures starts > 0 ==> routine == if |enemySpawns| > 0 then WaitingUntil(now + spawnInterval) else Stopped
    {
      starts, spots := 0, [];
      if !gameStarted {
        if touchBuild && touchPressed {
          var spot := StartGame(now);
          starts := starts + 1;
          if spot.Some? {
            spots := spots + [spot.value];
          }
        }
        if keyBuild && keyPressed {
          var spot := StartGame(now);
          starts := starts + 1;
          if spot.Some? {
            spots := spots + [spot.value];
          }
        }
      }
    }

    /** The enemy loop resuming at level time `now`: once the wait is over it
        spawns again and waits again. */
    method Resume(now: real) returns (spot: Option<nat>)
      requires Valid()
      modifies this`enemies, this`routine
      ensures Valid()
      ensures !(old(routine).WaitingUntil? && now >= old(routine).wake) ==> spot.None? && unchanged(this)
      ensures old(routine).WaitingUntil? && now >= old(routine).wake ==>
        (spot.Some? <==> |enemySpawns| > 0)
        && (spot.None? ==> enemies == old(enemies) && routine == Stopped)
        && (spot.Some? ==> spot.value < |enemySpawns| && enemies == old(enemies) + [enemySpawns[spot.value]]
                           && routine == WaitingUntil(now + spawnInterval))
    {
      spot := None;
      if routine.WaitingUntil? && now >= routine.wake {
        spot := Spawn();
        routine := if spot.None? then Stopped else WaitingUntil(now + spawnInterval);
      }
    }

    /** Requests a reload of the current scene. */
    method Restart()
      modifies this`sceneReloads
      ensures sceneReloads == old(sceneReloads) + 1
    {
      sceneReloads := sceneReloads + 1;
    }

    /** One more point; the text shows the new score, and reads back as it. */
    method ScoreUp()
      requires Valid()
      modifies this`score, this`scoreText
      ensures Valid()
      ensures score == Increment32(old(score))
      ensures scoreText == Decimal.Encode(score)
      ensures Decimal.Parse(scoreText) == Some(score)
    {
      score := Increment32(score);
      scoreText := Decimal.Encode(score);
      Decimal.RoundTrip(score);
    }
  }
}
