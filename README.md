# Endless runner core, modelled in Dafny

This project models the gameplay core of a Unity endless-runner and proves
properties of that model. The core covers:

- the **obstacle spawner**: a pool of 20 reusable obstacles, the clamped
  linear difficulty curve, and the start/stop spawning loop;
- the **player controller**: the grounded, jumping, sliding and dead flags,
  the jump arc, the slide with its collider shrink and cooldown, the lethal
  contacts and death, the lateral clamp, the lean, and the decisions made
  from touch and keyboard input;
- the **audio manager**: the singleton, the mute flags restored from and
  saved to the player preferences, the mixer levels, and the round-robin
  pool of sound-effect sources;
- the **game manager**: the singleton, the `gameStarted` latch, the enemy
  spawn-point choice, restart, and the 32-bit score with its on-screen
  text;
- **score persistence**: the decimal text written to and read back from
  `score.txt`, with 0 when the file is missing or does not parse.

Each script whose methods update fields in place is a Dafny `class`:
`ObstacleSpawner`, `PlayerController`, `AudioManager` and `GameManager`.
Its methods have `modifies` frames, so a field outside a method's frame
keeps its value. Each method states the fields it changes in terms of the
old state and its inputs. The jump arc's height and the random choices are
stated as ranges. A `Valid()` invariant ties the fields together. `SaveScore` has no state, so
it is a pair of functions over a file store, which maps paths to contents.

The engine's coroutines are explicit phases. The two spawning loops
(`Spawner.ObstacleSpawner.Resume`, `Game.GameManager.Resume`) are resumed
with the current level time, because they wait until a wake-up time. The
player's jump and slide routines (`ResumeJump`, `ResumeSlide`) are resumed
with the frame's time step, which they add to the time they have run.
`Random.Range` is a nondeterministic choice (`:|`) within the stated range.
The method returns the chosen index, so its contract can name it.

A few engine calls throw, which ends the method or coroutine that made
them. Each is a distinct outcome that changes nothing:

- an empty spawn-position list;
- an empty pool of sound-effect sources;
- a missing mixer or missing "SFX" group while the pool is built.

The jump and slide state of the player is a value (`Motion`). One jump or
slide request acts on it through the function `Apply`. The requests of a
frame act in the order they are made (`ApplyAll`). The controller's input
methods are proved to change that state exactly as `ApplyAll` does.

Settings are taken as serialized, with no sign restriction. With a negative
`XLimit` the lateral clamp's bounds cross, and with a negative
`jumpHeight` the arc dips below its start. The contracts cover both.

Floats are reals. C# `int` wrap-around of the score is written out.

Files:

- `optional.dfy`: the `Option` type.
- `geometry.dfy`: vectors, `Clamp`, `Abs`.
- `difficulty.dfy`: the difficulty curve.
- `obstacle_spawner.dfy`: the spawner.
- `player_input.dfy`: the pure input, lean and contact decisions.
- `player_controller.dfy`: the controller.
- `audio_manager.dfy`: the audio manager.
- `game_manager.dfy`: the game manager.
- `decimal.dfy`: 32-bit decimal text, as `ToString` and `int.TryParse` use it.
- `save_score.dfy`: the score file.

## Model

| member | source | states |
|---|---|---|
| Difficulty.SpawnInterval | Assets/Scripts/ObstacleSpawner.cs:77 | the wait after a spawn is never below the minimum interval nor below the linear drop, and equals one of the two |
| Difficulty.EnemySpeed | Assets/Scripts/ObstacleSpawner.cs:78 | the speed given to a spawn is never above the maximum nor above the linear ramp, and equals one of the two |
| Difficulty.IntervalNonIncreasing | Assets/Scripts/ObstacleSpawner.cs:77 | with a non-negative drop rate, a later time never gives a longer interval |
| Difficulty.SpeedNonDecreasing | Assets/Scripts/ObstacleSpawner.cs:78 | with a non-negative speed-up rate, a later time never gives a lower speed |
| Difficulty.CurveBounds | Assets/Scripts/ObstacleSpawner.cs:75-78 | with well-formed settings, the curve starts at the initial values and stays between them and the limits for every elapsed time >= 0 |
| Difficulty.CurveSaturates | Assets/Scripts/ObstacleSpawner.cs:77-78 | once the linear terms pass the limits, the interval is exactly the minimum and the speed exactly the maximum |
| Difficulty.DefaultCurve | Assets/Scripts/ObstacleSpawner.cs:18-24 | with the declared settings: 1 s and speed 5 at the start, 0.5 s and speed 10 after 10 s, 0.3 s and speed 15 after 100 s |
| Spawner.Pooled | Assets/Scripts/ObstacleSpawner.cs:66-67 | a pooled copy is inactive and keeps its prefab's tag |
| Spawner.Copies | Assets/Scripts/ObstacleSpawner.cs:54-61 | n appends of a prefab give exactly n inactive copies of it |
| Spawner.FindInactive | Assets/Scripts/ObstacleSpawner.cs:88 | lists only inactive slots, and every inactive slot |
| Spawner.Activate | Assets/Scripts/ObstacleSpawner.cs:106-111 | the spawned object is active at the spawn position, keeps its tag, and its mover (if any) gets the given speed |
| Spawner.InitialPoolLayout | Assets/Scripts/ObstacleSpawner.cs:48-62 | the pool built at start holds 20 objects: 12 normal, then 4 jump, then 4 slide, none active |
| Spawner.ActivePlusInactive | Assets/Scripts/ObstacleSpawner.cs:88-90 | active count plus inactive count equals the pool size |
| Spawner.ActivateOneMore | Assets/Scripts/ObstacleSpawner.cs:107 | activating one inactive slot raises the active count by exactly one |
| Spawner.DeactivateOneLess | Assets/Scripts/PlayerController.cs:210 | deactivating one active slot lowers the active count by exactly one |
| Spawner.Placement | Assets/Scripts/ObstacleSpawner.cs:94-104 | depth is kept; the height rises by 1 exactly for the slide kind and by 0.5 exactly for a normal kind that is not the slide kind; that normal kind moves sideways by exactly the jitter and every other kind keeps x; any other kind sits exactly at the base |
| Spawner.PlacementEnvelope | Assets/Scripts/ObstacleSpawner.cs:94-104 | the slide kind is raised by 1 and keeps x; the normal kind is shifted by exactly the jitter, within [-1.8, 1.8], and raised by 0.5; any other kind sits at the base position; depth is kept |
| Spawner.ObstacleSpawner.constructor | Assets/Scripts/ObstacleSpawner.cs:8-28 | the spawner starts with an empty pool, not spawning, and `poolSize` 20, which is never read |
| Spawner.ObstacleSpawner.AddToPool | Assets/Scripts/ObstacleSpawner.cs:64-69 | appends one inactive copy of the prefab |
| Spawner.ObstacleSpawner.PreparePool | Assets/Scripts/ObstacleSpawner.cs:48-62 | the three loops append exactly the initial pool (12 normal, 4 jump, 4 slide) |
| Spawner.ObstacleSpawner.SpawnFromPool | Assets/Scripts/ObstacleSpawner.cs:86-112 | it finds no inactive object exactly when all are active, and fails for want of a position exactly when one is inactive and there is no position; both change nothing; otherwise the pool becomes the old pool with one previously inactive slot activated, placed by kind at a configured position and given the speed, and the active count rises by one |
| Spawner.ObstacleSpawner.SpawnStep | Assets/Scripts/ObstacleSpawner.cs:73-83 | one loop pass: both difficulty fields take the curve at the elapsed time; the spawn attempt has the outcomes and exact new pool of `SpawnFromPool` at that speed; the loop waits that interval, or stops when there was no position |
| Spawner.ObstacleSpawner.StartSpawning | Assets/Scripts/ObstacleSpawner.cs:35-40 | records the start time and sets spawning; the first spawn happens at once, with the curve at elapsed time 0, with the outcomes and exact new pool of `SpawnFromPool` |
| Spawner.ObstacleSpawner.StopSpawning | Assets/Scripts/ObstacleSpawner.cs:42-46 | spawning is off and the loop is stopped |
| Spawner.ObstacleSpawner.Resume | Assets/Scripts/ObstacleSpawner.cs:71-84 | the loop runs its next pass exactly when its wait is over, with the curve, outcomes and exact new pool of `SpawnStep`; otherwise nothing changes |
| Spawner.ObstacleSpawner.Deactivate | Assets/Scripts/PlayerController.cs:210 | `SetActive(false)` on one slot changes only that slot's flag |
| Spawner.ObstacleSpawner.GetCurrentSpeed | Assets/Scripts/ObstacleSpawner.cs:114 | returns the current speed, which never exceeds the maximum once the loop has run |
| PlayerInput.SwipeNeedsDistance | Assets/Scripts/PlayerController.cs:85-91 | a swipe is recognised only within the time limit and past the threshold in its own direction |
| PlayerInput.SwipeMirror | Assets/Scripts/PlayerController.cs:87-90 | reversing the vertical movement swaps jump and slide swipes |
| PlayerInput.KeyboardOverridesTouch | Assets/Scripts/PlayerController.cs:100-103 | a held direction key decides the direction whatever the touch gave, left before right; with none held the touch's direction stands |
| PlayerInput.ClassifySwipe | Assets/Scripts/PlayerController.cs:85-91 | a swipe is recognised exactly within the time limit and at or past the threshold distance; an upward swipe moved up, a downward one did not |
| PlayerInput.InputDirection | Assets/Scripts/PlayerController.cs:63-103 | a held left key gives Left, else a held right key gives Right (`CombineDirection`); with no key held the direction is set exactly when a touch is held and not released this frame, and is then the touch's half of the screen |
| PlayerInput.TouchDirection | Assets/Scripts/PlayerController.cs:78-79 | a held touch always steers: Left exactly when it is on the left half of the screen, Right otherwise |
| PlayerInput.TouchSwipe | Assets/Scripts/PlayerController.cs:70-93 | only a release makes a swipe; a touch pressed and released in one frame has not moved, so with a positive threshold it makes none |
| PlayerInput.Requests | Assets/Scripts/PlayerController.cs:82-108 | a frame makes at most two jump/slide requests: the swipe's (`SwipeRequests`: up a jump, down a slide), then the keys' (`KeyRequests`: space a jump, else a slide key a slide); none without a release or a keyboard, and a pressed space key makes a jump request last |
| PlayerInput.DirectionMultiplier | Assets/Scripts/PlayerController.cs:114-115 | the multiplier is -1, 0 or 1; 0 exactly with no direction, positive exactly for right |
| PlayerInput.TiltTarget | Assets/Scripts/PlayerController.cs:126-130 | the lean target is the tilt angle, its negation or 0: 0 while jumping, sliding or going straight, otherwise it leans against the held direction |
| PlayerInput.AnimatorSpeed | Assets/Scripts/PlayerController.cs:230-231 | the value written to "Speed" is 1 whatever the game speed |
| PlayerInput.ContactRules | Assets/Scripts/PlayerController.cs:200-205 | an enemy always kills; a jump obstacle kills unless in the Jump state; a slide obstacle kills unless in the Slide state; other tags never kill |
| PlayerInput.Lethal | Assets/Scripts/PlayerController.cs:200-205 | only the enemy, jump-obstacle and slide-obstacle tags can kill |
| Geometry.Clamp | Assets/Scripts/PlayerController.cs:120 | `Mathf.Clamp`: a value within the bounds is kept, one below the lower bound gives it, one above the upper bound gives that; with crossed bounds the result is one of the two |
| Player.PlayerController.constructor | Assets/Scripts/PlayerController.cs:33-51 | for any settings, starts grounded, able to slide, not jumping, sliding or dead, with the collider shape and ground height recorded |
| Player.PlayerController.Apply | Assets/Scripts/PlayerController.cs:140-180 | a jump request takes effect exactly when grounded and not sliding, and starts the arc from the given position; a slide request exactly when grounded, allowed and not jumping, and then changes only the slide flags, the slide phase and the collider, which shrinks; a request whose guard fails changes nothing |
| Player.PlayerController.EffectIsBusy | Assets/Scripts/PlayerController.cs:140-180 | a request that takes effect leaves a state where no request can; a request never makes the player jump and slide at once |
| Player.PlayerController.BusyBlocksAll | Assets/Scripts/PlayerController.cs:140-180 | in the air, or sliding and barred from sliding, no requests change anything |
| Player.PlayerController.AtMostOneEffect | Assets/Scripts/PlayerController.cs:82-108 | of a frame's requests at most one takes effect: if anything changed, the result admits no further request |
| Player.PlayerController.ApplyAllConcat | Assets/Scripts/PlayerController.cs:82-108 | requests made in two batches act as the same requests made in one |
| Player.PlayerController.ComposeBatches | Assets/Scripts/PlayerController.cs:82-108 | the swipe's batch and the keys' batch, each from the position the previous left, act as one batch from the first position |
| Player.PlayerController.TryJump | Assets/Scripts/PlayerController.cs:140-149 | a jump starts exactly when grounded and not sliding: the player leaves the ground, jumps, and the arc restarts from the current position, which rises by between 0 and the jump height; otherwise nothing changes |
| Player.PlayerController.ResumeJump | Assets/Scripts/PlayerController.cs:151-167 | during the arc the body sits above the start by an amount between 0 and the jump height, and the arc time grows by the step; at the end the player is back at the start position, grounded and not jumping |
| Player.PlayerController.TrySlide | Assets/Scripts/PlayerController.cs:169-180 | a slide starts exactly when grounded, allowed and not jumping: the collider takes half its height, its centre drops by a quarter height, and sliding is barred |
| Player.PlayerController.ResumeSlide | Assets/Scripts/PlayerController.cs:175-187 | after the slide duration the collider is restored exactly and sliding ends; sliding stays barred until the cooldown ends |
| Player.PlayerController.OnCollisionEnter | Assets/Scripts/PlayerController.cs:189-196 | ground contact lands the player; any other contact changes nothing |
| Player.PlayerController.OnTriggerEnter | Assets/Scripts/PlayerController.cs:198-206 | the player dies exactly once on a lethal contact and not at all otherwise, with the state `Die` leaves; each death requests one restart; the slide phase, the slide permission, the grounded flag, the direction, the touch record, the animator speed and the collider never change |
| Player.PlayerController.Die | Assets/Scripts/PlayerController.cs:208-226 | deactivates the obstacle, marks dead, disables the controller, clears the lean, puts the body at ground height, clears both pose flags if a jump was ever started, and requests one restart; no other field of the controller changes |
| Player.PlayerController.ReadTouch | Assets/Scripts/PlayerController.cs:63-94 | records a press, steers by a held touch to the half of the screen it is on, and classifies a release as a swipe |
| Player.PlayerController.Request | Assets/Scripts/PlayerController.cs:89-90 | one jump or slide request changes the jump and slide state exactly as `Apply` says; the body moves only if the state changed, and then only up by between 0 and the jump height |
| Player.PlayerController.RequestAll | Assets/Scripts/PlayerController.cs:105-108 | the request of one input source, if any, acts exactly as `ApplyAll` says, with the same bound on the body's move |
| Player.PlayerController.SwipeInput | Assets/Scripts/PlayerController.cs:63-93 | the touch half of a frame: the swipe read from the touch, the touch's direction, the recorded press, and the swipe's request applied as `ApplyAll` says |
| Player.PlayerController.KeyInput | Assets/Scripts/PlayerController.cs:97-108 | the keyboard half of a frame: the keys override the direction, and the key's request is applied as `ApplyAll` says |
| Player.PlayerController.DetectInput | Assets/Scripts/PlayerController.cs:61-110 | the direction held is the touch's, overridden by the keys; the jump and slide state becomes the frame's requests applied in order, from the old state and position; the body moves only if that state changed |
| Player.PlayerController.MoveHorizontal | Assets/Scripts/PlayerController.cs:112-122 | moves along the held direction and clamps x: within [-XLimit, XLimit] when XLimit >= 0, on one of the two crossed bounds otherwise |
| Player.PlayerController.UpdateTilt | Assets/Scripts/PlayerController.cs:124-138 | the new lean lies between the old lean and the target |
| Player.PlayerController.UpdateAnimator | Assets/Scripts/PlayerController.cs:228-232 | the animator speed becomes 1 |
| Player.PlayerController.EnabledFrame | Assets/Scripts/PlayerController.cs:53-59 | the four steps of an enabled frame: the input direction, the touch record, the frame's requests applied in order to the jump and slide state, x moved by the direction's step and clamped, the height within the jump arc, the lean towards its target, and speed 1 |
| Player.PlayerController.Update | Assets/Scripts/PlayerController.cs:53-59 | a disabled controller changes nothing; an enabled one takes the input direction, records a press of this frame as the touch start, applies the frame's requests in order to the jump and slide state (flags, phases and collider), moves x by the direction's step and clamps it, keeps the body's height within the jump arc, leans towards the target for the new state, and writes speed 1 |
| Audio.MuteLevel | Assets/Scripts/AudioManager.cs:107 | -80 exactly when muted, 0 exactly when not |
| Audio.FlagValue | Assets/Scripts/AudioManager.cs:92 | a flag is saved as 1 when muted and 0 otherwise |
| Audio.StoredMute | Assets/Scripts/AudioManager.cs:56-57 | muted exactly when the saved value is 1; an absent key reads as unmuted |
| Audio.SetLevel | Assets/Scripts/AudioManager.cs:103-109 | with a mixer the parameter takes the mute level and other parameters keep theirs; without one nothing changes |
| Audio.NextIndex | Assets/Scripts/AudioManager.cs:86 | the next index stays in [0, count): one more, or 0 after the last source |
| Audio.FlagRoundTrip | Assets/Scripts/AudioManager.cs:56-99 | the flag a toggle saves is the flag the next start restores |
| Audio.FlagsIndependent | Assets/Scripts/AudioManager.cs:56-57 | saving one channel's flag does not change how the other's reads back |
| Audio.AdvanceWithin | Assets/Scripts/AudioManager.cs:86 | short of the end of the pool, k plays move the index k places |
| Audio.AdvanceSplit | Assets/Scripts/AudioManager.cs:86 | plays in two runs move the index as far as the same plays in one |
| Audio.WrapAround | Assets/Scripts/AudioManager.cs:86 | the plays up to the end of the pool bring the index back to 0, and m more bring it to m |
| Audio.FullCycle | Assets/Scripts/AudioManager.cs:81-86 | after as many plays as sources the index is back where it started |
| Audio.NoEarlyReuse | Assets/Scripts/AudioManager.cs:81-86 | within fewer plays than there are sources the index never returns to its start |
| Audio.ToggleTwice | Assets/Scripts/AudioManager.cs:89-101 | toggling twice restores the flag and the mixer level, and the saved value reads back as the original flag |
| Audio.AudioManager.constructor | Assets/Scripts/AudioManager.cs:10-27 | starts unmuted with an empty pool at index 0 |
| Audio.AudioManager.Awake | Assets/Scripts/AudioManager.cs:29-63 | a second instance destroys itself and leaves the instance alone; otherwise it becomes the instance, restores both flags, sets both levels and builds the pool |
| Audio.AudioManager.InitSFXPool | Assets/Scripts/AudioManager.cs:65-75 | appends exactly `poolSize` fresh sources; without a mixer or an "SFX" group it throws on the first source and appends none |
| Audio.AudioManager.PlaySFX | Assets/Scripts/AudioManager.cs:77-87 | muted or without a clip nothing changes, the index included; otherwise the source at the index plays the clip at the volume (0.5 when none is given) and the index advances modulo the pool size |
| Audio.AudioManager.ToggleSFX | Assets/Scripts/AudioManager.cs:89-94 | flips the SFX flag, saves it as 1 or 0 and sets the level |
| Audio.AudioManager.ToggleMusic | Assets/Scripts/AudioManager.cs:96-101 | flips the music flag, saves it as 1 or 0 and sets the level |
| Audio.AudioManager.SetVolume | Assets/Scripts/AudioManager.cs:103-109 | -80 when muted, 0 when not, nothing without a mixer |
| Game.Increment32 | Assets/Scripts/GameManager.cs:91 | `score++` adds exactly one below the 32-bit maximum and wraps to the minimum at it |
| Game.ScoreCounts | Assets/Scripts/GameManager.cs:91 | short of the 32-bit limit, k increments add exactly k |
| Game.GameManager.constructor | Assets/Scripts/GameManager.cs:12-21 | starts with score 0, not started, and no enemies |
| Game.GameManager.Awake | Assets/Scripts/GameManager.cs:23-34 | the first manager becomes the instance; a later one is destroyed and the instance stays |
| Game.GameManager.Start | Assets/Scripts/GameManager.cs:36-39 | the score text is hidden |
| Game.GameManager.Spawn | Assets/Scripts/GameManager.cs:70-73 | one enemy is added at a spawn point whose index is in [0, count); an empty list adds none |
| Game.GameManager.SpawnPoints | Assets/Scripts/GameManager.cs:70-73 | the positions at which the listed spawn-point indices place enemies, one per index, in order |
| Game.GameManager.StartGame | Assets/Scripts/GameManager.cs:62-67 | sets the latch, shows the score text, and the enemy loop spawns at once and then waits |
| Game.GameManager.Update | Assets/Scripts/GameManager.cs:41-60 | before the run, each input test compiled into the build (touch: Android or editor; keys: standalone or editor) that sees a press calls `StartGame` once, so the editor starts twice on a touch and a key in one frame and other builds never start; each call shows the score, adds one enemy at a valid spawn point when there are spawn points, and leaves the loop waiting `spawnInterval`, or stopped without spawn points; with no call nothing changes |
| Game.GameManager.Resume | Assets/Scripts/GameManager.cs:75-82 | the enemy loop spawns again exactly when its wait is over |
| Game.GameManager.Restart | Assets/Scripts/GameManager.cs:84-87 | requests one scene reload |
| Game.GameManager.ScoreUp | Assets/Scripts/GameManager.cs:89-93 | the score is incremented and the text is its decimal rendering, which reads back as the score |
| Decimal.Encode | Assets/Scripts/GameManager.cs:92 | the text is the digits of the magnitude, led by a minus sign exactly when the value is negative |
| Decimal.Parse | Assets/Scripts/SaveScore.cs:23 | a successful parse is a 32-bit value; empty text does not parse |
| Decimal.DigitsRoundTrip | Assets/Scripts/SaveScore.cs:12 | the digits of a natural number denote that number |
| Decimal.ParseEncode | Assets/Scripts/SaveScore.cs:12-23 | parsing the text of any integer gives it back within the 32-bit range and fails outside it |
| Decimal.RoundTrip | Assets/Scripts/GameManager.cs:92 | every 32-bit integer reads back from its text |
| Decimal.RejectsOutOfRange | Assets/Scripts/SaveScore.cs:23 | the text of a value outside the 32-bit range does not parse |
| Decimal.EncodeInjective | Assets/Scripts/GameManager.cs:92 | distinct scores have distinct texts |
| Decimal.RejectsNonDigits | Assets/Scripts/SaveScore.cs:23 | text with a non-digit other than a leading sign does not parse, nor does a sign alone |
| ScoreFile.SaveScoreToFile | Assets/Scripts/SaveScore.cs:9-14 | the score file's whole content becomes the score's text, and every other file is unchanged |
| ScoreFile.LoadScoreFromFile | Assets/Scripts/SaveScore.cs:17-38 | the loaded score is always a 32-bit value |
| ScoreFile.LoadMissing | Assets/Scripts/SaveScore.cs:20-37 | with no score file the loaded score is 0 |
| ScoreFile.LoadUnparsable | Assets/Scripts/SaveScore.cs:23-31 | unparsable content loads as 0 |
| ScoreFile.LoadParsed | Assets/Scripts/SaveScore.cs:22-25 | parsable content loads as the parsed value |
| ScoreFile.SaveThenLoad | Assets/Scripts/SaveScore.cs:11-25 | loading after saving n gives n |
| ScoreFile.SaveOverwrites | Assets/Scripts/SaveScore.cs:11-12 | a later save replaces an earlier one completely |
| ScoreFile.MissingThenSaved | Assets/Scripts/SaveScore.cs:19-25 | a missing file loads as 0; after saving 42 it loads as 42 |

## Left out

- `Enemy.cs` is not part of this model. It destroys its game object once past z = -12 (`Enemy.cs:22`). The spawner, however, treats pooled objects as reusable, and a destroyed pool entry is not modelled. `Enemy` also has no `MoveSpeed` member, which `ObstacleSpawner.cs:111` writes. The model gives the speed to the object's mover, as evidently intended.
- `GameManager.GetCurrentSpeed`, which `PlayerController.cs:230` calls, does not exist in `GameManager.cs`. The game speed is therefore a parameter of `UpdateAnimator` and `Update`.
- Floating point: floats are exact reals. The sine of the jump arc is an arbitrary height between 0 and jumpHeight. The `Quaternion.Slerp` lean is linear easing of the z angle towards its target.
- Player.PlayerController.MoveHorizontal: `rb.MovePosition` only takes effect at the next physics step. The model applies the move at once and then clamps, so the clamp holds after each move.
- Player.PlayerController.Die: the source deactivates the obstacle object itself. The model's obstacle is a value, so `Die` returns the deactivated copy. A caller that holds the obstacle in the spawner's pool must write it back with `Spawner.ObstacleSpawner.Deactivate` on its slot; the model does not capture the aliasing between the two.
- Player.PlayerController.DetectInput: the source tries a swipe's jump or slide inside the touch block. The model tries it after the touch block, before the keys. Neither `TryJump` nor `TrySlide` reads or writes the direction, so the order is immaterial.
- Coroutine interleavings are not modelled. Calling `StartSpawning` twice starts two spawning loops; the model keeps one.
- Game.GameManager.Update: in the editor a touch and a key press in the same frame call `StartGame` twice. Both first spawns are modelled, but the two enemy loops they start are kept as one routine, so from then on the model spawns at half the rate the editor would. Build targets are two parameters, one per compile condition.
- `StopCoroutine` and `StopAllCoroutines` stop a loop immediately. The model sets the routine to `Stopped`.
- `PlayerPrefs`, the file system, the mixer and `Application.persistentDataPath` are maps and parameters. File I/O errors are not modelled.
- `int.TryParse` is modelled without white space, culture settings or non-ASCII digits.
- `SceneManager.LoadScene` is a reload counter. The scene reload itself, `DontDestroyOnLoad`, `Destroy` (a `destroyed` flag), `Instantiate`, TextMeshPro and `Debug` logging are not modelled.
- Audio fades (`FadeOutMusic`, `FadeInMusic`, `FadeMusicTo`) are not modelled: they are a float lerp over unscaled engine time. So is the music-source lookup in `Awake`, which only serves them.
- Audio.AudioManager.InitSFXPool: when the mixer or its "SFX" group is missing, the first child object has already been created under the manager, with an `AudioSource`, before the throw. That object stays under the manager, is not in `sfxPool` and has no SFX group; the model does not represent it.
- Tags are compared as strings. Objects are assumed to carry the tags the scene configures.
- The enemy prefab that `GameManager.Spawn` instantiates is its spawn position only.
- The game keeps no high score: `Restart` only reloads the scene. It saves no score and fades no audio.
- `SpawnFromPool` picks among all inactive objects, whatever their kind.
- `StartGame` starts the game manager's own enemy loop. It does not start the obstacle spawner.
