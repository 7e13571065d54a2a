/** The player controller: grounded, jumping, sliding and dead flags, the
    slide collider, the held direction, the lean and the animator speed.

    The two timed routines are explicit phases that the scheduler resumes
    once per frame with that frame's time step: the jump arc (`JumpPhase`)
    and the slide with its cooldown (`SlidePhase`). `Update` runs only
    while the controller is enabled; contacts and the routines are
    delivered whether it is enabled or not. */
module Player {
  import opened Geometry
  import opened PlayerInput
  import Optional
  import Spawner
  import Game

  /** The serialized tuning of the controller. */
  datatype Settings = Settings(
    moveSpeed: real, xLimit: real, jumpHeight: real,
    slideDuration: real, slideCooldown: real,
    swipeThreshold: real, maxSwipeTime: real,
    tiltAngle: real, tiltSpeed: real)

  /** Length of the jump arc, in seconds. */
  const JumpDuration: real := 0.5

  /** The jump routine: not running, or in its arc from `startPos` with
      `elapsed` seconds behind it. */
  datatype JumpPhase = NoJump | Arc(startPos: Vec3, elapsed: real)

  /** The slide routine: not running, collider shrunk for `waited` seconds,
      or in the cooldown for `waited` seconds. */
  datatype SlidePhase = Ready | Shrunk(waited: real) | Cooling(waited: real)

  /** A fraction of a non-negative amount lies between zero and the amount. */
  lemma ScaleNonNegative(k: real, e: real)
    requires 0.0 <= k <= 1.0 && e >= 0.0
    ensures 0.0 <= k * e <= e
  {
    assert (1.0 - k) * e >= 0.0;
    assert (1.0 - k) * e == e - k * e;
  }

  /** A fraction of a difference lies between zero and the difference. */
  lemma ScaleBetween(k: real, d: real)
    requires 0.0 <= k <= 1.0
    ensures d >= 0.0 ==> 0.0 <= k * d <= d
    ensures d <= 0.0 ==> d <= k * d <= 0.0
  {
    if d >= 0.0 {
      ScaleNonNegative(k, d);
    } else {
      ScaleNonNegative(k, -d);
      assert k * (-d) == -(k * d);
    }
  }

  /** The part of the controller's state that jump and slide requests
      change, apart from the position. */
  datatype Motion = Motion(
    isGrounded: bool, isJumping: bool, isSliding: bool, canSlide: bool,
    jumpRoutineSet: bool, jump: JumpPhase, slide: SlidePhase,
    colliderHeight: real, colliderCenter: Vec3)

  /** The guard of `TryJump`. */
  predicate JumpAllowed(m: Motion) {
    m.isGrounded && !m.isSliding
  }

  /** The guard of `TrySlide`. */
  predicate SlideAllowed(m: Motion) {
    m.isGrounded && m.canSlide && !m.isJumping
  }

  /** A state in which neither request can take effect: in the air, or
      sliding and barred from sliding again. */
  predicate Busy(m: Motion) {
    !m.isGrounded || (m.isSliding && !m.canSlide)
  }

  class PlayerController {
    const settings: Settings
    const originalColliderHeight: real
    const originalColliderCenter: Vec3
    const groundY: real

    var isGrounded: bool
    var canSlide: bool
    /** The animator's "isJumping", "isSliding" and "isDead" bools. */
    var isJumping: bool
    var isSliding: bool
    var isDead: bool
    var enabled: bool
    var currentDirection: Direction
    var position: Vec3
    /** The z angle of the body's rotation: its lean. */
    var tiltZ: real
    var colliderHeight: real
    var colliderCenter: Vec3
    var touchStartY: real
    var touchStartTime: real
    /** Whether `jumpRoutine` has ever been set: it is never cleared. */
    var jumpRoutineSet: bool
    var jump: JumpPhase
    var slide: SlidePhase
    /** The last value written to the animator's "Speed" parameter. */
    var animSpeed: real

    /** The collider centre while sliding: a quarter of the height lower. */
    function ShrunkCenter(): Vec3 {
      Raise(originalColliderCenter, -(originalColliderHeight / 4.0))
    }

    ghost predicate Valid()
      reads this
    {
      && !(isJumping && isSliding)
      && (canSlide <==> slide.Ready?)
      && (isSliding ==> slide.Shrunk?)
      && (slide.Shrunk? ==> colliderHeight == originalColliderHeight / 2.0 && colliderCenter == ShrunkCenter())
      && (!slide.Shrunk? ==> colliderHeight == originalColliderHeight && colliderCenter == originalColliderCenter)
      && (isJumping ==> !isGrounded && jump.Arc?)
      && (!isGrounded && !isDead ==> jump.Arc?)
      && (jump.Arc? ==> jumpRoutineSet)
      && (isDead <==> !enabled)
    }

    /** The field initialisers and `Start`, which records the collider shape
        and the ground height. */
    constructor (s: Settings, startPos: Vec3, height: real, center: Vec3)
      ensures Valid()
      ensures settings == s && position == startPos && groundY == startPos.y
      ensures originalColliderHeight == height && originalColliderCenter == center
      ensures isGrounded && canSlide && !isJumping && !isSliding && !isDead && enabled
      ensures currentDirection == None && jump == NoJump && slide == Ready && !jumpRoutineSet
    {
      settings := s;
      originalColliderHeight, originalColliderCenter := height, center;
      groundY := startPos.y;
      isGrounded, canSlide := true, true;
      isJumping, isSliding, isDead, enabled := false, false, false, true;
      currentDirection := None;
      position, tiltZ := startPos, 0.0;
      colliderHeight, colliderCenter := height, center;
      touchStartY, touchStartTime := 0.0, 0.0;
      jumpRoutineSet, jump, slide := false, NoJump, Ready;
      animSpeed := 0.0;
    }

    function MotionState(): Motion
      reads this
    {
      Motion(isGrounded, isJumping, isSliding, canSlide, jumpRoutineSet, jump, slide, colliderHeight, colliderCenter)
    }

    /** `q` is `p` raised by an amount between 0 and the jump height: where
        the jump arc can put a body that starts at `p`. */
    predicate Lifted(p: Vec3, q: Vec3) {
      q.x == p.x && q.z == p.z && Between(p.y, q.y, p.y + settings.jumpHeight)
    }

    /** The state after one request from the body position `start`: a jump
        leaves the ground and starts the arc, whose first step has run for
        `dt`; a slide shrinks the collider and bars sliding; a request whose
        guard fails changes nothing. */
    function Apply(m: Motion, a: Action, start: Vec3, dt: real): (r: Motion)
      ensures a == Jump && JumpAllowed(m) ==>
        r == m.(isGrounded := false, isJumping := true, jumpRoutineSet := true, jump := Arc(start, dt))
      ensures a == Slide && SlideAllowed(m) ==>
        r == m.(canSlide := false, isSliding := true, colliderHeight := originalColliderHeight / 2.0,
                colliderCenter := ShrunkCenter(), slide := Shrunk(0.0))
      ensures (a == Jump && !JumpAllowed(m)) || (a == Slide && !SlideAllowed(m)) ==> r == m
    {
      match a
      case Jump =>
        if JumpAllowed(m) then
          m.(isGrounded := false, isJumping := true, jumpRoutineSet := true, jump := Arc(start, dt))
        else m
      case Slide =>
        if SlideAllowed(m) then
          m.(canSlide := false, isSliding := true, colliderHeight := originalColliderHeight / 2.0,
             colliderCenter := ShrunkCenter(), slide := Shrunk(0.0))
        else m
    }

    /** The requests applied in order. */
    function ApplyAll(m: Motion, requests: seq<Action>, start: Vec3, dt: real): Motion
      decreases requests
    {
      if requests == [] then m else ApplyAll(Apply(m, requests[0], start, dt), requests[1..], start, dt)
    }

    /** A request that takes effect leaves a state in which no further
        request can; in particular jumping and sliding never start together. */
    lemma EffectIsBusy(m: Motion, a: Action, start: Vec3, dt: real)
      ensures Apply(m, a, start, dt) != m ==> Busy(Apply(m, a, start, dt))
      ensures Busy(m) ==> Apply(m, a, start, dt) == m
      ensures !(m.isJumping && m.isSliding) ==> !(Apply(m, a, start, dt).isJumping && Apply(m, a, start, dt).isSliding)
    {
    }

    /** In a busy state no sequence of requests changes anything. */
    lemma {:induction false} BusyBlocksAll(m: Motion, requests: seq<Action>, start: Vec3, dt: real)
      requires Busy(m)
      ensures ApplyAll(m, requests, start, dt) == m
    {
      if requests != [] {
        EffectIsBusy(m, requests[0], start, dt);
        BusyBlocksAll(m, requests[1..], start, dt);
      }
    }

    /** Of any sequence of requests at most one takes effect: the first whose
        guard holds. Whatever changed, the result is busy. */
    lemma {:induction false} AtMostOneEffect(m: Motion, requests: seq<Action>, start: Vec3, dt: real)
      ensures ApplyAll(m, requests, start, dt) != m ==> Busy(ApplyAll(m, requests, start, dt))
    {
      if requests != [] {
        var next := Apply(m, requests[0], start, dt);
        EffectIsBusy(m, requests[0], start, dt);
        if next == m {
          AtMostOneEffect(m, requests[1..], start, dt);
        } else {
          BusyBlocksAll(next, requests[1..], start, dt);
        }
      }
    }

    /** Requests made in two batches act as the same requests made in one. */
    lemma {:induction false} ApplyAllConcat(m: Motion, first: seq<Action>, second: seq<Action>, start: Vec3, dt: real)
      ensures ApplyAll(m, first + second, start, dt) == ApplyAll(ApplyAll(m, first, start, dt), second, start, dt)
      decreases first
    {
      if first != [] {
        assert (first + second)[1..] == first[1..] + second;
        ApplyAllConcat(Apply(m, first[0], start, dt), first[1..], second, start, dt);
      } else {
        assert first + second == second;
      }
    }

    /** Two batches of requests, each from the position the previous left,
        compose into one batch from the first position: the second batch can
        act only when the first changed nothing, and then from the same
        position. */
    lemma ComposeBatches(m0: Motion, pos0: Vec3, first: seq<Action>, m1: Motion, pos1: Vec3,
                         second: seq<Action>, m2: Motion, pos2: Vec3, dt: real)
      requires m1 == ApplyAll(m0, first, pos0, dt) && (m1 == m0 ==> pos1 == pos0) && Lifted(pos0, pos1)
      requires m2 == ApplyAll(m1, second, pos1, dt) && (m2 == m1 ==> pos2 == pos1) && Lifted(pos1, pos2)
      ensures m2 == ApplyAll(m0, first + second, pos0, dt)
      ensures m2 == m0 ==> pos2 == pos0
      ensures Lifted(pos0, pos2)
    {
      ApplyAllConcat(m0, first, second, pos0, dt);
      if m1 != m0 {
        AtMostOneEffect(m0, first, pos0, dt);
        BusyBlocksAll(m1, second, pos1, dt);
        BusyBlocksAll(m1, second, pos0, dt);
      }
    }

    /** A jump starts only when grounded and not sliding. It leaves the
        ground, sets the jumping flag and (re)starts the arc from the current
        position, whose first step runs at once. */
    method TryJump(dt: real)
      requires Valid() && dt >= 0.0
      modifies this`isGrounded, this`isJumping, this`jumpRoutineSet, this`jump, this`position
      ensures Valid()
      ensures old(isGrounded && !isSliding) ==>
        && isJumping && !isGrounded && jumpRoutineSet
        && jump == Arc(old(position), dt)
        && Lifted(old(position), position)
      ensures !old(isGrounded && !isSliding) ==> unchanged(this)
    {
      if isGrounded && !isSliding {
        isGrounded := false;
        isJumping := true;
        jumpRoutineSet := true;
        jump := Arc(position, 0.0);
        ResumeJump(dt);
      }
    }

    /** One resumption of the jump routine. While the arc has time left the
        body is at the start position raised by the arc height
        `sin(pi * t) * jumpHeight`, which lies between 0 and the jump height
        (of either sign); afterwards
        it is back at the start position, on the ground and not jumping. */
    method ResumeJump(dt: real)
      requires Valid() && jump.Arc? && dt >= 0.0
      modifies this`position, this`jump, this`isJumping, this`isGrounded
      ensures Valid()
      ensures var start := old(jump).startPos;
        old(jump).elapsed < JumpDuration ==>
          && jump == Arc(start, old(jump).elapsed + dt)
          && Lifted(start, position)
          && isJumping == old(isJumping) && isGrounded == old(isGrounded)
      ensures old(jump).elapsed >= JumpDuration ==>
        jump == NoJump && position == old(jump).startPos && !isJumping && isGrounded
    {
      var startPos := jump.startPos;
      if jump.elapsed < JumpDuration {
        var elapsed := jump.elapsed + dt;
        assert Between(0.0, 0.0, settings.jumpHeight);
        var yOffset :| Between(0.0, yOffset, settings.jumpHeight);
        assert Between(0.0, yOffset, settings.jumpHeight);
        position := Raise(startPos, yOffset);
        if 0.0 <= settings.jumpHeight {
          assert 0.0 <= yOffset <= settings.jumpHeight;
          assert startPos.y <= position.y <= startPos.y + settings.jumpHeight;
        } else {
          assert settings.jumpHeight <= yOffset <= 0.0;
          assert startPos.y + settings.jumpHeight <= position.y <= startPos.y;
        }
        jump := Arc(startPos, elapsed);
      } else {
        position := startPos;
        isJumping := false;
        isGrounded := true;
        jump := NoJump;
      }
    }

    /** A slide starts only when grounded, allowed to slide and not jumping:
        the collider takes half its height with its centre a quarter of the
        height lower, and sliding is barred until the cooldown ends. */
    method TrySlide()
      requires Valid()
      modifies this`canSlide, this`isSliding, this`colliderHeight, this`colliderCenter, this`slide
      ensures Valid()
      ensures old(isGrounded && canSlide && !isJumping) ==>
        && isSliding && !canSlide && slide == Shrunk(0.0)
        && colliderHeight == originalColliderHeight / 2.0
        && colliderCenter.y == originalColliderCenter.y - originalColliderHeight / 4.0
        && colliderCenter.x == originalColliderCenter.x && colliderCenter.z == originalColliderCenter.z
      ensures !old(isGrounded && canSlide && !isJumping) ==> unchanged(this)
    {
      if isGrounded && canSlide && !isJumping {
        canSlide := false;
        isSliding := true;
        colliderHeight := originalColliderHeight / 2.0;
        colliderCenter := ShrunkCenter();
        slide := Shrunk(0.0);
      }
    }

    /** One resumption of the slide routine: after `slideDuration` the
        collider is restored exactly and sliding ends; after a further
        `slideCooldown` sliding is allowed again. */
    method ResumeSlide(dt: real)
      requires Valid() && dt >= 0.0
      modifies this`slide, this`colliderHeight, this`colliderCenter, this`isSliding, this`canSlide
      ensures Valid()
      ensures old(slide).Ready? ==> unchanged(this)
      ensures old(slide).Shrunk? ==>
        if old(slide).waited + dt >= settings.slideDuration then
          && slide == Cooling(0.0) && !isSliding && !canSlide
          && colliderHeight == originalColliderHeight && colliderCenter == originalColliderCenter
        else
          && slide == Shrunk(old(slide).waited + dt) && isSliding == old(isSliding) && !canSlide
      ensures old(slide).Cooling? ==>
        if old(slide).waited + dt >= settings.slideCooldown then slide == Ready && canSlide
        else slide == Cooling(old(slide).waited + dt) && !canSlide
      ensures !old(slide).Shrunk? ==> isSliding == old(isSliding)
    {
      match slide
      case Ready =>
      case Shrunk(waited) =>
        if waited + dt >= settings.slideDuration {
          colliderHeight := originalColliderHeight;
          colliderCenter := originalColliderCenter;
          isSliding := false;
          slide := Cooling(0.0);
        } else {
          slide := Shrunk(waited + dt);
        }
      case Cooling(waited) =>
        if waited + dt >= settings.slideCooldown {
          canSlide := true;
          slide := Ready;
        } else {
          slide := Cooling(waited + dt);
        }
    }

    /** Touching the ground lands the player. */
    method OnCollisionEnter(tag: string)
      requires Valid()
      modifies this`isGrounded, this`isJumping
      ensures Valid()
      ensures tag == "Ground" ==> isGrounded && !isJumping
      ensures tag != "Ground" ==> unchanged(this)
    {
      if tag == "Ground" {
        isGrounded := true;
        isJumping := false;
      }
    }

    /** A trigger contact with `other` while the animator is in state `pose`:
        each of the three rules may call `Die`; at most one applies. `after`
        is the other object once the contact is handled. */
    method OnTriggerEnter(other: Spawner.Obstacle, pose: string, gm: Game.GameManager)
        returns (deaths: nat, after: Spawner.Obstacle)
      requires Valid()
      modifies this`isDead, this`enabled, this`jump, this`isJumping, this`isSliding, this`tiltZ, this`position
      modifies gm`sceneReloads
      ensures Valid()
      ensures deaths == if Lethal(other.tag, pose) then 1 else 0
      ensures gm.sceneReloads == old(gm.sceneReloads) + deaths
      ensures deaths == 0 ==> after == other && unchanged(this)
      ensures slide == old(slide) && canSlide == old(canSlide) && isGrounded == old(isGrounded)
      ensures deaths == 1 ==> after == other.(active := false) && DiedFrom(old(position), old(jumpRoutineSet),
                                                                        old(isJumping), old(isSliding))
    {
      deaths, after := 0, other;
      if other.tag == "JumpObstacle" && pose != "Jump" {
        after := Die(after, gm);
        deaths := deaths + 1;
      }
      if other.tag == "SlideObstacle" && pose != "Slide" {
        after := Die(after, gm);
        deaths := deaths + 1;
      }
      if other.tag == "Enemy" {
        after := Die(after, gm);
        deaths := deaths + 1;
      }
    }

    /** The state `Die` leaves, from the position and flags before it. */
    ghost predicate DiedFrom(pos: Vec3, routineSet: bool, wasJumping: bool, wasSliding: bool)
      reads this
    {
      && isDead && !enabled && tiltZ == 0.0
      && position == pos.(y := groundY)
      && (routineSet ==> !isJumping && !isSliding && jump == NoJump)
      && (!routineSet ==> isJumping == wasJumping && isSliding == wasSliding)
    }

    /** Deactivates the obstacle, marks the player dead, disables the
        controller, stops the jump routine (clearing both pose flags) if one
        was ever started, levels the lean, puts the body on the ground and
        asks for a restart. The slide routine keeps running. */
    method Die(obstacle: Spawner.Obstacle, gm: Game.GameManager) returns (after: Spawner.Obstacle)
      requires Valid()
      modifies this`isDead, this`enabled, this`jump, this`isJumping, this`isSliding, this`tiltZ, this`position
      modifies gm`sceneReloads
      ensures Valid()
      ensures after == obstacle.(active := false)
      ensures DiedFrom(old(position), old(jumpRoutineSet), old(isJumping), old(isSliding))
      ensures slide == old(slide) && canSlide == old(canSlide) && isGrounded == old(isGrounded)
      ensures gm.sceneReloads == old(gm.sceneReloads) + 1
    {
      after := obstacle.(active := false);
      isDead := true;
      enabled := false;
      if jumpRoutineSet {
        jump := NoJump;
        isJumping := false;
        isSliding := false;
      }
      tiltZ := 0.0;
      position := position.(y := groundY);
      gm.Restart();
    }

    /** The touch part of reading input: records where and when a press
        began, steers by a held touch, and gives the swipe of a release
        (which also stops steering). */
    method ReadTouch(now: real, screenWidth: real, touch: Optional.Option<TouchFrame>) returns (swipe: Swipe)
      modifies this`touchStartY, this`touchStartTime, this`currentDirection
      ensures swipe == TouchSwipe(touch, old(touchStartY), old(touchStartTime), now,
                                  settings.swipeThreshold, settings.maxSwipeTime)
      ensures currentDirection == InputDirection(touch, Optional.None, screenWidth)
      ensures touch.Some? && touch.value.pressedThisFrame ==> touchStartY == touch.value.y && touchStartTime == now
      ensures !(touch.Some? && touch.value.pressedThisFrame) ==>
        touchStartY == old(touchStartY) && touchStartTime == old(touchStartTime)
    {
      currentDirection := None;
      swipe := NoSwipe;
      if touch.Some? {
        var t := touch.value;
        if t.pressedThisFrame {
          touchStartY := t.y;
          touchStartTime := now;
        }
        if t.isPressed {
          currentDirection := TouchDirection(t.x, screenWidth);
        }
        if t.releasedThisFrame {
          swipe := ClassifySwipe(t.y - touchStartY, now - touchStartTime,
                                 settings.swipeThreshold, settings.maxSwipeTime);
          currentDirection := None;
        }
      }
    }

    /** Tries the jump or the slide a request asks for. */
    method Request(a: Action, dt: real)
      requires Valid() && dt >= 0.0
      modifies this`isGrounded, this`isJumping, this`jumpRoutineSet, this`jump, this`position
      modifies this`canSlide, this`isSliding, this`colliderHeight, this`colliderCenter, this`slide
      ensures Valid()
      ensures MotionState() == Apply(old(MotionState()), a, old(position), dt)
      ensures MotionState() == old(MotionState()) ==> position == old(position)
      ensures Lifted(old(position), position)
    {
      assert Between(position.y, position.y, position.y + settings.jumpHeight);
      if a == Jump {
        TryJump(dt);
      } else {
        TrySlide();
      }
    }

    /** Tries the requests of one input source in order. */
    method RequestAll(requests: seq<Action>, dt: real)
      requires Valid() && dt >= 0.0 && |requests| <= 1
      modifies this`isGrounded, this`isJumping, this`jumpRoutineSet, this`jump, this`position
      modifies this`canSlide, this`isSliding, this`colliderHeight, this`colliderCenter, this`slide
      ensures Valid()
      ensures MotionState() == ApplyAll(old(MotionState()), requests, old(position), dt)
      ensures MotionState() == old(MotionState()) ==> position == old(position)
      ensures Lifted(old(position), position)
    {
      assert Between(position.y, position.y, position.y + settings.jumpHeight);
      if |requests| == 1 {
        Request(requests[0], dt);
        assert requests[1..] == [];
      }
    }

    /** Reads one frame of input: the held direction, and the jump and
        slide requests, which are tried in the order they are made. The
        swipe's request is made after the touch is read and before the keys
        are; it neither reads nor writes the direction. */
    method DetectInput(dt: real, now: real, screenWidth: real,
                       touch: Optional.Option<TouchFrame>, keys: Optional.Option<KeyFrame>)
      requires Valid() && dt >= 0.0
      modifies this`touchStartY, this`touchStartTime, this`currentDirection
      modifies this`isGrounded, this`isJumping, this`jumpRoutineSet, this`jump, this`position
      modifies this`canSlide, this`isSliding, this`colliderHeight, this`colliderCenter, this`slide
      ensures Valid()
      ensures currentDirection == InputDirection(touch, keys, screenWidth)
      ensures touch.Some? && touch.value.pressedThisFrame ==> touchStartY == touch.value.y && touchStartTime == now
      ensures !(touch.Some? && touch.value.pressedThisFrame) ==>
        touchStartY == old(touchStartY) && touchStartTime == old(touchStartTime)
      ensures MotionState() == ApplyAll(old(MotionState()),
                                        Requests(touch, keys, old(touchStartY), old(touchStartTime), now,
                                                 settings.swipeThreshold, settings.maxSwipeTime),
                                        old(position), dt)
      ensures MotionState() == old(MotionState()) ==> position == old(position)
      ensures Lifted(old(position), position)
    {
      ghost var m0, pos0 := MotionState(), position;
      var swipe := SwipeInput(dt, now, screenWidth, touch);
      ghost var m1, pos1 := MotionState(), position;
      KeyInput(dt, keys);
      ComposeBatches(m0, pos0, SwipeRequests(swipe), m1, pos1, KeyRequests(keys), MotionState(), position, dt);
      assert Requests(touch, keys, old(touchStartY), old(touchStartTime), now,
                      settings.swipeThreshold, settings.maxSwipeTime)
          == SwipeRequests(swipe) + KeyRequests(keys);
    }

    /** The touch half of `DetectInput`: reads the touch and tries the
        request of the swipe it ends, if any. */
    method SwipeInput(dt: real, now: real, screenWidth: real, touch: Optional.Option<TouchFrame>)
      returns (swipe: Swipe)
      requires Valid() && dt >= 0.0
      modifies this`touchStartY, this`touchStartTime, this`currentDirection
      modifies this`isGrounded, this`isJumping, this`jumpRoutineSet, this`jump, this`position
      modifies this`canSlide, this`isSliding, this`colliderHeight, this`colliderCenter, this`slide
      ensures Valid()
      ensures swipe == TouchSwipe(touch, old(touchStartY), old(touchStartTime), now,
                                  settings.swipeThreshold, settings.maxSwipeTime)
      ensures currentDirection == InputDirection(touch, Optional.None, screenWidth)
      ensures touch.Some? && touch.value.pressedThisFrame ==> touchStartY == touch.value.y && touchStartTime == now
      ensures !(touch.Some? && touch.value.pressedThisFrame) ==>
        touchStartY == old(touchStartY) && touchStartTime == old(touchStartTime)
      ensures MotionState() == ApplyAll(old(MotionState()), SwipeRequests(swipe), old(position), dt)
      ensures MotionState() == old(MotionState()) ==> position == old(position)
      ensures Lifted(old(position), position)
    {
      swipe := ReadTouch(now, screenWidth, touch);
      RequestAll(SwipeRequests(swipe), dt);
    }

    /** The keyboard half of `DetectInput`: the keys' say on the held
        direction, over what the touch held, then the request of the key
        pressed, if any. */
    method KeyInput(dt: real, keys: Optional.Option<KeyFrame>)
      requires Valid() && dt >= 0.0
      modifies this`currentDirection
      modifies this`isGrounded, this`isJumping, this`jumpRoutineSet, this`jump, this`position
      modifies this`canSlide, this`isSliding, this`colliderHeight, this`colliderCenter, this`slide
      ensures Valid()
      ensures keys.None? ==> currentDirection == old(currentDirection)
      ensures keys.Some? ==> currentDirection == CombineDirection(old(currentDirection), keys.value.leftHeld, keys.value.rightHeld)
      ensures MotionState() == ApplyAll(old(MotionState()), KeyRequests(keys), old(position), dt)
      ensures MotionState() == old(MotionState()) ==> position == old(position)
      ensures Lifted(old(position), position)
    {
      if keys.Some? {
        var k := keys.value;
        currentDirection := CombineDirection(currentDirection, k.leftHeld, k.rightHeld);
      }
      RequestAll(KeyRequests(keys), dt);
    }

    /** Moves along the held direction and keeps the body within
        [-xLimit, xLimit]; with a negative limit the clamp's bounds cross and
        the body ends on one of them. */
    method MoveHorizontal(dt: real)
      requires Valid()
      modifies this`position
      ensures Valid()
      ensures position == old(position).(x := Clamp(old(position).x + DirectionMultiplier(currentDirection) * settings.moveSpeed * dt,
                                                    -settings.xLimit, settings.xLimit))
      ensures settings.xLimit >= 0.0 ==> -settings.xLimit <= position.x <= settings.xLimit
      ensures settings.xLimit < 0.0 ==> position.x == -settings.xLimit || position.x == settings.xLimit
    {
      var dir := DirectionMultiplier(currentDirection);
      var moved := position.x + dir * settings.moveSpeed * dt;
      position := position.(x := Clamp(moved, -settings.xLimit, settings.xLimit));
    }

    /** Eases the lean towards its target by the fraction `tiltSpeed * dt`
        (capped at 1): the new lean lies between the old one and the target. */
    method UpdateTilt(dt: real)
      requires Valid()
      modifies this`tiltZ
      ensures Valid()
      ensures Between(old(tiltZ), tiltZ, TiltTarget(currentDirection, isJumping, isSliding, settings.tiltAngle))
    {
      var targetZ := TiltTarget(currentDirection, isJumping, isSliding, settings.tiltAngle);
      var k := Clamp01(settings.tiltSpeed * dt);
      var gap := targetZ - tiltZ;
      ScaleBetween(k, gap);
      var step := k * gap;
      if tiltZ <= targetZ {
        assert tiltZ <= tiltZ + step <= targetZ;
      } else {
        assert targetZ <= tiltZ + step <= tiltZ;
      }
      tiltZ := tiltZ + step;
    }

    /** Writes the animator's "Speed" parameter from the game speed, which
        comes out as 1 whatever the speed. */
    method UpdateAnimator(gameSpeed: real)
      requires Valid()
      modifies this`animSpeed
      ensures Valid()
      ensures animSpeed == 1.0
    {
      animSpeed := AnimatorSpeed(gameSpeed);
    }

    /** One frame of the controller: input, then movement, then the lean,
        then the animator. A disabled controller does nothing. */
    method Update(dt: real, now: real, screenWidth: real,
                  touch: Optional.Option<TouchFrame>, keys: Optional.Option<KeyFrame>, gameSpeed: real)
      requires Valid() && dt >= 0.0
      modifies this
      ensures Valid()
      ensures !old(enabled) ==> unchanged(this)
      ensures old(enabled) ==>
        var dir := InputDirection(touch, keys, screenWidth);
        && currentDirection == dir && enabled && !isDead
        && (touch.Some? && touch.value.pressedThisFrame ==> touchStartY == touch.value.y && touchStartTime == now)
        && (!(touch.Some? && touch.value.pressedThisFrame) ==>
              touchStartY == old(touchStartY) && touchStartTime == old(touchStartTime))
        && MotionState() == ApplyAll(old(MotionState()),
                                     Requests(touch, keys, old(touchStartY), old(touchStartTime), now,
                                              settings.swipeThreshold, settings.maxSwipeTime),
                                     old(position), dt)
        && position.x == Clamp(old(position).x + DirectionMultiplier(dir) * settings.moveSpeed * dt,
                               -settings.xLimit, settings.xLimit)
        && position.z == old(position).z
        && Between(old(position).y, position.y, old(position).y + settings.jumpHeight)
        && (MotionState() == old(MotionState()) ==> position.y == old(position).y)
        && Between(old(tiltZ), tiltZ, TiltTarget(dir, isJumping, isSliding, settings.tiltAngle))
        && animSpeed == 1.0
    {
      if enabled {
        EnabledFrame(dt, now, screenWidth, touch, keys, gameSpeed);
      }
    }

    /** The body of `Update` while the controller is enabled. */
    method EnabledFrame(dt: real, now: real, screenWidth: real,
                        touch: Optional.Option<TouchFrame>, keys: Optional.Option<KeyFrame>, gameSpeed: real)
      requires Valid() && dt >= 0.0 && enabled
      modifies this`touchStartY, this`touchStartTime, this`currentDirection, this`tiltZ, this`animSpeed
      modifies this`isGrounded, this`isJumping, this`jumpRoutineSet, this`jump, this`position
      modifies this`canSlide, this`isSliding, this`colliderHeight, this`colliderCenter, this`slide
      ensures Valid()
      ensures currentDirection == InputDirection(touch, keys, screenWidth)
      ensures touch.Some? && touch.value.pressedThisFrame ==> touchStartY == touch.value.y && touchStartTime == now
      ensures !(touch.Some? && touch.value.pressedThisFrame) ==>
        touchStartY == old(touchStartY) && touchStartTime == old(touchStartTime)
      ensures MotionState() == ApplyAll(old(MotionState()),
                                        Requests(touch, keys, old(touchStartY), old(touchStartTime), now,
                                                 settings.swipeThreshold, settings.maxSwipeTime),
                                        old(position), dt)
      ensures position.x == Clamp(old(position).x + DirectionMultiplier(InputDirection(touch, keys, screenWidth))
                                                    * settings.moveSpeed * dt,
                                  -settings.xLimit, settings.xLimit)
      ensures position.z == old(position).z
      ensures Between(old(position).y, position.y, old(position).y + settings.jumpHeight)
      ensures MotionState() == old(MotionState()) ==> position.y == old(position).y
      ensures Between(old(tiltZ), tiltZ, TiltTarget(InputDirection(touch, keys, screenWidth), isJumping, isSliding,
                                                    settings.tiltAngle))
      ensures animSpeed == 1.0
    {
      DetectInput(dt, now, screenWidth, touch, keys);
      MoveHorizontal(dt);
      UpdateTilt(dt);
      UpdateAnimator(gameSpeed);
    }
  }
}
