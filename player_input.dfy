/** The pure decisions of the player controller: how one frame of touch and
    keyboard input becomes a held direction and jump/slide requests, which
    way the body leans, the animator speed value, and which contacts kill. */
module PlayerInput {
  import opened Geometry
  import Optional

  datatype Direction = None | Left | Right

  /** A request to the state machine: `TryJump` or `TrySlide`. */
  datatype Action = Jump | Slide

  datatype Swipe = NoSwipe | SwipeUp | SwipeDown

  /** The primary touch in one frame (absent when there is no touchscreen). */
  datatype TouchFrame = TouchFrame(
    pressedThisFrame: bool, isPressed: bool, releasedThisFrame: bool, x: real, y: real)

  /** The keys in one frame (absent when there is no keyboard): A or left
      arrow held, D or right arrow held, space pressed, S or down arrow
      pressed. */
  datatype KeyFrame = KeyFrame(leftHeld: bool, rightHeld: bool, spacePressed: bool, slidePressed: bool)

  /** A released touch is a swipe when it was quick enough and travelled far
      enough vertically; upwards it is a jump, otherwise a slide. */
  function ClassifySwipe(deltaY: real, deltaTime: real, threshold: real, maxTime: real): (r: Swipe)
    ensures r != NoSwipe <==> deltaTime <= maxTime && Abs(deltaY) >= threshold
    ensures r == SwipeUp ==> deltaY > 0.0
    ensures r == SwipeDown ==> deltaY <= 0.0
  {
    if deltaTime <= maxTime && Abs(deltaY) >= threshold then
      (if deltaY > 0.0 then SwipeUp else SwipeDown)
    else NoSwipe
  }

  function MirrorSwipe(s: Swipe): Swipe {
    match s
    case NoSwipe => NoSwipe
    case SwipeUp => SwipeDown
    case SwipeDown => SwipeUp
  }

  /** A held touch steers towards the half of the screen it is on. */
  function TouchDirection(tx: real, screenWidth: real): (d: Direction)
    ensures d != None
    ensures d == Left <==> tx < screenWidth / 2.0
  {
    if tx < screenWidth / 2.0 then Left else Right
  }

  /** Held keys override the direction the touch gave; left wins over right. */
  function CombineDirection(touchDir: Direction, leftHeld: bool, rightHeld: bool): Direction {
    if leftHeld then Left else if rightHeld then Right else touchDir
  }

  /** The direction held in a frame: a touch that is released in the frame
      steers nowhere, then the keyboard may override. */
  function InputDirection(touch: Optional.Option<TouchFrame>, keys: Optional.Option<KeyFrame>, screenWidth: real): (d: Direction)
    ensures keys.Some? && keys.value.leftHeld ==> d == Left
    ensures keys.Some? && !keys.value.leftHeld && keys.value.rightHeld ==> d == Right
    ensures (keys.None? || (!keys.value.leftHeld && !keys.value.rightHeld)) ==>
      (d != None <==> touch.Some? && touch.value.isPressed && !touch.value.releasedThisFrame)
    ensures (keys.None? || (!keys.value.leftHeld && !keys.value.rightHeld))
            && touch.Some? && touch.value.isPressed && !touch.value.releasedThisFrame ==>
      d == TouchDirection(touch.value.x, screenWidth)
  {
    var touchDir :=
      if touch.None? then None
      else if touch.value.releasedThisFrame then None
      else if touch.value.isPressed then TouchDirection(touch.value.x, screenWidth)
      else None;
    if keys.None? then touchDir else CombineDirection(touchDir, keys.value.leftHeld, keys.value.rightHeld)
  }

  /** The swipe of a touch released in this frame, if any; its start is the
      press of this frame when there is one, otherwise the recorded one. */
  function TouchSwipe(touch: Optional.Option<TouchFrame>, startY: real, startTime: real, now: real,
                      threshold: real, maxTime: real): (r: Swipe)
    ensures r != NoSwipe ==> touch.Some? && touch.value.releasedThisFrame
    ensures touch.Some? && touch.value.releasedThisFrame && touch.value.pressedThisFrame && threshold > 0.0 ==> r == NoSwipe
  {
    if touch.Some? && touch.value.releasedThisFrame then
      var y0 := if touch.value.pressedThisFrame then touch.value.y else startY;
      var t0 := if touch.value.pressedThisFrame then now else startTime;
      ClassifySwipe(touch.value.y - y0, now - t0, threshold, maxTime)
    else NoSwipe
  }

  /** An upward swipe asks for a jump, a downward one for a slide. */
  function SwipeRequests(swipe: Swipe): seq<Action> {
    match swipe
    case NoSwipe => []
    case SwipeUp => [Jump]
    case SwipeDown => [Slide]
  }

  /** Space asks for a jump; otherwise S or the down arrow asks for a slide. */
  function KeyRequests(keys: Optional.Option<KeyFrame>): seq<Action> {
    if keys.None? then []
    else if keys.value.spacePressed then [Jump]
    else if keys.value.slidePressed then [Slide]
    else []
  }

  /** The jump and slide requests of one frame, in the order they are made:
      the swipe first, then the keys. A frame makes at most two requests,
      and none without a release or a keyboard. */
  function Requests(touch: Optional.Option<TouchFrame>, keys: Optional.Option<KeyFrame>,
                    startY: real, startTime: real, now: real, threshold: real, maxTime: real): (r: seq<Action>)
    ensures |r| <= 2
    ensures keys.None? && (touch.None? || !touch.value.releasedThisFrame) ==> r == []
    ensures keys.Some? && keys.value.spacePressed ==> |r| >= 1 && r[|r| - 1] == Jump
  {
    SwipeRequests(TouchSwipe(touch, startY, startTime, now, threshold, maxTime)) + KeyRequests(keys)
  }

  /** The multiplier of the move speed for a held direction. */
  function DirectionMultiplier(d: Direction): (r: real)
    ensures r == -1.0 || r == 0.0 || r == 1.0
    ensures r == 0.0 <==> d.None?
    ensures r > 0.0 <==> d == Right
  {
    if d == Right then 1.0 else if d == Left then -1.0 else 0.0
  }

  /** The lean the body eases towards: none while jumping or sliding,
      otherwise against the held direction. It is one of three values. */
  function TiltTarget(d: Direction, jumping: bool, sliding: bool, tiltAngle: real): (r: real)
    ensures r == tiltAngle || r == -tiltAngle || r == 0.0
    ensures jumping || sliding || d == None ==> r == 0.0
    ensures !jumping && !sliding ==> r == -DirectionMultiplier(d) * tiltAngle
  {
    if !jumping && !sliding then
      (if d == Left then tiltAngle else if d == Right then -tiltAngle else 0.0)
    else 0.0
  }

  /** The value written to the animator's "Speed" parameter for game speed
      `gameSpeed`. As written it is 1 whatever the speed: a speed above 8 is
      kept and then capped at 1, any other speed is replaced by 1. */
  function AnimatorSpeed(gameSpeed: real): (r: real)
    ensures r == 1.0
  {
    var normSpeed := if gameSpeed / 8.0 > 1.0 then gameSpeed else 1.0;
    Abs(if normSpeed > 1.0 then 1.0 else normSpeed)
  }

  /** What a trigger contact with an object of a tag asks of the player:
      nothing, being in a given animator state, or nothing can save it. */
  datatype Requirement = Harmless | Avoid(pose: string) | Deadly

  function ContactRule(tag: string): Requirement {
    if tag == "JumpObstacle" then Avoid("Jump")
    else if tag == "SlideObstacle" then Avoid("Slide")
    else if tag == "Enemy" then Deadly
    else Harmless
  }

  /** Whether a contact with `tag` kills the player whose animator is in
      state `pose`. */
  predicate Lethal(tag: string, pose: string)
    ensures Lethal(tag, pose) ==> tag == "Enemy" || tag == "JumpObstacle" || tag == "SlideObstacle"
  {
    match ContactRule(tag)
    case Harmless => false
    case Avoid(p) => pose != p
    case Deadly => true
  }

  /** A swipe is recognised only past the threshold in its own direction;
      with a positive threshold a slide swipe really goes down. */
  lemma SwipeNeedsDistance(deltaY: real, deltaTime: real, threshold: real, maxTime: real)
    requires threshold > 0.0
    ensures ClassifySwipe(deltaY, deltaTime, threshold, maxTime) == SwipeUp ==> deltaY >= threshold
    ensures ClassifySwipe(deltaY, deltaTime, threshold, maxTime) == SwipeDown ==> deltaY <= -threshold
    ensures ClassifySwipe(deltaY, deltaTime, threshold, maxTime) != NoSwipe ==> deltaTime <= maxTime
  {
  }

  /** Up and down swipes are symmetric: reversing a vertical movement
      reverses its meaning. */
  lemma SwipeMirror(deltaY: real, deltaTime: real, threshold: real, maxTime: real)
    requires deltaY != 0.0
    ensures ClassifySwipe(-deltaY, deltaTime, threshold, maxTime) == MirrorSwipe(ClassifySwipe(deltaY, deltaTime, threshold, maxTime))
  {
  }

  /** A held direction key decides the direction whatever the touch said;
      with no direction key held the touch's direction stands. */
  lemma KeyboardOverridesTouch(t1: Direction, t2: Direction, leftHeld: bool, rightHeld: bool)
    ensures leftHeld || rightHeld ==> CombineDirection(t1, leftHeld, rightHeld) == CombineDirection(t2, leftHeld, rightHeld)
    ensures !leftHeld && !rightHeld ==> CombineDirection(t1, leftHeld, rightHeld) == t1
  {
  }

  /** The contact rules: an enemy always kills, a jump obstacle kills except
      in the jump state, a slide obstacle kills except in the slide state,
      anything else never kills. */
  lemma ContactRules(tag: string, pose: string)
    ensures tag == "Enemy" ==> Lethal(tag, pose)
    ensures tag == "JumpObstacle" ==> (Lethal(tag, pose) <==> pose != "Jump")
    ensures tag == "SlideObstacle" ==> (Lethal(tag, pose) <==> pose != "Slide")
    ensures tag !in {"Enemy", "JumpObstacle", "SlideObstacle"} ==> !Lethal(tag, pose)
  {
  }
}
