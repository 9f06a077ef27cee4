/**
  The player character's jump state machine. `Update` (once per rendered
  frame) sets the movement speed, turns the character, asks the engine's
  character controller for this frame's displacement, and starts or ends a
  jump; `FixedUpdate` (once per physics step) ends a jump on a ceiling hit and
  counts the time spent off the ground, which gives the "coyote time" grace
  period during which a jump may still start after walking off a ledge.

  Engine queries are inputs: the Run and Jump buttons, the frame time, the
  camera-relative movement direction and the camera's projected forward
  vector, the character's height, the two sphere overlap tests, and the
  jump-raise animation curve, which is an arbitrary function.
 */
module Player {
  import opened UnityMath
  import opened ExtensionMethods

  datatype FacingOption = None | MovementDirection | CameraDirection

  /** The jump settings. */
  datatype JumpTuning = JumpTuning(
    playerCanJump: bool,
    jumpHeight: real,
    jumpRaiseMinTime: real,
    jumpRaiseMaxTime: real,
    coyoteTime: real)

  /** Inspector defaults of the jump settings. */
  const DEFAULT_TUNING := JumpTuning(true, 3.8, 0.04, 0.35, 0.1)

  /** The fields the jump logic updates. */
  datatype JumpState = JumpState(jumping: bool, currentJumpTime: real, airTime: real, jumpY0: real)

  /** The Jump button in one frame: pressed this frame, and held down. */
  datatype JumpButton = JumpButton(down: bool, held: bool)

  /**
    What holds between frames: time off the ground is never negative, and a
    jump in progress is one the settings allow, still within its raise time.
   */
  predicate Consistent(t: JumpTuning, s: JumpState) {
    0.0 <= s.airTime &&
    (s.jumping ==> t.playerCanJump && 0.0 <= s.currentJumpTime < t.jumpRaiseMaxTime)
  }

  /** The condition under which a frame starts a jump. */
  predicate JumpStarts(t: JumpTuning, s: JumpState, button: JumpButton) {
    t.playerCanJump && button.down && !s.jumping && s.airTime < t.coyoteTime
  }

  /**
    The jump part of one Update. While jumping the raise timer first advances
    by the frame time; then a press starts a jump if the character is not
    jumping and has been off the ground for less than the coyote time; else a
    released button ends the jump once the minimum raise time is reached; and
    a jump that has reached its maximum raise time ends.
   */
  function UpdateStep(t: JumpTuning, s: JumpState, deltaTime: real, button: JumpButton, y: real): (r: JumpState)
    ensures r.airTime == s.airTime
    ensures !t.playerCanJump ==> r == RaiseTimer(s, deltaTime)
    ensures Consistent(t, s) && 0.0 <= deltaTime ==> Consistent(t, r)
  {
    var raised := RaiseTimer(s, deltaTime);
    if !t.playerCanJump then raised else EndAtMaxTime(t, ButtonRule(t, raised, button, y))
  }

  /**
    What one Update does to the jump state: the time off the ground is left
    alone; a jump starts exactly when jumping is enabled, the button is pressed,
    the character is within the coyote time and the maximum raise time is
    positive; the take-off height is recorded; a jump goes on while the button is
    held (or the minimum raise time is not reached) and the maximum is not
    reached, and ends on release after the minimum; and the invariant is kept.
   */
  lemma UpdateStepRules(t: JumpTuning, s: JumpState, deltaTime: real, button: JumpButton, y: real)
    ensures var r := UpdateStep(t, s, deltaTime, button, y);
      r.airTime == s.airTime &&
      (!t.playerCanJump ==> r.jumping == s.jumping) &&
      (!s.jumping ==>
        (r.jumping <==> t.playerCanJump && button.down && s.airTime < t.coyoteTime && 0.0 < t.jumpRaiseMaxTime)) &&
      (JumpStarts(t, s, button) ==> r.currentJumpTime == 0.0 && r.jumpY0 == y) &&
      (!JumpStarts(t, s, button) ==>
        r.jumpY0 == s.jumpY0 &&
        r.currentJumpTime == (if s.jumping then s.currentJumpTime + deltaTime else s.currentJumpTime)) &&
      (t.playerCanJump && r.jumping ==> r.currentJumpTime < t.jumpRaiseMaxTime) &&
      ((t.playerCanJump && !JumpStarts(t, s, button) && !button.held && r.currentJumpTime >= t.jumpRaiseMinTime)
        ==> !r.jumping) &&
      ((s.jumping && (button.held || s.currentJumpTime + deltaTime < t.jumpRaiseMinTime) &&
        s.currentJumpTime + deltaTime < t.jumpRaiseMaxTime) ==> r.jumping)
    ensures Consistent(t, s) && 0.0 <= deltaTime ==> Consistent(t, UpdateStep(t, s, deltaTime, button, y))
  {
  }

  /** While jumping, the raise timer advances by the frame time. */
  function RaiseTimer(s: JumpState, deltaTime: real): (r: JumpState)
    ensures r.jumping == s.jumping && r.airTime == s.airTime && r.jumpY0 == s.jumpY0
    ensures !s.jumping ==> r == s
    ensures s.jumping ==> r.currentJumpTime - s.currentJumpTime == deltaTime
  {
    if s.jumping then s.(currentJumpTime := s.currentJumpTime + deltaTime) else s
  }

  /** A press within the coyote time starts a jump; else a release after the minimum raise time ends it. */
  function ButtonRule(t: JumpTuning, s: JumpState, button: JumpButton, y: real): (r: JumpState)
    ensures r.airTime == s.airTime
    ensures !s.jumping ==> (r.jumping <==> button.down && s.airTime < t.coyoteTime)
    ensures s.jumping ==> (r.jumping <==> button.held || s.currentJumpTime < t.jumpRaiseMinTime)
    ensures r.jumping && !s.jumping ==> r.currentJumpTime == 0.0 && r.jumpY0 == y
    ensures r.jumping == s.jumping ==> r == s
  {
    if button.down && !s.jumping && s.airTime < t.coyoteTime then
      s.(jumping := true, currentJumpTime := 0.0, jumpY0 := y)
    else if !button.held && s.currentJumpTime >= t.jumpRaiseMinTime then
      s.(jumping := false)
    else
      s
  }

  /** A jump that has reached its maximum raise time ends. */
  function EndAtMaxTime(t: JumpTuning, s: JumpState): (r: JumpState)
    ensures r.jumping ==> r.currentJumpTime < t.jumpRaiseMaxTime
    ensures r.jumping <==> s.jumping && s.currentJumpTime < t.jumpRaiseMaxTime
    ensures r == s.(jumping := r.jumping)
  {
    if s.jumping && s.currentJumpTime >= t.jumpRaiseMaxTime then s.(jumping := false) else s
  }

  /**
    One FixedUpdate. A ceiling hit while jumping ends the jump; otherwise
    touching the ground resets the time off the ground; otherwise that time
    grows by the step time. Nothing happens when jumping is disabled.
   */
  function FixedStep(t: JumpTuning, s: JumpState, ceilingHit: bool, grounded: bool, deltaTime: real): (r: JumpState)
    ensures !t.playerCanJump ==> r == s
    ensures r.currentJumpTime == s.currentJumpTime && r.jumpY0 == s.jumpY0
    ensures r.jumping == (s.jumping && !(t.playerCanJump && ceilingHit))
    ensures t.playerCanJump && s.jumping && ceilingHit ==> r.airTime == s.airTime
    ensures t.playerCanJump && !(s.jumping && ceilingHit) && grounded ==> r.airTime == 0.0
    ensures t.playerCanJump && !(s.jumping && ceilingHit) && !grounded ==> r.airTime == s.airTime + deltaTime
    ensures Consistent(t, s) && 0.0 <= deltaTime ==> Consistent(t, r)
  {
    if !t.playerCanJump then s
    else if s.jumping && ceilingHit then s.(jumping := false)
    else if grounded then s.(airTime := 0.0)
    else s.(airTime := s.airTime + deltaTime)
  }

  /** The displacement asked of the character controller when not jumping: walk, and fall by gravity. */
  function GroundMove(direction: Vector3, speed: real, gravity: real, deltaTime: real): (r: Vector3)
    ensures r.x == deltaTime * (speed * direction.x) && r.z == deltaTime * (speed * direction.z)
    ensures r.y == deltaTime * (speed * direction.y - gravity)
  {
    direction.Scaled(speed).Plus(UP.Scaled(-gravity)).Scaled(deltaTime)
  }

  /** The height a jump has reached: the take-off height plus jumpHeight times the curve at the raise fraction. */
  function JumpHeightAt(t: JumpTuning, s: JumpState, curve: real -> real): (r: real)
    requires t.jumpRaiseMaxTime != 0.0
    ensures s.currentJumpTime == 0.0 ==> r == s.jumpY0 + t.jumpHeight * curve(0.0)
    ensures s.currentJumpTime == t.jumpRaiseMaxTime ==> r == s.jumpY0 + t.jumpHeight * curve(1.0)
    ensures curve(0.0) == 0.0 && s.currentJumpTime == 0.0 ==> r == s.jumpY0
  {
    s.jumpY0 + t.jumpHeight * curve(Remap01(s.currentJumpTime, 0.0, t.jumpRaiseMaxTime))
  }

  /**
    The displacement asked of the character controller while jumping: move
    forward faster by the jump multiplier, and vertically to the jump height
    from the current height `y`.
   */
  function JumpMove(direction: Vector3, speed: real, multiplier: real, deltaTime: real, targetY: real, y: real): (r: Vector3)
    ensures r.x == multiplier * (speed * (deltaTime * direction.x))
    ensures r.z == multiplier * (speed * (deltaTime * direction.z))
    ensures y + r.y == targetY + multiplier * (speed * (deltaTime * direction.y))
  {
    direction.Scaled(deltaTime).Scaled(speed).Scaled(multiplier).Plus(UP.Scaled(targetY - y))
  }

  /**
    The displacement one Update asks for: a jump move toward the jump height
    at the advanced raise time while jumping, a ground move otherwise.
   */
  function FrameMove(t: JumpTuning, s: JumpState, input: FrameInput, speed: real, gravity: real,
                     multiplier: real, curve: real -> real): (r: Vector3)
    requires s.jumping ==> t.jumpRaiseMaxTime != 0.0
    ensures !s.jumping ==> r.y == input.deltaTime * (speed * input.direction.y - gravity)
    ensures s.jumping && input.direction.y == 0.0 ==>
      input.y + r.y == JumpHeightAt(t, s.(currentJumpTime := s.currentJumpTime + input.deltaTime), curve)
    ensures s.jumping ==> r.x == multiplier * (speed * (input.deltaTime * input.direction.x))
  {
    if s.jumping then
      JumpMove(input.direction, speed, multiplier, input.deltaTime,
        JumpHeightAt(t, RaiseTimer(s, input.deltaTime), curve), input.y)
    else
      GroundMove(input.direction, speed, gravity, input.deltaTime)
  }

  /** With a horizontal direction, a jumping frame aims exactly at the jump height, and a ground frame falls by gravity. */
  lemma VerticalTargets(direction: Vector3, speed: real, multiplier: real, gravity: real, deltaTime: real, targetY: real, y: real)
    requires direction.y == 0.0
    ensures y + JumpMove(direction, speed, multiplier, deltaTime, targetY, y).y == targetY
    ensures GroundMove(direction, speed, gravity, deltaTime).y == -gravity * deltaTime
    ensures JumpMove(direction, speed, multiplier, deltaTime, targetY, y).x == direction.x * deltaTime * speed * multiplier
  {
  }

  /**
    Between frames the raise timer of a jump in progress is below the maximum
    raise time, so the next frame samples the jump curve at a fraction in
    [0, 1] unless that frame itself crosses the maximum.
   */
  lemma JumpCurveSampledInUnitRange(t: JumpTuning, s: JumpState, deltaTime: real)
    requires Consistent(t, s) && s.jumping && 0.0 <= deltaTime
    requires s.currentJumpTime + deltaTime <= t.jumpRaiseMaxTime
    ensures t.jumpRaiseMaxTime != 0.0
    ensures 0.0 <= Remap01(s.currentJumpTime + deltaTime, 0.0, t.jumpRaiseMaxTime) <= 1.0
  {
    Remap01InUnitRange(s.currentJumpTime + deltaTime, 0.0, t.jumpRaiseMaxTime);
  }

  /**
    The frame that carries the raise timer past the maximum raise time
    samples the jump curve past 1, before the time-out ends the jump.
   */
  lemma CrossingFrameSamplesPastOne(t: JumpTuning, s: JumpState, deltaTime: real)
    requires 0.0 < t.jumpRaiseMaxTime < s.currentJumpTime + deltaTime
    ensures 1.0 < Remap01(s.currentJumpTime + deltaTime, 0.0, t.jumpRaiseMaxTime)
  {
    var f := Remap01(s.currentJumpTime + deltaTime, 0.0, t.jumpRaiseMaxTime);
    assert f * t.jumpRaiseMaxTime == s.currentJumpTime + deltaTime;
    FractionAbove(f, t.jumpRaiseMaxTime, s.currentJumpTime + deltaTime);
  }

  /** A fraction that takes a positive width beyond that width is above 1. */
  lemma FractionAbove(f: real, m: real, v: real)
    requires 0.0 < m < v && f * m == v
    ensures 1.0 < f
  {
  }

  /**
    With the default settings, a press while on the ground or within 0.1 s
    of leaving it starts a jump from the current height.
   */
  lemma DefaultJumpStarts(s: JumpState, deltaTime: real, button: JumpButton, y: real)
    requires !s.jumping && s.airTime < 0.1 && button.down
    ensures var r := UpdateStep(DEFAULT_TUNING, s, deltaTime, button, y);
      r.jumping && r.currentJumpTime == 0.0 && r.jumpY0 == y
  {
  }

  /** One engine callback. */
  datatype Frame =
    | Tick(deltaTime: real, button: JumpButton, y: real)
    | PhysicsTick(deltaTime: real, ceilingHit: bool, grounded: bool)

  function Step(t: JumpTuning, s: JumpState, f: Frame): JumpState {
    match f
    case Tick(dt, button, y) => UpdateStep(t, s, dt, button, y)
    case PhysicsTick(dt, ceilingHit, grounded) => FixedStep(t, s, ceilingHit, grounded, dt)
  }

  /** The jump state after a sequence of callbacks. */
  function Run(t: JumpTuning, s: JumpState, frames: seq<Frame>): JumpState
    decreases |frames|
  {
    if frames == [] then s else Run(t, Step(t, s, frames[0]), frames[1..])
  }

  /** No physics step touches the ground, and no callback has a negative time. */
  predicate Airborne(frames: seq<Frame>) {
    forall i :: 0 <= i < |frames| ==> 0.0 <= frames[i].deltaTime && !(frames[i].PhysicsTick? && frames[i].grounded)
  }

  /** The total time of the physics steps in a sequence of callbacks. */
  function PhysicsTime(frames: seq<Frame>): real
    decreases |frames|
  {
    if frames == [] then 0.0
    else (if frames[0].PhysicsTick? then frames[0].deltaTime else 0.0) + PhysicsTime(frames[1..])
  }

  /**
    Coyote time is a grace period only: once the character has been off the
    ground for coyoteTime without jumping, no jump can start until a physics
    step finds the ground again, and the time off the ground keeps growing.
   */
  lemma {:induction false} NoJumpAfterCoyoteTime(t: JumpTuning, s: JumpState, frames: seq<Frame>)
    requires !s.jumping && t.coyoteTime <= s.airTime
    requires Airborne(frames)
    ensures !Run(t, s, frames).jumping
    ensures s.airTime <= Run(t, s, frames).airTime
    decreases |frames|
  {
    if frames != [] {
      var next := Step(t, s, frames[0]);
      assert Airborne(frames[1..]) by {
        forall i | 0 <= i < |frames[1..]|
          ensures 0.0 <= frames[1..][i].deltaTime && !(frames[1..][i].PhysicsTick? && frames[1..][i].grounded)
        {
          assert frames[1..][i] == frames[i + 1];
        }
      }
      assert 0.0 <= frames[0].deltaTime;
      NoJumpAfterCoyoteTime(t, next, frames[1..]);
    }
  }

  /**
    While jumping is enabled and no physics step touches the ground or a
    ceiling, the time off the ground is exactly the time of the physics steps.
   */
  lemma {:induction false} AirTimeCountsPhysicsSteps(t: JumpTuning, s: JumpState, frames: seq<Frame>)
    requires t.playerCanJump
    requires forall i :: 0 <= i < |frames| && frames[i].PhysicsTick? ==> !frames[i].grounded && !frames[i].ceilingHit
    ensures Run(t, s, frames).airTime == s.airTime + PhysicsTime(frames)
    decreases |frames|
  {
    if frames != [] {
      var next := Step(t, s, frames[0]);
      forall i | 0 <= i < |frames[1..]| && frames[1..][i].PhysicsTick?
        ensures !frames[1..][i].grounded && !frames[1..][i].ceilingHit
      {
        assert frames[1..][i] == frames[i + 1];
      }
      AirTimeCountsPhysicsSteps(t, next, frames[1..]);
    }
  }

  /** What one Update reads: buttons, frame time, engine-computed directions and heights. */
  datatype FrameInput = FrameInput(
    runHeld: bool,
    jump: JumpButton,
    deltaTime: real,
    direction: Vector3,          // camera-relative movement direction, normalised
    cameraForward: Vector3,      // the camera's forward vector projected on the character's ground plane
    y: real,                     // the character's height before this frame's move
    yAfterMove: real)            // the character's height after the engine has carried out the move

  /** The character component. */
  class PlayerCharacter {
    const moveSpeed: real
    const runEnabled: bool
    const runSpeed: real
    const gravity: real
    const facing: FacingOption
    const tuning: JumpTuning
    const jumpForwardSpeedMultiplier: real

    var speed: real
    var airTime: real
    var currentJumpTime: real
    var jumping: bool
    var jumpY0: real
    /** The character's forward vector. */
    var forward: Vector3
    /** The displacement most recently handed to the character controller. */
    var requestedMove: Vector3

    /** The jump fields. */
    ghost function State(): JumpState
      reads this`jumping, this`currentJumpTime, this`airTime, this`jumpY0
    {
      JumpState(jumping, currentJumpTime, airTime, jumpY0)
    }

    ghost predicate Valid()
      reads this`jumping, this`currentJumpTime, this`airTime, this`jumpY0
    {
      Consistent(tuning, State())
    }

    /** Field initialisers and Start: no jump, no time off the ground, walking speed. */
    constructor (moveSpeed: real, runEnabled: bool, runSpeed: real, gravity: real, facing: FacingOption,
                 tuning: JumpTuning, jumpForwardSpeedMultiplier: real, forward: Vector3)
      ensures Valid()
      ensures this.moveSpeed == moveSpeed && this.runEnabled == runEnabled && this.runSpeed == runSpeed
      ensures this.gravity == gravity && this.facing == facing && this.tuning == tuning
      ensures this.jumpForwardSpeedMultiplier == jumpForwardSpeedMultiplier
      ensures State() == JumpState(false, 0.0, 0.0, 0.0)
      ensures speed == moveSpeed && this.forward == forward && requestedMove == ZERO
    {
      this.moveSpeed, this.runEnabled, this.runSpeed, this.gravity := moveSpeed, runEnabled, runSpeed, gravity;
      this.facing, this.tuning, this.jumpForwardSpeedMultiplier := facing, tuning, jumpForwardSpeedMultiplier;
      airTime, currentJumpTime, jumping, jumpY0 := 0.0, 0.0, false, 0.0;
      this.forward, requestedMove := forward, ZERO;
      speed := moveSpeed;
    }

    /** One rendered frame. */
    method Update(input: FrameInput, curve: real -> real)
      requires Valid() && 0.0 <= input.deltaTime
      modifies this`speed, this`forward, this`requestedMove, this`jumping, this`currentJumpTime, this`jumpY0
      ensures Valid()
      ensures State() == UpdateStep(tuning, old(State()), input.deltaTime, input.jump, input.yAfterMove)
      ensures speed == (if runEnabled && input.runHeld then runSpeed else moveSpeed)
      ensures facing == CameraDirection ==> forward == input.cameraForward
      ensures facing == MovementDirection ==>
        forward == (if input.direction == ZERO then old(forward) else input.direction)
      ensures facing == None ==> forward == old(forward)
      ensures requestedMove == FrameMove(tuning, old(State()), input, speed, gravity, jumpForwardSpeedMultiplier, curve)
    {
      speed := if runEnabled && input.runHeld then runSpeed else moveSpeed;

      if facing != None {
        Facing(facing, input.direction, input.cameraForward);
      }

      ghost var s0 := State();
      assert s0 == old(State());
      if jumping {
        Jumping(input.deltaTime, input.direction, input.y, curve);
      } else {
        requestedMove := GroundMove(input.direction, speed, gravity, input.deltaTime);
      }
      assert State() == RaiseTimer(s0, input.deltaTime);
      assert requestedMove == FrameMove(tuning, s0, input, speed, gravity, jumpForwardSpeedMultiplier, curve);

      ghost var move := requestedMove;
      JumpZone(input.jump, input.yAfterMove);
      assert requestedMove == move;
    }

    /** The jump part of Update, after the move: start, release and time-out of a jump. */
    method JumpZone(button: JumpButton, y: real)
      modifies this`jumping, this`currentJumpTime, this`jumpY0
      ensures !tuning.playerCanJump ==> State() == old(State())
      ensures tuning.playerCanJump ==> State() == EndAtMaxTime(tuning, ButtonRule(tuning, old(State()), button, y))
    {
      if !tuning.playerCanJump {
        return;
      }

      if button.down && !jumping && airTime < tuning.coyoteTime {
        Jump(y);
      } else if !button.held && currentJumpTime >= tuning.jumpRaiseMinTime {
        jumping := false;
      }
      ghost var pressed := State();

      if jumping && currentJumpTime >= tuning.jumpRaiseMaxTime {
        jumping := false;
      }
      assert State() == EndAtMaxTime(tuning, pressed);
    }

    /** One physics step; `ceilingHit` and `grounded` are the overlap tests at the top and at the feet. */
    method FixedUpdate(ceilingHit: bool, grounded: bool, deltaTime: real)
      requires Valid() && 0.0 <= deltaTime
      modifies this`jumping, this`airTime
      ensures Valid()
      ensures State() == FixedStep(tuning, old(State()), ceilingHit, grounded, deltaTime)
    {
      if !tuning.playerCanJump {
        return;
      }

      if jumping && ceilingHit {
        jumping := false;
      } else if grounded {
        airTime := 0.0;
      } else {
        airTime := airTime + deltaTime;
      }
    }

    /**
      Turns the character: toward the camera's forward vector, or else toward
      the movement direction unless that is zero.
     */
    method Facing(option: FacingOption, direction: Vector3, cameraForward: Vector3)
      modifies this`forward
      ensures option == CameraDirection ==> forward == cameraForward
      ensures option != CameraDirection ==> forward == (if direction == ZERO then old(forward) else direction)
    {
      if option == CameraDirection {
        forward := cameraForward;
        return;
      }

      if direction == ZERO {
        return;
      }

      forward := direction;
    }

    /** Starts a jump from height `y`. */
    method Jump(y: real)
      modifies this`jumping, this`currentJumpTime, this`jumpY0
      ensures jumping && currentJumpTime == 0.0 && jumpY0 == y
    {
      jumping := true;
      currentJumpTime := 0.0;
      jumpY0 := y;
    }

    /** Advances the raise timer and asks to move toward the jump height. */
    method Jumping(deltaTime: real, direction: Vector3, y: real, curve: real -> real)
      requires jumping && Valid()
      modifies this`currentJumpTime, this`requestedMove
      ensures tuning.jumpRaiseMaxTime != 0.0
      ensures currentJumpTime == old(currentJumpTime) + deltaTime
      ensures requestedMove == JumpMove(direction, speed, jumpForwardSpeedMultiplier, deltaTime,
        JumpHeightAt(tuning, State(), curve), y)
    {
      currentJumpTime := currentJumpTime + deltaTime;
      var curveTime := Remap01(currentJumpTime, 0.0, tuning.jumpRaiseMaxTime);
      var currentJumpHeight := jumpY0 + tuning.jumpHeight * curve(curveTime);

      requestedMove := JumpMove(direction, speed, jumpForwardSpeedMultiplier, deltaTime, currentJumpHeight, y);
    }
  }
}
