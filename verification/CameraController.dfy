/**
  The third-person camera rig. Its root follows a target (hard on x and z,
  smoothed on y), turns by yaw and pitch read from the mouse or a joystick,
  keeps the camera in front of any obstacle on the line of sight from the
  root to the camera target, and zooms by moving the target along the rig's
  local z axis between two limits.

  Every engine query is an input: the followed transform's position, the four
  look axes, the scroll wheel, the result of the line-of-sight test, the
  world position of the camera target, the offset the camera's own frame
  gives to its local point (0, 0, 0.3), and the camera's position expressed
  in the rig's frame.
 */
module Camera {
  import opened UnityMath

  /** Result of the line-of-sight test from the rig root to the camera target. */
  datatype Linecast = Clear | Blocked(point: Vector3)

  /** The look axes read in one frame. */
  datatype LookInput = LookInput(mouseX: real, mouseY: real, joystickX: real, joystickY: real)

  /** The two angles the rig accumulates, in degrees. */
  datatype Angles = Angles(pitch: real, yaw: real)

  /** Inspector defaults of the component. */
  const DEFAULT_PITCH_LIMITS := Vector2(-60.0, 60.0)
  const DEFAULT_ZOOM_LIMITS := Vector2(1.0, 10.0)
  const DEFAULT_Y_LERP := 1.0

  /**
    The amount one angle turns by: the mouse axis, or the joystick axis when
    the mouse axis reads exactly 0, negated when the angle is inverted.
   */
  function AxisDelta(mouse: real, joystick: real, invert: bool): (r: real)
    ensures mouse != 0.0 ==> r == (if invert then -mouse else mouse)
    ensures mouse == 0.0 ==> r == (if invert then -joystick else joystick)
  {
    var raw := if mouse == 0.0 then joystick else mouse;
    if invert then -raw else raw
  }

  /**
    One frame of rotation: yaw accumulates without bound, pitch accumulates
    and is then clamped to the pitch limits.
   */
  function Rotate(a: Angles, look: LookInput, invertYaw: bool, invertPitch: bool, pitchLimits: Vector2): (r: Angles)
    ensures pitchLimits.x <= pitchLimits.y ==> pitchLimits.x <= r.pitch <= pitchLimits.y
    ensures look.mouseX != 0.0 ==> r.yaw == a.yaw + (if invertYaw then -look.mouseX else look.mouseX)
    ensures look.mouseX == 0.0 ==> r.yaw == a.yaw + (if invertYaw then -look.joystickX else look.joystickX)
    ensures var p := a.pitch + AxisDelta(look.mouseY, look.joystickY, invertPitch);
      pitchLimits.x <= p <= pitchLimits.y ==> r.pitch == p
    ensures var p := a.pitch + AxisDelta(look.mouseY, look.joystickY, invertPitch);
      p < pitchLimits.x ==> r.pitch == pitchLimits.x
    ensures var p := a.pitch + AxisDelta(look.mouseY, look.joystickY, invertPitch);
      pitchLimits.x <= p && pitchLimits.y < p ==> r.pitch == pitchLimits.y
  {
    var yaw := AxisDelta(look.mouseX, look.joystickX, invertYaw);
    var pitch := AxisDelta(look.mouseY, look.joystickY, invertPitch);
    Angles(Clamp(a.pitch + pitch, pitchLimits.x, pitchLimits.y), a.yaw + yaw)
  }

  /** With the default limits (-60, 60) the pitch never leaves [-60, 60] degrees. */
  lemma DefaultPitchRange(a: Angles, look: LookInput, invertYaw: bool, invertPitch: bool)
    ensures -60.0 <= Rotate(a, look, invertYaw, invertPitch, DEFAULT_PITCH_LIMITS).pitch <= 60.0
  {
  }

  /** Flipping invertYaw negates the yaw turn and leaves pitch alone; flipping invertPitch leaves yaw alone. */
  lemma InvertFlagsIndependent(a: Angles, look: LookInput, invertYaw: bool, invertPitch: bool, pitchLimits: Vector2)
    ensures var r := Rotate(a, look, invertYaw, invertPitch, pitchLimits);
      var flippedYaw := Rotate(a, look, !invertYaw, invertPitch, pitchLimits);
      var flippedPitch := Rotate(a, look, invertYaw, !invertPitch, pitchLimits);
      flippedYaw.pitch == r.pitch && flippedYaw.yaw - a.yaw == -(r.yaw - a.yaw) &&
      flippedPitch.yaw == r.yaw
  {
  }

  /** While the mouse moves horizontally, the joystick's horizontal axis has no effect. */
  lemma JoystickOnlyWhenMouseIdle(a: Angles, look: LookInput, joystickX: real, invertYaw: bool, invertPitch: bool, pitchLimits: Vector2)
    requires look.mouseX != 0.0
    ensures Rotate(a, look.(joystickX := joystickX), invertYaw, invertPitch, pitchLimits)
         == Rotate(a, look, invertYaw, invertPitch, pitchLimits)
  {
  }

  /** The angles after a sequence of frames. */
  function RotateFrames(a: Angles, looks: seq<LookInput>, invertYaw: bool, invertPitch: bool, pitchLimits: Vector2): Angles
    decreases |looks|
  {
    if looks == [] then a
    else RotateFrames(Rotate(a, looks[0], invertYaw, invertPitch, pitchLimits), looks[1..], invertYaw, invertPitch, pitchLimits)
  }

  /** The total horizontal input of a sequence of frames. */
  function YawTotal(looks: seq<LookInput>, invertYaw: bool): real
    decreases |looks|
  {
    if looks == [] then 0.0
    else AxisDelta(looks[0].mouseX, looks[0].joystickX, invertYaw) + YawTotal(looks[1..], invertYaw)
  }

  /** Yaw is never clamped: over any number of frames it turns by exactly the sum of the inputs. */
  lemma {:induction false} YawAccumulates(a: Angles, looks: seq<LookInput>, invertYaw: bool, invertPitch: bool, pitchLimits: Vector2)
    ensures RotateFrames(a, looks, invertYaw, invertPitch, pitchLimits).yaw == a.yaw + YawTotal(looks, invertYaw)
    decreases |looks|
  {
    if looks != [] {
      YawAccumulates(Rotate(a, looks[0], invertYaw, invertPitch, pitchLimits), looks[1..], invertYaw, invertPitch, pitchLimits);
    }
  }

  /** Pitch inside the limits stays inside them over any number of frames. */
  lemma {:induction false} PitchStaysInLimits(a: Angles, looks: seq<LookInput>, invertYaw: bool, invertPitch: bool, pitchLimits: Vector2)
    requires pitchLimits.x <= a.pitch <= pitchLimits.y
    ensures pitchLimits.x <= RotateFrames(a, looks, invertYaw, invertPitch, pitchLimits).pitch <= pitchLimits.y
    decreases |looks|
  {
    if looks != [] {
      PitchStaysInLimits(Rotate(a, looks[0], invertYaw, invertPitch, pitchLimits), looks[1..], invertYaw, invertPitch, pitchLimits);
    }
  }

  /**
    The root's new position: x and z copied from the followed position, y
    interpolated from the old height toward the followed one by yLerp.
   */
  function RootFollow(root: Vector3, followed: Vector3, yLerp: real): (r: Vector3)
    ensures r.x == followed.x && r.z == followed.z
    ensures yLerp >= 1.0 ==> r.y == followed.y
    ensures yLerp <= 0.0 ==> r.y == root.y
    ensures root.y <= followed.y ==> root.y <= r.y <= followed.y
    ensures followed.y <= root.y ==> followed.y <= r.y <= root.y
    ensures 0.0 <= yLerp <= 1.0 ==> r.y == root.y + (followed.y - root.y) * yLerp
  {
    Vector3(followed.x, Lerp(root.y, followed.y, yLerp), followed.z)
  }

  /** With the default yLerp of 1 the root follows its target hard on all three axes. */
  lemma DefaultHardFollow(root: Vector3, followed: Vector3)
    ensures RootFollow(root, followed, DEFAULT_Y_LERP) == followed
  {
  }

  /**
    The camera target's new local position. Zooming out (wheel < 0) while the
    line of sight is blocked is refused; zooming in while it is blocked starts
    from the camera's own position; otherwise the target moves along z by the
    wheel, and z is clamped to [-zoomLimits.y, -zoomLimits.x].
   */
  function Zoom(local: Vector3, hitted: bool, wheel: real, cameraInRoot: Vector3, zoomLimits: Vector2): (r: Vector3)
    ensures hitted && wheel < 0.0 ==> r == local
    ensures !(hitted && wheel < 0.0) ==> r.x == 0.0 && r.y == 0.0
    ensures !(hitted && wheel < 0.0) && zoomLimits.x <= zoomLimits.y ==> -zoomLimits.y <= r.z <= -zoomLimits.x
    ensures var from := if hitted && wheel > 0.0 then cameraInRoot.z else local.z;
      !(hitted && wheel < 0.0) && -zoomLimits.y <= from + wheel <= -zoomLimits.x ==> r.z == from + wheel
    ensures var from := if hitted && wheel > 0.0 then cameraInRoot.z else local.z;
      !(hitted && wheel < 0.0) && from + wheel < -zoomLimits.y ==> r.z == -zoomLimits.y
    ensures var from := if hitted && wheel > 0.0 then cameraInRoot.z else local.z;
      !(hitted && wheel < 0.0) && -zoomLimits.y <= from + wheel && -zoomLimits.x < from + wheel ==> r.z == -zoomLimits.x
  {
    if hitted && wheel < 0.0 then local
    else
      var start := if hitted && wheel > 0.0 then cameraInRoot else local;
      var z := Clamp(start.z + wheel, -zoomLimits.y, -zoomLimits.x);
      Vector3(0.0, 0.0, z)
  }

  /** With the default limits (1, 10) the target sits between 10 and 1 units behind the root. */
  lemma DefaultZoomRange(local: Vector3, hitted: bool, wheel: real, cameraInRoot: Vector3)
    requires !(hitted && wheel < 0.0)
    ensures -10.0 <= Zoom(local, hitted, wheel, cameraInRoot, DEFAULT_ZOOM_LIMITS).z <= -1.0
  {
  }

  /** Without wheel input the zoom settles in one frame: a second frame changes nothing. */
  lemma ZoomIdempotentAtRest(local: Vector3, hitted: bool, cameraInRoot: Vector3, zoomLimits: Vector2)
    requires zoomLimits.x <= zoomLimits.y
    ensures var once := Zoom(local, hitted, 0.0, cameraInRoot, zoomLimits);
      Zoom(once, hitted, 0.0, cameraInRoot, zoomLimits) == once
  {
  }

  /**
    With a clear line of sight and the target inside the limits, scrolling
    forward never moves the target away from the root, and scrolling back never
    moves it closer.
   */
  lemma ZoomDirection(local: Vector3, wheel: real, cameraInRoot: Vector3, zoomLimits: Vector2)
    requires -zoomLimits.y <= local.z <= -zoomLimits.x
    ensures wheel >= 0.0 ==> Zoom(local, false, wheel, cameraInRoot, zoomLimits).z >= local.z
    ensures wheel <= 0.0 ==> Zoom(local, false, wheel, cameraInRoot, zoomLimits).z <= local.z
  {
  }

  /** The rig root, which carries the camera and the camera target as children. */
  class CameraController {
    const invertYaw: bool
    const invertPitch: bool
    const pitchLimits: Vector2
    const zoomLimits: Vector2
    const yLerp: real

    var yawAngle: real
    var pitchAngle: real
    var hitted: bool
    /** The root's world position. */
    var position: Vector3
    /** The root's local rotation, as the Euler angles (pitch, yaw, roll) it was built from. */
    var localRotation: Vector3
    /** The camera's world position. */
    var cameraPosition: Vector3
    /** The camera target's position in the root's frame. */
    var targetLocalPosition: Vector3

    /** The accumulated angles. */
    ghost function Orientation(): Angles
      reads this
    {
      Angles(pitchAngle, yawAngle)
    }

    /** Awake: the angles start from the Euler angles of the root's initial rotation. */
    constructor (invertYaw: bool, invertPitch: bool, pitchLimits: Vector2, zoomLimits: Vector2, yLerp: real,
                 position: Vector3, eulerAngles: Vector3, cameraPosition: Vector3, targetLocalPosition: Vector3)
      ensures this.invertYaw == invertYaw && this.invertPitch == invertPitch
      ensures this.pitchLimits == pitchLimits && this.zoomLimits == zoomLimits && this.yLerp == yLerp
      ensures pitchAngle == eulerAngles.x && yawAngle == eulerAngles.y
      ensures !hitted
      ensures this.position == position && localRotation == eulerAngles
      ensures this.cameraPosition == cameraPosition && this.targetLocalPosition == targetLocalPosition
    {
      this.invertYaw, this.invertPitch := invertYaw, invertPitch;
      this.pitchLimits, this.zoomLimits, this.yLerp := pitchLimits, zoomLimits, yLerp;
      pitchAngle := eulerAngles.x;
      yawAngle := eulerAngles.y;
      hitted := false;
      this.position, localRotation := position, eulerAngles;
      this.cameraPosition, this.targetLocalPosition := cameraPosition, targetLocalPosition;
    }

    /**
      Follows `followed`: hard on x and z, smoothed by yLerp on y. The camera
      is a child of the root, so it moves with it and keeps its offset.
     */
    method CameraRootRelocation(followed: Vector3)
      modifies this
      ensures position == RootFollow(old(position), followed, yLerp)
      ensures position.x == followed.x && position.z == followed.z
      ensures yLerp == 1.0 ==> position == followed
      ensures cameraPosition == old(cameraPosition).Plus(position.Minus(old(position)))
      ensures cameraPosition.Minus(position) == old(cameraPosition).Minus(old(position))
      ensures yawAngle == old(yawAngle) && pitchAngle == old(pitchAngle) && hitted == old(hitted)
      ensures localRotation == old(localRotation)
      ensures targetLocalPosition == old(targetLocalPosition)
    {
      var y := Lerp(position.y, followed.y, yLerp);
      var moved := Vector3(followed.x, y, followed.z);
      cameraPosition := cameraPosition.Plus(moved.Minus(position));
      position := moved;
    }

    /**
      Turns the rig by the look input. Turning the root also swings the
      camera, its child, around it; that rotation is not modelled, so the
      camera's world position is left unspecified here.
     */
    method CameraRootRotation(look: LookInput)
      modifies this
      ensures Orientation() == Rotate(old(Orientation()), look, invertYaw, invertPitch, pitchLimits)
      ensures pitchLimits.x <= pitchLimits.y ==> pitchLimits.x <= pitchAngle <= pitchLimits.y
      ensures localRotation == Vector3(pitchAngle, yawAngle, 0.0)
      ensures position == old(position) && hitted == old(hitted)
      ensures targetLocalPosition == old(targetLocalPosition)
    {
      var yaw := look.mouseX;
      var pitch := look.mouseY;

      if yaw == 0.0 { yaw := look.joystickX; }
      if pitch == 0.0 { pitch := look.joystickY; }

      if invertYaw { yaw := -yaw; }
      if invertPitch { pitch := -pitch; }

      pitchAngle := pitchAngle + pitch;
      yawAngle := yawAngle + yaw;

      pitchAngle := Clamp(pitchAngle, pitchLimits.x, pitchLimits.y);

      localRotation := Vector3(pitchAngle, yawAngle, 0.0);
    }

    /**
      Places the camera: at the camera target when the line of sight is
      clear, otherwise at the obstacle, pushed 0.3 units along the camera's
      own forward axis (`nudge` is that offset in world space).
     */
    method CameraRelocation(linecast: Linecast, targetPosition: Vector3, nudge: Vector3)
      modifies this
      ensures hitted == linecast.Blocked?
      ensures linecast == Clear ==> cameraPosition == targetPosition
      ensures linecast.Blocked? ==> cameraPosition == linecast.point.Plus(nudge)
      ensures position == old(position) && localRotation == old(localRotation)
      ensures yawAngle == old(yawAngle) && pitchAngle == old(pitchAngle)
      ensures targetLocalPosition == old(targetLocalPosition)
    {
      hitted := linecast.Blocked?;

      if hitted {
        cameraPosition := linecast.point;
        cameraPosition := cameraPosition.Plus(nudge);
      } else {
        cameraPosition := targetPosition;
      }
    }

    /** Moves the camera target along the rig's z axis by the scroll wheel. */
    method CameraZoom(wheel: real, cameraInRoot: Vector3)
      modifies this
      ensures targetLocalPosition == Zoom(old(targetLocalPosition), hitted, wheel, cameraInRoot, zoomLimits)
      ensures hitted && wheel < 0.0 ==> targetLocalPosition == old(targetLocalPosition)
      ensures position == old(position) && localRotation == old(localRotation) && hitted == old(hitted)
      ensures yawAngle == old(yawAngle) && pitchAngle == old(pitchAngle)
      ensures cameraPosition == old(cameraPosition)
    {
      if hitted {
        if wheel < 0.0 {
          return;
        } else if wheel > 0.0 {
          targetLocalPosition := cameraInRoot;
        }
      }

      var z := Clamp(targetLocalPosition.z + wheel, -zoomLimits.y, -zoomLimits.x);
      targetLocalPosition := Vector3(0.0, 0.0, z);
    }

    /** One frame: follow, turn, place the camera, zoom. */
    method Update(followed: Vector3, look: LookInput, linecast: Linecast, targetPosition: Vector3, nudge: Vector3,
                  wheel: real, cameraInRoot: Vector3)
      modifies this
      ensures position == RootFollow(old(position), followed, yLerp)
      ensures Orientation() == Rotate(old(Orientation()), look, invertYaw, invertPitch, pitchLimits)
      ensures localRotation == Vector3(pitchAngle, yawAngle, 0.0)
      ensures hitted == linecast.Blocked?
      ensures cameraPosition == if linecast.Blocked? then linecast.point.Plus(nudge) else targetPosition
      ensures targetLocalPosition == Zoom(old(targetLocalPosition), hitted, wheel, cameraInRoot, zoomLimits)
    {
      CameraRootRelocation(followed);
      CameraRootRotation(look);
      CameraRelocation(linecast, targetPosition, nudge);
      CameraZoom(wheel, cameraInRoot);
    }
  }
}
