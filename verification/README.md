# Character, camera and squash-and-stretch scripts, modelled in Dafny

This project models the gameplay core of a small collection of Unity
scripts:

- **The player character** (`PlayerCharacter.dfy`, module `Player`). This covers:
  - the movement speed, with an optional run button;
  - which way the character faces;
  - the displacement it asks of the engine's character controller each frame;
  - the jump state machine: a jump starts on a press within the *coyote time* after leaving the ground, rises along an animation curve for between a minimum and a maximum raise time, and ends on release, on time-out or on a ceiling hit;
  - the per-physics-step count of time off the ground.
- **The third-person camera rig** (`CameraController.dfy`, module `Camera`). This covers:
  - the root following its target, hard on x and z and smoothed on y;
  - yaw and pitch from the mouse, falling back to a joystick, with pitch clamped;
  - keeping the camera in front of obstacles on the line of sight;
  - zooming the camera target along the rig's z axis between two limits.
- **Squash and stretch** (`SquashStretch.dfy`, module `SquashStretch`). Two scale factors that sum to 2 are pushed away from 1 and decay back toward 1 by 20% per frame. Every frame multiplies the object's local scale by them.
- **The `float` extension methods** `Remap` and `Remap01` (`ExtensionMethods.dfy`).
- **The engine maths the scripts call** (`UnityMath.dfy`): `Vector3`, `Vector2`, `Mathf.Clamp`, `Clamp01` and `Lerp`, over `real`.

The engine callbacks (`Update`, `FixedUpdate`, `LateUpdate`, `Awake`/`Start`) become methods of classes whose fields are the components' fields. Each callback is tied to a pure function of the old state and the inputs, such as `UpdateStep`, `FixedStep`, `Rotate`, `Zoom` or `RootFollow`. The properties are proved about those functions as lemmas.

Every engine query becomes a parameter:
- input axes and buttons;
- `Time.deltaTime`;
- sphere overlap tests and the line-of-sight test;
- transform positions;
- the animation curve, which is an arbitrary function `real -> real`.

## Model

| member | source | states |
|---|---|---|
| UnityMath.Clamp | Assets/CharacterAndCameraController/Scripts/CameraController.cs:67 | With ordered limits the result lies within them. A value inside the limits is returned unchanged. The lower limit is tested first, so with crossed limits a value below `min` still gives `min`. |
| UnityMath.Clamp01 | Assets/CharacterAndCameraController/Scripts/CameraController.cs:44 | The result lies in [0, 1], and a value already in [0, 1] is returned unchanged. |
| UnityMath.Lerp | Assets/CharacterAndCameraController/Scripts/CameraController.cs:44 | The parameter is clamped: t <= 0 gives `a` and t >= 1 gives `b`. For t in [0, 1] the result is `a + (b - a) * t`. The result always lies between `a` and `b`. |
| ExtensionMethods.Remap | Assets/_General/Scripts/ExtensionsMethods.cs:3-6 | `inputMin` maps to `min` and `inputMax` maps to `max`. The result sits the same fraction along [min, max] as the input along [inputMin, inputMax]. A zero-width input range is excluded. |
| ExtensionMethods.Remap01 | Assets/_General/Scripts/ExtensionsMethods.cs:7-10 | `min` maps to 0 and `max` maps to 1. Stepping the result's fraction of the way from `min` to `max` gives the value back. |
| ExtensionMethods.RemapToUnitIsRemap01 | Assets/_General/Scripts/ExtensionsMethods.cs:3-10 | Remap onto [0, 1] equals Remap01. |
| ExtensionMethods.Remap01Monotone | Assets/_General/Scripts/ExtensionsMethods.cs:7-10 | Over an increasing range, Remap01 preserves order. |
| ExtensionMethods.Remap01InUnitRange | Assets/_General/Scripts/ExtensionsMethods.cs:7-10 | A value inside an increasing range maps into [0, 1]. |
| ExtensionMethods.RemapRoundTrip | Assets/_General/Scripts/ExtensionsMethods.cs:3-6 | Remapping onto a non-empty range and back returns the original input. |
| SquashStretch.Recover | Assets/_General/Scripts/ISquasheable.cs:18-19 | One frame moves a factor so that its offset from 1 becomes 0.8 times the old offset. A factor of 1 stays 1. |
| SquashStretch.RecoverShrinksDistance | Assets/_General/Scripts/ISquasheable.cs:18-19 | Each frame shrinks the distance from 1 by exactly 20%, and strictly unless the factor is already 1. |
| SquashStretch.RecoverKeepsSum | Assets/_General/Scripts/ISquasheable.cs:18-19 | A pair of factors summing to 2 still sums to 2 after a frame. |
| SquashStretch.RecoverFramesClosedForm | Assets/_General/Scripts/ISquasheable.cs:18-19 | After n frames the offset from 1 is 0.8^n times the initial offset. |
| SquashStretch.RecoverFramesKeepsSum | Assets/_General/Scripts/ISquasheable.cs:18-19 | The factors sum to 2 after any number of frames. |
| SquashStretch.DecayRate | Assets/_General/Scripts/ISquasheable.cs:8-9 | 0.8^n * (1 + n/4) <= 1. So the decay factor tends to 0, as the field comments' "comes back to 1" requires. |
| SquashStretch.SettlingDistance | Assets/_General/Scripts/ISquasheable.cs:18-19 | The distance from 1 after n frames is exactly 0.8^n times the initial distance. |
| SquashStretch.SettlingBound | Assets/_General/Scripts/ISquasheable.cs:8-9 | A factor comes back to 1. After n frames its distance from 1 is at most the initial distance divided by 1 + n/4. |
| SquashStretch.DistanceNeverGrows | Assets/_General/Scripts/ISquasheable.cs:18-19 | Recovery never moves a factor further from 1. |
| SquashStretch.ScaleStep | Assets/_General/Scripts/ISquasheable.cs:13-16 | One frame leaves z alone, leaves an axis alone when its factor is 1, and collapses an axis to 0 exactly when its scale or its factor is 0. |
| SquashStretch.ScaleAfterFrames | Assets/_General/Scripts/ISquasheable.cs:11-20 | Over any number of frames z is never touched. |
| SquashStretch.ScaleAfterFramesIsProduct | Assets/_General/Scripts/ISquasheable.cs:11-20 | After n frames each of x and y is the starting scale times the product of the n factors the axis went through, so the distortions compound. |
| SquashStretch.SquashNeverRecovers | Assets/_General/Scripts/ISquasheable.cs:13-16 | As written, every frame multiplies the current scale. After SetSquashX(2) the y scale is 0 from the first frame on, forever. z is untouched. |
| SquashStretch.IntendedScale | Assets/_General/Scripts/ISquasheable.cs:13-16 | The corrected display: the offset of x (and y) from the base scale is the base scale times the factor's offset from 1. Factors of 1 show the base scale, and z is never distorted. |
| SquashStretch.IntendedScaleRecovers | Assets/_General/Scripts/ISquasheable.cs:11-20 | With the corrected display, n frames after a squash the object shows its base scale distorted by factors whose offset from 1 is 0.8^n times the initial offset. |
| SquashStretch.IntendedScaleSettles | Assets/_General/Scripts/ISquasheable.cs:8-9 | With the corrected display the shown scale comes back to the base scale: after n frames its offset from the base is 0.8^n times the first frame's offset on x and y, and at most that offset divided by 1 + n/4. |
| SquashStretch.FadeToBase | Assets/_General/Scripts/ISquasheable.cs:11-20 | Factors p times as far from 1 show a scale p times as far from the base. When p * k <= 1, that offset is at most the original offset divided by k. |
| SquashStretch.Squasheable.constructor | Assets/_General/Scripts/ISquasheable.cs:8-9 | Both factors start at 1 (no distortion), so the invariant "factors sum to 2" holds. The local scale is the object's scale. |
| SquashStretch.Squasheable.LateUpdate | Assets/_General/Scripts/ISquasheable.cs:11-20 | As written: the local scale becomes ScaleStep of the old one, i.e. multiplied by the current factors. Each factor moves 20% back toward 1. The factors keep summing to 2. |
| SquashStretch.Squasheable.SetSquashX | Assets/_General/Scripts/ISquasheable.cs:23-27 | Sets the x factor. The y factor takes up the difference, so the factors sum to 2. |
| SquashStretch.Squasheable.SetSquashY | Assets/_General/Scripts/ISquasheable.cs:30-34 | Sets the y factor. The x factor takes up the difference, so the factors sum to 2. |
| Camera.AxisDelta | Assets/CharacterAndCameraController/Scripts/CameraController.cs:57-62 | An axis turns by the mouse reading, or by the joystick reading when the mouse reads exactly 0, negated when inverted. |
| Camera.Rotate | Assets/CharacterAndCameraController/Scripts/CameraController.cs:52-67 | With ordered limits, pitch ends inside the pitch limits. Yaw turns by the mouse x axis, or by the joystick x axis when the mouse reads 0, negated when inverted. A pitch sum inside the limits is kept unclamped. One below the lower limit lands on the lower limit, and one at least the lower limit but above the upper limit lands on the upper limit. |
| Camera.DefaultPitchRange | Assets/CharacterAndCameraController/Scripts/CameraController.cs:9 | With the default pitch limits (-60, 60) the pitch never leaves [-60, 60] degrees. |
| Camera.InvertFlagsIndependent | Assets/CharacterAndCameraController/Scripts/CameraController.cs:61-62 | Flipping invertYaw negates the yaw turn and leaves pitch alone. Flipping invertPitch leaves yaw alone. |
| Camera.JoystickOnlyWhenMouseIdle | Assets/CharacterAndCameraController/Scripts/CameraController.cs:57-58 | While the mouse x axis is non-zero, the joystick x axis has no effect. |
| Camera.YawAccumulates | Assets/CharacterAndCameraController/Scripts/CameraController.cs:65 | Yaw is never clamped. Over any number of frames it turns by exactly the sum of the frames' turns. |
| Camera.PitchStaysInLimits | Assets/CharacterAndCameraController/Scripts/CameraController.cs:64-67 | A pitch inside the limits stays inside them over any number of frames. |
| Camera.RootFollow | Assets/CharacterAndCameraController/Scripts/CameraController.cs:41-50 | x and z follow the target exactly. y lies between the old height and the target height. For yLerp in [0, 1], y moves exactly the fraction yLerp of the way to the target height. yLerp >= 1 means a hard follow and yLerp <= 0 means no vertical follow. |
| Camera.DefaultHardFollow | Assets/CharacterAndCameraController/Scripts/CameraController.cs:12 | With the default yLerp of 1 the root follows its target exactly on all three axes. |
| Camera.Zoom | Assets/CharacterAndCameraController/Scripts/CameraController.cs:90-106 | Zooming out behind an obstacle is refused. Otherwise the target lies on the z axis within [-zoomLimits.y, -zoomLimits.x], moved by exactly the wheel when that stays inside. A move past the far limit lands on -zoomLimits.y, and one past the near limit lands on -zoomLimits.x. When zooming in behind an obstacle, it starts from the camera's position. |
| Camera.DefaultZoomRange | Assets/CharacterAndCameraController/Scripts/CameraController.cs:104-105 | With the default limits (1, 10) the target ends between 10 and 1 units behind the root. |
| Camera.ZoomIdempotentAtRest | Assets/CharacterAndCameraController/Scripts/CameraController.cs:104-105 | With no wheel input the zoom settles in one frame: a second frame changes nothing. |
| Camera.ZoomDirection | Assets/CharacterAndCameraController/Scripts/CameraController.cs:104-105 | With a clear line of sight, scrolling forward never moves the target away from the root and scrolling back never moves it closer. |
| Camera.CameraController.constructor | Assets/CharacterAndCameraController/Scripts/CameraController.cs:20-26 | The angles start from the initial rotation's Euler x (pitch) and y (yaw). No obstacle is recorded. |
| Camera.CameraController.CameraRootRelocation | Assets/CharacterAndCameraController/Scripts/CameraController.cs:41-50 | The root's new position is RootFollow of the old one (hard follow when yLerp is 1). The camera, a child of the root, moves with it and keeps its offset from the root. The angles, rotation, obstacle flag and target's local position are unchanged. |
| Camera.CameraController.CameraRootRotation | Assets/CharacterAndCameraController/Scripts/CameraController.cs:52-70 | The angles become Rotate of the old angles. Pitch stays in the limits. The rotation is rebuilt from (pitch, yaw, 0). The root's position, the obstacle flag and the target's local position are unchanged. |
| Camera.CameraController.CameraRelocation | Assets/CharacterAndCameraController/Scripts/CameraController.cs:72-88 | Records whether the line of sight is blocked. The camera goes to the target when clear, or to the hit point plus the near-plane nudge when blocked. Nothing else changes. |
| Camera.CameraController.CameraZoom | Assets/CharacterAndCameraController/Scripts/CameraController.cs:90-106 | The target's local position becomes Zoom of the old one. It is unchanged when zooming out behind an obstacle. Nothing else changes. |
| Camera.CameraController.Update | Assets/CharacterAndCameraController/Scripts/CameraController.cs:33-39 | One frame composes follow, rotate, relocate and zoom. The zoom uses the obstacle flag computed in the same frame. |
| Player.UpdateStep | Assets/CharacterAndCameraController/Scripts/PlayerCharacter.cs:64-79 | The jump part of Update never changes the air time. With jumping disabled only the raise timer moves. The invariant is kept for a non-negative frame time. |
| Player.RaiseTimer | Assets/CharacterAndCameraController/Scripts/PlayerCharacter.cs:145 | While jumping, the raise timer advances by exactly the frame time. Nothing else changes, and nothing at all changes when not jumping. |
| Player.ButtonRule | Assets/CharacterAndCameraController/Scripts/PlayerCharacter.cs:67-76 | When not jumping, a jump starts iff Jump is pressed within the coyote time, and it starts with the timer at 0 and the take-off height recorded. When jumping, the jump goes on iff the button is held or the minimum raise time is not reached. The air time is untouched, and when the jump flag does not change nothing changes. |
| Player.EndAtMaxTime | Assets/CharacterAndCameraController/Scripts/PlayerCharacter.cs:78-79 | The result is jumping iff the jump was in progress and below the maximum raise time, so a jump never survives past the maximum. Only the jump flag may change. |
| Player.GroundMove | Assets/CharacterAndCameraController/Scripts/PlayerCharacter.cs:61 | The ground displacement is deltaTime * (speed * direction - gravity * up), component by component. |
| Player.JumpHeightAt | Assets/CharacterAndCameraController/Scripts/PlayerCharacter.cs:146-147 | At raise time 0 the height is the take-off height plus jumpHeight times the curve at 0. At the maximum raise time it uses the curve at 1. With a curve starting at 0, the jump starts at the take-off height. |
| Player.JumpMove | Assets/CharacterAndCameraController/Scripts/PlayerCharacter.cs:150 | The jump displacement is the direction sped up by deltaTime, speed and the jump multiplier, plus a vertical part that brings the height `y` to the target height. |
| Player.FrameMove | Assets/CharacterAndCameraController/Scripts/PlayerCharacter.cs:57-62 | A ground frame falls by deltaTime * (speed * direction.y - gravity). A jumping frame with horizontal input lands exactly on the jump height at the advanced raise time, and moves forward at the jump multiplier. |
| Player.UpdateStepRules | Assets/CharacterAndCameraController/Scripts/PlayerCharacter.cs:49-80 | Update never changes the air time. When not jumping, a jump starts iff jumping is enabled, Jump is pressed, the air time is below the coyote time and the maximum raise time is positive. The take-off height is recorded. A jump continues while held (or before the minimum time) and before the maximum time. It ends on release after the minimum. The invariant is preserved. |
| Player.FixedStep | Assets/CharacterAndCameraController/Scripts/PlayerCharacter.cs:82-103 | It does nothing when jumping is disabled. A ceiling hit ends a jump and keeps the air time. Otherwise the ground resets the air time to 0, or the air time grows by the step time. The jump timer and take-off height are untouched. The invariant is preserved. |
| Player.VerticalTargets | Assets/CharacterAndCameraController/Scripts/PlayerCharacter.cs:143-151 | With horizontal input, a jumping frame's move lands exactly on the jump height and is sped up by the jump multiplier. A ground frame falls by gravity * deltaTime. |
| Player.JumpCurveSampledInUnitRange | Assets/CharacterAndCameraController/Scripts/PlayerCharacter.cs:145-147 | For a jumping frame that does not pass the maximum raise time, the curve is sampled at a fraction in [0, 1], and the division by the maximum raise time is defined. |
| Player.CrossingFrameSamplesPastOne | Assets/CharacterAndCameraController/Scripts/PlayerCharacter.cs:145-147 | The frame that carries the raise timer past a positive maximum raise time samples the curve at a fraction above 1, so the last frame of a timed-out jump evaluates the curve past its end. |
| Player.DefaultJumpStarts | Assets/CharacterAndCameraController/Scripts/PlayerCharacter.cs:25-32 | With the default settings (coyote time 0.1 s, maximum raise time 0.35 s), a press on the ground or within 0.1 s of leaving it starts a jump from the current height with the timer at 0. |
| Player.NoJumpAfterCoyoteTime | Assets/CharacterAndCameraController/Scripts/PlayerCharacter.cs:68-71 | Once off the ground for the coyote time without jumping, no jump starts until a physics step finds the ground, and the air time never decreases. |
| Player.AirTimeCountsPhysicsSteps | Assets/CharacterAndCameraController/Scripts/PlayerCharacter.cs:98-101 | Without ground or ceiling contact, the air time grows by exactly the total time of the physics steps. |
| Player.PlayerCharacter.constructor | Assets/CharacterAndCameraController/Scripts/PlayerCharacter.cs:35-46 | Starts not jumping with zero timers and at walking speed, so the invariant holds. |
| Player.PlayerCharacter.Update | Assets/CharacterAndCameraController/Scripts/PlayerCharacter.cs:49-80 | Chooses run or walk speed. Faces the camera direction, or the movement direction unless it is zero. Asks for FrameMove's displacement. The jump state becomes UpdateStep of the old one. The invariant is kept. |
| Player.PlayerCharacter.JumpZone | Assets/CharacterAndCameraController/Scripts/PlayerCharacter.cs:64-79 | It does nothing when jumping is disabled. Otherwise it applies the press/release rule, then the time-out at the maximum raise time. |
| Player.PlayerCharacter.FixedUpdate | Assets/CharacterAndCameraController/Scripts/PlayerCharacter.cs:82-103 | The jump state becomes FixedStep of the old one. The invariant is kept. |
| Player.PlayerCharacter.Facing | Assets/CharacterAndCameraController/Scripts/PlayerCharacter.cs:105-117 | Faces the camera's forward vector for CameraDirection. Otherwise faces the movement direction, and keeps the old facing when that direction is zero. |
| Player.PlayerCharacter.Jump | Assets/CharacterAndCameraController/Scripts/PlayerCharacter.cs:133-139 | Starts a jump: jumping, timer at 0, take-off height recorded. |
| Player.PlayerCharacter.Jumping | Assets/CharacterAndCameraController/Scripts/PlayerCharacter.cs:143-151 | Advances the raise timer by the frame time. Asks for a move toward the take-off height plus jumpHeight times the curve at the raise fraction, sped up forward by the jump multiplier. |

## Left out

- **Engine calls become inputs.** `Input.GetAxis`/`GetButton`/`GetButtonDown`, `Time.deltaTime`, `Physics.CheckSphere` and `Physics.Linecast` are inputs, not engine calls.
- **Layer masks and the 0.1 sphere radius** are not modelled. They only shape those tests.
- **CalculateDirection** (`PlayerCharacter.cs:119-130`): `ProjectOnPlane` and `normalized` are not modelled. The movement direction and the projected camera forward vector are inputs.
- **The character controller's move is not carried out.** `characterController.Move` only records the requested displacement. Collision response is engine code. The height before the move (`y`) and after it (`yAfterMove`, read by `Jump`) are inputs.
- **`AnimationCurve.Evaluate`** is an arbitrary function, so nothing is claimed about the jump's shape.
- **`Quaternion.Euler`** is not modelled. The rig's rotation is stored as the Euler angles it is built from, and the engine's normalisation of `eulerAngles` into [0, 360) is not modelled either.
- **`TransformPoint` and `InverseTransformPoint`**: `TransformPoint(0, 0, 0.3)` becomes the `nudge` offset parameter. The camera's position in the rig's frame after a blocked zoom-in is the `cameraInRoot` parameter.
- **Start is not modelled separately.** `GetComponent`, `GetComponentInChildren` and `transform.parent = null` in Start are scene wiring. The followed target's position is an input to each frame.
- **Callback order is not modelled.** The engine's interleaving of Update, FixedUpdate and LateUpdate is free in the traces (`Run` over any sequence of frames). Concurrency does not arise.
- **IEEE floats are not modelled.** All arithmetic is over `real`: no rounding, overflow, infinities or NaN.
- **Zero-width ranges are excluded.** Remap: a zero-width input range is excluded by a precondition (the engine would return an infinity or NaN). Remap01 and JumpHeightAt have the same precondition, and the invariant `Consistent` shows that jumping frames meet it.
- **Inspector fields are constants** of the classes. Their defaults are `DEFAULT_TUNING`, `DEFAULT_PITCH_LIMITS`, `DEFAULT_ZOOM_LIMITS` and `DEFAULT_Y_LERP`. `Mathf.Min(1, 0.2f)` is the constant 0.2.
- **Time steps are non-negative.** Player.PlayerCharacter.Update and Player.PlayerCharacter.FixedUpdate require a non-negative frame time, which keeps the air time non-negative.
- Player.PlayerCharacter.JumpZone is lines 64-79 of `Update` split out as its own method. The source has no such method.
- **The squash display is modelled as written.** Squasheable.LateUpdate multiplies the local scale, as the source does. The display the comments describe (IntendedScale) is modelled only as functions and lemmas, not as a class.
- Camera.CameraController.CameraRootRotation: turning the root also swings its child camera around it in world space. That rotation is not modelled, so the method promises nothing about the camera's world position. This does not affect Camera.CameraController.Update, where CameraRelocation sets the camera's position later in the same frame.
- SquashStretch.Squasheable.SetSquashY is the source's `setSquashY`, renamed to match `SetSquashX`.
- **CharController.cs is not part of this model.**

## Findings

| source | as written | input that shows it | evidently intended | confidence | as-written member | corrected member |
|---|---|---|---|---|---|---|
| Assets/_General/Scripts/ISquasheable.cs:13-16 | LateUpdate multiplies the scale shown the frame before by the factors, every frame, so distortions compound and are never undone | `SetSquashX(2.0)` then any number of LateUpdates: the factors return toward 1 but `localScale.y` is 0 from the first frame on | a brief squash that "comes back to 1": the factors applied to the object's own (base) scale | not executed | SquashStretch.SquashNeverRecovers | SquashStretch.IntendedScaleSettles |
