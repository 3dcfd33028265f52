# Nebulla character controllers, in Dafny

This project models the per-tick logic of the Nebulla prototype's two
character controllers (third-person and first-person) and of its gravity
zone. It then proves properties of that model.

What is modelled:

- the deadzone-gated movement and speed selection;
- the Grounded/Airborne jump-and-gravity state machine with its two timeouts;
- the accumulate-and-clamp camera angles;
- the third-person controller's animator decision table;
- the zone that saves the first-person player's jump height and gravity into its own `old*` fields, then overwrites the player's with the zone's values (the zone's own values stay as they were).

Layout:

- `Angles` holds `ClampAngle`.
- `Locomotion` holds the planar input, the deadzone, the timers and `JumpAndGravity`.
- Both controllers contain identical copies of `ClampAngle` and `JumpAndGravity`, so each is defined once as a pure function.
- `CameraRig` holds the per-tick look steps and their runs over many ticks.
- `AnimationDriver` holds the animator table. The animator is modelled as the ordered list of `SetBool`/`SetFloat` writes it receives.
- `ThirdPerson.ThirdPersonController`, `FirstPerson.FirstPersonController` and `GravityZone.GravityLevel` are classes with the source's fields. Most source methods become one method of the same name. `GroundCheck` becomes the `grounded` parameter of `Update`. The third-person N-key block of `Update` is the method `ToggleCamera`. The third-person `Animation` is split into the helpers `SetBool`, `SetFloat`, `SignParameters` and `AxisParameters`, one per kind of animator call. The first-person class has no `Awake` and no `LateUpdate` (see "## Left out"). Every method's `modifies` clause names exactly the fields that method writes, and its `ensures` ties the new state to the pure functions.

Engine services become method parameters:

- the ground probe (`Physics.CheckSphere`) → `grounded`;
- the input axes and keys;
- `Time.deltaTime` → `dt`;
- the value `Mathf.Sqrt` returns → `launch`. Where it is used, it is required to be the square root (`IsSqrt`).
- the angle `Mathf.SmoothDampAngle` returns, and the velocity it leaves behind → `facingYaw`, `dampVelocity`;
- the rotated forward vector → `forward`. Both controllers' `Move` and `Update` require it to be a unit vector in the horizontal plane, as `Quaternion.Euler(0, a, 0) * Vector3.forward` always is.

Numbers are reals. A magnitude compared with 0.05 is stated as a squared length compared with 0.0025.

The code behaves as follows where its names suggest otherwise:

- `_terminalVelocity` (53) only stops gravity being added while the vertical velocity is at least 53. It does not limit fall speed: a fall keeps accelerating (`Locomotion.FallSpeedNotCapped`).
- In the first-person `Move`, an input that is nonzero but inside the deadzone keeps the raw input vector. The target speed then stays MoveSpeed or SprintSpeed. It drops to 0 only when the vector's length is exactly 0.
- The third-person camera yaw (`_rotationVelocity`) is clamped with BottomClamp/TopClamp. RightClamp/LeftClamp play no part (`CameraRig.OrbitYawIgnoresSideClamps`).

## Model

| member | source | states |
|---|---|---|
| Angles.Clamp | Nebulla/Assets/Scripts/Character/ThirdPersonController.cs:167 | Mathf.Clamp: for ordered bounds the result lies within them; a value already in range is returned unchanged; the result is always the value or one of the bounds |
| Angles.WrapOnce | Nebulla/Assets/Scripts/Character/ThirdPersonController.cs:165-166 | the two guarded ±360 steps move an angle by at most one turn, leave angles within ±360 alone, and bring angles within ±720 into ±360 |
| Angles.ClampAngle | Nebulla/Assets/Scripts/Character/ThirdPersonController.cs:163-168 | the result lies within [min, max]; an angle already within the bounds and within ±360 is unchanged |
| Angles.ClampAngleIdempotent | Nebulla/Assets/Scripts/Character/FirstPersonController.cs:129-134 | clamping an already clamped angle again changes nothing, when the bounds lie within ±360 |
| Angles.ClampAngleNotPeriodic | Nebulla/Assets/Scripts/Character/ThirdPersonController.cs:163-168 | the clamp works on the raw number, not the direction: 350 clamps to 90 while -10 (the same direction) stays -10 |
| Locomotion.SqrMagnitude | Nebulla/Assets/Scripts/Character/FirstPersonController.cs:152 | the squared length used for the magnitude tests is never negative |
| Locomotion.PlanarInput | Nebulla/Assets/Scripts/Character/FirstPersonController.cs:149 | the input vector lies in the horizontal plane and is the zero vector exactly when both axes are 0 |
| Locomotion.SelectSpeed | Nebulla/Assets/Scripts/Character/FirstPersonController.cs:150 | SprintSpeed while shift is held, MoveSpeed otherwise |
| Locomotion.BeyondDeadzone | Nebulla/Assets/Scripts/Character/ThirdPersonController.cs:191 | magnitude > 0.05: a vector beyond the deadzone has positive length, and every horizontal unit vector is beyond it |
| Locomotion.Countdown | Nebulla/Assets/Scripts/Character/ThirdPersonController.cs:223-235 | a timeout is decreased by dt only while it is >= 0; a negative timeout stays put; with dt >= 0 it never grows |
| Locomotion.ExpiredStaysPut | Nebulla/Assets/Scripts/Character/ThirdPersonController.cs:223-226 | once a timeout has gone negative, no sequence of ticks changes it |
| Locomotion.CountdownExpires | Nebulla/Assets/Scripts/Character/ThirdPersonController.cs:223-226 | after ticks whose durations add up to at least the timeout's value, the timeout is <= 0 |
| Locomotion.CountdownBoundedBelow | Nebulla/Assets/Scripts/Character/ThirdPersonController.cs:232-235 | if no tick is longer than b, a timeout that starts at or above -b never drops below -b |
| Locomotion.CanLaunch | Nebulla/Assets/Scripts/Character/ThirdPersonController.cs:206-217 | the launch condition: grounded, the jump key went down this tick, and the jump timeout is <= 0 (a definition; its consequences are in LaunchSpeedSquared and JumpBecomesAvailable) |
| Locomotion.BeforeGravity | Nebulla/Assets/Scripts/Character/ThirdPersonController.cs:206-221 | the velocity after the grounded branch: unchanged airborne, the launch when CanLaunch holds, otherwise -2 for a falling character (a definition; its properties are in GroundedSnap, LaunchSpeedSquared and NoRiseWithoutLaunch) |
| Locomotion.ApplyGravity | Nebulla/Assets/Scripts/Character/ThirdPersonController.cs:237-240 | Gravity*dt is added exactly when the velocity is below the terminal velocity 53; otherwise the velocity is unchanged |
| Locomotion.JumpAndGravity | Nebulla/Assets/Scripts/Character/ThirdPersonController.cs:204-241 | grounded: the fall timeout is reset and the jump timeout counts down; airborne: the jump timeout is reset and the fall timeout counts down; the velocity is the snapped-or-launched velocity after gravity |
| Locomotion.GroundedSnap | Nebulla/Assets/Scripts/Character/ThirdPersonController.cs:206-213 | a grounded, falling character with no launch is held at -2 before gravity, and its fall timeout is reset |
| Locomotion.LaunchSpeedSquared | Nebulla/Assets/Scripts/Character/ThirdPersonController.cs:215-221 | the launch velocity is >= 0 and its square is JumpHeight * -2 * Gravity |
| Locomotion.HeightGap | Nebulla/Assets/Scripts/Character/ThirdPersonController.cs:219 | with the launch speed Mathf.Sqrt(JumpHeight * -2 * Gravity), the projectile's height falls short of JumpHeight by -Gravity/2 times the squared time from the apex |
| Locomotion.ApexHeight | Nebulla/Assets/Scripts/Character/ThirdPersonController.cs:219 | a body launched at that speed under constant gravity reaches exactly JumpHeight at its apex, time launch / -Gravity |
| Locomotion.HeightBounded | Nebulla/Assets/Scripts/Character/ThirdPersonController.cs:219 | at no time does that body rise above JumpHeight |
| Locomotion.NoRiseWithoutLaunch | Nebulla/Assets/Scripts/Character/ThirdPersonController.cs:204-241 | without a launch, with gravity down and dt >= 0, the velocity never rises above the larger of its old value and -2 |
| Locomotion.FallSpeedNotCapped | Nebulla/Assets/Scripts/Character/ThirdPersonController.cs:237-240 | an airborne velocity of -100 becomes -115 after one second of gravity -15: the 53 bound does not cap falling |
| Locomotion.JumpTimeoutWhileGrounded | Nebulla/Assets/Scripts/Character/ThirdPersonController.cs:206-226 | while grounded over a run of ticks, the jump timeout is the plain countdown of the tick durations |
| Locomotion.FallTimeoutWhileAirborne | Nebulla/Assets/Scripts/Character/ThirdPersonController.cs:228-236 | while airborne over a run of ticks, the fall timeout is the plain countdown of the tick durations |
| Locomotion.JumpBecomesAvailable | Nebulla/Assets/Scripts/Character/ThirdPersonController.cs:215-226 | after standing on the ground for at least the remaining jump timeout, a jump press launches |
| Locomotion.NoRiseOverRun | Nebulla/Assets/Scripts/Character/ThirdPersonController.cs:204-241 | over any run without jump presses, with gravity down and dt >= 0, the velocity never rises above the larger of its start and -2 |
| CameraRig.PitchDelta | Nebulla/Assets/Scripts/Character/ThirdPersonController.cs:151 | the pitch amount of one tick, -mouseY * RotationSpeed * deltaTime, for both controllers (FirstPersonController.cs:116) |
| CameraRig.YawDelta | Nebulla/Assets/Scripts/Character/ThirdPersonController.cs:152 | the yaw amount of one tick, mouseX * RotationSpeed * deltaTime, for both controllers (FirstPersonController.cs:117) |
| CameraRig.OrbitStep | Nebulla/Assets/Scripts/Character/ThirdPersonController.cs:151-154 | pitch and yaw both end within [BottomClamp, TopClamp]; each is the old angle plus the tick's look amount when that sum is in range |
| CameraRig.OrbitRunWithin | Nebulla/Assets/Scripts/Character/ThirdPersonController.cs:151-154 | after any sequence of look ticks, both camera angles lie within [BottomClamp, TopClamp] |
| CameraRig.OrbitYawIgnoresSideClamps | Nebulla/Assets/Scripts/Character/ThirdPersonController.cs:152-154 | a yaw of 60 degrees, beyond RightClamp 30, is kept: the yaw is held to the pitch bounds |
| CameraRig.LookStep | Nebulla/Assets/Scripts/Character/FirstPersonController.cs:116-123 | the pitch ends within its bounds, and is the accumulated value when in range; _rotationVelocity is this tick's yaw amount; the body turns by exactly that amount |
| CameraRig.LookRunPitchWithin | Nebulla/Assets/Scripts/Character/FirstPersonController.cs:116-118 | after any sequence of look ticks, the pitch lies within [BottomClamp, TopClamp] |
| CameraRig.LookRunBodyYaw | Nebulla/Assets/Scripts/Character/FirstPersonController.cs:117-123 | the body's yaw turns by exactly the total yaw input, unclamped |
| CameraRig.LookRunRotationVelocity | Nebulla/Assets/Scripts/Character/FirstPersonController.cs:117 | _rotationVelocity is overwritten, not accumulated: after a run it holds only the last tick's yaw amount |
| AnimationDriver.SignWrites | Nebulla/Assets/Scripts/Character/ThirdPersonController.cs:249-258 | one axis's writes: a positive value sets the axis parameter to 1, a negative one to 0, each followed by the blend; 0 writes nothing (a definition; its properties are in AxisWritesShape and WalkBlend) |
| AnimationDriver.AxisWrites | Nebulla/Assets/Scripts/Character/ThirdPersonController.cs:249-269 | a gait's writes, deltaX's (blend 0) before deltaY's (blend 1) (a definition; its properties are in AxisWritesShape and WalkBlend) |
| AnimationDriver.AnimationWrites | Nebulla/Assets/Scripts/Character/ThirdPersonController.cs:243-312 | the decision table as the ordered list of animator writes (a definition; its rows are proved in WalkRow, SprintRow, ClearRow, NoRow, WalkBlend and MovingGait) |
| AnimationDriver.AxisWritesShape | Nebulla/Assets/Scripts/Character/ThirdPersonController.cs:249-269 | the sign writes are float writes to the gait's own three parameters; an axis that is exactly 0 writes none of its own |
| AnimationDriver.WalkRow | Nebulla/Assets/Scripts/Character/ThirdPersonController.cs:245-248 | walk row: isRun is cleared and isWalk set first, and both end that way |
| AnimationDriver.SprintRow | Nebulla/Assets/Scripts/Character/ThirdPersonController.cs:271-273 | sprint row: isRun is set, and isWalk is not written, so it keeps whatever it was |
| AnimationDriver.ClearRow | Nebulla/Assets/Scripts/Character/ThirdPersonController.cs:306-311 | zero movement or airborne: exactly isWalk := false then isRun := false |
| AnimationDriver.NoRow | Nebulla/Assets/Scripts/Character/ThirdPersonController.cs:243-312 | grounded and moving at a target speed that is neither MoveSpeed nor SprintSpeed: nothing is written |
| AnimationDriver.ZeroAxisWritesNothing | Nebulla/Assets/Scripts/Character/ThirdPersonController.cs:249-294 | an axis of exactly 0 writes no axis parameter of its own in either gait; with both 0 only flags are written |
| AnimationDriver.WalkBlend | Nebulla/Assets/Scripts/Character/ThirdPersonController.cs:249-269 | walking: "Walking X" ends as the sign of deltaX; the shared "Walking" blend ends 1 whenever deltaY is nonzero, since the Y writes come last |
| AnimationDriver.MovingGait | Nebulla/Assets/Scripts/Character/ThirdPersonController.cs:189-273 | after a grounded move beyond the deadzone, the walk row fires without shift and the sprint row with it, unless the two speeds are equal |
| ThirdPerson.ThirdPersonController.constructor | Nebulla/Assets/Scripts/Character/ThirdPersonController.cs:9-49 | the field initialisers, with the invariant established |
| ThirdPerson.ThirdPersonController.Awake | Nebulla/Assets/Scripts/Character/ThirdPersonController.cs:99-100 | the free-look rig ends inactive, whichever branch runs |
| ThirdPerson.ThirdPersonController.Start | Nebulla/Assets/Scripts/Character/ThirdPersonController.cs:108-110 | both timeouts are reset to their configured values |
| ThirdPerson.ThirdPersonController.Move | Nebulla/Assets/Scripts/Character/ThirdPersonController.cs:181-200 | airborne: nothing but _speed changes, and it keeps the last target speed; grounded: the axes are stored and the speed is selected; beyond the deadzone the body faces the damped angle and moves along the horizontal unit forward vector; inside it the raw input is kept |
| ThirdPerson.ThirdPersonController.JumpAndGravity | Nebulla/Assets/Scripts/Character/ThirdPersonController.cs:204-241 | the vertical fields end as Locomotion.JumpAndGravity of their old values |
| ThirdPerson.ThirdPersonController.ToggleCamera | Nebulla/Assets/Scripts/Character/ThirdPersonController.cs:122-131 | N flips the free-look rig; switching it off sets RotationSpeed 40, switching it on sets 0.76; without N nothing changes |
| ThirdPerson.ThirdPersonController.Update | Nebulla/Assets/Scripts/Character/ThirdPersonController.cs:116-132 | ground probe, then Move, then JumpAndGravity, then the N toggle: the new state carries Move's results (axes, target speed, movement, facing, damping velocity), the vertical fields as Locomotion.JumpAndGravity, and the rig flag with RotationSpeed 40 or 0.76 after N, with the invariant kept |
| ThirdPerson.ThirdPersonController.CameraRotation | Nebulla/Assets/Scripts/Character/ThirdPersonController.cs:146-155 | the camera angles end as CameraRig.OrbitStep of their old values, and stay within the clamps |
| ThirdPerson.ThirdPersonController.SetBool | Nebulla/Assets/Scripts/Character/ThirdPersonController.cs:247 | one _animator.SetBool call appends exactly that write to the animator log |
| ThirdPerson.ThirdPersonController.SetFloat | Nebulla/Assets/Scripts/Character/ThirdPersonController.cs:251 | one _animator.SetFloat call appends exactly that write to the animator log |
| ThirdPerson.ThirdPersonController.SignParameters | Nebulla/Assets/Scripts/Character/ThirdPersonController.cs:249-258 | appends exactly one axis's SignWrites |
| ThirdPerson.ThirdPersonController.AxisParameters | Nebulla/Assets/Scripts/Character/ThirdPersonController.cs:249-269 | appends exactly the gait's sign writes, deltaX's before deltaY's |
| ThirdPerson.ThirdPersonController.Animation | Nebulla/Assets/Scripts/Character/ThirdPersonController.cs:243-312 | appends exactly the decision table's writes for the current fields to the animator log |
| ThirdPerson.ThirdPersonController.LateUpdate | Nebulla/Assets/Scripts/Character/ThirdPersonController.cs:134-138 | CameraRotation, then Animation on the updated state |
| FirstPerson.FirstPersonController.constructor | Nebulla/Assets/Scripts/Character/FirstPersonController.cs:10-46 | the field initialisers, with the invariant established |
| FirstPerson.FirstPersonController.Start | Nebulla/Assets/Scripts/Character/FirstPersonController.cs:84-91 | both timeouts are reset to their configured values |
| FirstPerson.FirstPersonController.Move | Nebulla/Assets/Scripts/Character/FirstPersonController.cs:147-162 | beyond the deadzone: the body faces the damped angle, _rotationVelocity takes the damping velocity, the movement is forward and the speed is the selected one; inside it: the raw input is kept; the speed is 0 exactly when the final movement has zero length |
| FirstPerson.FirstPersonController.JumpAndGravity | Nebulla/Assets/Scripts/Character/FirstPersonController.cs:166-203 | the vertical fields end as Locomotion.JumpAndGravity of their old values |
| FirstPerson.FirstPersonController.Update | Nebulla/Assets/Scripts/Character/FirstPersonController.cs:93-98 | ground probe, then Move, then JumpAndGravity: the returned movement, body yaw, _rotationVelocity and speed as Move gives them, and the vertical fields as Locomotion.JumpAndGravity, with the invariant kept |
| FirstPerson.FirstPersonController.CameraRotation | Nebulla/Assets/Scripts/Character/FirstPersonController.cs:111-123 | pitch, _rotationVelocity and body yaw end as CameraRig.LookStep of their old values |
| GravityZone.GravityLevel.constructor | Nebulla/Assets/Scripts/GravityLevel.cs:7-15 | the zone's values and saved values start at 1.2 and -15 |
| GravityZone.GravityLevel.OnTriggerEnter | Nebulla/Assets/Scripts/GravityLevel.cs:17-27 | a non-Player object changes nothing; a Player's jump height and gravity are saved, then replaced by the zone's; the zone's own values never change |
| GravityZone.EnterTwice | Nebulla/Assets/Scripts/GravityLevel.cs:17-27 | entering twice leaves the player with the zone's values, and the saved values become the zone's own: the player's originals are lost |
| GravityZone.LowGravityScenario | Nebulla/Assets/Scripts/GravityLevel.cs:19-25 | a default player entering a (2, -20) zone has its defaults (1.2, -15) saved, and its launch speed squared becomes 80 |

## Left out

- Engine lifecycle: the model does not call Awake, Start, Update and LateUpdate itself. Their order is modelled only as the order of the methods' own steps.
- The ground probe: `Physics.CheckSphere` (with GroundedOffset, GroundedRadius, GroundLayers) is an engine query; its result is the `grounded` parameter.
- Input: `Input.GetAxis`, `GetAxisRaw`, `GetKey` and `GetKeyDown` are engine queries; their results are parameters.
- Trigonometry and damping: `Mathf.Atan2`, the main camera's yaw, `Mathf.SmoothDampAngle`, `Quaternion.Euler` and vector rotation are library calls the model does not interpret; their results are parameters. `forward` is required to be a horizontal unit vector.
- `CharacterController.Move` and `normalized`: the engine moves the body. The model keeps the vector and speed handed to it (`_movement` / the returned vector, `_speed`), not the displacement.
- Cinemachine and transforms: the `CinemachineCameraTarget.localRotation` write, the head-target ray placement (`ScreenPointToRay`), the camera lookups by tag, and the cursor lock are left out, as is `eulerAngles` wrapping to [0, 360). The body yaw is kept as an unwrapped real.
- Gizmos and `OnValidate` (empty) have no behaviour to model. SpeedChangeRate is never read. GroundedOffset and GroundedRadius are read only by the ground probe, which is left out above.
- The first-person LateUpdate only calls CameraRotation, so it is modelled by `FirstPerson.FirstPersonController.CameraRotation`.
- The first-person Awake only looks up the camera objects by tag, which is left out with the other lookups.
- Floating point: the values are reals. Single-precision rounding, NaN and infinities are not modelled, so exact comparisons with the literal speeds (the animator's `_targetSpeed == MoveSpeed`) hold exactly.
- A Player-tagged object without a FirstPersonController throws in the source. The model always passes a controller.
- Locomotion.SqrMagnitude: only non-negativity is stated, not that the length is positive exactly for a nonzero vector. Zero length is written as "not positive".
- Locomotion.Height: the jump-height lemmas are about the continuous projectile under constant gravity, which the launch formula is derived from. The per-frame integration of the vertical velocity is not summed into a position.
