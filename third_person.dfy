/** The third-person controller: its tunable and private fields, and one
    method per piece of per-tick logic. Engine inputs (the ground probe,
    input axes and keys, Time.deltaTime) and the results of library calls
    the model does not interpret (Mathf.Sqrt, Mathf.SmoothDampAngle, the
    rotated forward vector) are method parameters. */
module ThirdPerson {
  import opened Angles
  import opened Locomotion
  import opened CameraRig
  import opened AnimationDriver

  /** RotationSpeed once N has switched the free-look rig off. */
  const AimRotationSpeed: real := 40.0

  /** RotationSpeed once N has switched the free-look rig on. */
  const FreeLookRotationSpeed: real := 0.76

  class ThirdPersonController {
    // Player tunables
    var MoveSpeed: real
    var SprintSpeed: real
    var RotationSpeed: real
    var JumpHeight: real
    var Gravity: real
    var JumpTimeout: real
    var FallTimeout: real

    // Ground probe result
    var Grounded: bool

    // Camera clamps
    var TopClamp: real
    var BottomClamp: real
    var RightClamp: real
    var LeftClamp: real

    // Cinemachine
    var cinemachineTargetPitch: real
    var virtualCameraActive: bool  // _virtualCamera.gameObject.active
    var freeCameraActive: bool     // _freeCamera.gameObject.active

    // Player state
    var speed: real
    var rotationVelocity: real     // the accumulated camera yaw
    var smoothVelocity: real       // SmoothDampAngle's velocity argument
    var verticalVelocity: real
    var targetSpeed: real
    var movement: Vec3
    var deltaX: real               // the Vertical axis
    var deltaY: real               // the Horizontal axis
    var mouseX: real
    var mouseY: real
    var jumpTimeoutDelta: real
    var fallTimeoutDelta: real
    var bodyYaw: real              // transform.eulerAngles.y

    /** The parameter writes sent to the animator, oldest first. */
    var animatorWrites: seq<Write>

    /** Clamps that make sense, camera angles within them, and _speed
        following _targetSpeed. */
    ghost predicate Valid()
      reads this
    {
      BottomClamp <= TopClamp &&
      Within(cinemachineTargetPitch, BottomClamp, TopClamp) &&
      Within(rotationVelocity, BottomClamp, TopClamp) &&
      speed == targetSpeed
    }

    function VerticalState(): Vertical
      reads this
    {
      Vertical(verticalVelocity, jumpTimeoutDelta, fallTimeoutDelta)
    }

    function Settings(): JumpSettings
      reads this
    {
      JumpSettings(JumpHeight, Gravity, JumpTimeout, FallTimeout)
    }

    function CameraOrbit(): Orbit
      reads this
    {
      Orbit(cinemachineTargetPitch, rotationVelocity)
    }

    function CurrentPose(): Pose
      reads this
    {
      Pose(targetSpeed, MoveSpeed, SprintSpeed, Grounded, movement, deltaX, deltaY)
    }

    /** The field initialisers; whether the two camera rigs start active is
        a property of the scene. */
    constructor (virtualActive: bool, freeActive: bool)
      ensures Valid()
      ensures MoveSpeed == 4.0 && SprintSpeed == 6.0 && RotationSpeed == 0.56
      ensures JumpHeight == 1.2 && Gravity == -15.0 && JumpTimeout == 0.1 && FallTimeout == 0.15
      ensures Grounded
      ensures TopClamp == 90.0 && BottomClamp == -90.0 && RightClamp == 30.0 && LeftClamp == -30.0
      ensures virtualCameraActive == virtualActive && freeCameraActive == freeActive
      ensures VerticalState() == Vertical(0.0, 0.0, 0.0) && CameraOrbit() == Orbit(0.0, 0.0)
      ensures speed == 0.0 && targetSpeed == 0.0 && movement == Zero && animatorWrites == []
    {
      MoveSpeed, SprintSpeed, RotationSpeed := 4.0, 6.0, 0.56;
      JumpHeight, Gravity := 1.2, -15.0;
      JumpTimeout, FallTimeout := 0.1, 0.15;
      Grounded := true;
      TopClamp, BottomClamp, RightClamp, LeftClamp := 90.0, -90.0, 30.0, -30.0;
      cinemachineTargetPitch := 0.0;
      virtualCameraActive, freeCameraActive := virtualActive, freeActive;
      speed, rotationVelocity, smoothVelocity, verticalVelocity, targetSpeed := 0.0, 0.0, 0.0, 0.0, 0.0;
      movement := Zero;
      deltaX, deltaY, mouseX, mouseY := 0.0, 0.0, 0.0, 0.0;
      jumpTimeoutDelta, fallTimeoutDelta := 0.0, 0.0;
      bodyYaw := 0.0;
      animatorWrites := [];
    }

    /** Awake's rig set-up: the free-look rig is switched off on both branches. */
    method Awake()
      modifies this`freeCameraActive
      ensures !freeCameraActive
    {
      if virtualCameraActive {
        freeCameraActive := false;
      } else {
        freeCameraActive := false;
      }
    }

    /** Start resets the two timeouts. */
    method Start()
      modifies this`jumpTimeoutDelta, this`fallTimeoutDelta
      ensures jumpTimeoutDelta == JumpTimeout && fallTimeoutDelta == FallTimeout
    {
      jumpTimeoutDelta := JumpTimeout;
      fallTimeoutDelta := FallTimeout;
    }

    /** Move's gating and state. Input is read only while grounded; `forward`
        is Quaternion.Euler(0, rotationAngle, 0) * Vector3.forward and
        `facingYaw`, `dampVelocity` are what Mathf.SmoothDampAngle returns
        and leaves in its velocity argument. */
    method Move(horizontal: real, vertical: real, sprintHeld: bool,
                facingYaw: real, dampVelocity: real, forward: Vec3)
      requires Valid()
      requires IsPlanarUnit(forward)
      modifies this`deltaX, this`deltaY, this`movement, this`targetSpeed, this`speed,
               this`bodyYaw, this`smoothVelocity
      ensures Valid()
      ensures speed == targetSpeed
      ensures !Grounded ==> movement == old(movement) && targetSpeed == old(targetSpeed)
      ensures !Grounded ==> deltaX == old(deltaX) && deltaY == old(deltaY)
      ensures !Grounded ==> bodyYaw == old(bodyYaw) && smoothVelocity == old(smoothVelocity)
      ensures Grounded ==> deltaY == horizontal && deltaX == vertical
      ensures Grounded ==> targetSpeed == SelectSpeed(sprintHeld, MoveSpeed, SprintSpeed)
      ensures Grounded && BeyondDeadzone(PlanarInput(horizontal, vertical)) ==>
                movement == forward && IsPlanarUnit(movement) &&
                bodyYaw == facingYaw && smoothVelocity == dampVelocity
      ensures Grounded && !BeyondDeadzone(PlanarInput(horizontal, vertical)) ==>
                movement == PlanarInput(horizontal, vertical) &&
                bodyYaw == old(bodyYaw) && smoothVelocity == old(smoothVelocity)
    {
      if Grounded {
        deltaY := horizontal;
        deltaX := vertical;
        movement := Vec3(deltaY, 0.0, deltaX);
        targetSpeed := if sprintHeld then SprintSpeed else MoveSpeed;
        if BeyondDeadzone(movement) {
          bodyYaw := facingYaw;
          smoothVelocity := dampVelocity;
          movement := forward;
        }
      }
      speed := targetSpeed;
    }

    /** JumpAndGravity on the controller's fields. `launch` stands for
        Mathf.Sqrt(JumpHeight * -2 * Gravity); it is used, and must be that
        root, only when the launch condition holds. */
    method JumpAndGravity(jumpPressed: bool, launch: real, dt: real)
      requires CanLaunch(Grounded, jumpPressed, VerticalState()) ==> IsSqrt(launch, LaunchArgument(Settings()))
      modifies this`verticalVelocity, this`jumpTimeoutDelta, this`fallTimeoutDelta
      ensures VerticalState() == Locomotion.JumpAndGravity(old(VerticalState()), Settings(), Grounded, jumpPressed, launch, dt)
    {
      if Grounded {
        fallTimeoutDelta := FallTimeout;
        if verticalVelocity < 0.0 {
          verticalVelocity := StickToGround;
        }
        if jumpPressed {
          if jumpTimeoutDelta <= 0.0 {
            verticalVelocity := launch;
          }
        }
        if jumpTimeoutDelta >= 0.0 {
          jumpTimeoutDelta := jumpTimeoutDelta - dt;
        }
      } else {
        jumpTimeoutDelta := JumpTimeout;
        if fallTimeoutDelta >= 0.0 {
          fallTimeoutDelta := fallTimeoutDelta - dt;
        }
      }
      if verticalVelocity < TerminalVelocity {
        verticalVelocity := verticalVelocity + Gravity * dt;
      }
    }

    /** The N-key part of Update: N switches the free-look rig and sets the
        rotation speed that goes with the new rig. */
    method ToggleCamera(nPressed: bool)
      modifies this`freeCameraActive, this`RotationSpeed
      ensures nPressed && old(freeCameraActive) ==> !freeCameraActive && RotationSpeed == AimRotationSpeed
      ensures nPressed && !old(freeCameraActive) ==> freeCameraActive && RotationSpeed == FreeLookRotationSpeed
      ensures !nPressed ==> freeCameraActive == old(freeCameraActive) && RotationSpeed == old(RotationSpeed)
    {
      if nPressed && freeCameraActive {
        freeCameraActive := false;
        RotationSpeed := AimRotationSpeed;
      } else if nPressed && !freeCameraActive {
        freeCameraActive := true;
        RotationSpeed := FreeLookRotationSpeed;
      }
    }

    /** The update phase: ground probe, Move, JumpAndGravity, then the N toggle. */
    method Update(grounded: bool, horizontal: real, vertical: real, sprintHeld: bool,
                  facingYaw: real, dampVelocity: real, forward: Vec3,
                  jumpPressed: bool, launch: real, nPressed: bool, dt: real)
      requires Valid()
      requires IsPlanarUnit(forward)
      requires CanLaunch(grounded, jumpPressed, VerticalState()) ==> IsSqrt(launch, LaunchArgument(Settings()))
      modifies this`Grounded, this`deltaX, this`deltaY, this`movement, this`targetSpeed, this`speed,
               this`bodyYaw, this`smoothVelocity, this`verticalVelocity, this`jumpTimeoutDelta,
               this`fallTimeoutDelta, this`freeCameraActive, this`RotationSpeed
      ensures Valid()
      ensures Grounded == grounded
      ensures speed == targetSpeed
      // Move
      ensures !grounded ==> movement == old(movement) && targetSpeed == old(targetSpeed)
      ensures !grounded ==> deltaX == old(deltaX) && deltaY == old(deltaY)
      ensures !grounded ==> bodyYaw == old(bodyYaw) && smoothVelocity == old(smoothVelocity)
      ensures grounded ==> deltaY == horizontal && deltaX == vertical
      ensures grounded ==> targetSpeed == SelectSpeed(sprintHeld, MoveSpeed, SprintSpeed)
      ensures grounded && BeyondDeadzone(PlanarInput(horizontal, vertical)) ==>
                movement == forward && IsPlanarUnit(movement) &&
                bodyYaw == facingYaw && smoothVelocity == dampVelocity
      ensures grounded && !BeyondDeadzone(PlanarInput(horizontal, vertical)) ==>
                movement == PlanarInput(horizontal, vertical) &&
                bodyYaw == old(bodyYaw) && smoothVelocity == old(smoothVelocity)
      // JumpAndGravity
      ensures VerticalState() == Locomotion.JumpAndGravity(old(VerticalState()), Settings(), grounded, jumpPressed, launch, dt)
      // the N toggle
      ensures nPressed && old(freeCameraActive) ==> !freeCameraActive && RotationSpeed == AimRotationSpeed
      ensures nPressed && !old(freeCameraActive) ==> freeCameraActive && RotationSpeed == FreeLookRotationSpeed
      ensures !nPressed ==> freeCameraActive == old(freeCameraActive) && RotationSpeed == old(RotationSpeed)
    {
      Grounded := grounded;
      Move(horizontal, vertical, sprintHeld, facingYaw, dampVelocity, forward);
      JumpAndGravity(jumpPressed, launch, dt);
      ToggleCamera(nPressed);
    }

    /** CameraRotation's accumulation: pitch and yaw both move by the look
        input and both are clamped to [BottomClamp, TopClamp]. */
    method CameraRotation(lookX: real, lookY: real, dt: real)
      requires Valid()
      modifies this`mouseX, this`mouseY, this`cinemachineTargetPitch, this`rotationVelocity
      ensures Valid()
      ensures mouseX == lookX && mouseY == lookY
      ensures CameraOrbit() == OrbitStep(old(CameraOrbit()), LookTick(lookX, lookY, RotationSpeed, dt), BottomClamp, TopClamp)
    {
      mouseX := lookX;
      mouseY := lookY;
      ghost var tick := LookTick(lookX, lookY, RotationSpeed, dt);
      cinemachineTargetPitch := cinemachineTargetPitch + -mouseY * RotationSpeed * dt;
      assert cinemachineTargetPitch == old(cinemachineTargetPitch) + PitchDelta(tick);
      rotationVelocity := rotationVelocity + mouseX * RotationSpeed * dt;
      assert rotationVelocity == old(rotationVelocity) + YawDelta(tick);
      cinemachineTargetPitch := ClampAngle(cinemachineTargetPitch, BottomClamp, TopClamp);
      rotationVelocity := ClampAngle(rotationVelocity, BottomClamp, TopClamp);
    }

    method SetBool(param: Param, flag: bool)
      modifies this`animatorWrites
      ensures animatorWrites == old(animatorWrites) + [AnimationDriver.SetBool(param, flag)]
    {
      animatorWrites := animatorWrites + [AnimationDriver.SetBool(param, flag)];
    }

    method SetFloat(param: Param, value: real)
      modifies this`animatorWrites
      ensures animatorWrites == old(animatorWrites) + [AnimationDriver.SetFloat(param, value)]
    {
      animatorWrites := animatorWrites + [AnimationDriver.SetFloat(param, value)];
    }

    /** The writes of one axis, in the order Animation makes them. */
    method SignParameters(delta: real, param: Param, blend: Param, blendValue: real)
      modifies this`animatorWrites
      ensures animatorWrites == old(animatorWrites) + SignWrites(delta, param, blend, blendValue)
    {
      if delta > 0.0 {
        SetFloat(param, 1.0);
        SetFloat(blend, blendValue);
      } else if delta < 0.0 {
        SetFloat(param, 0.0);
        SetFloat(blend, blendValue);
      }
    }

    /** The sign writes of one gait: deltaX first, then deltaY. */
    method AxisParameters(xParam: Param, blend: Param, yParam: Param)
      modifies this`animatorWrites
      ensures animatorWrites == old(animatorWrites) + AxisWrites(deltaX, deltaY, xParam, blend, yParam)
    {
      SignParameters(deltaX, xParam, blend, 0.0);
      SignParameters(deltaY, yParam, blend, 1.0);
    }

    /** Animation: the decision table's writes are sent to the animator. */
    method Animation()
      modifies this`animatorWrites
      ensures animatorWrites == old(animatorWrites) + AnimationWrites(CurrentPose())
    {
      var moving := SqrMagnitude(movement) > 0.0;
      if targetSpeed == MoveSpeed && Grounded && moving {
        SetBool(IsRun, false);
        SetBool(IsWalk, true);
        AxisParameters(WalkingX, Walking, WalkingY);
      } else if targetSpeed == SprintSpeed && Grounded && moving {
        SetBool(IsRun, true);
        AxisParameters(RunningX, Running, RunningY);
      } else if !moving || !Grounded {
        SetBool(IsWalk, false);
        SetBool(IsRun, false);
      }
    }

    /** The late-update phase: CameraRotation, then Animation. */
    method LateUpdate(lookX: real, lookY: real, dt: real)
      requires Valid()
      modifies this`mouseX, this`mouseY, this`cinemachineTargetPitch, this`rotationVelocity, this`animatorWrites
      ensures Valid()
      ensures CameraOrbit() == OrbitStep(old(CameraOrbit()), LookTick(lookX, lookY, RotationSpeed, dt), BottomClamp, TopClamp)
      ensures animatorWrites == old(animatorWrites) + AnimationWrites(CurrentPose())
    {
      CameraRotation(lookX, lookY, dt);
      Animation();
    }
  }
}
