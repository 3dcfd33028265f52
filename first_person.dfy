/** The first-person controller: its tunable and private fields, and one
    method per piece of per-tick logic. As in the third-person controller,
    engine inputs and the results of library calls the model does not
    interpret are method parameters. */
module FirstPerson {
  import opened Angles
  import opened Locomotion
  import opened CameraRig

  class FirstPersonController {
    // Player tunables
    var MoveSpeed: real
    var SprintSpeed: real
    var RotationSpeed: real
    var JumpHeight: real
    var Gravity: real
    var JumpTimeout: real
    var FallTimeout: real

    // Ground probe result
    var Grounded: bool

    // Camera clamps
    var TopClamp: real
    var BottomClamp: real

    // Player state
    var cinemachineTargetPitch: real
    var speed: real
    var rotationVelocity: real
    var verticalVelocity: real
    var jumpTimeoutDelta: real
    var fallTimeoutDelta: real
    var bodyYaw: real              // transform.eulerAngles.y

    /** Clamps that make sense, the pitch within them, and _speed one of
        the three values Move can give it. */
    ghost predicate Valid()
      reads this
    {
      BottomClamp <= TopClamp &&
      Within(cinemachineTargetPitch, BottomClamp, TopClamp) &&
      (speed == 0.0 || speed == MoveSpeed || speed == SprintSpeed)
    }

    function VerticalState(): Vertical
      reads this
    {
      Vertical(verticalVelocity, jumpTimeoutDelta, fallTimeoutDelta)
    }

    function Settings(): JumpSettings
      reads this
    {
      JumpSettings(JumpHeight, Gravity, JumpTimeout, FallTimeout)
    }

    function CameraLook(): Look
      reads this
    {
      Look(cinemachineTargetPitch, rotationVelocity, bodyYaw)
    }

    /** The field initialisers. */
    constructor ()
      ensures Valid()
      ensures MoveSpeed == 4.0 && SprintSpeed == 6.0 && RotationSpeed == 1.0
      ensures JumpHeight == 1.2 && Gravity == -15.0 && JumpTimeout == 0.1 && FallTimeout == 0.15
      ensures Grounded
      ensures TopClamp == 90.0 && BottomClamp == -90.0
      ensures VerticalState() == Vertical(0.0, 0.0, 0.0) && CameraLook() == Look(0.0, 0.0, 0.0)
      ensures speed == 0.0
    {
      MoveSpeed, SprintSpeed, RotationSpeed := 4.0, 6.0, 1.0;
      JumpHeight, Gravity := 1.2, -15.0;
      JumpTimeout, FallTimeout := 0.1, 0.15;
      Grounded := true;
      TopClamp, BottomClamp := 90.0, -90.0;
      cinemachineTargetPitch := 0.0;
      speed, rotationVelocity, verticalVelocity := 0.0, 0.0, 0.0;
      jumpTimeoutDelta, fallTimeoutDelta := 0.0, 0.0;
      bodyYaw := 0.0;
    }

    /** Start resets the two timeouts. */
    method Start()
      modifies this`jumpTimeoutDelta, this`fallTimeoutDelta
      ensures jumpTimeoutDelta == JumpTimeout && fallTimeoutDelta == FallTimeout
    {
      jumpTimeoutDelta := JumpTimeout;
      fallTimeoutDelta := FallTimeout;
    }

    /** Move's speed and facing logic; it runs whether or not the character
        is grounded. `forward` is Quaternion.Euler(0, rotationAngle, 0) *
        Vector3.forward; `facingYaw` and `dampVelocity` are what
        Mathf.SmoothDampAngle returns and leaves in _rotationVelocity. The
        returned vector is the one handed on to the CharacterController. */
    method Move(horizontal: real, vertical: real, sprintHeld: bool,
                facingYaw: real, dampVelocity: real, forward: Vec3) returns (movement: Vec3)
      requires Valid()
      requires IsPlanarUnit(forward)
      modifies this`speed, this`bodyYaw, this`rotationVelocity
      ensures Valid()
      ensures BeyondDeadzone(PlanarInput(horizontal, vertical)) ==>
                movement == forward && bodyYaw == facingYaw && rotationVelocity == dampVelocity &&
                speed == SelectSpeed(sprintHeld, MoveSpeed, SprintSpeed)
      ensures !BeyondDeadzone(PlanarInput(horizontal, vertical)) ==>
                movement == PlanarInput(horizontal, vertical) &&
                bodyYaw == old(bodyYaw) && rotationVelocity == old(rotationVelocity)
      ensures SqrMagnitude(movement) > 0.0 ==> speed == SelectSpeed(sprintHeld, MoveSpeed, SprintSpeed)
      ensures !(SqrMagnitude(movement) > 0.0) ==> speed == 0.0
    {
      movement := PlanarInput(horizontal, vertical);
      var targetSpeed := if sprintHeld then SprintSpeed else MoveSpeed;
      if BeyondDeadzone(movement) {
        bodyYaw := facingYaw;
        rotationVelocity := dampVelocity;
        movement := forward;
      }
      if !(SqrMagnitude(movement) > 0.0) {
        targetSpeed := 0.0;
      }
      speed := targetSpeed;
    }

    /** JumpAndGravity on the controller's fields; the same steps as the
        third-person controller's. */
    method JumpAndGravity(jumpPressed: bool, launch: real, dt: real)
      requires CanLaunch(Grounded, jumpPressed, VerticalState()) ==> IsSqrt(launch, LaunchArgument(Settings()))
      modifies this`verticalVelocity, this`jumpTimeoutDelta, this`fallTimeoutDelta
      ensures VerticalState() == Locomotion.JumpAndGravity(old(VerticalState()), Settings(), Grounded, jumpPressed, launch, dt)
    {
      if Grounded {
        fallTimeoutDelta := FallTimeout;
        if verticalVelocity < 0.0 {
          verticalVelocity := StickToGround;
        }
        if jumpPressed {
          if jumpTimeoutDelta <= 0.0 {
            verticalVelocity := launch;
          }
        }
        if jumpTimeoutDelta >= 0.0 {
          jumpTimeoutDelta := jumpTimeoutDelta - dt;
        }
      } else {
        jumpTimeoutDelta := JumpTimeout;
        if fallTimeoutDelta >= 0.0 {
          fallTimeoutDelta := fallTimeoutDelta - dt;
        }
      }
      if verticalVelocity < TerminalVelocity {
        verticalVelocity := verticalVelocity + Gravity * dt;
      }
    }

    /** The update phase: ground probe, Move, then JumpAndGravity. */
    method Update(grounded: bool, horizontal: real, vertical: real, sprintHeld: bool,
                  facingYaw: real, dampVelocity: real, forward: Vec3,
                  jumpPressed: bool, launch: real, dt: real) returns (movement: Vec3)
      requires Valid()
      requires IsPlanarUnit(forward)
      requires CanLaunch(grounded, jumpPressed, VerticalState()) ==> IsSqrt(launch, LaunchArgument(Settings()))
      modifies this`Grounded, this`speed, this`bodyYaw, this`rotationVelocity,
               this`verticalVelocity, this`jumpTimeoutDelta, this`fallTimeoutDelta
      ensures Valid()
      ensures Grounded == grounded
      // Move
      ensures BeyondDeadzone(PlanarInput(horizontal, vertical)) ==>
                movement == forward && bodyYaw == facingYaw && rotationVelocity == dampVelocity &&
                speed == SelectSpeed(sprintHeld, MoveSpeed, SprintSpeed)
      ensures !BeyondDeadzone(PlanarInput(horizontal, vertical)) ==>
                movement == PlanarInput(horizontal, vertical) &&
                bodyYaw == old(bodyYaw) && rotationVelocity == old(rotationVelocity)
      ensures SqrMagnitude(movement) > 0.0 ==> speed == SelectSpeed(sprintHeld, MoveSpeed, SprintSpeed)
      ensures !(SqrMagnitude(movement) > 0.0) ==> speed == 0.0
      // JumpAndGravity
      ensures VerticalState() == Locomotion.JumpAndGravity(old(VerticalState()), Settings(), grounded, jumpPressed, launch, dt)
    {
      Grounded := grounded;
      movement := Move(horizontal, vertical, sprintHeld, facingYaw, dampVelocity, forward);
      JumpAndGravity(jumpPressed, launch, dt);
    }

    /** CameraRotation (the late-update phase): the pitch accumulates and is
        clamped; _rotationVelocity is overwritten with this tick's yaw amount
        and turns the body by it. */
    method CameraRotation(lookX: real, lookY: real, dt: real)
      requires Valid()
      modifies this`cinemachineTargetPitch, this`rotationVelocity, this`bodyYaw
      ensures Valid()
      ensures CameraLook() == LookStep(old(CameraLook()), LookTick(lookX, lookY, RotationSpeed, dt), BottomClamp, TopClamp)
    {
      ghost var tick := LookTick(lookX, lookY, RotationSpeed, dt);
      cinemachineTargetPitch := cinemachineTargetPitch + -lookY * RotationSpeed * dt;
      assert cinemachineTargetPitch == old(cinemachineTargetPitch) + PitchDelta(tick);
      rotationVelocity := lookX * RotationSpeed * dt;
      assert rotationVelocity == YawDelta(tick);
      cinemachineTargetPitch := ClampAngle(cinemachineTargetPitch, BottomClamp, TopClamp);
      bodyYaw := bodyYaw + rotationVelocity;
    }
  }
}
