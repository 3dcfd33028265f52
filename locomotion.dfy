/** Per-tick locomotion logic shared by both character controllers: the
    planar input vector and its deadzone, the two domain timers, and the
    jump/gravity state machine. JumpAndGravity is written identically in the
    third-person and the first-person controller, so it is defined once here
    as a function of the old vertical state and the tick's inputs; each
    controller class has a method that performs the same steps on its
    fields and is proved equal to this function. */
module Locomotion {

  datatype Vec3 = Vec3(x: real, y: real, z: real)

  const Zero: Vec3 := Vec3(0.0, 0.0, 0.0)

  /** The squared length |v|^2. Comparing it with d*d stands for comparing
      the length |v| (Vector3.magnitude) with d >= 0; since it is never
      negative, "magnitude == 0" is "not SqrMagnitude(v) > 0". */
  function SqrMagnitude(v: Vec3): (r: real)
    ensures r >= 0.0
  {
    SquareNonNegative(v.x);
    SquareNonNegative(v.y);
    SquareNonNegative(v.z);
    v.x * v.x + v.y * v.y + v.z * v.z
  }

  lemma SquareNonNegative(a: real)
    ensures a * a >= 0.0
  {
    if a < 0.0 {
      var b := -a;
      assert a * a == b * b;
    }
  }

  /** The input vector Move builds from the two movement axes:
      (Horizontal, 0, Vertical). */
  function PlanarInput(horizontal: real, vertical: real): (v: Vec3)
    ensures v.y == 0.0
    ensures v == Zero <==> horizontal == 0.0 && vertical == 0.0
  {
    Vec3(horizontal, 0.0, vertical)
  }

  /** The deadzone threshold, Mathf.Abs(0.05f). */
  const Deadzone: real := 0.05

  /** magnitude > 0.05, stated on the squared length. A vector beyond the
      deadzone has positive length, and a unit vector is always beyond it. */
  predicate BeyondDeadzone(v: Vec3)
    ensures BeyondDeadzone(v) ==> SqrMagnitude(v) > 0.0
    ensures IsPlanarUnit(v) ==> BeyondDeadzone(v)
  {
    SqrMagnitude(v) > Deadzone * Deadzone
  }

  /** A unit vector in the horizontal plane, such as
      Quaternion.Euler(0, angle, 0) * Vector3.forward. */
  predicate IsPlanarUnit(v: Vec3) {
    v.y == 0.0 && SqrMagnitude(v) == 1.0
  }

  /** The speed Move selects: SprintSpeed while shift is held, MoveSpeed otherwise. */
  function SelectSpeed(sprintHeld: bool, moveSpeed: real, sprintSpeed: real): (r: real)
    ensures sprintHeld ==> r == sprintSpeed
    ensures !sprintHeld ==> r == moveSpeed
  {
    if sprintHeld then sprintSpeed else moveSpeed
  }

  // ---------------------------------------------------------------------
  // Timers

  /** One tick of a timeout counter: it is decreased by dt only while it is
      still >= 0, so once it has gone negative it stays where it is. */
  function Countdown(t: real, dt: real): (r: real)
    ensures dt >= 0.0 ==> r <= t
    ensures t < 0.0 ==> r == t
    ensures t >= 0.0 ==> r == t - dt
  {
    if t >= 0.0 then t - dt else t
  }

  /** A counter run over a sequence of tick durations. */
  function CountdownRun(t: real, dts: seq<real>): real
    decreases |dts|
  {
    if dts == [] then t else CountdownRun(Countdown(t, dts[0]), dts[1..])
  }

  function Sum(dts: seq<real>): real
  {
    if dts == [] then 0.0 else dts[0] + Sum(dts[1..])
  }

  predicate NonNegative(dts: seq<real>) {
    forall k :: 0 <= k < |dts| ==> dts[k] >= 0.0
  }

  /** A counter that has expired stays expired. */
  lemma {:induction false} ExpiredStaysPut(t: real, dts: seq<real>)
    requires t < 0.0
    ensures CountdownRun(t, dts) == t
    decreases |dts|
  {
    if dts != [] {
      ExpiredStaysPut(Countdown(t, dts[0]), dts[1..]);
    }
  }

  /** Once the elapsed time reaches the counter's value the counter has
      reached zero or below: the timeout has expired. */
  lemma {:induction false} CountdownExpires(t: real, dts: seq<real>)
    requires NonNegative(dts)
    requires Sum(dts) >= t
    ensures CountdownRun(t, dts) <= 0.0
    decreases |dts|
  {
    if dts == [] {
    } else if t < 0.0 {
      ExpiredStaysPut(t, dts);
    } else {
      assert NonNegative(dts[1..]) by {
        forall k | 0 <= k < |dts[1..]| ensures dts[1..][k] >= 0.0 {
          assert dts[1..][k] == dts[k + 1];
        }
      }
      CountdownExpires(t - dts[0], dts[1..]);
    }
  }

  /** If no tick is longer than `bound` the counter never drops below
      -bound, whatever its value was, as long as it started at or above -bound. */
  lemma {:induction false} CountdownBoundedBelow(t: real, dts: seq<real>, bound: real)
    requires t >= -bound
    requires forall k :: 0 <= k < |dts| ==> 0.0 <= dts[k] <= bound
    ensures CountdownRun(t, dts) >= -bound
    decreases |dts|
  {
    if dts != [] {
      assert 0.0 <= dts[0] <= bound;
      CountdownBoundedBelow(Countdown(t, dts[0]), dts[1..], bound);
    }
  }

  // ---------------------------------------------------------------------
  // Jump and gravity

  /** The small negative velocity a grounded character is held at. */
  const StickToGround: real := -2.0

  /** _terminalVelocity: gravity is added only while the velocity is below it. */
  const TerminalVelocity: real := 53.0

  /** The fields JumpAndGravity updates. */
  datatype Vertical = Vertical(velocity: real, jumpTimeout: real, fallTimeout: real)

  /** The tunable fields JumpAndGravity reads. */
  datatype JumpSettings = JumpSettings(jumpHeight: real, gravity: real,
                                       jumpTimeout: real, fallTimeout: real)

  /** The argument JumpAndGravity passes to Mathf.Sqrt: JumpHeight * -2 * Gravity. */
  function LaunchArgument(s: JumpSettings): real {
    s.jumpHeight * -2.0 * s.gravity
  }

  /** The contract of Mathf.Sqrt for a non-negative argument. */
  predicate IsSqrt(r: real, x: real) {
    r >= 0.0 && r * r == x
  }

  /** The launch condition: grounded, the jump key went down this tick, and
      the jump timeout has run out. */
  predicate CanLaunch(grounded: bool, jumpPressed: bool, v: Vertical) {
    grounded && jumpPressed && v.jumpTimeout <= 0.0
  }

  /** The vertical velocity once the grounded branch has run and before
      gravity is applied. `launch` is the value of Mathf.Sqrt(LaunchArgument). */
  function BeforeGravity(v: Vertical, grounded: bool, jumpPressed: bool, launch: real): real
  {
    if !grounded then v.velocity
    else if CanLaunch(grounded, jumpPressed, v) then launch
    else if v.velocity < 0.0 then StickToGround
    else v.velocity
  }

  /** Gravity integration: Gravity*dt is added only while the velocity is
      below the terminal velocity; otherwise the velocity is left alone. */
  function ApplyGravity(velocity: real, gravity: real, dt: real): (r: real)
    ensures velocity < TerminalVelocity ==> r == velocity + gravity * dt
    ensures velocity >= TerminalVelocity ==> r == velocity
  {
    if velocity < TerminalVelocity then velocity + gravity * dt else velocity
  }

  /** One tick of the Grounded/Airborne timed state machine. The mode is the
      ground probe's result `grounded`; `launch` is the engine's square root
      of LaunchArgument(s), used only when CanLaunch holds. */
  function JumpAndGravity(v: Vertical, s: JumpSettings, grounded: bool,
                          jumpPressed: bool, launch: real, dt: real): (r: Vertical)
    ensures grounded ==> r.fallTimeout == s.fallTimeout
    ensures grounded ==> r.jumpTimeout == Countdown(v.jumpTimeout, dt)
    ensures !grounded ==> r.jumpTimeout == s.jumpTimeout
    ensures !grounded ==> r.fallTimeout == Countdown(v.fallTimeout, dt)
    ensures r.velocity == ApplyGravity(BeforeGravity(v, grounded, jumpPressed, launch), s.gravity, dt)
  {
    if grounded then
      var snapped := if v.velocity < 0.0 then StickToGround else v.velocity;
      var launched := if jumpPressed && v.jumpTimeout <= 0.0 then launch else snapped;
      Vertical(ApplyGravity(launched, s.gravity, dt), Countdown(v.jumpTimeout, dt), s.fallTimeout)
    else
      Vertical(ApplyGravity(v.velocity, s.gravity, dt), s.jumpTimeout, Countdown(v.fallTimeout, dt))
  }

  /** A grounded tick without a launch holds a falling character at -2
      before gravity, and resets the fall timeout. */
  lemma GroundedSnap(v: Vertical, s: JumpSettings, jumpPressed: bool, launch: real, dt: real)
    requires !CanLaunch(true, jumpPressed, v)
    requires v.velocity < 0.0
    ensures JumpAndGravity(v, s, true, jumpPressed, launch, dt)
            == Vertical(StickToGround + s.gravity * dt, Countdown(v.jumpTimeout, dt), s.fallTimeout)
  {
  }

  /** The launch velocity, before gravity, squared equals JumpHeight * -2 * Gravity. */
  lemma LaunchSpeedSquared(v: Vertical, s: JumpSettings, jumpPressed: bool, launch: real)
    requires CanLaunch(true, jumpPressed, v)
    requires IsSqrt(launch, LaunchArgument(s))
    ensures BeforeGravity(v, true, jumpPressed, launch) >= 0.0
    ensures BeforeGravity(v, true, jumpPressed, launch) * BeforeGravity(v, true, jumpPressed, launch)
            == s.jumpHeight * -2.0 * s.gravity
  {
  }

  /** The height above the launch point, after time t, of a body launched
      upward at v0 under constant gravity g: v0*t + g*t^2/2. */
  function Height(v0: real, g: real, t: real): real {
    v0 * t + g * t * t / 2.0
  }

  /** Completing the square: with the launch speed Mathf.Sqrt gives, the
      height falls short of JumpHeight by -g/2 times the square of the time
      from the apex, which is at launch / -g. */
  lemma HeightGap(s: JumpSettings, launch: real, t: real)
    requires s.gravity < 0.0
    requires IsSqrt(launch, LaunchArgument(s))
    ensures s.jumpHeight - Height(launch, s.gravity, t)
            == (-s.gravity / 2.0) * ((t - launch / -s.gravity) * (t - launch / -s.gravity))
  {
    var g, apex := s.gravity, launch / -s.gravity;
    assert launch == apex * -g;
    assert s.jumpHeight == launch * launch / (-2.0 * g);
  }

  /** The launch speed is the one that makes the jump's apex, reached at
      time launch / -Gravity, exactly JumpHeight. */
  lemma ApexHeight(s: JumpSettings, launch: real)
    requires s.gravity < 0.0
    requires IsSqrt(launch, LaunchArgument(s))
    ensures Height(launch, s.gravity, launch / -s.gravity) == s.jumpHeight
  {
    HeightGap(s, launch, launch / -s.gravity);
  }

  /** At no time does the body rise above JumpHeight. */
  lemma HeightBounded(s: JumpSettings, launch: real, t: real)
    requires s.gravity < 0.0
    requires IsSqrt(launch, LaunchArgument(s))
    ensures Height(launch, s.gravity, t) <= s.jumpHeight
  {
    SquareNonNegative(t - launch / -s.gravity);
    HeightGap(s, launch, t);
  }

  /** Without a launch the velocity never rises above the larger of its old
      value and -2, when gravity points down and time runs forward: only a
      launch makes a character go up. */
  lemma NoRiseWithoutLaunch(v: Vertical, s: JumpSettings, grounded: bool,
                            jumpPressed: bool, launch: real, dt: real)
    requires !CanLaunch(grounded, jumpPressed, v)
    requires s.gravity <= 0.0 && dt >= 0.0
    ensures JumpAndGravity(v, s, grounded, jumpPressed, launch, dt).velocity
            <= if v.velocity < StickToGround then StickToGround else v.velocity
  {
    assert s.gravity * dt <= 0.0;
  }

  /** The 53 bound only stops gravity being added to an upward velocity of at
      least 53; it does not limit the speed of a fall. */
  lemma FallSpeedNotCapped()
    ensures JumpAndGravity(Vertical(-100.0, 0.1, -1.0), JumpSettings(1.2, -15.0, 0.1, 0.15),
                           false, false, 0.0, 1.0).velocity == -115.0
  {
  }

  /** The inputs of one tick as JumpAndGravity sees them. */
  datatype JumpTick = JumpTick(grounded: bool, jumpPressed: bool, launch: real, dt: real)

  /** JumpAndGravity applied tick after tick. */
  function VerticalRun(v: Vertical, s: JumpSettings, ticks: seq<JumpTick>): Vertical
    decreases |ticks|
  {
    if ticks == [] then v
    else
      var t := ticks[0];
      VerticalRun(JumpAndGravity(v, s, t.grounded, t.jumpPressed, t.launch, t.dt), s, ticks[1..])
  }

  function Durations(ticks: seq<JumpTick>): (dts: seq<real>)
    ensures |dts| == |ticks|
    ensures forall k :: 0 <= k < |ticks| ==> dts[k] == ticks[k].dt
  {
    if ticks == [] then [] else [ticks[0].dt] + Durations(ticks[1..])
  }

  /** While the character stays grounded, the jump timeout is the plain
      countdown of the tick durations. */
  lemma {:induction false} JumpTimeoutWhileGrounded(v: Vertical, s: JumpSettings, ticks: seq<JumpTick>)
    requires forall k :: 0 <= k < |ticks| ==> ticks[k].grounded
    ensures VerticalRun(v, s, ticks).jumpTimeout == CountdownRun(v.jumpTimeout, Durations(ticks))
    decreases |ticks|
  {
    if ticks != [] {
      var t := ticks[0];
      assert t.grounded;
      assert Durations(ticks)[1..] == Durations(ticks[1..]);
      JumpTimeoutWhileGrounded(JumpAndGravity(v, s, t.grounded, t.jumpPressed, t.launch, t.dt), s, ticks[1..]);
    }
  }

  /** While the character stays airborne, the fall timeout is the plain
      countdown of the tick durations. */
  lemma {:induction false} FallTimeoutWhileAirborne(v: Vertical, s: JumpSettings, ticks: seq<JumpTick>)
    requires forall k :: 0 <= k < |ticks| ==> !ticks[k].grounded
    ensures VerticalRun(v, s, ticks).fallTimeout == CountdownRun(v.fallTimeout, Durations(ticks))
    decreases |ticks|
  {
    if ticks != [] {
      var t := ticks[0];
      assert !t.grounded;
      assert Durations(ticks)[1..] == Durations(ticks[1..]);
      FallTimeoutWhileAirborne(JumpAndGravity(v, s, t.grounded, t.jumpPressed, t.launch, t.dt), s, ticks[1..]);
    }
  }

  /** After standing on the ground for at least the remaining jump timeout,
      a jump press launches the character. */
  lemma JumpBecomesAvailable(v: Vertical, s: JumpSettings, ticks: seq<JumpTick>)
    requires forall k :: 0 <= k < |ticks| ==> ticks[k].grounded && ticks[k].dt >= 0.0
    requires Sum(Durations(ticks)) >= v.jumpTimeout
    ensures CanLaunch(true, true, VerticalRun(v, s, ticks))
  {
    JumpTimeoutWhileGrounded(v, s, ticks);
    CountdownExpires(v.jumpTimeout, Durations(ticks));
  }

  /** Over any run without jump presses, with gravity pointing down and time
      running forward, the velocity never rises above the larger of its
      starting value and -2. */
  lemma {:induction false} NoRiseOverRun(v: Vertical, s: JumpSettings, ticks: seq<JumpTick>)
    requires s.gravity <= 0.0
    requires forall k :: 0 <= k < |ticks| ==> !ticks[k].jumpPressed && ticks[k].dt >= 0.0
    ensures VerticalRun(v, s, ticks).velocity <= if v.velocity < StickToGround then StickToGround else v.velocity
    decreases |ticks|
  {
    if ticks != [] {
      var t := ticks[0];
      assert !t.jumpPressed && t.dt >= 0.0;
      NoRiseWithoutLaunch(v, s, t.grounded, t.jumpPressed, t.launch, t.dt);
      NoRiseOverRun(JumpAndGravity(v, s, t.grounded, t.jumpPressed, t.launch, t.dt), s, ticks[1..]);
    }
  }
}
