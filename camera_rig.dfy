/** The accumulate-and-clamp part of CameraRotation in both controllers,
    as functions of the old camera angles and one tick's look input, and
    the same applied over any sequence of ticks. The controller classes'
    CameraRotation methods are proved equal to these steps. */
module CameraRig {
  import opened Angles

  /** One tick of look input: the two look axes, the RotationSpeed in force
      on that tick, and Time.deltaTime. */
  datatype LookTick = LookTick(mouseX: real, mouseY: real, rotationSpeed: real, dt: real)

  /** The amount added to the pitch: -mouseY * RotationSpeed * deltaTime. */
  function PitchDelta(t: LookTick): real {
    -t.mouseY * t.rotationSpeed * t.dt
  }

  /** The yaw amount of one tick: mouseX * RotationSpeed * deltaTime. */
  function YawDelta(t: LookTick): real {
    t.mouseX * t.rotationSpeed * t.dt
  }

  predicate Within(angle: real, bottom: real, top: real) {
    bottom <= angle <= top
  }

  // ---------------------------------------------------------------------
  // Third person: pitch and yaw both accumulate and both are clamped

  /** The third-person camera target angles: _cinemachineTargetPitch and the
      yaw accumulated in _rotationVelocity. */
  datatype Orbit = Orbit(pitch: real, yaw: real)

  /** One third-person tick. Both angles are clamped with BottomClamp and
      TopClamp; LeftClamp and RightClamp play no part. */
  function OrbitStep(o: Orbit, t: LookTick, bottom: real, top: real): (r: Orbit)
    ensures bottom <= top ==> Within(r.pitch, bottom, top) && Within(r.yaw, bottom, top)
    ensures -360.0 <= bottom && top <= 360.0 && Within(o.pitch + PitchDelta(t), bottom, top)
            ==> r.pitch == o.pitch + PitchDelta(t)
    ensures -360.0 <= bottom && top <= 360.0 && Within(o.yaw + YawDelta(t), bottom, top)
            ==> r.yaw == o.yaw + YawDelta(t)
  {
    Orbit(ClampAngle(o.pitch + PitchDelta(t), bottom, top),
          ClampAngle(o.yaw + YawDelta(t), bottom, top))
  }

  function OrbitRun(o: Orbit, ticks: seq<LookTick>, bottom: real, top: real): Orbit
    decreases |ticks|
  {
    if ticks == [] then o else OrbitRun(OrbitStep(o, ticks[0], bottom, top), ticks[1..], bottom, top)
  }

  predicate OrbitWithin(o: Orbit, bottom: real, top: real) {
    Within(o.pitch, bottom, top) && Within(o.yaw, bottom, top)
  }

  /** After any non-empty sequence of ticks, or any sequence at all when the
      angles start in range, pitch and yaw both lie in [bottom, top],
      however far the look input pushes them. */
  lemma {:induction false} OrbitRunWithin(o: Orbit, ticks: seq<LookTick>, bottom: real, top: real)
    requires bottom <= top
    requires ticks != [] || OrbitWithin(o, bottom, top)
    ensures OrbitWithin(OrbitRun(o, ticks, bottom, top), bottom, top)
    decreases |ticks|
  {
    if ticks != [] {
      var next := OrbitStep(o, ticks[0], bottom, top);
      assert OrbitWithin(next, bottom, top);
      OrbitRunWithin(next, ticks[1..], bottom, top);
    }
  }

  /** The yaw is held to the pitch range: with the default clamps (pitch
      -90..90, sides -30..30) a yaw of 60 degrees, beyond RightClamp, stays. */
  lemma OrbitYawIgnoresSideClamps()
    ensures OrbitStep(Orbit(0.0, 0.0), LookTick(60.0, 0.0, 1.0, 1.0), -90.0, 90.0) == Orbit(0.0, 60.0)
  {
  }

  // ---------------------------------------------------------------------
  // First person: the pitch accumulates and is clamped; the yaw turns the body

  /** The first-person look state: _cinemachineTargetPitch, _rotationVelocity
      and the body's yaw, which transform.Rotate(Vector3.up * _rotationVelocity)
      turns. */
  datatype Look = Look(pitch: real, rotationVelocity: real, bodyYaw: real)

  /** One first-person tick. */
  function LookStep(l: Look, t: LookTick, bottom: real, top: real): (r: Look)
    ensures bottom <= top ==> Within(r.pitch, bottom, top)
    ensures -360.0 <= bottom && top <= 360.0 && Within(l.pitch + PitchDelta(t), bottom, top)
            ==> r.pitch == l.pitch + PitchDelta(t)
    ensures r.rotationVelocity == YawDelta(t)
    ensures r.bodyYaw == l.bodyYaw + YawDelta(t)
  {
    var turn := YawDelta(t);
    Look(ClampAngle(l.pitch + PitchDelta(t), bottom, top), turn, l.bodyYaw + turn)
  }

  function LookRun(l: Look, ticks: seq<LookTick>, bottom: real, top: real): Look
    decreases |ticks|
  {
    if ticks == [] then l else LookRun(LookStep(l, ticks[0], bottom, top), ticks[1..], bottom, top)
  }

  /** The total yaw input of a sequence of ticks. */
  function YawSum(ticks: seq<LookTick>): real
  {
    if ticks == [] then 0.0 else YawDelta(ticks[0]) + YawSum(ticks[1..])
  }

  /** The pitch stays in [bottom, top] over any sequence of ticks. */
  lemma {:induction false} LookRunPitchWithin(l: Look, ticks: seq<LookTick>, bottom: real, top: real)
    requires bottom <= top
    requires ticks != [] || Within(l.pitch, bottom, top)
    ensures Within(LookRun(l, ticks, bottom, top).pitch, bottom, top)
    decreases |ticks|
  {
    if ticks != [] {
      LookRunPitchWithin(LookStep(l, ticks[0], bottom, top), ticks[1..], bottom, top);
    }
  }

  /** The body's yaw is turned by exactly the total yaw input: it is not
      clamped. */
  lemma {:induction false} LookRunBodyYaw(l: Look, ticks: seq<LookTick>, bottom: real, top: real)
    ensures LookRun(l, ticks, bottom, top).bodyYaw == l.bodyYaw + YawSum(ticks)
    decreases |ticks|
  {
    if ticks != [] {
      LookRunBodyYaw(LookStep(l, ticks[0], bottom, top), ticks[1..], bottom, top);
    }
  }

  /** _rotationVelocity is overwritten rather than accumulated: after a run
      it holds the last tick's yaw amount only. */
  lemma {:induction false} LookRunRotationVelocity(l: Look, ticks: seq<LookTick>, bottom: real, top: real)
    requires ticks != []
    ensures LookRun(l, ticks, bottom, top).rotationVelocity == YawDelta(ticks[|ticks| - 1])
    decreases |ticks|
  {
    if |ticks| > 1 {
      LookRunRotationVelocity(LookStep(l, ticks[0], bottom, top), ticks[1..], bottom, top);
      assert ticks[1..][|ticks[1..]| - 1] == ticks[|ticks| - 1];
    }
  }
}
