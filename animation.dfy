/** The third-person controller's Animation decision table. The animator is
    an external state graph that only receives parameter writes, so the
    table is modelled as the ordered list of SetBool/SetFloat calls one tick
    makes, and its effect as the parameter values those writes leave. The
    string parameter names become an enumeration. */
module AnimationDriver {
  import opened Locomotion

  /** The animator parameters: "isRun", "isWalk", "Walking X", "Walking",
      "Walking Y", "Running X", "Running", "Running Y". */
  datatype Param = IsRun | IsWalk | WalkingX | Walking | WalkingY | RunningX | Running | RunningY

  /** One call of _animator.SetBool or _animator.SetFloat. */
  datatype Write = SetBool(param: Param, flag: bool) | SetFloat(param: Param, value: real)

  /** The controller fields Animation reads. */
  datatype Pose = Pose(targetSpeed: real, moveSpeed: real, sprintSpeed: real, grounded: bool,
                       movement: Vec3, deltaX: real, deltaY: real)

  /** _movement.magnitude > 0. */
  predicate Moving(p: Pose) {
    SqrMagnitude(p.movement) > 0.0
  }

  /** The walk row, tested first. */
  predicate Walks(p: Pose) {
    p.targetSpeed == p.moveSpeed && p.grounded && Moving(p)
  }

  /** The sprint row. */
  predicate Sprints(p: Pose) {
    p.targetSpeed == p.sprintSpeed && p.grounded && Moving(p)
  }

  /** The writes one axis makes: for a positive value the axis parameter is
      set to 1, for a negative value to 0, each followed by the blend
      parameter set to `blendValue`; an axis that is exactly 0 writes nothing. */
  function SignWrites(delta: real, param: Param, blend: Param, blendValue: real): seq<Write>
  {
    if delta > 0.0 then [SetFloat(param, 1.0), SetFloat(blend, blendValue)]
    else if delta < 0.0 then [SetFloat(param, 0.0), SetFloat(blend, blendValue)]
    else []
  }

  /** The sign writes for one gait: the X parameter and the blend parameter
      (set to 0) from deltaX, then the Y parameter and the blend parameter
      (set to 1) from deltaY. */
  function AxisWrites(deltaX: real, deltaY: real, xParam: Param, blend: Param, yParam: Param): seq<Write>
  {
    SignWrites(deltaX, xParam, blend, 0.0) + SignWrites(deltaY, yParam, blend, 1.0)
  }

  /** The writes of one Animation call, in call order. */
  function AnimationWrites(p: Pose): seq<Write>
  {
    if Walks(p) then
      [SetBool(IsRun, false), SetBool(IsWalk, true)] + AxisWrites(p.deltaX, p.deltaY, WalkingX, Walking, WalkingY)
    else if Sprints(p) then
      [SetBool(IsRun, true)] + AxisWrites(p.deltaX, p.deltaY, RunningX, Running, RunningY)
    else if !Moving(p) || !p.grounded then
      [SetBool(IsWalk, false), SetBool(IsRun, false)]
    else
      []
  }

  // ---------------------------------------------------------------------
  // The effect of a list of writes

  predicate Touches(w: seq<Write>, param: Param) {
    exists k :: 0 <= k < |w| && w[k].param == param
  }

  /** The value a bool parameter holds after one write. */
  function BoolStep(x: Write, param: Param, before: bool): bool {
    if x.SetBool? && x.param == param then x.flag else before
  }

  /** The value a float parameter holds after one write. */
  function FloatStep(x: Write, param: Param, before: real): real {
    if x.SetFloat? && x.param == param then x.value else before
  }

  /** The value a bool parameter holds after the writes, given its value before. */
  function BoolAfter(w: seq<Write>, param: Param, before: bool): bool
    decreases |w|
  {
    if w == [] then before else BoolAfter(w[1..], param, BoolStep(w[0], param, before))
  }

  /** The value a float parameter holds after the writes, given its value before. */
  function FloatAfter(w: seq<Write>, param: Param, before: real): real
    decreases |w|
  {
    if w == [] then before else FloatAfter(w[1..], param, FloatStep(w[0], param, before))
  }

  lemma {:induction false} BoolAfterAppend(a: seq<Write>, b: seq<Write>, param: Param, before: bool)
    ensures BoolAfter(a + b, param, before) == BoolAfter(b, param, BoolAfter(a, param, before))
    decreases |a|
  {
    if a == [] {
      assert a + b == b;
    } else {
      assert (a + b)[0] == a[0];
      assert (a + b)[1..] == a[1..] + b;
      BoolAfterAppend(a[1..], b, param, BoolStep(a[0], param, before));
    }
  }

  lemma {:induction false} FloatAfterAppend(a: seq<Write>, b: seq<Write>, param: Param, before: real)
    ensures FloatAfter(a + b, param, before) == FloatAfter(b, param, FloatAfter(a, param, before))
    decreases |a|
  {
    if a == [] {
      assert a + b == b;
    } else {
      assert (a + b)[0] == a[0];
      assert (a + b)[1..] == a[1..] + b;
      FloatAfterAppend(a[1..], b, param, FloatStep(a[0], param, before));
    }
  }

  lemma BoolAfterPair(x: Write, y: Write, param: Param, before: bool)
    ensures BoolAfter([x, y], param, before) == BoolStep(y, param, BoolStep(x, param, before))
  {
    assert [x, y][1..] == [y];
    assert [y][1..] == [];
    var b1 := BoolStep(x, param, before);
    assert BoolAfter([x, y], param, before) == BoolAfter([y], param, b1);
    assert BoolAfter([y], param, b1) == BoolAfter([], param, BoolStep(y, param, b1));
  }

  lemma FloatAfterPair(x: Write, y: Write, param: Param, before: real)
    ensures FloatAfter([x, y], param, before) == FloatStep(y, param, FloatStep(x, param, before))
  {
    assert [x, y][1..] == [y];
    assert [y][1..] == [];
    var f1 := FloatStep(x, param, before);
    assert FloatAfter([x, y], param, before) == FloatAfter([y], param, f1);
    assert FloatAfter([y], param, f1) == FloatAfter([], param, FloatStep(y, param, f1));
  }

  /** A parameter that no write touches keeps its value. */
  lemma {:induction false} UntouchedKeepsBool(w: seq<Write>, param: Param, before: bool)
    requires !Touches(w, param)
    ensures BoolAfter(w, param, before) == before
    decreases |w|
  {
    if w != [] {
      assert !Touches(w[1..], param) by {
        forall k | 0 <= k < |w[1..]| ensures w[1..][k].param != param {
          assert w[1..][k] == w[k + 1];
        }
      }
      UntouchedKeepsBool(w[1..], param, before);
    }
  }

  lemma {:induction false} UntouchedKeepsFloat(w: seq<Write>, param: Param, before: real)
    requires !Touches(w, param)
    ensures FloatAfter(w, param, before) == before
    decreases |w|
  {
    if w != [] {
      assert !Touches(w[1..], param) by {
        forall k | 0 <= k < |w[1..]| ensures w[1..][k].param != param {
          assert w[1..][k] == w[k + 1];
        }
      }
      UntouchedKeepsFloat(w[1..], param, before);
    }
  }

  /** Axis writes are float writes to the gait's own three parameters, and an
      axis that is exactly 0 writes no parameter of its own. */
  lemma AxisWritesShape(dx: real, dy: real, xParam: Param, blend: Param, yParam: Param)
    ensures forall k :: 0 <= k < |AxisWrites(dx, dy, xParam, blend, yParam)| ==>
              AxisWrites(dx, dy, xParam, blend, yParam)[k].SetFloat? &&
              AxisWrites(dx, dy, xParam, blend, yParam)[k].param in {xParam, blend, yParam}
    ensures dx == 0.0 && xParam != yParam && xParam != blend ==> !Touches(AxisWrites(dx, dy, xParam, blend, yParam), xParam)
    ensures dy == 0.0 && yParam != xParam && yParam != blend ==> !Touches(AxisWrites(dx, dy, xParam, blend, yParam), yParam)
    ensures dx == 0.0 && dy == 0.0 ==> AxisWrites(dx, dy, xParam, blend, yParam) == []
  {
    var xs := SignWrites(dx, xParam, blend, 0.0);
    var ys := SignWrites(dy, yParam, blend, 1.0);
    var w := xs + ys;
    assert |xs| == 0 || |xs| == 2;
    assert |ys| == 0 || |ys| == 2;
    forall k | 0 <= k < |w|
      ensures w[k].SetFloat? && w[k].param in {xParam, blend, yParam}
      ensures dx == 0.0 ==> w[k] == ys[k]
      ensures dy == 0.0 ==> w[k] == xs[k]
    {
      if k < |xs| {
        assert w[k] == xs[k];
      } else {
        assert w[k] == ys[k - |xs|];
      }
    }
  }

  // ---------------------------------------------------------------------
  // The decision table

  /** Walk row: isRun is cleared and isWalk set, and nothing after them
      writes either flag. */
  lemma WalkRow(p: Pose, run: bool, walk: bool)
    requires Walks(p)
    ensures AnimationWrites(p)[..2] == [SetBool(IsRun, false), SetBool(IsWalk, true)]
    ensures BoolAfter(AnimationWrites(p), IsRun, run) == false
    ensures BoolAfter(AnimationWrites(p), IsWalk, walk) == true
  {
    var head := [SetBool(IsRun, false), SetBool(IsWalk, true)];
    var tail := AxisWrites(p.deltaX, p.deltaY, WalkingX, Walking, WalkingY);
    assert AnimationWrites(p) == head + tail;
    AxisWritesShape(p.deltaX, p.deltaY, WalkingX, Walking, WalkingY);
    BoolAfterAppend(head, tail, IsRun, run);
    BoolAfterAppend(head, tail, IsWalk, walk);
    UntouchedKeepsBool(tail, IsRun, false);
    UntouchedKeepsBool(tail, IsWalk, true);
  }

  /** Sprint row (reached only when the walk row does not apply): isRun is
      set and isWalk is left untouched, whatever it was. */
  lemma SprintRow(p: Pose, run: bool, walk: bool)
    requires !Walks(p) && Sprints(p)
    ensures AnimationWrites(p)[0] == SetBool(IsRun, true)
    ensures !Touches(AnimationWrites(p), IsWalk)
    ensures BoolAfter(AnimationWrites(p), IsRun, run) == true
    ensures BoolAfter(AnimationWrites(p), IsWalk, walk) == walk
  {
    var head := [SetBool(IsRun, true)];
    var tail := AxisWrites(p.deltaX, p.deltaY, RunningX, Running, RunningY);
    assert AnimationWrites(p) == head + tail;
    AxisWritesShape(p.deltaX, p.deltaY, RunningX, Running, RunningY);
    BoolAfterAppend(head, tail, IsRun, run);
    UntouchedKeepsBool(tail, IsRun, true);
    UntouchedKeepsBool(head + tail, IsWalk, walk);
  }

  /** Zero movement or being airborne clears both flags and writes nothing else. */
  lemma ClearRow(p: Pose, run: bool, walk: bool)
    requires !Moving(p) || !p.grounded
    ensures AnimationWrites(p) == [SetBool(IsWalk, false), SetBool(IsRun, false)]
    ensures BoolAfter(AnimationWrites(p), IsRun, run) == false
    ensures BoolAfter(AnimationWrites(p), IsWalk, walk) == false
  {
    BoolAfterPair(SetBool(IsWalk, false), SetBool(IsRun, false), IsRun, run);
    BoolAfterPair(SetBool(IsWalk, false), SetBool(IsRun, false), IsWalk, walk);
  }

  /** Grounded and moving at a target speed that is neither MoveSpeed nor
      SprintSpeed: no row applies and nothing is written. */
  lemma NoRow(p: Pose)
    requires p.grounded && Moving(p)
    requires p.targetSpeed != p.moveSpeed && p.targetSpeed != p.sprintSpeed
    ensures AnimationWrites(p) == []
  {
  }

  /** After a grounded Move whose input left the deadzone, _movement is the
      unit forward vector and _targetSpeed the selected speed, so a gait row
      fires: walking without shift, and with shift sprinting, unless
      SprintSpeed equals MoveSpeed, in which case the walk row wins. */
  lemma MovingGait(p: Pose, sprintHeld: bool)
    requires p.grounded && IsPlanarUnit(p.movement)
    requires p.targetSpeed == SelectSpeed(sprintHeld, p.moveSpeed, p.sprintSpeed)
    ensures !sprintHeld ==> Walks(p)
    ensures sprintHeld && p.moveSpeed != p.sprintSpeed ==> !Walks(p) && Sprints(p)
    ensures sprintHeld && p.moveSpeed == p.sprintSpeed ==> Walks(p)
    ensures AnimationWrites(p) != [] && AnimationWrites(p)[0] == SetBool(IsRun, !Walks(p))
  {
  }

  /** An axis value of exactly 0 writes no axis parameter of its own, in
      either gait; with both axes 0 only the flags are written. */
  lemma ZeroAxisWritesNothing(p: Pose)
    ensures p.deltaX == 0.0 ==> !Touches(AnimationWrites(p), WalkingX) && !Touches(AnimationWrites(p), RunningX)
    ensures p.deltaY == 0.0 ==> !Touches(AnimationWrites(p), WalkingY) && !Touches(AnimationWrites(p), RunningY)
    ensures p.deltaX == 0.0 && p.deltaY == 0.0 ==>
              forall k :: 0 <= k < |AnimationWrites(p)| ==> AnimationWrites(p)[k].SetBool?
  {
    AxisWritesShape(p.deltaX, p.deltaY, WalkingX, Walking, WalkingY);
    AxisWritesShape(p.deltaX, p.deltaY, RunningX, Running, RunningY);
  }

  /** While walking, "Walking X" ends as the sign of deltaX (1 when
      positive, 0 when negative, untouched when 0), and the shared "Walking"
      blend ends as 1 whenever deltaY is non-zero, because the Y writes come
      after the X writes. */
  lemma WalkBlend(p: Pose, x: real, blend: real)
    requires Walks(p)
    ensures FloatAfter(AnimationWrites(p), WalkingX, x)
            == if p.deltaX > 0.0 then 1.0 else if p.deltaX < 0.0 then 0.0 else x
    ensures FloatAfter(AnimationWrites(p), Walking, blend)
            == if p.deltaY != 0.0 then 1.0 else if p.deltaX != 0.0 then 0.0 else blend
  {
    var head := [SetBool(IsRun, false), SetBool(IsWalk, true)];
    var xs := if p.deltaX > 0.0 then [SetFloat(WalkingX, 1.0), SetFloat(Walking, 0.0)]
              else if p.deltaX < 0.0 then [SetFloat(WalkingX, 0.0), SetFloat(Walking, 0.0)]
              else [];
    var ys := if p.deltaY > 0.0 then [SetFloat(WalkingY, 1.0), SetFloat(Walking, 1.0)]
              else if p.deltaY < 0.0 then [SetFloat(WalkingY, 0.0), SetFloat(Walking, 1.0)]
              else [];
    assert AnimationWrites(p) == head + (xs + ys);
    FloatAfterAppend(head, xs + ys, WalkingX, x);
    FloatAfterAppend(xs, ys, WalkingX, x);
    FloatAfterAppend(head, xs + ys, Walking, blend);
    FloatAfterAppend(xs, ys, Walking, blend);
    FloatAfterPair(head[0], head[1], WalkingX, x);
    FloatAfterPair(head[0], head[1], Walking, blend);
    if xs != [] {
      FloatAfterPair(xs[0], xs[1], WalkingX, x);
      FloatAfterPair(xs[0], xs[1], Walking, blend);
    }
    var x1 := FloatAfter(xs, WalkingX, x);
    var b1 := FloatAfter(xs, Walking, blend);
    if ys != [] {
      FloatAfterPair(ys[0], ys[1], WalkingX, x1);
      FloatAfterPair(ys[0], ys[1], Walking, b1);
    }
  }
}
