/**
 * GravityShift: the preview / apply / discard cycle for changing the
 * direction of gravity. Vectors are exact reals; the engine's angle between
 * two vectors and the camera-derived directions are inputs.
 */
module Gravity {
  import opened Options

  datatype Vec3 = Vec3(x: real, y: real, z: real)

  const Zero := Vec3(0.0, 0.0, 0.0)
  const Right := Vec3(1.0, 0.0, 0.0)
  const Left := Vec3(-1.0, 0.0, 0.0)
  const Up := Vec3(0.0, 1.0, 0.0)
  const Down := Vec3(0.0, -1.0, 0.0)
  const Forward := Vec3(0.0, 0.0, 1.0)
  const Back := Vec3(0.0, 0.0, -1.0)

  /** The six world axes, in the order the selection scans them. */
  const WorldAxes: seq<Vec3> := [Right, Left, Up, Down, Forward, Back]

  /** `float.MaxValue`, the starting value of the smallest angle seen. */
  const FloatMax: real := 340282346638528859811704183484516925440.0

  /** Unity's `Vector3 ==` holds when the squared distance is below Epsilon * Epsilon. */
  const Epsilon: real := 0.00001

  function Abs(r: real): real
  {
    if r < 0.0 then -r else r
  }

  function Neg(v: Vec3): Vec3
  {
    Vec3(-v.x, -v.y, -v.z)
  }

  function SqrDistance(a: Vec3, b: Vec3): real
  {
    (a.x - b.x) * (a.x - b.x) + (a.y - b.y) * (a.y - b.y) + (a.z - b.z) * (a.z - b.z)
  }

  /** Unity's `Vector3 ==`: symmetric, and implied by exact equality. */
  predicate ApproxEqual(a: Vec3, b: Vec3): (r: bool)
    ensures r <==> SqrDistance(b, a) < Epsilon * Epsilon
    ensures a == b ==> r
  {
    SqrDistance(a, b) < Epsilon * Epsilon
  }

  /** An input callback: whether the action was performed, and its 2D value. */
  datatype InputContext = InputContext(performed: bool, x: real, y: real)

  /** The preview accepts only cardinal directions or (0, 0): both components within [-1, 1]
      and at least one of them zero. */
  predicate IsAcceptedInput(x: real, y: real): (r: bool)
    ensures r <==> (y == 0.0 && -1.0 <= x <= 1.0) || (x == 0.0 && -1.0 <= y <= 1.0)
  {
    Abs(x) <= 1.0 && Abs(y) <= 1.0 && (x == 0.0 || y == 0.0)
  }

  /** The direction AlignHologramPreview snaps to a world axis for a recorded input, if any:
      right and left follow the camera's right vector, forward and back its forward vector
      projected onto the plane normal to gravity. */
  function AlignAxisFor(input: Vec3, camRight: Vec3, projectedForward: Vec3): (r: Option<Vec3>)
    ensures r.Some? ==> r.value in [camRight, Neg(camRight), projectedForward, Neg(projectedForward)]
  {
    if ApproxEqual(input, Right) then Some(camRight)
    else if ApproxEqual(input, Left) then Some(Neg(camRight))
    else if ApproxEqual(input, Forward) then Some(projectedForward)
    else if ApproxEqual(input, Back) then Some(Neg(projectedForward))
    else None
  }

  /** An accepted input's nonzero component is within Epsilon of plus or minus one. */
  predicate NearUnit(x: real, y: real)
  {
    (y == 0.0 && Abs(x) > 1.0 - Epsilon) || (x == 0.0 && Abs(y) > 1.0 - Epsilon)
  }

  /** The angles from `alignAxis` to each world axis, in scan order. */
  function Angles(alignAxis: Vec3, angle: (Vec3, Vec3) -> real): (a: seq<real>)
    ensures |a| == |WorldAxes| && forall i :: 0 <= i < |a| ==> a[i] == angle(alignAxis, WorldAxes[i])
  {
    seq(|WorldAxes|, i requires 0 <= i < |WorldAxes| => angle(alignAxis, WorldAxes[i]))
  }

  /** `k` is the first position of the minimum of `a`, and that minimum is below FloatMax. */
  predicate IsFirstMinimum(a: seq<real>, k: int)
  {
    && 0 <= k < |a| && a[k] < FloatMax
    && (forall j :: 0 <= j < k ==> a[k] < a[j])
    && (forall j :: k < j < |a| ==> a[k] <= a[j])
  }

  /** The axis the selection keeps for the angles `a`: the first one of smallest angle, or up when
      no angle is below FloatMax. */
  predicate IsClosestAxis(a: seq<real>, axis: Vec3)
    requires |a| == |WorldAxes|
  {
    || (exists k :: 0 <= k < |a| && IsFirstMinimum(a, k) && axis == WorldAxes[k])
    || ((forall j :: 0 <= j < |a| ==> a[j] >= FloatMax) && axis == Up)
  }

  /** The scan of AlignYAxisToClosestWorldAxis: a running minimum replaced only by a strictly
      smaller angle. */
  method ClosestWorldAxis(alignAxis: Vec3, angle: (Vec3, Vec3) -> real) returns (closest: Vec3)
    ensures IsClosestAxis(Angles(alignAxis, angle), closest)
    ensures closest in WorldAxes
  {
    ghost var a := Angles(alignAxis, angle);
    var smallestAngle := FloatMax;
    closest := Up;
    ghost var best := -1;
    for i := 0 to |WorldAxes|
      invariant best == -1 ==> closest == Up && smallestAngle == FloatMax
      invariant best == -1 ==> forall j :: 0 <= j < i ==> a[j] >= FloatMax
      invariant best != -1 ==> 0 <= best < i && closest == WorldAxes[best] && smallestAngle == a[best]
      invariant best != -1 ==> IsFirstMinimum(a[..i], best)
    {
      var current := angle(alignAxis, WorldAxes[i]);
      assert current == a[i] && a[..i + 1] == a[..i] + [a[i]];
      if current < smallestAngle {
        smallestAngle := current;
        closest := WorldAxes[i];
        best := i;
      }
    }
    assert a[..|WorldAxes|] == a;
  }

  /** At most one axis satisfies the selection rule, so it is a function of the angles. */
  lemma ClosestAxisUnique(a: seq<real>, p: Vec3, q: Vec3)
    requires |a| == |WorldAxes|
    requires IsClosestAxis(a, p) && IsClosestAxis(a, q)
    ensures p == q
  {
  }

  /** Ties go to the axis scanned first: six equal angles select right. */
  lemma EqualAnglesSelectRight(a: seq<real>)
    requires |a| == |WorldAxes| && a[0] < FloatMax
    requires forall j :: 0 <= j < |a| ==> a[j] == a[0]
    ensures IsClosestAxis(a, Right)
    ensures forall axis :: IsClosestAxis(a, axis) ==> axis == Right
  {
    assert IsFirstMinimum(a, 0);
    forall axis | IsClosestAxis(a, axis)
      ensures axis == Right
    {
      ClosestAxisUnique(a, axis, Right);
    }
  }

  /** The four exact unit inputs each select their own camera direction; (0, 0) and a fractional
      input such as (0.5, 0) are accepted but select nothing. */
  lemma SelectingExamples(camRight: Vec3, projectedForward: Vec3)
    ensures AlignAxisFor(Right, camRight, projectedForward) == Some(camRight)
    ensures AlignAxisFor(Left, camRight, projectedForward) == Some(Neg(camRight))
    ensures AlignAxisFor(Forward, camRight, projectedForward) == Some(projectedForward)
    ensures AlignAxisFor(Back, camRight, projectedForward) == Some(Neg(projectedForward))
    ensures IsAcceptedInput(0.0, 0.0) && AlignAxisFor(Zero, camRight, projectedForward) == None
    ensures IsAcceptedInput(0.5, 0.0) && AlignAxisFor(Vec3(0.5, 0.0, 0.0), camRight, projectedForward) == None
  {
    var half := Vec3(0.5, 0.0, 0.0);
    assert SqrDistance(Left, Right) == 4.0 && SqrDistance(Back, Forward) == 4.0;
    assert SqrDistance(Forward, Right) == 2.0 && SqrDistance(Forward, Left) == 2.0;
    assert SqrDistance(Back, Right) == 2.0 && SqrDistance(Back, Left) == 2.0;
    assert SqrDistance(Zero, Right) == 1.0 && SqrDistance(Zero, Left) == 1.0;
    assert SqrDistance(Zero, Forward) == 1.0 && SqrDistance(Zero, Back) == 1.0;
    assert SqrDistance(half, Right) == 0.25 && SqrDistance(half, Left) == 2.25;
    assert SqrDistance(half, Forward) == 1.25 && SqrDistance(half, Back) == 1.25;
  }

  lemma SquareBelow(d: real)
    ensures d * d < Epsilon * Epsilon <==> Abs(d) < Epsilon
  {
    if Abs(d) >= Epsilon {
      assert d * d == Abs(d) * Abs(d);
      assert Abs(d) * Abs(d) >= Epsilon * Abs(d) >= Epsilon * Epsilon;
    } else {
      assert d * d == Abs(d) * Abs(d);
      assert Abs(d) * Abs(d) <= Abs(d) * Epsilon;
      assert Abs(d) * Epsilon < Epsilon * Epsilon;
    }
  }

  /** Whether an input selects anything depends only on its distance to the four directions. */
  lemma SelectsWhenNear(v: Vec3, camRight: Vec3, projectedForward: Vec3)
    ensures AlignAxisFor(v, camRight, projectedForward).Some?
      <==> ApproxEqual(v, Right) || ApproxEqual(v, Left) || ApproxEqual(v, Forward) || ApproxEqual(v, Back)
  {
  }

  lemma NearSideways(x: real)
    requires Abs(x) <= 1.0
    ensures ApproxEqual(Vec3(x, 0.0, 0.0), Right) || ApproxEqual(Vec3(x, 0.0, 0.0), Left) <==> Abs(x) > 1.0 - Epsilon
    ensures !ApproxEqual(Vec3(x, 0.0, 0.0), Forward) && !ApproxEqual(Vec3(x, 0.0, 0.0), Back)
  {
    var v := Vec3(x, 0.0, 0.0);
    SquareBelow(x - 1.0);
    SquareBelow(x + 1.0);
    assert SqrDistance(v, Right) == (x - 1.0) * (x - 1.0);
    assert SqrDistance(v, Left) == (x + 1.0) * (x + 1.0);
    assert SqrDistance(v, Forward) >= 1.0 && SqrDistance(v, Back) >= 1.0;
  }

  lemma NearAhead(y: real)
    requires Abs(y) <= 1.0
    ensures ApproxEqual(Vec3(0.0, 0.0, y), Forward) || ApproxEqual(Vec3(0.0, 0.0, y), Back) <==> Abs(y) > 1.0 - Epsilon
    ensures !ApproxEqual(Vec3(0.0, 0.0, y), Right) && !ApproxEqual(Vec3(0.0, 0.0, y), Left)
  {
    var v := Vec3(0.0, 0.0, y);
    SquareBelow(y - 1.0);
    SquareBelow(y + 1.0);
    assert SqrDistance(v, Forward) == (y - 1.0) * (y - 1.0);
    assert SqrDistance(v, Back) == (y + 1.0) * (y + 1.0);
    assert SqrDistance(v, Right) >= 1.0 && SqrDistance(v, Left) >= 1.0;
  }

  /** Among accepted inputs (x, y), recorded as (x, 0, y), exactly those whose nonzero component is
      within Epsilon of plus or minus one select a new axis. */
  lemma SelectingAcceptedInputs(x: real, y: real, camRight: Vec3, projectedForward: Vec3)
    requires IsAcceptedInput(x, y)
    ensures AlignAxisFor(Vec3(x, 0.0, y), camRight, projectedForward).Some? <==> NearUnit(x, y)
  {
    SelectsWhenNear(Vec3(x, 0.0, y), camRight, projectedForward);
    if y == 0.0 {
      NearSideways(x);
    } else {
      NearAhead(y);
    }
  }

  class GravityShift {
    var gravityDirection: Vec3
    var hologramDirection: Vec3
    var inputDirection: Vec3
    var hologramActive: bool
    /** Whether some alignment has chosen the hologram's direction yet. */
    ghost var aligned: bool

    ghost predicate Valid()
      reads this
    {
      && (aligned ==> hologramDirection in WorldAxes)
      && (!aligned ==> hologramDirection == Zero)
      && (gravityDirection == Zero || gravityDirection in WorldAxes)
    }

    /** Vector fields start at their zero defaults; the hologram is as the scene placed it. */
    constructor (hologramActive: bool)
      ensures Valid() && !aligned && this.hologramActive == hologramActive
      ensures gravityDirection == Zero && hologramDirection == Zero && inputDirection == Zero
    {
      gravityDirection, hologramDirection, inputDirection := Zero, Zero, Zero;
      this.hologramActive := hologramActive;
      aligned := false;
    }

    /** Gravity points down and the hologram is hidden. */
    method Awake()
      requires Valid()
      modifies this
      ensures Valid() && gravityDirection == Down && !hologramActive
      ensures hologramDirection == old(hologramDirection) && inputDirection == old(inputDirection) && aligned == old(aligned)
    {
      gravityDirection := Down;
      hologramActive := false;
    }

    /** The direction gravity pulls: zero or a world axis. */
    function GravityDirection(): (g: Vec3)
      reads this
      requires Valid()
      ensures g == Zero || g in WorldAxes
    {
      gravityDirection
    }

    method OnGravityShiftPreview(ctx: InputContext, camRight: Vec3, projectedForward: Vec3, angle: (Vec3, Vec3) -> real)
      requires Valid()
      modifies this
      ensures Valid() && gravityDirection == old(gravityDirection)
      ensures !ctx.performed || !IsAcceptedInput(ctx.x, ctx.y) ==>
        hologramActive == old(hologramActive) && inputDirection == old(inputDirection)
        && hologramDirection == old(hologramDirection) && aligned == old(aligned)
      ensures ctx.performed && IsAcceptedInput(ctx.x, ctx.y) ==>
        hologramActive && inputDirection == Vec3(ctx.x, 0.0, ctx.y)
        && match AlignAxisFor(inputDirection, camRight, projectedForward)
           case None => hologramDirection == old(hologramDirection) && aligned == old(aligned)
           case Some(axis) => aligned && IsClosestAxis(Angles(axis, angle), hologramDirection)
    {
      if !ctx.performed {
        return;
      }
      if !IsAcceptedInput(ctx.x, ctx.y) {
        return;
      }
      inputDirection := Vec3(ctx.x, 0.0, ctx.y);
      hologramActive := true;
      AlignHologramPreview(camRight, projectedForward, angle);
    }

    method AlignHologramPreview(camRight: Vec3, projectedForward: Vec3, angle: (Vec3, Vec3) -> real)
      requires Valid()
      modifies this
      ensures Valid() && gravityDirection == old(gravityDirection)
      ensures hologramActive == old(hologramActive) && inputDirection == old(inputDirection)
      ensures match AlignAxisFor(inputDirection, camRight, projectedForward)
        case None => hologramDirection == old(hologramDirection) && aligned == old(aligned)
        case Some(axis) => aligned && IsClosestAxis(Angles(axis, angle), hologramDirection)
    {
      if ApproxEqual(inputDirection, Right) {
        AlignYAxisToClosestWorldAxis(camRight, angle);
      } else if ApproxEqual(inputDirection, Left) {
        AlignYAxisToClosestWorldAxis(Neg(camRight), angle);
      } else if ApproxEqual(inputDirection, Forward) {
        AlignYAxisToClosestWorldAxis(projectedForward, angle);
      } else if ApproxEqual(inputDirection, Back) {
        AlignYAxisToClosestWorldAxis(Neg(projectedForward), angle);
      }
    }

    /** The hologram takes the world axis closest to `alignAxis`. */
    method AlignYAxisToClosestWorldAxis(alignAxis: Vec3, angle: (Vec3, Vec3) -> real)
      requires Valid()
      modifies this
      ensures Valid() && aligned && hologramDirection in WorldAxes
      ensures IsClosestAxis(Angles(alignAxis, angle), hologramDirection)
      ensures gravityDirection == old(gravityDirection) && hologramActive == old(hologramActive)
      ensures inputDirection == old(inputDirection)
    {
      hologramDirection := ClosestWorldAxis(alignAxis, angle);
      aligned := true;
    }

    method OnDiscardGravityShiftPreview()
      requires Valid()
      modifies this
      ensures Valid() && !hologramActive
      ensures gravityDirection == old(gravityDirection) && hologramDirection == old(hologramDirection)
      ensures inputDirection == old(inputDirection) && aligned == old(aligned)
    {
      hologramActive := false;
    }

    /** Only a visible preview can be applied; applying an aligned preview leaves gravity on a world axis. */
    method OnApplyGravityShift()
      requires Valid()
      modifies this
      ensures Valid() && hologramDirection == old(hologramDirection) && inputDirection == old(inputDirection)
      ensures aligned == old(aligned) && !hologramActive
      ensures old(hologramActive) ==> gravityDirection == old(hologramDirection)
      ensures !old(hologramActive) ==> gravityDirection == old(gravityDirection)
      ensures old(hologramActive) && old(aligned) ==> gravityDirection in WorldAxes
    {
      if hologramActive {
        ShiftGravity();
      }
    }

    method ShiftGravity()
      requires Valid()
      modifies this
      ensures Valid() && gravityDirection == old(hologramDirection) && !hologramActive
      ensures hologramDirection == old(hologramDirection) && inputDirection == old(inputDirection)
      ensures aligned == old(aligned)
    {
      gravityDirection := hologramDirection;
      hologramActive := false;
    }
  }

  /** Previewing with (0, 0) shows the hologram without aligning it, so applying it right after
      start-up copies the hologram's zero default into the gravity direction. */
  method ApplyBeforeAnyAlignment(camRight: Vec3, projectedForward: Vec3, angle: (Vec3, Vec3) -> real) returns (g: Vec3)
    ensures g == Zero
  {
    var shift := new GravityShift(false);
    shift.Awake();
    shift.OnGravityShiftPreview(InputContext(true, 0.0, 0.0), camRight, projectedForward, angle);
    shift.OnApplyGravityShift();
    g := shift.GravityDirection();
  }

  /** Previewing right and applying puts gravity on the world axis closest to the camera's right. */
  method ApplyAfterRightPreview(camRight: Vec3, projectedForward: Vec3, angle: (Vec3, Vec3) -> real) returns (g: Vec3)
    ensures g in WorldAxes && IsClosestAxis(Angles(camRight, angle), g)
  {
    var shift := new GravityShift(false);
    shift.Awake();
    shift.OnGravityShiftPreview(InputContext(true, 1.0, 0.0), camRight, projectedForward, angle);
    shift.OnApplyGravityShift();
    g := shift.GravityDirection();
  }
}
