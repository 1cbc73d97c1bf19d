/** Exact real-valued 3-D vectors, 3x3 matrices and the affine steps of a
    post-multiplied `vtkTransform`: enough to state the mirror tool's
    reflection algebra. The C++ code computes in `double`; here the same
    formulas are evaluated over the reals. */
module Geometry {

  datatype Vec3 = Vec3(x: real, y: real, z: real)

  const Zero: Vec3 := Vec3(0.0, 0.0, 0.0)

  function Add(a: Vec3, b: Vec3): Vec3 {
    Vec3(a.x + b.x, a.y + b.y, a.z + b.z)
  }

  function Sub(a: Vec3, b: Vec3): Vec3 {
    Vec3(a.x - b.x, a.y - b.y, a.z - b.z)
  }

  function Scale(v: Vec3, k: real): Vec3 {
    Vec3(k * v.x, k * v.y, k * v.z)
  }

  function Neg(v: Vec3): Vec3 {
    Vec3(-v.x, -v.y, -v.z)
  }

  function Dot(a: Vec3, b: Vec3): real {
    a.x * b.x + a.y * b.y + a.z * b.z
  }

  /** Component i (0, 1 or 2) of a vector. */
  function Component(v: Vec3, i: nat): real
    requires i < 3
  {
    if i == 0 then v.x else if i == 1 then v.y else v.z
  }

  /** A plane by a point on it and its normal, as `vtkPlane` holds it. */
  datatype Plane = Plane(origin: Vec3, normal: Vec3)

  /** A 3x3 matrix stored by rows. */
  datatype Mat3 = Mat3(r0: Vec3, r1: Vec3, r2: Vec3)

  function Row(m: Mat3, i: nat): Vec3
    requires i < 3
  {
    if i == 0 then m.r0 else if i == 1 then m.r1 else m.r2
  }

  function Entry(m: Mat3, i: nat, j: nat): real
    requires i < 3 && j < 3
  {
    Component(Row(m, i), j)
  }

  function MulVec(m: Mat3, v: Vec3): Vec3 {
    Vec3(Dot(m.r0, v), Dot(m.r1, v), Dot(m.r2, v))
  }

  /** The mirror matrix the mirror tool fills in element by element. */
  function ReflectionMatrix(n: Vec3): Mat3 {
    Mat3(
      Vec3(1.0 - 2.0 * n.x * n.x, -2.0 * n.x * n.y, -2.0 * n.x * n.z),
      Vec3(-2.0 * n.x * n.y, 1.0 - 2.0 * n.y * n.y, -2.0 * n.y * n.z),
      Vec3(-2.0 * n.x * n.z, -2.0 * n.y * n.z, 1.0 - 2.0 * n.z * n.z))
  }

  /** Every entry of the mirror matrix is the Householder entry
      delta(i, j) - 2 n_i n_j, so the matrix is symmetric. */
  lemma ReflectionIsHouseholder(n: Vec3)
    ensures forall i: nat, j: nat :: i < 3 && j < 3 ==>
      Entry(ReflectionMatrix(n), i, j)
        == (if i == j then 1.0 else 0.0) - 2.0 * Component(n, i) * Component(n, j)
    ensures forall i: nat, j: nat :: i < 3 && j < 3 ==>
      Entry(ReflectionMatrix(n), i, j) == Entry(ReflectionMatrix(n), j, i)
  {
  }

  /** Multiplying by the mirror matrix subtracts twice the component along n. */
  lemma ReflectionApplied(n: Vec3, v: Vec3)
    ensures MulVec(ReflectionMatrix(n), v) == Sub(v, Scale(n, 2.0 * Dot(n, v)))
  {
    var m := ReflectionMatrix(n);
    var s := Sub(v, Scale(n, 2.0 * Dot(n, v)));
    FirstRow(n, v);
    SecondRow(n, v);
    ThirdRow(n, v);
    assert MulVec(m, v) == Vec3(s.x, s.y, s.z);
  }

  /** The three rows of the product, one coordinate each. */
  lemma FirstRow(n: Vec3, v: Vec3)
    ensures Dot(ReflectionMatrix(n).r0, v) == v.x - (2.0 * Dot(n, v)) * n.x
  {
    var k := Dot(n, v);
    assert (2.0 * k) * n.x == 2.0 * n.x * n.x * v.x + 2.0 * n.x * n.y * v.y + 2.0 * n.x * n.z * v.z;
  }

  lemma SecondRow(n: Vec3, v: Vec3)
    ensures Dot(ReflectionMatrix(n).r1, v) == v.y - (2.0 * Dot(n, v)) * n.y
  {
    var k := Dot(n, v);
    assert (2.0 * k) * n.y == 2.0 * n.x * n.y * v.x + 2.0 * n.y * n.y * v.y + 2.0 * n.y * n.z * v.z;
  }

  lemma ThirdRow(n: Vec3, v: Vec3)
    ensures Dot(ReflectionMatrix(n).r2, v) == v.z - (2.0 * Dot(n, v)) * n.z
  {
    var k := Dot(n, v);
    assert (2.0 * k) * n.z == 2.0 * n.x * n.z * v.x + 2.0 * n.y * n.z * v.y + 2.0 * n.z * n.z * v.z;
  }

  /** One operation concatenated onto a `vtkTransform`. */
  datatype AffineStep = Translate(offset: Vec3) | Linear(m: Mat3)

  function ApplyStep(step: AffineStep, p: Vec3): Vec3 {
    match step
    case Translate(t) => Add(p, t)
    case Linear(m) => MulVec(m, p)
  }

  /** A transform in post-multiply mode: each concatenated operation is applied
      after the ones concatenated before it, so the first step acts first. */
  function ApplySteps(steps: seq<AffineStep>, p: Vec3): Vec3
    decreases |steps|
  {
    if |steps| == 0 then p
    else ApplySteps(steps[1..], ApplyStep(steps[0], p))
  }

  /** The mirror transform as the tool builds it: reset to identity, translate
      by minus the plane origin, concatenate the mirror matrix, translate by the
      origin. */
  function MirrorSteps(plane: Plane): seq<AffineStep> {
    [Translate(Neg(plane.origin)), Linear(ReflectionMatrix(plane.normal)), Translate(plane.origin)]
  }

  /** Reflection of a point through the plane with the Householder formula. */
  function Reflect(plane: Plane, p: Vec3): Vec3 {
    var d := Sub(p, plane.origin);
    Add(Sub(d, Scale(plane.normal, 2.0 * Dot(plane.normal, d))), plane.origin)
  }

  /** Because the transform is post-multiplied, the three steps compute
      x |-> M (x - o) + o. */
  lemma MirrorStepsReflect(plane: Plane, p: Vec3)
    ensures ApplySteps(MirrorSteps(plane), p)
         == Add(MulVec(ReflectionMatrix(plane.normal), Sub(p, plane.origin)), plane.origin)
    ensures ApplySteps(MirrorSteps(plane), p) == Reflect(plane, p)
  {
    var s := MirrorSteps(plane);
    var p1 := Add(p, Neg(plane.origin));
    var p2 := MulVec(ReflectionMatrix(plane.normal), p1);
    assert p1 == Sub(p, plane.origin);
    assert ApplySteps(s, p) == ApplySteps(s[1..], p1);
    assert ApplySteps(s[1..], p1) == ApplySteps(s[2..], p2);
    assert ApplySteps(s[2..], p2) == ApplySteps(s[3..], Add(p2, plane.origin));
    ReflectionApplied(plane.normal, p1);
  }

  /** Points of the mirror plane, the origin among them, stay where they are. */
  lemma MirrorFixesPlane(plane: Plane, p: Vec3)
    requires Dot(Sub(p, plane.origin), plane.normal) == 0.0
    ensures ApplySteps(MirrorSteps(plane), p) == p
  {
    MirrorStepsReflect(plane, p);
  }

  lemma DotAlongNormal(n: Vec3, d: Vec3, c: real)
    ensures Dot(n, Sub(d, Scale(n, c))) == Dot(n, d) - c * Dot(n, n)
  {
    assert n.x * (d.x - c * n.x) == n.x * d.x - c * (n.x * n.x);
    assert n.y * (d.y - c * n.y) == n.y * d.y - c * (n.y * n.y);
    assert n.z * (d.z - c * n.z) == n.z * d.z - c * (n.z * n.z);
  }

  lemma SubAlongNormalTwice(n: Vec3, d: Vec3, c: real)
    ensures Sub(Sub(d, Scale(n, c)), Scale(n, -c)) == d
  {
  }

  /** For a unit normal, mirroring twice gives back the original point. */
  lemma MirrorInvolution(plane: Plane, p: Vec3)
    requires Dot(plane.normal, plane.normal) == 1.0
    ensures ApplySteps(MirrorSteps(plane), ApplySteps(MirrorSteps(plane), p)) == p
  {
    var n := plane.normal;
    var o := plane.origin;
    var q := ApplySteps(MirrorSteps(plane), p);
    MirrorStepsReflect(plane, p);
    MirrorStepsReflect(plane, q);
    var d := Sub(p, o);
    var k := Dot(n, d);
    var e := Sub(d, Scale(n, 2.0 * k));
    assert q == Add(e, o);
    assert Sub(q, o) == e;
    DotAlongNormal(n, d, 2.0 * k);
    assert Dot(n, e) == -k;
    assert 2.0 * Dot(n, e) == -(2.0 * k);
    SubAlongNormalTwice(n, d, 2.0 * k);
    assert Sub(e, Scale(n, 2.0 * Dot(n, e))) == d;
  }

  /** For a unit normal, the point one normal in front of the plane lands one
      normal behind it. */
  lemma MirrorFlipsNormalSide(plane: Plane)
    requires Dot(plane.normal, plane.normal) == 1.0
    ensures ApplySteps(MirrorSteps(plane), Add(plane.origin, plane.normal))
         == Sub(plane.origin, plane.normal)
  {
    MirrorStepsReflect(plane, Add(plane.origin, plane.normal));
    assert Sub(Add(plane.origin, plane.normal), plane.origin) == plane.normal;
  }
}
