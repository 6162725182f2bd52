/**
 * The shared geometry types of the kinematics and trajectory code: points and
 * rotations (plain values), the joint-angle vector (a fixed array of seven
 * slots updated in place), poses and trajectory nodes (objects whose fields
 * the operators overwrite).
 *
 * Floating-point numbers are modelled as reals.
 */
module Spatial {

  /** Number of actuators, and so of slots in a joint-angle vector. */
  const NumberOfActuators: nat := 7

  /** Slot of the gripper in a joint-angle vector. */
  const Gripper: nat := 6

  /** Tolerance of the tolerant comparisons (a positive constant). */
  const FloatPrecision: real := 0.00001

  /** Pi as a decimal constant, for the conversion from degrees to radians. */
  const Pi: real := 3.14159265358979323846

  function Radians(degrees: real): real
  {
    degrees * Pi / 180.0
  }

  function Abs(x: real): (r: real)
    ensures r >= 0.0 && (r == x || r == -x)
  {
    if x < 0.0 then -x else x
  }

  /** almostEqual: the two values differ by less than `precision`. */
  predicate AlmostEqual(a: real, b: real, precision: real)
  {
    Abs(a - b) < precision
  }

  // ---------------------------------------------------------------------------
  // Point and Rotation
  // ---------------------------------------------------------------------------

  /** A position or translation; a Rotation is the same triple read as roll, nick and yaw. */
  datatype Point = Point(x: real, y: real, z: real)

  type Rotation = Point

  const NullPoint := Point(0.0, 0.0, 0.0)

  /** Point[idx]: 0, 1 and 2 select x, y and z; every other index falls back to x. */
  function Coord(p: Point, idx: int): (r: real)
    ensures r == [p.x, p.y, p.z][Slot(idx)]
    ensures !(0 <= idx < 3) ==> r == p.x
  {
    if idx == 1 then p.y else if idx == 2 then p.z else p.x
  }

  /** The coordinate slot an index selects, with the fallback to x. */
  function Slot(idx: int): (s: nat)
    ensures s < 3
    ensures 0 <= idx < 3 ==> s == idx
    ensures !(0 <= idx < 3) ==> s == 0
  {
    if idx == 1 then 1 else if idx == 2 then 2 else 0
  }

  /** The indices 0, 1 and 2 read x, y and z. */
  lemma CoordinatesAreXYZ(p: Point)
    ensures Coord(p, 0) == p.x && Coord(p, 1) == p.y && Coord(p, 2) == p.z
  {
  }

  /** Writing through the reference Point[idx] returns: the selected slot gets `v`, the others stay. */
  function SetCoord(p: Point, idx: int, v: real): (r: Point)
    ensures Coord(r, idx) == v
    ensures forall k :: Slot(k) != Slot(idx) ==> Coord(r, k) == Coord(p, k)
  {
    if idx == 1 then p.(y := v) else if idx == 2 then p.(z := v) else p.(x := v)
  }

  /** Indexing reads the slot of the index, so two indices that select the same slot read the same value. */
  lemma CoordBySlot(p: Point, i: int, j: int)
    requires Slot(i) == Slot(j)
    ensures Coord(p, i) == Coord(p, j)
  {
  }

  /** Point ==: every coordinate agrees within FloatPrecision. */
  predicate PointEquals(p: Point, q: Point): (b: bool)
    ensures b <==> forall k :: 0 <= k < 3 ==> AlmostEqual(Coord(p, k), Coord(q, k), FloatPrecision)
  {
    CoordinatesAreXYZ(p);
    CoordinatesAreXYZ(q);
    AlmostEqual(p.x, q.x, FloatPrecision) && AlmostEqual(p.y, q.y, FloatPrecision) &&
    AlmostEqual(p.z, q.z, FloatPrecision)
  }

  /** Rotation ==: exact comparison of the three components, so it is identity. */
  predicate RotationEquals(r: Rotation, s: Rotation): (b: bool)
    ensures b <==> r == s
  {
    r.x == s.x && r.y == s.y && r.z == s.z
  }

  /** Point == is reflexive and symmetric. */
  lemma PointEqualsReflexiveSymmetric(p: Point, q: Point)
    ensures PointEquals(p, p)
    ensures PointEquals(p, q) <==> PointEquals(q, p)
  {
    assert Abs(p.x - q.x) == Abs(q.x - p.x);
    assert Abs(p.y - q.y) == Abs(q.y - p.y);
    assert Abs(p.z - q.z) == Abs(q.z - p.z);
  }

  /** Point == tolerates a difference below FloatPrecision, so it is coarser than identity. */
  lemma PointEqualsIsTolerant()
    ensures var p, q := Point(0.0, 0.0, 0.0), Point(FloatPrecision / 2.0, 0.0, 0.0);
      p != q && PointEquals(p, q)
  {
  }

  function PointAdd(p: Point, q: Point): Point
  {
    Point(p.x + q.x, p.y + q.y, p.z + q.z)
  }

  function PointSub(p: Point, q: Point): Point
  {
    Point(p.x - q.x, p.y - q.y, p.z - q.z)
  }

  function PointScale(p: Point, f: real): Point
  {
    Point(p.x * f, p.y * f, p.z * f)
  }

  function PointDivide(p: Point, f: real): Point
    requires f != 0.0
  {
    Point(p.x / f, p.y / f, p.z / f)
  }

  /** Reading one coordinate of a sum, difference, multiple or quotient. */
  lemma CoordOfArithmetic(p: Point, q: Point, f: real, i: int)
    ensures Coord(PointAdd(p, q), i) == Coord(p, i) + Coord(q, i)
    ensures Coord(PointSub(p, q), i) == Coord(p, i) - Coord(q, i)
    ensures Coord(PointScale(p, f), i) == Coord(p, i) * f
    ensures f != 0.0 ==> Coord(PointDivide(p, f), i) == Coord(p, i) / f
  {
  }

  /** A point is determined by its three coordinates 0, 1 and 2. */
  lemma PointByCoords(p: Point, q: Point)
    requires forall k :: 0 <= k < 3 ==> Coord(p, k) == Coord(q, k)
    ensures p == q
  {
    assert Coord(p, 0) == Coord(q, 0) && Coord(p, 1) == Coord(q, 1) && Coord(p, 2) == Coord(q, 2);
  }

  // ---------------------------------------------------------------------------
  // Joint-angle values
  // ---------------------------------------------------------------------------

  /** The value held by a JointAngles object: exactly one angle per actuator. */
  type AngleVector = s: seq<real> | |s| == NumberOfActuators
    witness [0.0, 0.0, 0.0, 0.0, 0.0, 0.0, 0.0]

  function Zeros(): AngleVector
  {
    [0.0, 0.0, 0.0, 0.0, 0.0, 0.0, 0.0]
  }

  /** setDefaultPosition: all joints straight, the gripper opened to 35 degrees. */
  function DefaultPosition(): AngleVector
  {
    [0.0, 0.0, 0.0, 0.0, 0.0, 0.0, Radians(35.0)]
  }

  /** JointAngles + */
  function Add(u: AngleVector, v: AngleVector): AngleVector
  {
    seq(NumberOfActuators, i requires 0 <= i < NumberOfActuators => u[i] + v[i])
  }

  /** JointAngles - */
  function Sub(u: AngleVector, v: AngleVector): AngleVector
  {
    seq(NumberOfActuators, i requires 0 <= i < NumberOfActuators => u[i] - v[i])
  }

  /** JointAngles * */
  function Scale(u: AngleVector, x: real): AngleVector
  {
    seq(NumberOfActuators, i requires 0 <= i < NumberOfActuators => u[i] * x)
  }

  /** JointAngles / */
  function Div(u: AngleVector, x: real): AngleVector
    requires x != 0.0
  {
    seq(NumberOfActuators, i requires 0 <= i < NumberOfActuators => u[i] / x)
  }

  /** JointAngles ==: no slot differs by more than FloatPrecision. */
  predicate AnglesEqual(u: AngleVector, v: AngleVector)
  {
    forall i :: 0 <= i < NumberOfActuators ==> Abs(u[i] - v[i]) <= FloatPrecision
  }

  /** JointAngles::isNull: every slot is exactly zero. */
  predicate IsZero(u: AngleVector)
  {
    forall i :: 0 <= i < NumberOfActuators ==> u[i] == 0.0
  }

  /** Adding and then subtracting the same vector gives back the original, slot by slot. */
  lemma AddSubCancel(u: AngleVector, v: AngleVector)
    ensures Sub(Add(u, v), v) == u
    ensures Add(Sub(u, v), v) == u
  {
    assert forall i :: 0 <= i < NumberOfActuators ==> Sub(Add(u, v), v)[i] == u[i];
    assert forall i :: 0 <= i < NumberOfActuators ==> Add(Sub(u, v), v)[i] == u[i];
  }

  /** Scaling by a non-zero factor and dividing by it gives back the original. */
  lemma ScaleDivCancel(u: AngleVector, x: real)
    requires x != 0.0
    ensures Div(Scale(u, x), x) == u
  {
    forall i | 0 <= i < NumberOfActuators
      ensures Div(Scale(u, x), x)[i] == u[i]
    {
      assert Scale(u, x)[i] / x == (u[i] * x) / x == u[i];
    }
  }

  /** JointAngles == is reflexive and symmetric. */
  lemma AnglesEqualReflexiveSymmetric(u: AngleVector, v: AngleVector)
    ensures AnglesEqual(u, u)
    ensures AnglesEqual(u, v) <==> AnglesEqual(v, u)
  {
    assert Abs(0.0) == 0.0;
    assert forall i :: 0 <= i < NumberOfActuators ==> Abs(u[i] - v[i]) == Abs(v[i] - u[i]);
  }

  /** JointAngles == is not transitive: small differences add up past the tolerance. */
  lemma AnglesEqualNotTransitive()
    ensures var u, v, w := Zeros(), Zeros()[Gripper := FloatPrecision], Zeros()[Gripper := 2.0 * FloatPrecision];
      AnglesEqual(u, v) && AnglesEqual(v, w) && !AnglesEqual(u, w)
  {
    var v := Zeros()[Gripper := FloatPrecision];
    var w := Zeros()[Gripper := 2.0 * FloatPrecision];
    assert forall i :: 0 <= i < Gripper ==> v[i] == 0.0 && w[i] == 0.0;
    assert Abs(Zeros()[Gripper] - w[Gripper]) > FloatPrecision;
  }

  /** The default position is not the null position: the gripper is opened. */
  lemma DefaultPositionIsNotNull()
    ensures IsZero(Zeros())
    ensures !IsZero(DefaultPosition())
    ensures forall i :: 0 <= i < Gripper ==> DefaultPosition()[i] == 0.0
  {
    assert DefaultPosition()[Gripper] != 0.0;
  }

  /** Mirroring an angle vector at `m` twice gives back the original. */
  lemma MirrorAnglesTwice(u: AngleVector, m: AngleVector)
    ensures Add(m, Sub(m, Add(m, Sub(m, u)))) == u
  {
    assert forall i :: 0 <= i < NumberOfActuators ==> Add(m, Sub(m, Add(m, Sub(m, u))))[i] == u[i];
  }

  /**
   * JointAngles::operator[]. The guard `(idx >= 0) || (idx < N)` is true for
   * every index, so the array is indexed unchecked: the caller has to pass an
   * index within the array.
   */
  predicate IndexGuardAsWritten(idx: int)
  {
    idx >= 0 || idx < NumberOfActuators
  }

  /** The guard as written lets every index through, an index past the end included. */
  lemma IndexGuardAlwaysTrue(idx: int)
    ensures IndexGuardAsWritten(idx)
    ensures IndexGuardAsWritten(NumberOfActuators) && !(0 <= NumberOfActuators < NumberOfActuators)
  {
  }

  /** The guard as evidently intended: only indices within the array. */
  predicate IndexGuard(idx: int)
  {
    idx >= 0 && idx < NumberOfActuators
  }

  /**
   * Reading with the intended guard: in-range slots, otherwise the static dummy.
   * The dummy is modelled as 0, the value it keeps while nothing is written
   * through the reference the operator returns.
   */
  function GetChecked(u: AngleVector, idx: int): (r: real)
    ensures IndexGuard(idx) ==> r == u[idx]
    ensures !(0 <= idx < NumberOfActuators) ==> r == 0.0
  {
    if IndexGuard(idx) then u[idx] else 0.0
  }

  /** The joint-angle vector: a fixed array with one angle per actuator. */
  class JointAngles {
    var a: array<real>

    ghost predicate Valid()
      reads this
    {
      a.Length == NumberOfActuators
    }

    /** The angles currently held. */
    function Value(): AngleVector
      requires Valid()
      reads this, a
    {
      a[..]
    }

    /** The default constructor: all slots zero. */
    constructor ()
      ensures Valid() && fresh(a)
      ensures Value() == Zeros()
    {
      a := new real[NumberOfActuators];
      new;
      Null();
    }

    /** The copy constructor. */
    constructor Copy(par: JointAngles)
      requires par.Valid()
      ensures Valid() && fresh(a)
      ensures Value() == par.Value()
    {
      var b := new real[NumberOfActuators];
      for i := 0 to NumberOfActuators
        invariant forall k :: 0 <= k < i ==> b[k] == par.a[k]
      {
        b[i] := par.a[i];
      }
      a := b;
    }

    /** operator=: copies every slot of `par`. */
    method Assign(par: JointAngles)
      requires Valid() && par.Valid()
      modifies a
      ensures Valid()
      ensures Value() == old(par.Value())
    {
      ghost var v := par.a[..];
      for i := 0 to NumberOfActuators
        invariant forall k :: 0 <= k < i ==> a[k] == v[k]
        invariant forall k :: i <= k < NumberOfActuators ==> par.a[k] == v[k]
      {
        a[i] := par.a[i];
      }
    }

    /** null: every slot becomes zero. */
    method Null()
      requires Valid()
      modifies a
      ensures Valid()
      ensures Value() == Zeros()
      ensures IsZero(Value())
    {
      for i := 0 to NumberOfActuators
        invariant forall k :: 0 <= k < i ==> a[k] == 0.0
      {
        a[i] := 0.0;
      }
    }

    /** isNull: true iff every slot is exactly zero. */
    method IsNull() returns (r: bool)
      requires Valid()
      ensures r <==> IsZero(Value())
      ensures r <==> Value() == Zeros()
    {
      for i := 0 to NumberOfActuators
        invariant forall k :: 0 <= k < i ==> a[k] == 0.0
      {
        if a[i] != 0.0 {
          return false;
        }
      }
      assert a[..] == Zeros();
      return true;
    }

    /** operator==: true iff no slot differs from `par` by more than FloatPrecision. */
    method Equals(par: JointAngles) returns (r: bool)
      requires Valid() && par.Valid()
      ensures r <==> AnglesEqual(Value(), par.Value())
    {
      for i := 0 to NumberOfActuators
        invariant forall k :: 0 <= k < i ==> Abs(a[k] - par.a[k]) <= FloatPrecision
      {
        if Abs(a[i] - par.a[i]) > FloatPrecision {
          return false;
        }
      }
      return true;
    }

    /** setDefaultPosition. */
    method SetDefaultPosition()
      requires Valid()
      modifies a
      ensures Valid()
      ensures Value() == DefaultPosition()
    {
      a[0] := 0.0;
      a[1] := 0.0;
      a[2] := 0.0;
      a[3] := 0.0;
      a[4] := 0.0;
      a[5] := 0.0;
      a[6] := Radians(35.0);
      assert a[..] == DefaultPosition();
    }

    /** getDefaultPosition: a new vector in the default position. */
    static method GetDefaultPosition() returns (ja: JointAngles)
      ensures fresh(ja) && fresh(ja.a) && ja.Valid()
      ensures ja.Value() == DefaultPosition()
    {
      ja := new JointAngles();
      ja.SetDefaultPosition();
    }

    /** operator[] (read): the slot `idx`, which the caller keeps within the array. */
    function Get(idx: int): (r: real)
      requires Valid()
      requires 0 <= idx < NumberOfActuators
      reads this, a
      ensures r == GetChecked(Value(), idx)
    {
      a[idx]
    }

    /** operator[] (write through the returned reference): slot `idx` becomes `v`. */
    method Set(idx: int, v: real)
      requires Valid()
      requires 0 <= idx < NumberOfActuators
      modifies a
      ensures Valid()
      ensures Value() == old(Value())[idx := v]
    {
      a[idx] := v;
    }

    /** operator+= */
    method AddAssign(pos: JointAngles)
      requires Valid() && pos.Valid()
      modifies a
      ensures Valid()
      ensures Value() == Add(old(Value()), old(pos.Value()))
    {
      ghost var u, v := a[..], pos.a[..];
      for i := 0 to NumberOfActuators
        invariant forall k :: 0 <= k < i ==> a[k] == u[k] + v[k]
        invariant forall k :: i <= k < NumberOfActuators ==> a[k] == u[k] && pos.a[k] == v[k]
      {
        a[i] := a[i] + pos.a[i];
      }
      assert a[..] == Add(u, v);
    }

    /** operator-= */
    method SubAssign(pos: JointAngles)
      requires Valid() && pos.Valid()
      modifies a
      ensures Valid()
      ensures Value() == Sub(old(Value()), old(pos.Value()))
    {
      ghost var u, v := a[..], pos.a[..];
      for i := 0 to NumberOfActuators
        invariant forall k :: 0 <= k < i ==> a[k] == u[k] - v[k]
        invariant forall k :: i <= k < NumberOfActuators ==> a[k] == u[k] && pos.a[k] == v[k]
      {
        a[i] := a[i] - pos.a[i];
      }
      assert a[..] == Sub(u, v);
    }

    /** operator*= */
    method MulAssign(x: real)
      requires Valid()
      modifies a
      ensures Valid()
      ensures Value() == Scale(old(Value()), x)
    {
      ghost var u := a[..];
      for i := 0 to NumberOfActuators
        invariant forall k :: 0 <= k < i ==> a[k] == u[k] * x
        invariant forall k :: i <= k < NumberOfActuators ==> a[k] == u[k]
      {
        a[i] := a[i] * x;
      }
      assert forall k :: 0 <= k < NumberOfActuators ==> a[..][k] == Scale(u, x)[k];
    }

    /** operator/= */
    method DivAssign(x: real)
      requires Valid()
      requires x != 0.0
      modifies a
      ensures Valid()
      ensures Value() == Div(old(Value()), x)
    {
      ghost var u := a[..];
      for i := 0 to NumberOfActuators
        invariant forall k :: 0 <= k < i ==> a[k] == u[k] / x
        invariant forall k :: i <= k < NumberOfActuators ==> a[k] == u[k]
      {
        a[i] := a[i] / x;
      }
      assert forall k :: 0 <= k < NumberOfActuators ==> a[..][k] == Div(u, x)[k];
    }
  }

  // ---------------------------------------------------------------------------
  // Pose
  // ---------------------------------------------------------------------------

  /** The value held by a Pose object. */
  datatype PoseValue = PoseValue(
    position: Point,
    orientation: Rotation,
    gripperDistance: real,
    tcpDeviation: Point,
    angles: AngleVector)

  /** Pose::null: everything zero. */
  const NullPose := PoseValue(NullPoint, NullPoint, 0.0, NullPoint, Zeros())

  /** Pose ==: position within tolerance, orientation and gripper distance exactly. */
  predicate PoseEquals(p: PoseValue, q: PoseValue)
  {
    PointEquals(p.position, q.position) && RotationEquals(p.orientation, q.orientation) &&
    p.gripperDistance == q.gripperDistance
  }

  /** Pose == does not look at the cached angles or at the tcp deviation, on either side. */
  lemma PoseEqualsIgnoresAnglesAndTcp(p: PoseValue, q: PoseValue, angles: AngleVector, tcp: Point)
    ensures PoseEquals(p, q) <==> PoseEquals(p.(angles := angles, tcpDeviation := tcp), q)
    ensures PoseEquals(p, q) <==> PoseEquals(p, q.(angles := angles, tcpDeviation := tcp))
  {
  }

  /** Pose == is reflexive and symmetric, and identical poses compare equal. */
  lemma PoseEqualsReflexiveSymmetric(p: PoseValue, q: PoseValue)
    ensures PoseEquals(p, p)
    ensures PoseEquals(p, q) <==> PoseEquals(q, p)
  {
    PointEqualsReflexiveSymmetric(p.position, q.position);
  }

  /** Pose += and +: position, orientation and gripper distance are added; angles and tcp deviation are kept. */
  function PoseAdd(p: PoseValue, q: PoseValue): (r: PoseValue)
    ensures r.angles == p.angles && r.tcpDeviation == p.tcpDeviation
  {
    p.(position := PointAdd(p.position, q.position),
       orientation := PointAdd(p.orientation, q.orientation),
       gripperDistance := p.gripperDistance + q.gripperDistance)
  }

  /** Pose -= and -. */
  function PoseSub(p: PoseValue, q: PoseValue): (r: PoseValue)
    ensures r.angles == p.angles && r.tcpDeviation == p.tcpDeviation
  {
    p.(position := PointSub(p.position, q.position),
       orientation := PointSub(p.orientation, q.orientation),
       gripperDistance := p.gripperDistance - q.gripperDistance)
  }

  /** Pose *= and *. */
  function PoseScale(p: PoseValue, f: real): (r: PoseValue)
    ensures r.angles == p.angles && r.tcpDeviation == p.tcpDeviation
  {
    p.(position := PointScale(p.position, f),
       orientation := PointScale(p.orientation, f),
       gripperDistance := p.gripperDistance * f)
  }

  /**
   * Pose /= and /. The position is multiplied by the reciprocal, the
   * orientation and the gripper distance are divided; over the reals the two
   * agree.
   */
  function PoseDiv(p: PoseValue, f: real): (r: PoseValue)
    requires f != 0.0
    ensures r.angles == p.angles && r.tcpDeviation == p.tcpDeviation
  {
    p.(position := PointScale(p.position, 1.0 / f),
       orientation := PointDivide(p.orientation, f),
       gripperDistance := p.gripperDistance / f)
  }

  /** Adding and then subtracting a pose gives back the original pose, every field included. */
  lemma PoseAddSubCancel(p: PoseValue, q: PoseValue)
    ensures PoseSub(PoseAdd(p, q), q) == p
    ensures PoseAdd(PoseSub(p, q), q) == p
  {
  }

  /** Scaling a pose by a non-zero factor and dividing by it gives back the original pose. */
  lemma PoseScaleDivCancel(p: PoseValue, f: real)
    requires f != 0.0
    ensures PoseDiv(PoseScale(p, f), f) == p
  {
    var s := PoseScale(p, f);
    assert s.position.x * (1.0 / f) == p.position.x;
    assert s.position.y * (1.0 / f) == p.position.y;
    assert s.position.z * (1.0 / f) == p.position.z;
    assert s.orientation.x / f == p.orientation.x;
    assert s.orientation.y / f == p.orientation.y;
    assert s.orientation.z / f == p.orientation.z;
    assert s.gripperDistance / f == p.gripperDistance;
  }

  /**
   * Pose::mirrorAt. Position and orientation are mirrored by Point::mirrorAt,
   * which is passed in as `mirrorPoint(point, at)`; the gripper distance and
   * the angles are reflected at the mirror's, and the tcp deviation is taken
   * from the mirror.
   */
  function PoseMirror(p: PoseValue, m: PoseValue, mirrorPoint: (Point, Point) -> Point): (r: PoseValue)
    ensures r.gripperDistance - m.gripperDistance == m.gripperDistance - p.gripperDistance
    ensures r.angles == Add(m.angles, Sub(m.angles, p.angles))
    ensures r.tcpDeviation == m.tcpDeviation
  {
    PoseValue(mirrorPoint(p.position, m.position), mirrorPoint(p.orientation, m.orientation),
              m.gripperDistance + (m.gripperDistance - p.gripperDistance),
              m.tcpDeviation,
              Add(m.angles, Sub(m.angles, p.angles)))
  }

  /** Mirroring twice at the same pose restores gripper distance and angles. */
  lemma PoseMirrorTwice(p: PoseValue, m: PoseValue, mirrorPoint: (Point, Point) -> Point)
    ensures PoseMirror(PoseMirror(p, m, mirrorPoint), m, mirrorPoint).gripperDistance == p.gripperDistance
    ensures PoseMirror(PoseMirror(p, m, mirrorPoint), m, mirrorPoint).angles == p.angles
    ensures PoseMirror(PoseMirror(p, m, mirrorPoint), m, mirrorPoint).tcpDeviation == m.tcpDeviation
  {
    MirrorAnglesTwice(p.angles, m.angles);
  }

  /** A pose: tool position and orientation, gripper distance, cached joint angles and tcp offset. */
  class Pose {
    var position: Point
    var orientation: Rotation
    var gripperDistance: real
    var tcpDeviation: Point
    var angles: JointAngles

    ghost predicate Valid()
      reads this, angles
    {
      angles.Valid()
    }

    /** The pose currently held. */
    function Value(): PoseValue
      requires Valid()
      reads this, angles, angles.a
    {
      PoseValue(position, orientation, gripperDistance, tcpDeviation, angles.Value())
    }

    /** The default constructor: the null pose. */
    constructor ()
      ensures Valid() && fresh(angles) && fresh(angles.a)
      ensures Value() == NullPose
    {
      angles := new JointAngles();
      position, orientation, gripperDistance, tcpDeviation := NullPoint, NullPoint, 0.0, NullPoint;
    }

    /** The copy constructor: every field of `pose`. */
    constructor Copy(pose: Pose)
      requires pose.Valid()
      ensures Valid() && fresh(angles) && fresh(angles.a)
      ensures Value() == pose.Value()
    {
      angles := new JointAngles.Copy(pose.angles);
      position, orientation, gripperDistance := pose.position, pose.orientation, pose.gripperDistance;
      tcpDeviation := pose.tcpDeviation;
    }

    /** The constructor from position, orientation and gripper distance: tcp deviation and angles are null. */
    constructor FromParts(pPosition: Point, pOrientation: Rotation, pGripperDistance: real)
      ensures Valid() && fresh(angles) && fresh(angles.a)
      ensures Value() == PoseValue(pPosition, pOrientation, pGripperDistance, NullPoint, Zeros())
    {
      position, orientation, gripperDistance := pPosition, pOrientation, pGripperDistance;
      tcpDeviation := NullPoint;
      angles := new JointAngles();
    }

    /** The constructor from all five parts; the angles are copied. */
    constructor FromAll(pPosition: Point, pOrientation: Rotation, pGripperDistance: real,
                        pAngles: JointAngles, pTcpDeviation: Point)
      requires pAngles.Valid()
      ensures Valid() && fresh(angles) && fresh(angles.a)
      ensures Value() == PoseValue(pPosition, pOrientation, pGripperDistance, pTcpDeviation, pAngles.Value())
    {
      position, orientation, gripperDistance := pPosition, pOrientation, pGripperDistance;
      angles := new JointAngles.Copy(pAngles);
      tcpDeviation := pTcpDeviation;
    }

    /** operator=: every field of `pose`. */
    method Assign(pose: Pose)
      requires Valid() && pose.Valid()
      modifies this, angles.a
      ensures Valid() && angles == old(angles)
      ensures Value() == old(pose.Value())
    {
      position, orientation, gripperDistance := pose.position, pose.orientation, pose.gripperDistance;
      tcpDeviation := pose.tcpDeviation;
      angles.Assign(pose.angles);
    }

    /** null: every field zero. */
    method Null()
      requires Valid()
      modifies this, angles.a
      ensures Valid() && angles == old(angles)
      ensures Value() == NullPose
    {
      orientation := NullPoint;
      position := NullPoint;
      gripperDistance := 0.0;
      angles.Null();
      tcpDeviation := NullPoint;
    }

    /** isNull: the position is the origin (Point::isNull is taken to test all coordinates against zero). */
    predicate IsNull(): (b: bool)
      reads this
      ensures b <==> forall k :: 0 <= k < 3 ==> Coord(position, k) == 0.0
    {
      CoordinatesAreXYZ(position);
      position == NullPoint
    }

    /** operator==, which ignores the cached angles and the tcp deviation. */
    predicate Equals(pose: Pose): (b: bool)
      requires Valid() && pose.Valid()
      reads this, angles, angles.a, pose, pose.angles, pose.angles.a
      ensures b <==> PointEquals(position, pose.position) && orientation == pose.orientation &&
                     gripperDistance == pose.gripperDistance
    {
      PoseEquals(Value(), pose.Value())
    }

    /** operator+=: changes position, orientation and gripper distance only. */
    method AddAssign(pose: Pose)
      requires Valid() && pose.Valid()
      modifies this
      ensures Valid() && angles == old(angles)
      ensures Value() == PoseAdd(old(Value()), old(pose.Value()))
    {
      var qo, qg := pose.orientation, pose.gripperDistance;
      ghost var p0 := Value();
      ghost var r := PoseAdd(p0, pose.Value());
      ghost var target := PointAdd(p0.orientation, qo);
      position := PointAdd(position, pose.position);
      for i := 0 to 3
        invariant forall k :: 0 <= k < i ==> Coord(orientation, k) == Coord(target, k)
        invariant forall k :: i <= k < 3 ==> Coord(orientation, k) == Coord(p0.orientation, k)
        invariant position == r.position && gripperDistance == p0.gripperDistance
        invariant tcpDeviation == p0.tcpDeviation && angles == old(angles)
      {
        CoordOfArithmetic(p0.orientation, qo, 0.0, i);
        ghost var before := orientation;
        var c := Coord(orientation, i);
        assert c == Coord(p0.orientation, i);
        var v := c + Coord(qo, i);
        assert v == Coord(target, i);
        orientation := SetCoord(orientation, i, v);
        assert forall k :: 0 <= k < i ==> Coord(orientation, k) == Coord(before, k);
      }
      PointByCoords(orientation, target);
      gripperDistance := gripperDistance + qg;
    }

    /** operator-=: changes position, orientation and gripper distance only. */
    method SubAssign(pose: Pose)
      requires Valid() && pose.Valid()
      modifies this
      ensures Valid() && angles == old(angles)
      ensures Value() == PoseSub(old(Value()), old(pose.Value()))
    {
      var qo, qg := pose.orientation, pose.gripperDistance;
      ghost var p0 := Value();
      ghost var r := PoseSub(p0, pose.Value());
      ghost var target := PointSub(p0.orientation, qo);
      position := PointSub(position, pose.position);
      for i := 0 to 3
        invariant forall k :: 0 <= k < i ==> Coord(orientation, k) == Coord(target, k)
        invariant forall k :: i <= k < 3 ==> Coord(orientation, k) == Coord(p0.orientation, k)
        invariant position == r.position && gripperDistance == p0.gripperDistance
        invariant tcpDeviation == p0.tcpDeviation && angles == old(angles)
      {
        CoordOfArithmetic(p0.orientation, qo, 0.0, i);
        ghost var before := orientation;
        var c := Coord(orientation, i);
        assert c == Coord(p0.orientation, i);
        var v := c - Coord(qo, i);
        assert v == Coord(target, i);
        orientation := SetCoord(orientation, i, v);
        assert forall k :: 0 <= k < i ==> Coord(orientation, k) == Coord(before, k);
      }
      PointByCoords(orientation, target);
      gripperDistance := gripperDistance - qg;
    }

    /** operator*=: changes position, orientation and gripper distance only. */
    method MulAssign(x: real)
      requires Valid()
      modifies this
      ensures Valid() && angles == old(angles)
      ensures Value() == PoseScale(old(Value()), x)
    {
      ghost var p0 := Value();
      ghost var r := PoseScale(p0, x);
      ghost var target := PointScale(p0.orientation, x);
      position := PointScale(position, x);
      for i := 0 to 3
        invariant forall k :: 0 <= k < i ==> Coord(orientation, k) == Coord(target, k)
        invariant forall k :: i <= k < 3 ==> Coord(orientation, k) == Coord(p0.orientation, k)
        invariant position == r.position && gripperDistance == p0.gripperDistance
        invariant tcpDeviation == p0.tcpDeviation && angles == old(angles)
      {
        CoordOfArithmetic(p0.orientation, NullPoint, x, i);
        ghost var before := orientation;
        var c := Coord(orientation, i);
        assert c == Coord(p0.orientation, i);
        var v := c * x;
        assert v == Coord(target, i);
        orientation := SetCoord(orientation, i, v);
        assert forall k :: 0 <= k < i ==> Coord(orientation, k) == Coord(before, k);
      }
      PointByCoords(orientation, target);
      gripperDistance := gripperDistance * x;
    }

    /** operator/=: changes position, orientation and gripper distance only. */
    method DivAssign(x: real)
      requires Valid()
      requires x != 0.0
      modifies this
      ensures Valid() && angles == old(angles)
      ensures Value() == PoseDiv(old(Value()), x)
    {
      ghost var p0 := Value();
      ghost var r := PoseDiv(p0, x);
      ghost var target := PointDivide(p0.orientation, x);
      position := PointScale(position, 1.0 / x);
      for i := 0 to 3
        invariant forall k :: 0 <= k < i ==> Coord(orientation, k) == Coord(target, k)
        invariant forall k :: i <= k < 3 ==> Coord(orientation, k) == Coord(p0.orientation, k)
        invariant position == r.position && gripperDistance == p0.gripperDistance
        invariant tcpDeviation == p0.tcpDeviation && angles == old(angles)
      {
        CoordOfArithmetic(p0.orientation, NullPoint, x, i);
        ghost var before := orientation;
        var c := Coord(orientation, i);
        assert c == Coord(p0.orientation, i);
        var v := c / x;
        assert v == Coord(target, i);
        orientation := SetCoord(orientation, i, v);
        assert forall k :: 0 <= k < i ==> Coord(orientation, k) == Coord(before, k);
      }
      PointByCoords(orientation, target);
      gripperDistance := gripperDistance / x;
    }

    /**
     * mirrorAt: `mirrorPoint(point, at)` stands for Point::mirrorAt. The angle
     * vector is computed as in the source, `m.angles + (m.angles - angles)`
     * through two temporaries, then assigned.
     */
    method MirrorAt(m: Pose, mirrorPoint: (Point, Point) -> Point)
      requires Valid() && m.Valid()
      modifies this, angles.a
      ensures Valid() && angles == old(angles)
      ensures Value() == PoseMirror(old(Value()), old(m.Value()), mirrorPoint)
    {
      ghost var p, mv := Value(), m.Value();
      position := mirrorPoint(position, m.position);
      orientation := mirrorPoint(orientation, m.orientation);
      gripperDistance := m.gripperDistance + (m.gripperDistance - gripperDistance);
      var diff := new JointAngles.Copy(m.angles);
      diff.SubAssign(angles);
      var sum := new JointAngles.Copy(m.angles);
      sum.AddAssign(diff);
      angles.Assign(sum);
      tcpDeviation := m.tcpDeviation;
    }
  }

  // ---------------------------------------------------------------------------
  // TrajectoryNode
  // ---------------------------------------------------------------------------

  /** How the player blends from a node to the next one. */
  datatype InterpolationType = PoseLinear | PoseCubicBezier | JointLinear

  /** isJointInterpolation: the angles are interpolated instead of the pose. */
  predicate IsJointInterpolationType(t: InterpolationType)
  {
    t == JointLinear
  }

  /** isPoseInterpolation: the negation of isJointInterpolation. */
  predicate IsPoseInterpolationType(t: InterpolationType)
  {
    !IsJointInterpolationType(t)
  }

  /** Exactly one of the two holds, and pose interpolation means linear or Bezier. */
  lemma InterpolationKinds(t: InterpolationType)
    ensures IsPoseInterpolationType(t) != IsJointInterpolationType(t)
    ensures IsJointInterpolationType(t) <==> t == JointLinear
    ensures IsPoseInterpolationType(t) <==> t == PoseLinear || t == PoseCubicBezier
  {
  }

  /** The value held by a TrajectoryNode object. */
  datatype NodeValue = NodeValue(
    pose: PoseValue,
    name: string,
    durationDef: real,
    interpolationTypeDef: InterpolationType,
    averageSpeedDef: real,
    continouslyDef: bool,
    duration: real,
    time: real,
    startSpeed: real,
    endSpeed: real,
    distance: real,
    minDuration: real)

  /**
   * TrajectoryNode::null: the derived and user fields get their defaults and
   * the pose is nulled; `minDuration` is not touched and neither is `name`
   * (the source's `name.empty()` only asks whether it is empty).
   */
  function NulledNode(n: NodeValue): (r: NodeValue)
    ensures r.minDuration == n.minDuration && r.name == n.name
    ensures r.interpolationTypeDef == PoseCubicBezier && r.continouslyDef
  {
    n.(pose := NullPose, durationDef := 0.0, interpolationTypeDef := PoseCubicBezier,
       averageSpeedDef := 0.0, continouslyDef := true, duration := 0.0, time := 0.0,
       startSpeed := 0.0, endSpeed := 0.0, distance := 0.0)
  }

  /** Copy constructor and assignment: everything is copied from `src` except `minDuration`, which `dst` keeps. */
  function CopiedNode(dst: NodeValue, src: NodeValue): (r: NodeValue)
    ensures r.minDuration == dst.minDuration
  {
    src.(minDuration := dst.minDuration)
  }

  /** Copying differs from the source node in `minDuration` alone; nulling is idempotent. */
  lemma CopyAndNullProperties(dst: NodeValue, src: NodeValue)
    ensures CopiedNode(dst, src) == src <==> dst.minDuration == src.minDuration
    ensures CopiedNode(dst, CopiedNode(dst, src)) == CopiedNode(dst, src)
    ensures NulledNode(NulledNode(dst)) == NulledNode(dst)
    ensures IsPoseInterpolationType(NulledNode(dst).interpolationTypeDef)
  {
  }

  /** A trajectory waypoint: the pose, the user-entered definitions and the compiled fields. */
  class TrajectoryNode {
    var pose: Pose
    // defined by user input
    var name: string
    var durationDef: real
    var interpolationTypeDef: InterpolationType
    var averageSpeedDef: real
    var continouslyDef: bool
    // available after compiling a trajectory
    var duration: real
    var time: real
    var startSpeed: real
    var endSpeed: real
    var distance: real
    var minDuration: real

    ghost predicate Valid()
      reads this, pose, pose.angles
    {
      pose.Valid()
    }

    /** The node currently held. */
    function Value(): NodeValue
      requires Valid()
      reads this, pose, pose.angles, pose.angles.a
    {
      NodeValue(pose.Value(), name, durationDef, interpolationTypeDef, averageSpeedDef,
                continouslyDef, duration, time, startSpeed, endSpeed, distance, minDuration)
    }

    /** The default constructor: an empty name, then null(); `minDuration` is left uninitialised. */
    constructor ()
      ensures Valid() && fresh(pose) && fresh(pose.angles) && fresh(pose.angles.a)
      ensures name == ""
      ensures Value() == NulledNode(Value())
    {
      pose := new Pose();
      name := "";
      new;
      Null();
    }

    /** The copy constructor: every field of `par` except `minDuration`, which stays uninitialised. */
    constructor Copy(par: TrajectoryNode)
      requires par.Valid()
      ensures Valid() && fresh(pose) && fresh(pose.angles) && fresh(pose.angles.a)
      ensures Value() == CopiedNode(Value(), par.Value())
    {
      duration := par.duration;
      name := par.name;
      var p := new Pose();
      p.Assign(par.pose);
      pose := p;
      time := par.time;
      startSpeed := par.startSpeed;
      endSpeed := par.endSpeed;
      distance := par.distance;
      durationDef := par.durationDef;
      averageSpeedDef := par.averageSpeedDef;
      interpolationTypeDef := par.interpolationTypeDef;
      continouslyDef := par.continouslyDef;
    }

    /** operator=: every field of `par` except `minDuration`, which keeps its value. */
    method Assign(par: TrajectoryNode)
      requires Valid() && par.Valid()
      modifies this, pose, pose.angles.a
      ensures Valid() && pose == old(pose) && pose.angles == old(pose.angles)
      ensures Value() == CopiedNode(old(Value()), old(par.Value()))
    {
      ghost var src := par.Value();
      var n, d, t, s, e := par.name, par.duration, par.time, par.startSpeed, par.endSpeed;
      var c, dist, avg, dd, it := par.continouslyDef, par.distance, par.averageSpeedDef, par.durationDef, par.interpolationTypeDef;
      pose.Assign(par.pose);
      assert pose.Value() == src.pose;
      duration, name, time, startSpeed, endSpeed := d, n, t, s, e;
      continouslyDef, distance, averageSpeedDef, durationDef, interpolationTypeDef := c, dist, avg, dd, it;
    }

    /** null. */
    method Null()
      requires Valid()
      modifies this, pose, pose.angles.a
      ensures Valid() && pose == old(pose) && pose.angles == old(pose.angles)
      ensures Value() == NulledNode(old(Value()))
    {
      ghost var before := Value();
      pose.Null();
      duration, interpolationTypeDef, time, averageSpeedDef := 0.0, PoseCubicBezier, 0.0, 0.0;
      startSpeed, endSpeed, distance, durationDef, continouslyDef := 0.0, 0.0, 0.0, 0.0, true;
      assert Value() == NodeValue(NullPose, before.name, 0.0, PoseCubicBezier, 0.0, true,
                                  0.0, 0.0, 0.0, 0.0, 0.0, before.minDuration);
    }

    /** isNull: the pose's position is the origin. */
    predicate IsNull(): (b: bool)
      reads this, pose
      ensures b <==> pose.position == NullPoint
    {
      pose.IsNull()
    }

    /** isJointInterpolation */
    predicate IsJointInterpolation(): (b: bool)
      reads this
      ensures b <==> interpolationTypeDef == JointLinear
    {
      IsJointInterpolationType(interpolationTypeDef)
    }

    /** isPoseInterpolation: linear or Bezier interpolation of the pose. */
    predicate IsPoseInterpolation(): (b: bool)
      reads this
      ensures b <==> interpolationTypeDef in {PoseLinear, PoseCubicBezier}
    {
      !IsJointInterpolation()
    }
  }
}
