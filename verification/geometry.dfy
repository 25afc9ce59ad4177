/**
 * Orientation solver: the per-pixel view direction of each cube face, before
 * and after the pitch and yaw offsets. Shared by both revisions of the tool
 * (ImageProcessor.get_cubemap_coordinates in skybox_architect.py, the loop body
 * of process_math in jk2_skybox_creator.py).
 *
 * Everything here is exact over `real`. The cosines and sines of the offsets
 * are taken as parameters (`Angle`); the floating-point trigonometry that
 * produces them is not part of this model.
 */
module Geometry {
  import opened Wrappers

  datatype Face = Front | Back | Left | Right | Top | Bottom

  /** The order in which both revisions generate and export the faces. */
  const Faces: seq<Face> := [Front, Back, Left, Right, Top, Bottom]

  /** All six faces as a set. */
  const AllFaces: set<Face> := {Front, Back, Left, Right, Top, Bottom}

  /** The set of all faces leaves none out. */
  lemma AllFacesComplete()
    ensures forall f: Face :: f in AllFaces
  {
    forall f: Face
      ensures f in AllFaces
    {
      match f
      case Front =>
      case Back =>
      case Left =>
      case Right =>
      case Top =>
      case Bottom =>
    }
  }

  /** A map with an entry for each of the six faces. */
  predicate HasAllFaces<T>(m: map<Face, T>) {
    forall f: Face :: f in m
  }

  /** A map with no entry for any face. */
  predicate HasNoFaces<T>(m: map<Face, T>) {
    forall f: Face :: f !in m
  }

  /** Two maps that agree on every face of the generation order are equal. */
  lemma SameOnEveryFace<T>(m: map<Face, T>, r: map<Face, T>)
    requires forall k :: 0 <= k < |Faces| ==> Faces[k] in m && Faces[k] in r && m[Faces[k]] == r[Faces[k]]
    ensures m == r && HasAllFaces(m)
  {
    forall f: Face
      ensures f in m && f in r && m[f] == r[f]
    {
      var k := match f
        case Front => 0
        case Back => 1
        case Left => 2
        case Right => 3
        case Top => 4
        case Bottom => 5;
      assert Faces[k] == f;
    }
  }

  /** The name by which the source refers to a face. */
  function Name(f: Face): string {
    match f
    case Front => "front"
    case Back => "back"
    case Left => "left"
    case Right => "right"
    case Top => "top"
    case Bottom => "bottom"
  }

  /** The face a name denotes; any other name yields None. */
  function FaceNamed(name: string): (r: Option<Face>)
    ensures r.Some? ==> Name(r.value) == name
    ensures r.None? ==> forall f: Face :: Name(f) != name
  {
    if name == "front" then Some(Front)
    else if name == "back" then Some(Back)
    else if name == "left" then Some(Left)
    else if name == "right" then Some(Right)
    else if name == "top" then Some(Top)
    else if name == "bottom" then Some(Bottom)
    else None
  }

  /** Normalised coordinate of the centre of pixel i on an n-pixel axis. */
  function Ndc(i: nat, n: nat): (t: real)
    requires i < n
    ensures -1.0 < t < 1.0
  {
    QuotientBounds(2.0 * (i as real + 0.5), n as real);
    2.0 * (i as real + 0.5) / n as real - 1.0
  }

  /** A quotient a / m with 0 < a < 2m lies strictly between 0 and 2. */
  lemma QuotientBounds(a: real, m: real)
    requires 0.0 < a < 2.0 * m
    ensures 0.0 < a / m < 2.0
  {
    var q := a / m;
    assert q * m == a;
    var r := 2.0 - q;
    assert r * m == 2.0 * m - a;
    assert 2.0 * m - a > 0.0;
    assert r * m > 0.0;
    if r <= 0.0 {
      assert false;
    }
  }

  /** Mirrored pixels have opposite coordinates. */
  lemma NdcAntisymmetric(i: nat, n: nat)
    requires i < n
    ensures Ndc(n - 1 - i, n) == -Ndc(i, n)
  {
    var m := n as real;
    var k := i as real + 0.5;
    var q1 := 2.0 * (m - k) / m;
    var q2 := 2.0 * k / m;
    assert q1 * m == 2.0 * (m - k);
    assert q2 * m == 2.0 * k;
    assert (q1 + q2) * m == q1 * m + q2 * m;
    assert q1 + q2 == 2.0;
    assert (n - 1 - i) as real + 0.5 == m - k;
  }

  datatype Vec3 = Vec3(x: real, y: real, z: real)

  /** The component of v along axis 0 (x), 1 (y) or 2 (z). */
  function Component(v: Vec3, axis: nat): real
    requires axis < 3
  {
    if axis == 0 then v.x else if axis == 1 then v.y else v.z
  }

  function SqNorm(v: Vec3): real {
    v.x * v.x + v.y * v.y + v.z * v.z
  }

  function Abs(r: real): real {
    if r < 0.0 then -r else r
  }

  /** The axis a face looks along, and the sign of that axis. */
  function FixedAxis(f: Face): nat {
    match f
    case Front => 0
    case Back => 0
    case Left => 1
    case Right => 1
    case Top => 2
    case Bottom => 2
  }

  function AxisSign(f: Face): real {
    if f in {Front, Left, Top} then 1.0 else -1.0
  }

  /**
   * The unrotated direction through pixel coordinates (tx, ty) of a face: the
   * face table that encodes the target engine's axis convention. The face's
   * own axis is fixed at +1 or -1; the other two components are drawn from
   * +-tx and +-ty.
   */
  function FaceVector(f: Face, tx: real, ty: real): (v: Vec3)
    ensures FixedAxis(f) < 3 && Component(v, FixedAxis(f)) == AxisSign(f)
    ensures forall k :: 0 <= k < 3 && k != FixedAxis(f) ==>
              Component(v, k) in {tx, -tx, ty, -ty}
  {
    match f
    case Front => Vec3(1.0, tx, -ty)
    case Back => Vec3(-1.0, -tx, -ty)
    case Left => Vec3(-tx, 1.0, -ty)
    case Right => Vec3(tx, -1.0, -ty)
    case Top => Vec3(-ty, tx, 1.0)
    case Bottom => Vec3(ty, tx, -1.0)
  }

  /**
   * The face a direction points into: the axis of largest magnitude, with its
   * sign. An independent reference against which the face table is checked.
   */
  function DominantFace(v: Vec3): Face {
    if Abs(v.x) >= Abs(v.y) && Abs(v.x) >= Abs(v.z) then (if v.x > 0.0 then Front else Back)
    else if Abs(v.y) >= Abs(v.z) then (if v.y > 0.0 then Left else Right)
    else if v.z > 0.0 then Top else Bottom
  }

  /**
   * For pixel coordinates strictly inside (-1, 1), each face's vector points
   * into that face: exactly one component has magnitude 1, it is the face's
   * own axis, and the face is recovered from the vector. Hence the six faces
   * never produce the same direction.
   */
  lemma FaceVectorPointsIntoFace(f: Face, tx: real, ty: real)
    requires -1.0 < tx < 1.0 && -1.0 < ty < 1.0
    ensures forall k :: 0 <= k < 3 ==>
              (Abs(Component(FaceVector(f, tx, ty), k)) == 1.0 <==> k == FixedAxis(f))
    ensures DominantFace(FaceVector(f, tx, ty)) == f
  {
    var v := FaceVector(f, tx, ty);
    forall k | 0 <= k < 3 && k != FixedAxis(f)
      ensures Abs(Component(v, k)) < 1.0
    {
      assert Component(v, k) in {tx, -tx, ty, -ty};
    }
  }

  lemma FacesGiveDistinctDirections(f: Face, g: Face, tx: real, ty: real, sx: real, sy: real)
    requires -1.0 < tx < 1.0 && -1.0 < ty < 1.0
    requires -1.0 < sx < 1.0 && -1.0 < sy < 1.0
    requires f != g
    ensures FaceVector(f, tx, ty) != FaceVector(g, sx, sy)
  {
    FaceVectorPointsIntoFace(f, tx, ty);
    FaceVectorPointsIntoFace(g, sx, sy);
  }

  /** The cosine and sine of an offset angle. */
  datatype Angle = Angle(cos: real, sin: real) {
    predicate OnUnitCircle() {
      cos * cos + sin * sin == 1.0
    }
  }

  /** The pitch step: a rotation in the (x, z) plane. */
  function Pitch(v: Vec3, p: Angle): Vec3 {
    Vec3(v.x * p.cos + v.z * p.sin, v.y, -v.x * p.sin + v.z * p.cos)
  }

  /** The yaw step: a rotation in the (x, y) plane. */
  function Yaw(v: Vec3, a: Angle): Vec3 {
    Vec3(v.x * a.cos - v.y * a.sin, v.x * a.sin + v.y * a.cos, v.z)
  }

  /** x*x + y*y is unchanged by a planar rotation by an angle on the unit circle. */
  lemma PlanarRotationPreservesLength(a: real, b: real, c: real, s: real)
    requires c * c + s * s == 1.0
    ensures (a * c + b * s) * (a * c + b * s) + (-a * s + b * c) * (-a * s + b * c) == a * a + b * b
    ensures (a * c - b * s) * (a * c - b * s) + (a * s + b * c) * (a * s + b * c) == a * a + b * b
  {
    calc {
      (a * c + b * s) * (a * c + b * s) + (-a * s + b * c) * (-a * s + b * c);
      a * a * (c * c + s * s) + b * b * (c * c + s * s);
      a * a + b * b;
    }
    calc {
      (a * c - b * s) * (a * c - b * s) + (a * s + b * c) * (a * s + b * c);
      a * a * (c * c + s * s) + b * b * (c * c + s * s);
      a * a + b * b;
    }
  }

  lemma RotationPreservesLength(v: Vec3, pitch: Angle, yaw: Angle)
    requires pitch.OnUnitCircle() && yaw.OnUnitCircle()
    ensures SqNorm(Yaw(Pitch(v, pitch), yaw)) == SqNorm(v)
  {
    PlanarRotationPreservesLength(v.x, v.z, pitch.cos, pitch.sin);
    var n := Pitch(v, pitch);
    PlanarRotationPreservesLength(n.x, n.y, yaw.cos, yaw.sin);
  }

  /** The rotated view direction of pixel (row y, column x) of a size-by-size face. */
  function Direction(f: Face, size: nat, y: nat, x: nat, pitch: Angle, yaw: Angle): Vec3
    requires y < size && x < size
  {
    Yaw(Pitch(FaceVector(f, Ndc(x, size), Ndc(y, size)), pitch), yaw)
  }

  /**
   * A direction that can be normalised and whose elevation is defined: its
   * squared length is at least 1, so its magnitude is positive, and its z
   * component over that magnitude lies in [-1, 1], the domain of arcsin.
   */
  predicate Normalisable(d: Vec3) {
    SqNorm(d) >= 1.0 && d.z * d.z <= SqNorm(d)
  }

  /** Every view direction of every pixel of every face is normalisable. */
  lemma DirectionWellDefined(f: Face, size: nat, y: nat, x: nat, pitch: Angle, yaw: Angle)
    requires y < size && x < size
    requires pitch.OnUnitCircle() && yaw.OnUnitCircle()
    ensures Normalisable(Direction(f, size, y, x, pitch, yaw))
  {
    var v := FaceVector(f, Ndc(x, size), Ndc(y, size));
    FaceVectorLength(f, Ndc(x, size), Ndc(y, size));
    RotatedLength(v, pitch, yaw);
  }

  /** A vector of squared length at least 1 stays normalisable under pitch and yaw. */
  lemma RotatedLength(v: Vec3, pitch: Angle, yaw: Angle)
    requires pitch.OnUnitCircle() && yaw.OnUnitCircle()
    requires SqNorm(v) >= 1.0
    ensures Normalisable(Yaw(Pitch(v, pitch), yaw))
  {
    RotationPreservesLength(v, pitch, yaw);
    var d := Yaw(Pitch(v, pitch), yaw);
    assert d.x * d.x >= 0.0 && d.y * d.y >= 0.0;
  }

  /** Every unrotated face vector has squared length at least 1. */
  lemma FaceVectorLength(f: Face, tx: real, ty: real)
    ensures SqNorm(FaceVector(f, tx, ty)) >= 1.0
  {
    assert tx * tx >= 0.0 && ty * ty >= 0.0;
    match f
    case Front =>
    case Back =>
    case Left =>
    case Right =>
    case Top =>
    case Bottom =>
  }

  /**
   * The directions of every pixel of the named face, row by row; an unknown
   * face name yields None.
   */
  function CubemapCoordinates(name: string, size: nat, pitch: Angle, yaw: Angle): (r: Option<seq<seq<Vec3>>>)
    ensures r.None? <==> FaceNamed(name).None?
    ensures r.Some? ==> |r.value| == size
    ensures r.Some? ==> forall y :: 0 <= y < size ==> |r.value[y]| == size
    ensures r.Some? ==> forall y, x :: 0 <= y < size && 0 <= x < size ==>
              r.value[y][x] == Direction(FaceNamed(name).value, size, y, x, pitch, yaw)
    ensures r.Some? && pitch.OnUnitCircle() && yaw.OnUnitCircle() ==>
              forall y, x :: 0 <= y < size && 0 <= x < size ==> Normalisable(r.value[y][x])
  {
    match FaceNamed(name)
    case None => None
    case Some(f) =>
      var grid := seq(size, y requires 0 <= y < size =>
                    seq(size, x requires 0 <= x < size => Direction(f, size, y, x, pitch, yaw)));
      assert pitch.OnUnitCircle() && yaw.OnUnitCircle() ==>
        forall y, x :: 0 <= y < size && 0 <= x < size ==> Normalisable(grid[y][x]) by {
        if pitch.OnUnitCircle() && yaw.OnUnitCircle() {
          forall y, x | 0 <= y < size && 0 <= x < size
            ensures Normalisable(grid[y][x])
          {
            DirectionWellDefined(f, size, y, x, pitch, yaw);
          }
        }
      }
      Some(grid)
  }
}
