/**
 * Voxel geometry shared by the mesher and the world index: integer positions,
 * the box shapes a block is made of, the full-cube classifier `isCube`, and the
 * static face table `cubeFaces` (src/world.js:5-60, 78-82).
 */
module Geometry {

  /** An integer position (a `Vec3` after `floored()`), also used for face directions. */
  datatype Vec3 = Vec3(x: int, y: int, z: int)
  {
    function Plus(d: Vec3): Vec3 { Vec3(x + d.x, y + d.y, z + d.z) }
  }

  /** A world-space vertex position; shape scalars make it non-integral. */
  datatype Point = Point(x: real, y: real, z: real)

  /**
   * One axis-aligned box inside the unit cell; the source's six-element array
   * `[minX, minY, minZ, maxX, maxY, maxZ]`.
   */
  datatype Shape = Shape(minX: real, minY: real, minZ: real, maxX: real, maxY: real, maxZ: real)

  /** The box that fills the whole unit cell, `[0, 0, 0, 1, 1, 1]`. */
  const UnitCube := Shape(0.0, 0.0, 0.0, 1.0, 1.0, 1.0)

  /**
   * `isCube`: a shape list is a full cube when it has exactly one box and that
   * box's six scalars are 0, 0, 0, 1, 1, 1.
   */
  function IsCube(shapes: seq<Shape>): (r: bool)
    ensures r <==> shapes == [UnitCube]
  {
    if |shapes| != 1 then false
    else
      var s := shapes[0];
      s.minX == 0.0 && s.minY == 0.0 && s.minZ == 0.0 && s.maxX == 1.0 && s.maxY == 1.0 && s.maxZ == 1.0
  }

  /**
   * One entry of `cubeFaces`: an outward direction and its four unit-cube
   * corners, in the order the two triangles (0, 1, 2) and (2, 1, 3) use them.
   */
  datatype Face = Face(dir: Vec3, c0: Vec3, c1: Vec3, c2: Vec3, c3: Vec3)
  {
    /** The corner list the emitting loops walk through. */
    function Corners(): seq<Vec3> { [c0, c1, c2, c3] }
  }

  /** The 2 x 2 determinant `a d - b c`, one component of a cross product. */
  function Minor(a: int, b: int, c: int, d: int): int
  {
    a * d - b * c
  }

  /**
   * Triangle (a, b, c) has normal `(b - a) x (c - a) == n`, i.e. it is wound
   * counter-clockwise (front-facing) when seen from the side `n` points to.
   */
  predicate TriangleNormalIs(a: Vec3, b: Vec3, c: Vec3, n: Vec3)
  {
    && Minor(b.y - a.y, b.z - a.z, c.y - a.y, c.z - a.z) == n.x
    && Minor(b.z - a.z, b.x - a.x, c.z - a.z, c.x - a.x) == n.y
    && Minor(b.x - a.x, b.y - a.y, c.x - a.x, c.y - a.y) == n.z
  }

  /** Every component of a table corner is 0 or 1. */
  predicate IsCellCorner(c: Vec3)
  {
    (c.x == 0 || c.x == 1) && (c.y == 0 || c.y == 1) && (c.z == 0 || c.z == 1)
  }

  /** A direction along one axis with length 1. */
  predicate IsAxisUnit(d: Vec3)
  {
    || d == Vec3(-1, 0, 0) || d == Vec3(1, 0, 0)
    || d == Vec3(0, -1, 0) || d == Vec3(0, 1, 0)
    || d == Vec3(0, 0, -1) || d == Vec3(0, 0, 1)
  }

  /**
   * Corner `c` lies on the cell face that `d` points out of: coordinate 1 on the
   * axis of a +1 direction and 0 on the axis of a -1 direction.
   */
  predicate OnFacePlane(c: Vec3, d: Vec3)
  {
    && (d.x == 1 ==> c.x == 1) && (d.x == -1 ==> c.x == 0)
    && (d.y == 1 ==> c.y == 1) && (d.y == -1 ==> c.y == 0)
    && (d.z == 1 ==> c.z == 1) && (d.z == -1 ==> c.z == 0)
  }

  /** Corner `c` is a cell corner on the plane of the face `d` points out of. */
  predicate FaceCorner(c: Vec3, d: Vec3)
  {
    IsCellCorner(c) && OnFacePlane(c, d)
  }

  /**
   * A face is sound: an axis direction, four cell corners on the face's plane,
   * and both triangles (0, 1, 2) and (2, 1, 3) wound so that their normal is the
   * outward direction.
   */
  predicate OutwardQuad(f: Face)
  {
    && IsAxisUnit(f.dir)
    && FaceCorner(f.c0, f.dir) && FaceCorner(f.c1, f.dir) && FaceCorner(f.c2, f.dir) && FaceCorner(f.c3, f.dir)
    && TriangleNormalIs(f.c0, f.c1, f.c2, f.dir)
    && TriangleNormalIs(f.c2, f.c1, f.c3, f.dir)
  }

  const LeftFace := Face(Vec3(-1, 0, 0), Vec3(0, 1, 0), Vec3(0, 0, 0), Vec3(0, 1, 1), Vec3(0, 0, 1))
  const RightFace := Face(Vec3(1, 0, 0), Vec3(1, 1, 1), Vec3(1, 0, 1), Vec3(1, 1, 0), Vec3(1, 0, 0))
  const BottomFace := Face(Vec3(0, -1, 0), Vec3(1, 0, 1), Vec3(0, 0, 1), Vec3(1, 0, 0), Vec3(0, 0, 0))
  const TopFace := Face(Vec3(0, 1, 0), Vec3(0, 1, 1), Vec3(1, 1, 1), Vec3(0, 1, 0), Vec3(1, 1, 0))
  const BackFace := Face(Vec3(0, 0, -1), Vec3(1, 0, 0), Vec3(0, 0, 0), Vec3(1, 1, 0), Vec3(0, 1, 0))
  const FrontFace := Face(Vec3(0, 0, 1), Vec3(0, 0, 1), Vec3(1, 0, 1), Vec3(0, 1, 1), Vec3(1, 1, 1))

  /** `cubeFaces`, in the source's order: left, right, bottom, top, back, front. */
  const CubeFaces: seq<Face> := [LeftFace, RightFace, BottomFace, TopFace, BackFace, FrontFace]

  // One lemma per face keeps each proof obligation small.

  lemma LeftFaceIsOutward()
    ensures OutwardQuad(LeftFace)
  {
  }

  lemma RightFaceIsOutward()
    ensures OutwardQuad(RightFace)
  {
  }

  lemma BottomFaceIsOutward()
    ensures OutwardQuad(BottomFace)
  {
  }

  lemma TopFaceIsOutward()
    ensures OutwardQuad(TopFace)
  {
  }

  lemma BackFaceIsOutward()
    ensures OutwardQuad(BackFace)
  {
  }

  lemma FrontFaceIsOutward()
    ensures OutwardQuad(FrontFace)
  {
  }

  /**
   * The table lists six faces with pairwise different directions (so, with the
   * lemmas above, exactly the six axis units), and every corner of every face is
   * a corner of the unit cell.
   */
  lemma CubeFacesGeometry()
    ensures |CubeFaces| == 6
    ensures forall i, j :: 0 <= i < j < 6 ==> CubeFaces[i].dir != CubeFaces[j].dir
    ensures forall i, k :: 0 <= i < 6 && 0 <= k < 4 ==> IsCellCorner(CubeFaces[i].Corners()[k])
  {
  }
}
