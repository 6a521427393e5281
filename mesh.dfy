/**
 * The buffers `getSectionMesh` builds (src/world.js:84-128): three flat lists
 * of vertex coordinates, normal components and triangle indices, grown one
 * quad (four vertices, two triangles) at a time.
 */
module MeshBuffers {
  import opened Geometry

  /** The three buffers: `positions`, `normals`, `indices`. */
  datatype Mesh = Mesh(positions: seq<real>, normals: seq<int>, indices: seq<int>)

  const EmptyMesh := Mesh([], [], [])

  /**
   * One emitted face: its four vertices in the face table's corner order and
   * the normal all four of them carry.
   */
  datatype Quad = Quad(v0: Point, v1: Point, v2: Point, v3: Point, normal: Vec3)
  {
    function Vertices(): seq<Point> { [v0, v1, v2, v3] }
  }

  /** The coordinates of a list of vertices, three per vertex, as `positions.push(x, y, z)` lays them out. */
  function Coords(ps: seq<Point>): (r: seq<real>)
    ensures |r| == 3 * |ps|
  {
    if |ps| == 0 then []
    else
      var p := ps[|ps| - 1];
      Coords(ps[..|ps| - 1]) + [p.x, p.y, p.z]
  }

  /** `n` copies of a direction's three components, as `normals.push(dir.x, dir.y, dir.z)` repeated. */
  function Repeat(d: Vec3, n: nat): (r: seq<int>)
    ensures |r| == 3 * n
  {
    if n == 0 then [] else Repeat(d, n - 1) + [d.x, d.y, d.z]
  }

  /** The twelve position values one quad contributes. */
  function QuadPositions(q: Quad): seq<real>
  {
    Coords(q.Vertices())
  }

  /** The twelve normal values one quad contributes: its normal, once per vertex. */
  function QuadNormals(q: Quad): seq<int>
  {
    Repeat(q.normal, 4)
  }

  /** The offsets of the two triangles (0, 1, 2) and (2, 1, 3) from a quad's first vertex. */
  const TrianglePattern: seq<int> := [0, 1, 2, 2, 1, 3]

  /** The six indices of a quad whose first vertex is number `ndx`. */
  function QuadIndices(ndx: int): (r: seq<int>)
    ensures |r| == 6
    ensures forall j :: 0 <= j < 6 ==> r[j] == ndx + TrianglePattern[j]
  {
    [ndx, ndx + 1, ndx + 2, ndx + 2, ndx + 1, ndx + 3]
  }

  /**
   * Appending one quad: `ndx = Math.floor(positions.length / 3)` is taken
   * before the four vertices are pushed.
   */
  function AppendQuad(m: Mesh, q: Quad): Mesh
  {
    var ndx := |m.positions| / 3;
    Mesh(m.positions + QuadPositions(q), m.normals + QuadNormals(q), m.indices + QuadIndices(ndx))
  }

  /** Appending a list of quads in order. */
  function AppendQuads(m: Mesh, qs: seq<Quad>): Mesh
  {
    if |qs| == 0 then m else AppendQuad(AppendQuads(m, qs[..|qs| - 1]), qs[|qs| - 1])
  }

  /** The buffers after emitting `qs`, starting from three empty lists. */
  function MeshOf(qs: seq<Quad>): Mesh
  {
    AppendQuads(EmptyMesh, qs)
  }

  /** A quad's twelve position values are its vertices' coordinates in corner order. */
  lemma QuadPositionsContent(q: Quad)
    ensures QuadPositions(q) == [q.v0.x, q.v0.y, q.v0.z, q.v1.x, q.v1.y, q.v1.z,
                                 q.v2.x, q.v2.y, q.v2.z, q.v3.x, q.v3.y, q.v3.z]
  {
    var vs := q.Vertices();
    assert vs[..1][..0] == [];
    assert Coords(vs[..1]) == [q.v0.x, q.v0.y, q.v0.z];
    assert vs[..2][..1] == vs[..1];
    assert Coords(vs[..2]) == Coords(vs[..1]) + [q.v1.x, q.v1.y, q.v1.z];
    assert vs[..3][..2] == vs[..2];
    assert Coords(vs[..3]) == Coords(vs[..2]) + [q.v2.x, q.v2.y, q.v2.z];
    assert vs[..3] == vs[..|vs| - 1];
  }

  /** A quad's twelve normal values are its normal, four times. */
  lemma QuadNormalsContent(q: Quad)
    ensures var n := q.normal;
      QuadNormals(q) == [n.x, n.y, n.z, n.x, n.y, n.z, n.x, n.y, n.z, n.x, n.y, n.z]
  {
    var n := q.normal;
    assert Repeat(n, 1) == [n.x, n.y, n.z];
    assert Repeat(n, 2) == Repeat(n, 1) + [n.x, n.y, n.z];
    assert Repeat(n, 3) == Repeat(n, 2) + [n.x, n.y, n.z];
  }

  /** Emitting a list in two parts is emitting the whole list. */
  lemma {:induction false} AppendQuadsConcat(m: Mesh, a: seq<Quad>, b: seq<Quad>)
    ensures AppendQuads(m, a + b) == AppendQuads(AppendQuads(m, a), b)
  {
    if |b| == 0 {
      assert a + b == a;
    } else {
      var ab := a + b;
      assert ab[..|ab| - 1] == a + b[..|b| - 1];
      assert ab[|ab| - 1] == b[|b| - 1];
      AppendQuadsConcat(m, a, b[..|b| - 1]);
    }
  }

  /**
   * The buffer bookkeeping after any sequence of quads: positions and normals
   * hold twelve values per quad and indices six; quad `q` occupies positions
   * and normals 12q .. 12q+12 with its own vertices and normal; and index `i`
   * belongs to quad i / 6, whose first vertex is 4 (i / 6), following the
   * triangle pattern (0, 1, 2, 2, 1, 3).
   */
  lemma {:induction false} MeshLayout(qs: seq<Quad>)
    ensures |MeshOf(qs).positions| == 12 * |qs|
    ensures |MeshOf(qs).normals| == 12 * |qs|
    ensures |MeshOf(qs).indices| == 6 * |qs|
    ensures forall q :: 0 <= q < |qs| ==> MeshOf(qs).positions[12 * q .. 12 * q + 12] == QuadPositions(qs[q])
    ensures forall q :: 0 <= q < |qs| ==> MeshOf(qs).normals[12 * q .. 12 * q + 12] == QuadNormals(qs[q])
    ensures forall i :: 0 <= i < |MeshOf(qs).indices| ==>
      MeshOf(qs).indices[i] == 4 * (i / 6) + TrianglePattern[i % 6]
  {
    if |qs| > 0 {
      var n := |qs| - 1;
      var init := qs[..n];
      MeshLayout(init);
      var m := MeshOf(init);
      var m' := MeshOf(qs);
      assert m' == AppendQuad(m, qs[n]);
      assert |m.positions| / 3 == 4 * n;
      forall q | 0 <= q < |qs|
        ensures m'.positions[12 * q .. 12 * q + 12] == QuadPositions(qs[q])
        ensures m'.normals[12 * q .. 12 * q + 12] == QuadNormals(qs[q])
      {
        if q < n {
          assert m'.positions[12 * q .. 12 * q + 12] == m.positions[12 * q .. 12 * q + 12];
          assert m'.normals[12 * q .. 12 * q + 12] == m.normals[12 * q .. 12 * q + 12];
          assert qs[q] == init[q];
        } else {
          assert m'.positions[12 * q ..] == QuadPositions(qs[q]);
          assert m'.normals[12 * q ..] == QuadNormals(qs[q]);
        }
      }
      forall i | 0 <= i < |m'.indices|
        ensures m'.indices[i] == 4 * (i / 6) + TrianglePattern[i % 6]
      {
        if i >= 6 * n {
          var j := i - 6 * n;
          assert i / 6 == n && i % 6 == j;
          assert m'.indices[i] == QuadIndices(4 * n)[j];
        }
      }
    }
  }

  /**
   * Every index names an existing vertex, and the index ranges of different
   * quads never overlap: index `i` lies in the four vertices of quad i / 6.
   */
  lemma IndicesInRange(qs: seq<Quad>)
    ensures forall i :: 0 <= i < |MeshOf(qs).indices| ==>
      && 0 <= MeshOf(qs).indices[i] < |MeshOf(qs).positions| / 3
      && 4 * (i / 6) <= MeshOf(qs).indices[i] < 4 * (i / 6) + 4
  {
    MeshLayout(qs);
  }
}
