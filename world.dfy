/**
 * `getSectionMesh` (src/world.js:84-128) as a method that grows three buffers
 * voxel by voxel, and the class `World` (src/world.js:138-184): the column
 * store, the section-mesh store, and the scene the meshes are shown in.
 */
module WorldIndex {
  import opened Wrappers
  import opened Geometry
  import opened Blocks
  import opened MeshBuffers
  import opened Voxels

  /** A call the world makes on its scene: `scene.add(mesh)` or `scene.remove(mesh)` for a section origin. */
  datatype SceneEvent = Added(key: (int, int, int), mesh: Mesh) | Removed(key: (int, int, int), mesh: Mesh)

  /** The meshes a scene shows after a sequence of calls, by section origin. */
  function Shown(log: seq<SceneEvent>): map<(int, int, int), Mesh>
  {
    if |log| == 0 then map[]
    else
      var before := Shown(log[..|log| - 1]);
      match log[|log| - 1]
      case Added(k, m) => before[k := m]
      case Removed(k, _) => before - {k}
  }

  /** The lowest y of one of a column's 16 sections: 0, 16, ..., 240. */
  predicate IsSectionY(y: int)
  {
    0 <= y < 256 && y % 16 == 0
  }

  /** Section `i` of a column starts at y = 16 i, and `Math.floor(y / 16)` gives `i` back. */
  lemma SectionIndex(i: nat)
    requires i < 16
    ensures IsSectionY(16 * i) && (16 * i) / 16 == i
  {
  }

  /** The origins of the sections of column (x, z) that start below height `top`. */
  function SectionsBelow(x: int, z: int, top: int): set<(int, int, int)>
  {
    set y | 0 <= y < top && y % 16 == 0 :: (x, y, z)
  }

  /** The origins of the 16 sections of column (x, z). */
  function ColumnSections(x: int, z: int): set<(int, int, int)>
  {
    SectionsBelow(x, z, 256)
  }

  lemma SectionsBelowStep(x: int, z: int, i: nat)
    ensures SectionsBelow(x, z, 16 * (i + 1)) == SectionsBelow(x, z, 16 * i) + {(x, 16 * i, z)}
    ensures (x, 16 * i, z) !in SectionsBelow(x, z, 16 * i)
  {
  }

  /** Removing section `i` after the sections below it removes the sections below 16 (i + 1). */
  lemma TakeDownStep(meshes0: map<(int, int, int), Mesh>, meshes: map<(int, int, int), Mesh>, x: int, z: int, i: nat)
    requires meshes == meshes0 - SectionsBelow(x, z, 16 * i)
    ensures meshes - {(x, 16 * i, z)} == meshes0 - SectionsBelow(x, z, 16 * (i + 1))
    ensures (x, 16 * i, z) in meshes <==> (x, 16 * i, z) in meshes0
    ensures (x, 16 * i, z) in meshes ==> meshes[(x, 16 * i, z)] == meshes0[(x, 16 * i, z)]
  {
    SectionsBelowStep(x, z, i);
  }

  /** Once a column's 16 sections are taken out of a mesh map, no mesh of that column is left. */
  lemma NoMeshOfColumn(meshes0: map<(int, int, int), Mesh>, x: int, z: int)
    ensures forall k :: k in meshes0 - ColumnSections(x, z) && IsSectionY(k.1) ==> (k.0, k.2) != (x, z)
  {
    forall k: (int, int, int) | k.0 == x && k.2 == z && IsSectionY(k.1)
      ensures k in ColumnSections(x, z)
    {
      assert k == (x, k.1, z);
    }
  }

  lemma ShownAdded(log: seq<SceneEvent>, k: (int, int, int), m: Mesh)
    ensures Shown(log + [Added(k, m)]) == Shown(log)[k := m]
  {
  }

  lemma ShownRemoved(log: seq<SceneEvent>, k: (int, int, int), m: Mesh)
    ensures Shown(log + [Removed(k, m)]) == Shown(log) - {k}
  {
  }

  /**
   * The section at origin `k` needs a mesh: its column is stored, the column
   * has data in that section, and no mesh is stored for it (src/world.js:163).
   */
  predicate NeedsMesh(columns: map<(int, int), Column>, meshes: map<(int, int, int), Mesh>, k: (int, int, int))
  {
    && (k.0, k.2) in columns
    && IsSectionY(k.1)
    && HasSection(columns[(k.0, k.2)], k.1 / 16)
    && k !in meshes
  }

  /** The removals `addColumn` makes for the lowest `n` sections of column (x, z), bottom up. */
  function Teardown(meshes: map<(int, int, int), Mesh>, x: int, z: int, n: nat): seq<SceneEvent>
  {
    if n == 0 then []
    else
      var key := (x, 16 * (n - 1), z);
      Teardown(meshes, x, z, n - 1) + (if key in meshes then [Removed(key, meshes[key])] else [])
  }

  lemma {:induction false} TeardownEvents(meshes: map<(int, int, int), Mesh>, x: int, z: int, n: nat)
    ensures forall e :: e in Teardown(meshes, x, z, n) ==>
      && e.Removed? && e.key.0 == x && e.key.2 == z && 0 <= e.key.1 < 16 * n && e.key.1 % 16 == 0
      && e.key in meshes && e.mesh == meshes[e.key]
    ensures forall y :: 0 <= y < 16 * n && y % 16 == 0 && (x, y, z) in meshes ==>
      Removed((x, y, z), meshes[(x, y, z)]) in Teardown(meshes, x, z, n)
    ensures forall i, j :: 0 <= i < j < |Teardown(meshes, x, z, n)| ==>
      Teardown(meshes, x, z, n)[i].key != Teardown(meshes, x, z, n)[j].key
  {
    if n > 0 {
      TeardownEvents(meshes, x, z, n - 1);
      var t := Teardown(meshes, x, z, n - 1);
      forall i | 0 <= i < |t|
        ensures t[i].key.1 < 16 * (n - 1)
      {
        assert t[i] in t;
      }
    }
  }

  /**
   * `addColumn` removes from the scene each mesh stored for one of the
   * column's sections exactly once, and nothing else.
   */
  lemma TeardownRemovesEachOnce(meshes: map<(int, int, int), Mesh>, x: int, z: int)
    ensures forall e :: e in Teardown(meshes, x, z, 16) ==>
      e.Removed? && e.key in ColumnSections(x, z) && e.key in meshes && e.mesh == meshes[e.key]
    ensures forall k :: k in ColumnSections(x, z) && k in meshes ==> Removed(k, meshes[k]) in Teardown(meshes, x, z, 16)
    ensures forall i, j :: 0 <= i < j < |Teardown(meshes, x, z, 16)| ==>
      Teardown(meshes, x, z, 16)[i].key != Teardown(meshes, x, z, 16)[j].key
  {
    TeardownEvents(meshes, x, z, 16);
    forall e | e in Teardown(meshes, x, z, 16)
      ensures e.key in ColumnSections(x, z)
    {
      assert e.key == (x, e.key.1, z);
    }
  }

  /** Appending a buffer's worth of one quad (src/world.js:99-107 and 113-121). */
  method PushQuad(positions0: seq<real>, normals0: seq<int>, indices0: seq<int>, q: Quad)
    returns (positions: seq<real>, normals: seq<int>, indices: seq<int>)
    ensures Mesh(positions, normals, indices) == AppendQuad(Mesh(positions0, normals0, indices0), q)
  {
    var ndx := |positions0| / 3;
    var vertices := q.Vertices();
    positions, normals := positions0, normals0;
    for k := 0 to 4
      invariant positions == positions0 + Coords(vertices[..k])
      invariant normals == normals0 + Repeat(q.normal, k)
    {
      var p := vertices[k];
      positions := positions + [p.x, p.y, p.z];
      normals := normals + [q.normal.x, q.normal.y, q.normal.z];
      assert vertices[..k + 1][..k] == vertices[..k];
    }
    assert vertices[..4] == vertices;
    indices := indices0 + [ndx, ndx + 1, ndx + 2, ndx + 2, ndx + 1, ndx + 3];
  }

  /** The faces of a full-cube voxel, each only where its neighbour lets it show (src/world.js:96-109). */
  method EmitCubeFaces(world: World, cursor: Vec3, positions0: seq<real>, normals0: seq<int>, indices0: seq<int>)
    returns (positions: seq<real>, normals: seq<int>, indices: seq<int>)
    ensures Mesh(positions, normals, indices) ==
      AppendQuads(Mesh(positions0, normals0, indices0), CubeQuads(world.columns, cursor, 6))
  {
    var m0 := Mesh(positions0, normals0, indices0);
    positions, normals, indices := positions0, normals0, indices0;
    for i := 0 to 6
      invariant Mesh(positions, normals, indices) == AppendQuads(m0, CubeQuads(world.columns, cursor, i))
    {
      var face := CubeFaces[i];
      var neighbor := world.GetBlock(cursor.Plus(face.dir));
      if neighbor.Some? && !IsCube(neighbor.value.shapes) && neighbor.value.position.y >= 0 {
        var q := CubeFaceQuad(face, cursor);
        positions, normals, indices := PushQuad(positions, normals, indices, q);
        assert FaceVisible(world.columns, cursor, face);
        assert CubeQuads(world.columns, cursor, i + 1) == CubeQuads(world.columns, cursor, i) + [q];
        AppendQuadsConcat(m0, CubeQuads(world.columns, cursor, i), [q]);
        assert [q][..0] == [];
      } else {
        assert CubeQuads(world.columns, cursor, i + 1) == CubeQuads(world.columns, cursor, i) + [];
        assert CubeQuads(world.columns, cursor, i) + [] == CubeQuads(world.columns, cursor, i);
      }
    }
  }

  /** The six faces of one box, in the face table's order (src/world.js:112-122). */
  method EmitBox(shape: Shape, cursor: Vec3, positions0: seq<real>, normals0: seq<int>, indices0: seq<int>)
    returns (positions: seq<real>, normals: seq<int>, indices: seq<int>)
    ensures Mesh(positions, normals, indices) ==
      AppendQuads(Mesh(positions0, normals0, indices0), BoxQuads(shape, cursor, 6))
  {
    var m0 := Mesh(positions0, normals0, indices0);
    positions, normals, indices := positions0, normals0, indices0;
    for i := 0 to 6
      invariant Mesh(positions, normals, indices) == AppendQuads(m0, BoxQuads(shape, cursor, i))
    {
      var q := BoxFaceQuad(shape, CubeFaces[i], cursor);
      positions, normals, indices := PushQuad(positions, normals, indices, q);
      AppendQuadsConcat(m0, BoxQuads(shape, cursor, i), [q]);
      assert [q][..0] == [];
    }
  }

  /** All six faces of every box of a non-cube voxel (src/world.js:111-123). */
  method EmitBoxes(shapes: seq<Shape>, cursor: Vec3, positions0: seq<real>, normals0: seq<int>, indices0: seq<int>)
    returns (positions: seq<real>, normals: seq<int>, indices: seq<int>)
    ensures Mesh(positions, normals, indices) ==
      AppendQuads(Mesh(positions0, normals0, indices0), ShapesQuads(shapes, cursor))
  {
    var m0 := Mesh(positions0, normals0, indices0);
    positions, normals, indices := positions0, normals0, indices0;
    for j := 0 to |shapes|
      invariant Mesh(positions, normals, indices) == AppendQuads(m0, ShapesQuads(shapes[..j], cursor))
    {
      positions, normals, indices := EmitBox(shapes[j], cursor, positions, normals, indices);
      assert shapes[..j + 1][..j] == shapes[..j];
      AppendQuadsConcat(m0, ShapesQuads(shapes[..j], cursor), BoxQuads(shapes[j], cursor, 6));
    }
    assert shapes[..|shapes|] == shapes;
  }

  /** One iteration of the innermost loop: the voxel under the cursor (src/world.js:93-125). */
  method EmitVoxel(world: World, cursor: Vec3, positions0: seq<real>, normals0: seq<int>, indices0: seq<int>)
    returns (positions: seq<real>, normals: seq<int>, indices: seq<int>)
    ensures Mesh(positions, normals, indices) ==
      AppendQuads(Mesh(positions0, normals0, indices0), VoxelQuads(world.columns, cursor))
  {
    var block := world.GetBlock(cursor);
    positions, normals, indices := positions0, normals0, indices0;
    if block.Some? && |block.value.shapes| > 0 {
      if IsCube(block.value.shapes) {
        positions, normals, indices := EmitCubeFaces(world, cursor, positions, normals, indices);
      } else {
        positions, normals, indices := EmitBoxes(block.value.shapes, cursor, positions, normals, indices);
      }
    }
  }

  lemma {:induction false} VoxelStep(columns: map<(int, int), Column>, m0: Mesh, sx: int, y: int, z: int, x: int)
    requires sx <= x
    ensures AppendQuads(m0, RowQuads(columns, sx, y, z, x + 1 - sx))
         == AppendQuads(AppendQuads(m0, RowQuads(columns, sx, y, z, x - sx)), VoxelQuads(columns, Vec3(x, y, z)))
  {
    assert RowQuads(columns, sx, y, z, x + 1 - sx) == RowQuads(columns, sx, y, z, x - sx) + VoxelQuads(columns, Vec3(x, y, z));
    AppendQuadsConcat(m0, RowQuads(columns, sx, y, z, x - sx), VoxelQuads(columns, Vec3(x, y, z)));
  }

  /** The innermost loop: the 16 voxels x = sx .. sx+15 of the row at (y, z), in order (src/world.js:92-126). */
  method EmitRow(world: World, sx: int, y: int, z: int, positions0: seq<real>, normals0: seq<int>, indices0: seq<int>)
    returns (positions: seq<real>, normals: seq<int>, indices: seq<int>)
    ensures Mesh(positions, normals, indices) ==
      AppendQuads(Mesh(positions0, normals0, indices0), RowQuads(world.columns, sx, y, z, 16))
  {
    ghost var m0 := Mesh(positions0, normals0, indices0);
    positions, normals, indices := positions0, normals0, indices0;
    var x := sx;
    while x < sx + 16
      invariant sx <= x <= sx + 16
      invariant Mesh(positions, normals, indices) == AppendQuads(m0, RowQuads(world.columns, sx, y, z, x - sx))
    {
      positions, normals, indices := EmitVoxel(world, Vec3(x, y, z), positions, normals, indices);
      VoxelStep(world.columns, m0, sx, y, z, x);
      x := x + 1;
    }
  }

  lemma {:induction false} RowDone(columns: map<(int, int), Column>, m0: Mesh, sx: int, y: int, sz: int, z: int)
    requires sz <= z
    ensures AppendQuads(m0, LayerQuads(columns, sx, y, sz, z + 1 - sz))
         == AppendQuads(AppendQuads(m0, LayerQuads(columns, sx, y, sz, z - sz)), RowQuads(columns, sx, y, z, 16))
  {
    assert LayerQuads(columns, sx, y, sz, z + 1 - sz) == LayerQuads(columns, sx, y, sz, z - sz) + RowQuads(columns, sx, y, z, 16);
    AppendQuadsConcat(m0, LayerQuads(columns, sx, y, sz, z - sz), RowQuads(columns, sx, y, z, 16));
  }

  /** The middle loop: the 16 rows z = sz .. sz+15 of the layer at y, in order (src/world.js:91-127). */
  method EmitLayer(world: World, sx: int, y: int, sz: int, positions0: seq<real>, normals0: seq<int>, indices0: seq<int>)
    returns (positions: seq<real>, normals: seq<int>, indices: seq<int>)
    ensures Mesh(positions, normals, indices) ==
      AppendQuads(Mesh(positions0, normals0, indices0), LayerQuads(world.columns, sx, y, sz, 16))
  {
    ghost var m0 := Mesh(positions0, normals0, indices0);
    positions, normals, indices := positions0, normals0, indices0;
    var z := sz;
    while z < sz + 16
      invariant sz <= z <= sz + 16
      invariant Mesh(positions, normals, indices) == AppendQuads(m0, LayerQuads(world.columns, sx, y, sz, z - sz))
    {
      positions, normals, indices := EmitRow(world, sx, y, z, positions, normals, indices);
      RowDone(world.columns, m0, sx, y, sz, z);
      z := z + 1;
    }
  }

  lemma {:induction false} LayerDone(columns: map<(int, int), Column>, sx: int, sy: int, sz: int, y: int)
    requires sy <= y
    ensures MeshOf(LayersQuads(columns, sx, sy, sz, y + 1 - sy))
         == AppendQuads(MeshOf(LayersQuads(columns, sx, sy, sz, y - sy)), LayerQuads(columns, sx, y, sz, 16))
  {
    assert LayersQuads(columns, sx, sy, sz, y + 1 - sy) == LayersQuads(columns, sx, sy, sz, y - sy) + LayerQuads(columns, sx, y, sz, 16);
    AppendQuadsConcat(EmptyMesh, LayersQuads(columns, sx, sy, sz, y - sy), LayerQuads(columns, sx, y, sz, 16));
  }

  /**
   * `getSectionMesh(sx, sy, sz, world)`: the buffers of the section whose
   * lowest corner is (sx, sy, sz), visited in the order y, z, x.
   */
  method GetSectionMesh(sx: int, sy: int, sz: int, world: World)
    returns (positions: seq<real>, normals: seq<int>, indices: seq<int>)
    ensures Mesh(positions, normals, indices) == MeshOf(SectionQuads(world.columns, sx, sy, sz))
  {
    positions, normals, indices := [], [], [];
    var y := sy;
    while y < sy + 16
      invariant sy <= y <= sy + 16
      invariant Mesh(positions, normals, indices) == MeshOf(LayersQuads(world.columns, sx, sy, sz, y - sy))
    {
      positions, normals, indices := EmitLayer(world, sx, y, sz, positions, normals, indices);
      LayerDone(world.columns, sx, sy, sz, y);
      y := y + 1;
    }
  }

  /**
   * Section `k` has been visited by `update` once the columns in `done` are
   * finished and, in column `xz`, the heights below `y`.
   */
  predicate Visited(done: set<(int, int)>, xz: (int, int), y: int, k: (int, int, int))
  {
    (k.0, k.2) in done || ((k.0, k.2) == xz && k.1 < y)
  }

  /**
   * The meshes while `update` runs, from `meshes0` at its start: exactly the
   * visited sections that needed a mesh have gained one, built from the
   * current columns, and the meshes that existed are untouched.
   */
  ghost predicate MeshesProgress(columns: map<(int, int), Column>, meshes: map<(int, int, int), Mesh>,
                           meshes0: map<(int, int, int), Mesh>, done: set<(int, int)>, xz: (int, int), y: int)
  {
    && (forall k :: k in meshes <==> k in meshes0 || (NeedsMesh(columns, meshes0, k) && Visited(done, xz, y, k)))
    && (forall k :: k in meshes0 ==> meshes[k] == meshes0[k])
    && (forall k :: k in meshes && k !in meshes0 ==> meshes[k] == MeshOf(SectionQuads(columns, k.0, k.1, k.2)))
  }

  /**
   * The scene log while `update` runs, from `log0` at its start: only `add`
   * calls were appended, one per new mesh, never two for the same section.
   */
  ghost predicate LogProgress(columns: map<(int, int), Column>, meshes: map<(int, int, int), Mesh>, log: seq<SceneEvent>,
                        meshes0: map<(int, int, int), Mesh>, log0: seq<SceneEvent>)
  {
    && |log0| <= |log| && log[..|log0|] == log0
    && (forall j :: |log0| <= j < |log| ==>
          log[j].Added? && NeedsMesh(columns, meshes0, log[j].key) && log[j].key in meshes)
    && (forall i, j :: |log0| <= i < j < |log| ==> log[i].key != log[j].key)
  }

  /** When no section needed a mesh at the start, nothing has changed. */
  ghost predicate QuietProgress(columns: map<(int, int), Column>, meshes: map<(int, int, int), Mesh>, log: seq<SceneEvent>,
                          meshes0: map<(int, int, int), Mesh>, log0: seq<SceneEvent>)
  {
    (forall k :: !NeedsMesh(columns, meshes0, k)) ==> meshes == meshes0 && log == log0
  }

  lemma MeshesEnterColumn(columns: map<(int, int), Column>, meshes: map<(int, int, int), Mesh>,
                          meshes0: map<(int, int, int), Mesh>, done: set<(int, int)>, xz: (int, int))
    requires MeshesProgress(columns, meshes, meshes0, done, (0, 0), 0)
    ensures MeshesProgress(columns, meshes, meshes0, done, xz, 0)
  {
  }

  lemma MeshesLeaveColumn(columns: map<(int, int), Column>, meshes: map<(int, int, int), Mesh>,
                          meshes0: map<(int, int, int), Mesh>, done: set<(int, int)>, xz: (int, int))
    requires MeshesProgress(columns, meshes, meshes0, done, xz, 256)
    ensures MeshesProgress(columns, meshes, meshes0, done + {xz}, (0, 0), 0)
  {
  }

  /** Moving past section `i` of column `xz` visits exactly that section's key. */
  lemma VisitedStep(done: set<(int, int)>, xz: (int, int), i: nat, k: (int, int, int))
    requires k.1 % 16 == 0
    ensures Visited(done, xz, 16 * (i + 1), k) <==> Visited(done, xz, 16 * i, k) || k == (xz.0, 16 * i, xz.1)
  {
  }

  /** `update` builds the mesh of section `i` of column `xz`, which needed one. */
  lemma MeshesAdd(columns: map<(int, int), Column>, meshes: map<(int, int, int), Mesh>,
                  meshes0: map<(int, int, int), Mesh>, done: set<(int, int)>, xz: (int, int), i: nat, mesh: Mesh)
    requires MeshesProgress(columns, meshes, meshes0, done, xz, 16 * i)
    requires NeedsMesh(columns, meshes0, (xz.0, 16 * i, xz.1)) && (xz.0, 16 * i, xz.1) !in meshes
    requires mesh == MeshOf(SectionQuads(columns, xz.0, 16 * i, xz.1))
    ensures MeshesProgress(columns, meshes[(xz.0, 16 * i, xz.1) := mesh], meshes0, done, xz, 16 * (i + 1))
  {
    var key := (xz.0, 16 * i, xz.1);
    forall k | NeedsMesh(columns, meshes0, k)
      ensures Visited(done, xz, 16 * (i + 1), k) <==> Visited(done, xz, 16 * i, k) || k == key
    {
      VisitedStep(done, xz, i, k);
    }
  }

  /** `update` passes over section `i` of column `xz`, which has a mesh or no data. */
  lemma MeshesSkip(columns: map<(int, int), Column>, meshes: map<(int, int, int), Mesh>,
                   meshes0: map<(int, int, int), Mesh>, done: set<(int, int)>, xz: (int, int), i: nat)
    requires MeshesProgress(columns, meshes, meshes0, done, xz, 16 * i)
    requires (xz.0, 16 * i, xz.1) in meshes || !NeedsMesh(columns, meshes0, (xz.0, 16 * i, xz.1))
    ensures MeshesProgress(columns, meshes, meshes0, done, xz, 16 * (i + 1))
  {
    forall k | NeedsMesh(columns, meshes0, k)
      ensures Visited(done, xz, 16 * (i + 1), k) <==> Visited(done, xz, 16 * i, k) || k == (xz.0, 16 * i, xz.1)
    {
      VisitedStep(done, xz, i, k);
    }
  }

  lemma LogAdd(columns: map<(int, int), Column>, meshes: map<(int, int, int), Mesh>, log: seq<SceneEvent>,
               meshes0: map<(int, int, int), Mesh>, log0: seq<SceneEvent>, key: (int, int, int), mesh: Mesh)
    requires LogProgress(columns, meshes, log, meshes0, log0)
    requires NeedsMesh(columns, meshes0, key) && key !in meshes
    ensures LogProgress(columns, meshes[key := mesh], log + [Added(key, mesh)], meshes0, log0)
  {
  }

  /**
   * The world: loaded columns by origin (x, z), section meshes by origin
   * (x, y, z), and the calls made on the scene so far.
   */
  class World {
    var columns: map<(int, int), Column>
    var sectionMeshs: map<(int, int, int), Mesh>
    ghost var sceneLog: seq<SceneEvent>

    /**
     * The scene shows exactly the stored meshes, and every stored mesh belongs
     * to a section of a stored column that has data in that section.
     */
    ghost predicate Valid()
      reads this
    {
      && Shown(sceneLog) == sectionMeshs
      && forall k :: k in sectionMeshs ==>
           (k.0, k.2) in columns && IsSectionY(k.1) && HasSection(columns[(k.0, k.2)], k.1 / 16)
    }

    /** An empty world; the scene is the sink the log records calls to. */
    constructor()
      ensures Valid()
      ensures columns == map[] && sectionMeshs == map[] && sceneLog == []
    {
      columns := map[];
      sectionMeshs := map[];
      sceneLog := [];
    }

    /**
     * `getBlock(pos)`: the block at an integer position, `None` when its column
     * is not loaded. Reads the world and changes nothing.
     */
    method GetBlock(p: Vec3) returns (b: Option<Block>)
      ensures b == BlockAt(columns, p)
    {
      var key := ((p.x / 16) * 16, (p.z / 16) * 16);
      if key !in columns {
        return None;
      }
      var column := columns[key];
      var loc := Vec3(p.x % 16, p.y % 256, p.z % 16);
      b := Some(Block(p, column.shapesAt(loc)));
    }

    /**
     * `Valid()` while `addColumn` replaces column (x, z): the meshes of that
     * column's sections may still describe the previous column.
     */
    ghost predicate ValidExcept(x: int, z: int)
      reads this
    {
      && Shown(sceneLog) == sectionMeshs
      && forall k :: k in sectionMeshs ==>
           && (k.0, k.2) in columns && IsSectionY(k.1)
           && ((k.0, k.2) == (x, z) || HasSection(columns[(k.0, k.2)], k.1 / 16))
    }

    /**
     * `addColumn(x, z, chunk)`: store the column and take down the meshes of
     * its 16 sections, removing each from the scene.
     */
    method AddColumn(x: int, z: int, chunk: Column)
      requires Valid()
      modifies this
      ensures Valid()
      ensures columns == old(columns)[(x, z) := chunk]
      ensures sectionMeshs == old(sectionMeshs) - ColumnSections(x, z)
      ensures sceneLog == old(sceneLog) + Teardown(old(sectionMeshs), x, z, 16)
    {
      columns := columns[(x, z) := chunk];
      TakeDownColumn(x, z);
      NoMeshOfColumn(old(sectionMeshs), x, z);
    }

    /** The loop of `addColumn`: remove the meshes of the 16 sections of column (x, z), bottom up (src/world.js:147-153). */
    method TakeDownColumn(x: int, z: int)
      requires ValidExcept(x, z)
      modifies this
      ensures ValidExcept(x, z)
      ensures columns == old(columns)
      ensures sectionMeshs == old(sectionMeshs) - ColumnSections(x, z)
      ensures sceneLog == old(sceneLog) + Teardown(old(sectionMeshs), x, z, 16)
    {
      for i := 0 to 16
        invariant columns == old(columns)
        invariant sectionMeshs == old(sectionMeshs) - SectionsBelow(x, z, 16 * i)
        invariant sceneLog == old(sceneLog) + Teardown(old(sectionMeshs), x, z, i)
        invariant ValidExcept(x, z)
      {
        TakeDownStep(old(sectionMeshs), sectionMeshs, x, z, i);
        TakeDownSection(x, z, i);
      }
    }

    /** One iteration of the loop of `addColumn`: remove the mesh of section `i` of column (x, z), if any (src/world.js:147-153). */
    method TakeDownSection(x: int, z: int, i: nat)
      requires ValidExcept(x, z)
      modifies this
      ensures ValidExcept(x, z)
      ensures columns == old(columns)
      ensures sectionMeshs == old(sectionMeshs) - {(x, 16 * i, z)}
      ensures sceneLog == old(sceneLog) +
        (if (x, 16 * i, z) in old(sectionMeshs) then [Removed((x, 16 * i, z), old(sectionMeshs)[(x, 16 * i, z)])] else [])
    {
      var key := (x, 16 * i, z);
      if key in sectionMeshs {
        var mesh := sectionMeshs[key];
        ShownRemoved(sceneLog, key, mesh);
        sceneLog := sceneLog + [Removed(key, mesh)];
        sectionMeshs := sectionMeshs - {key};
      }
    }

    /** The state `update` keeps while it runs, from meshes `meshes0` and scene log `log0` at its start. */
    ghost predicate Progress(meshes0: map<(int, int, int), Mesh>, log0: seq<SceneEvent>,
                             done: set<(int, int)>, xz: (int, int), y: int)
      reads this
    {
      && MeshesProgress(columns, sectionMeshs, meshes0, done, xz, y)
      && LogProgress(columns, sectionMeshs, sceneLog, meshes0, log0)
      && QuietProgress(columns, sectionMeshs, sceneLog, meshes0, log0)
    }

    /**
     * `update()`: build and show a mesh for every section of a stored column
     * that has data and no mesh yet. The columns are visited in the order of
     * the source object's keys, which the model leaves open.
     */
    method Update()
      requires Valid()
      modifies this
      ensures Valid()
      ensures columns == old(columns)
      ensures forall k :: k in sectionMeshs <==> k in old(sectionMeshs) || NeedsMesh(columns, old(sectionMeshs), k)
      ensures forall k :: k in old(sectionMeshs) ==> sectionMeshs[k] == old(sectionMeshs)[k]
      ensures forall k :: k in sectionMeshs && k !in old(sectionMeshs) ==>
        sectionMeshs[k] == MeshOf(SectionQuads(columns, k.0, k.1, k.2))
      ensures forall k :: !NeedsMesh(columns, sectionMeshs, k)
      ensures |old(sceneLog)| <= |sceneLog| && sceneLog[..|old(sceneLog)|] == old(sceneLog)
      ensures forall j :: |old(sceneLog)| <= j < |sceneLog| ==>
        sceneLog[j].Added? && NeedsMesh(columns, old(sectionMeshs), sceneLog[j].key)
      ensures forall i, j :: |old(sceneLog)| <= i < j < |sceneLog| ==> sceneLog[i].key != sceneLog[j].key
      ensures (forall k :: !NeedsMesh(old(columns), old(sectionMeshs), k)) ==>
        sectionMeshs == old(sectionMeshs) && sceneLog == old(sceneLog)
    {
      var todo := columns.Keys;
      ghost var done: set<(int, int)> := {};
      assert sceneLog[..|sceneLog|] == sceneLog;
      while todo != {}
        invariant columns == old(columns)
        invariant todo !! done && todo + done == columns.Keys
        invariant Valid() && Progress(old(sectionMeshs), old(sceneLog), done, (0, 0), 0)
        decreases |todo|
      {
        var xz :| xz in todo;
        MeshesEnterColumn(columns, sectionMeshs, old(sectionMeshs), done, xz);
        UpdateColumn(xz, old(sectionMeshs), old(sceneLog), done);
        MeshesLeaveColumn(columns, sectionMeshs, old(sectionMeshs), done, xz);
        todo := todo - {xz};
        done := done + {xz};
      }
    }

    /** The inner loop of `update` for the column stored at `xz`: its 16 sections, bottom up. */
    method UpdateColumn(xz: (int, int), ghost meshes0: map<(int, int, int), Mesh>, ghost log0: seq<SceneEvent>,
                        ghost done: set<(int, int)>)
      requires xz in columns
      requires Valid() && Progress(meshes0, log0, done, xz, 0)
      modifies this
      ensures columns == old(columns)
      ensures Valid() && Progress(meshes0, log0, done, xz, 256)
    {
      for i := 0 to 16
        invariant columns == old(columns)
        invariant Valid() && Progress(meshes0, log0, done, xz, 16 * i)
      {
        VisitSection(xz, i, meshes0, log0, done);
      }
    }

    /** One iteration of the inner loop of `update`: section `i` of the column stored at `xz` (src/world.js:161-168). */
    method VisitSection(xz: (int, int), i: nat, ghost meshes0: map<(int, int, int), Mesh>, ghost log0: seq<SceneEvent>,
                        ghost done: set<(int, int)>)
      requires xz in columns && i < 16
      requires Valid() && Progress(meshes0, log0, done, xz, 16 * i)
      modifies this
      ensures columns == old(columns)
      ensures Valid() && Progress(meshes0, log0, done, xz, 16 * (i + 1))
    {
      var x, y, z := xz.0, 16 * i, xz.1;
      var key := (x, y, z);
      SectionIndex(i);
      if HasSection(columns[xz], y / 16) && key !in sectionMeshs {
        var positions, normals, indices := GetSectionMesh(x, y, z, this);
        ShowSection(xz, i, Mesh(positions, normals, indices), meshes0, log0, done);
      } else {
        MeshesSkip(columns, sectionMeshs, meshes0, done, xz, i);
      }
    }

    /** Store and show the mesh built for section `i` of column `xz`, which needed one (src/world.js:164-166). */
    method ShowSection(xz: (int, int), i: nat, mesh: Mesh, ghost meshes0: map<(int, int, int), Mesh>,
                       ghost log0: seq<SceneEvent>, ghost done: set<(int, int)>)
      requires NeedsMesh(columns, meshes0, (xz.0, 16 * i, xz.1)) && (xz.0, 16 * i, xz.1) !in sectionMeshs
      requires mesh == MeshOf(SectionQuads(columns, xz.0, 16 * i, xz.1))
      requires Valid() && Progress(meshes0, log0, done, xz, 16 * i)
      modifies this
      ensures columns == old(columns)
      ensures Valid() && Progress(meshes0, log0, done, xz, 16 * (i + 1))
    {
      var key := (xz.0, 16 * i, xz.1);
      MeshesAdd(columns, sectionMeshs, meshes0, done, xz, i, mesh);
      LogAdd(columns, sectionMeshs, sceneLog, meshes0, log0, key, mesh);
      ShownAdded(sceneLog, key, mesh);
      sectionMeshs := sectionMeshs[key := mesh];
      sceneLog := sceneLog + [Added(key, mesh)];
    }
  }

  /**
   * Calling `update()` twice in a row: the first call leaves the meshes
   * `meshes1` and the scene log `log1`; the second finds no section that needs
   * a mesh, so it neither stores a mesh nor calls the scene.
   */
  method UpdateTwice(w: World) returns (ghost meshes1: map<(int, int, int), Mesh>, ghost log1: seq<SceneEvent>)
    requires w.Valid()
    modifies w
    ensures w.Valid() && w.columns == old(w.columns)
    ensures forall k :: k in meshes1 <==> k in old(w.sectionMeshs) || NeedsMesh(w.columns, old(w.sectionMeshs), k)
    ensures forall k :: !NeedsMesh(w.columns, meshes1, k)
    ensures w.sectionMeshs == meshes1 && w.sceneLog == log1
  {
    w.Update();
    meshes1, log1 := w.sectionMeshs, w.sceneLog;
    w.Update();
  }
}
