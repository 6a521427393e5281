/**
 * Which quads `getSectionMesh` emits (src/world.js:90-128), as functions of
 * the world's column map: per voxel (full cube with neighbour culling, or one
 * box per shape with all six faces), then per row, layer and section in the
 * loops' order y, z, x.
 */
module Voxels {
  import opened Wrappers
  import opened Geometry
  import opened Blocks
  import opened MeshBuffers

  /** A table corner moved to the cursor: `pos[i] + cursor` on each axis. */
  function CubeCorner(k: Vec3, cursor: Vec3): Point
  {
    Point((k.x + cursor.x) as real, (k.y + cursor.y) as real, (k.z + cursor.z) as real)
  }

  /** A box corner: the box's max on an axis where the table corner is 1 (truthy), its min where it is 0, plus the cursor. */
  function BoxCorner(s: Shape, k: Vec3, cursor: Vec3): Point
  {
    Point((if k.x != 0 then s.maxX else s.minX) + cursor.x as real,
          (if k.y != 0 then s.maxY else s.minY) + cursor.y as real,
          (if k.z != 0 then s.maxZ else s.minZ) + cursor.z as real)
  }

  /** The quad a full-cube voxel emits for face `f` (src/world.js:99-107). */
  function CubeFaceQuad(f: Face, cursor: Vec3): Quad
  {
    Quad(CubeCorner(f.c0, cursor), CubeCorner(f.c1, cursor), CubeCorner(f.c2, cursor), CubeCorner(f.c3, cursor), f.dir)
  }

  /** The quad one box of a non-cube voxel emits for face `f` (src/world.js:113-121). */
  function BoxFaceQuad(s: Shape, f: Face, cursor: Vec3): Quad
  {
    Quad(BoxCorner(s, f.c0, cursor), BoxCorner(s, f.c1, cursor), BoxCorner(s, f.c2, cursor), BoxCorner(s, f.c3, cursor), f.dir)
  }

  /**
   * The culling test of src/world.js:98: the neighbour across face `f` is
   * loaded, is not a full cube, and its position has y >= 0.
   */
  predicate FaceVisible(columns: map<(int, int), Column>, cursor: Vec3, f: Face)
  {
    match BlockAt(columns, cursor.Plus(f.dir))
    case None => false
    case Some(nb) => !IsCube(nb.shapes) && nb.position.y >= 0
  }

  /** The quads of a full-cube voxel from the first `n` table faces. */
  function CubeQuads(columns: map<(int, int), Column>, cursor: Vec3, n: nat): seq<Quad>
    requires n <= 6
  {
    if n == 0 then []
    else
      var f := CubeFaces[n - 1];
      CubeQuads(columns, cursor, n - 1) + (if FaceVisible(columns, cursor, f) then [CubeFaceQuad(f, cursor)] else [])
  }

  /** The quads of one box from the first `n` table faces. */
  function BoxQuads(s: Shape, cursor: Vec3, n: nat): seq<Quad>
    requires n <= 6
  {
    if n == 0 then [] else BoxQuads(s, cursor, n - 1) + [BoxFaceQuad(s, CubeFaces[n - 1], cursor)]
  }

  /** The quads of a list of boxes, six per box, box by box. */
  function ShapesQuads(shapes: seq<Shape>, cursor: Vec3): seq<Quad>
  {
    if |shapes| == 0 then []
    else ShapesQuads(shapes[..|shapes| - 1], cursor) + BoxQuads(shapes[|shapes| - 1], cursor, 6)
  }

  /** The quads of the voxel at `cursor` (src/world.js:93-125). */
  function VoxelQuads(columns: map<(int, int), Column>, cursor: Vec3): seq<Quad>
  {
    match BlockAt(columns, cursor)
    case None => []
    case Some(b) =>
      if |b.shapes| == 0 then []
      else if IsCube(b.shapes) then CubeQuads(columns, cursor, 6)
      else ShapesQuads(b.shapes, cursor)
  }

  /** The voxels x = sx .. sx+n-1 of one row, in order. */
  function RowQuads(columns: map<(int, int), Column>, sx: int, y: int, z: int, n: nat): seq<Quad>
  {
    if n == 0 then [] else RowQuads(columns, sx, y, z, n - 1) + VoxelQuads(columns, Vec3(sx + n - 1, y, z))
  }

  /** The rows z = sz .. sz+n-1 of one layer, in order. */
  function LayerQuads(columns: map<(int, int), Column>, sx: int, y: int, sz: int, n: nat): seq<Quad>
  {
    if n == 0 then [] else LayerQuads(columns, sx, y, sz, n - 1) + RowQuads(columns, sx, y, sz + n - 1, 16)
  }

  /** The layers y = sy .. sy+n-1 of a section, in order. */
  function LayersQuads(columns: map<(int, int), Column>, sx: int, sy: int, sz: int, n: nat): seq<Quad>
  {
    if n == 0 then [] else LayersQuads(columns, sx, sy, sz, n - 1) + LayerQuads(columns, sx, sy + n - 1, sz, 16)
  }

  /** Every quad of the 16 x 16 x 16 section whose lowest corner is (sx, sy, sz). */
  function SectionQuads(columns: map<(int, int), Column>, sx: int, sy: int, sz: int): seq<Quad>
  {
    LayersQuads(columns, sx, sy, sz, 16)
  }

  /**
   * The culling test spelled out against the column map: the face shows iff
   * the neighbour's column is loaded, the neighbour is not a full cube and the
   * neighbour's y is not negative. An unloaded neighbour hides the face.
   */
  lemma FaceVisibleMeans(columns: map<(int, int), Column>, cursor: Vec3, f: Face)
    ensures var n := cursor.Plus(f.dir);
      FaceVisible(columns, cursor, f) <==>
        && ColumnOrigin(n) in columns
        && !IsCube(columns[ColumnOrigin(n)].shapesAt(PosInChunk(n)))
        && n.y >= 0
  {
  }

  /** Quads of different table faces differ (their normals do). */
  lemma CubeFaceQuadsDistinct(cursor: Vec3)
    ensures forall i, j :: 0 <= i < 6 && 0 <= j < 6 && i != j ==>
      CubeFaceQuad(CubeFaces[i], cursor) != CubeFaceQuad(CubeFaces[j], cursor)
  {
  }

  lemma {:induction false} CubeQuadsMembers(columns: map<(int, int), Column>, cursor: Vec3, n: nat)
    requires n <= 6
    ensures |CubeQuads(columns, cursor, n)| <= n
    ensures forall i :: 0 <= i < 6 ==>
      (CubeFaceQuad(CubeFaces[i], cursor) in CubeQuads(columns, cursor, n) <==> i < n && FaceVisible(columns, cursor, CubeFaces[i]))
    ensures forall q :: q in CubeQuads(columns, cursor, n) ==>
      exists i :: 0 <= i < n && q == CubeFaceQuad(CubeFaces[i], cursor)
  {
    if n > 0 {
      CubeQuadsMembers(columns, cursor, n - 1);
      CubeFaceQuadsDistinct(cursor);
    }
  }

  /**
   * A full-cube voxel emits the quad of face `dir` exactly when that face is
   * visible, and no other quads; hence at most six.
   */
  lemma CubeVoxelQuads(columns: map<(int, int), Column>, cursor: Vec3)
    requires BlockAt(columns, cursor).Some? && IsCube(BlockAt(columns, cursor).value.shapes)
    ensures |VoxelQuads(columns, cursor)| <= 6
    ensures forall i :: 0 <= i < 6 ==>
      (CubeFaceQuad(CubeFaces[i], cursor) in VoxelQuads(columns, cursor) <==> FaceVisible(columns, cursor, CubeFaces[i]))
    ensures forall q :: q in VoxelQuads(columns, cursor) ==>
      exists i :: 0 <= i < 6 && q == CubeFaceQuad(CubeFaces[i], cursor)
  {
    CubeQuadsMembers(columns, cursor, 6);
  }

  /** A full-cube voxel whose six neighbours are all loaded full cubes emits nothing. */
  lemma EnclosedCubeIsHidden(columns: map<(int, int), Column>, cursor: Vec3)
    requires BlockAt(columns, cursor).Some? && IsCube(BlockAt(columns, cursor).value.shapes)
    requires forall i :: 0 <= i < 6 ==>
      var nb := BlockAt(columns, cursor.Plus(CubeFaces[i].dir));
      nb.Some? && IsCube(nb.value.shapes)
    ensures VoxelQuads(columns, cursor) == []
  {
    HiddenCubeQuads(columns, cursor, 6);
  }

  lemma {:induction false} HiddenCubeQuads(columns: map<(int, int), Column>, cursor: Vec3, n: nat)
    requires n <= 6
    requires forall i :: 0 <= i < n ==> !FaceVisible(columns, cursor, CubeFaces[i])
    ensures CubeQuads(columns, cursor, n) == []
  {
    if n > 0 {
      HiddenCubeQuads(columns, cursor, n - 1);
    }
  }

  /**
   * A full-cube voxel whose six neighbours all lie in unloaded columns emits
   * nothing: an unloaded neighbour hides the face.
   */
  lemma UnloadedNeighboursHideCube(columns: map<(int, int), Column>, cursor: Vec3)
    requires BlockAt(columns, cursor).Some? && IsCube(BlockAt(columns, cursor).value.shapes)
    requires forall i :: 0 <= i < 6 ==> BlockAt(columns, cursor.Plus(CubeFaces[i].dir)).None?
    ensures VoxelQuads(columns, cursor) == []
  {
    HiddenCubeQuads(columns, cursor, 6);
  }

  lemma {:induction false} ExposedCubeQuads(columns: map<(int, int), Column>, cursor: Vec3, n: nat)
    requires n <= 6
    requires forall i :: 0 <= i < n ==> FaceVisible(columns, cursor, CubeFaces[i])
    ensures |CubeQuads(columns, cursor, n)| == n
    ensures forall i :: 0 <= i < n ==> CubeQuads(columns, cursor, n)[i] == CubeFaceQuad(CubeFaces[i], cursor)
  {
    if n > 0 {
      ExposedCubeQuads(columns, cursor, n - 1);
    }
  }

  /**
   * A full-cube voxel all of whose faces are visible emits the six table
   * quads in table order: 24 vertices (72 position values) and 36 indices.
   */
  lemma ExposedCubeShowsAll(columns: map<(int, int), Column>, cursor: Vec3)
    requires BlockAt(columns, cursor).Some? && IsCube(BlockAt(columns, cursor).value.shapes)
    requires forall i :: 0 <= i < 6 ==> FaceVisible(columns, cursor, CubeFaces[i])
    ensures |VoxelQuads(columns, cursor)| == 6
    ensures forall i :: 0 <= i < 6 ==> VoxelQuads(columns, cursor)[i] == CubeFaceQuad(CubeFaces[i], cursor)
    ensures |MeshOf(VoxelQuads(columns, cursor)).positions| == 72
    ensures |MeshOf(VoxelQuads(columns, cursor)).indices| == 36
  {
    ExposedCubeQuads(columns, cursor, 6);
    MeshLayout(VoxelQuads(columns, cursor));
  }

  lemma {:induction false} BoxQuadsContent(s: Shape, cursor: Vec3, n: nat)
    requires n <= 6
    ensures |BoxQuads(s, cursor, n)| == n
    ensures forall i :: 0 <= i < n ==> BoxQuads(s, cursor, n)[i] == BoxFaceQuad(s, CubeFaces[i], cursor)
  {
    if n > 0 {
      BoxQuadsContent(s, cursor, n - 1);
    }
  }

  lemma {:induction false} ShapesQuadsContent(shapes: seq<Shape>, cursor: Vec3)
    ensures |ShapesQuads(shapes, cursor)| == 6 * |shapes|
    ensures forall k, i :: 0 <= k < |shapes| && 0 <= i < 6 ==>
      ShapesQuads(shapes, cursor)[6 * k + i] == BoxFaceQuad(shapes[k], CubeFaces[i], cursor)
  {
    if |shapes| > 0 {
      var n := |shapes| - 1;
      ShapesQuadsContent(shapes[..n], cursor);
      BoxQuadsContent(shapes[n], cursor, 6);
      var init, last := ShapesQuads(shapes[..n], cursor), BoxQuads(shapes[n], cursor, 6);
      assert ShapesQuads(shapes, cursor) == init + last;
      forall k, i | 0 <= k < |shapes| && 0 <= i < 6
        ensures (init + last)[6 * k + i] == BoxFaceQuad(shapes[k], CubeFaces[i], cursor)
      {
        if k < n {
          assert (init + last)[6 * k + i] == init[6 * k + i];
          assert shapes[..n][k] == shapes[k];
        } else {
          assert (init + last)[6 * k + i] == last[i];
        }
      }
    }
  }

  /**
   * A non-empty voxel that is not a full cube emits six quads per box, face
   * by face in table order, whatever its neighbours are.
   */
  lemma ShapeVoxelQuads(columns: map<(int, int), Column>, cursor: Vec3)
    requires BlockAt(columns, cursor).Some?
    requires |BlockAt(columns, cursor).value.shapes| > 0 && !IsCube(BlockAt(columns, cursor).value.shapes)
    ensures var shapes := BlockAt(columns, cursor).value.shapes;
      && |VoxelQuads(columns, cursor)| == 6 * |shapes|
      && forall k, i :: 0 <= k < |shapes| && 0 <= i < 6 ==>
           VoxelQuads(columns, cursor)[6 * k + i] == BoxFaceQuad(shapes[k], CubeFaces[i], cursor)
  {
    ShapesQuadsContent(BlockAt(columns, cursor).value.shapes, cursor);
  }

  /** A voxel in an unloaded column, or whose block has no shapes, emits nothing. */
  lemma EmptyVoxelQuads(columns: map<(int, int), Column>, cursor: Vec3)
    requires BlockAt(columns, cursor).None? || |BlockAt(columns, cursor).value.shapes| == 0
    ensures VoxelQuads(columns, cursor) == []
  {
  }

  lemma UnitBoxCorner(k: Vec3, cursor: Vec3)
    requires IsCellCorner(k)
    ensures BoxCorner(UnitCube, k, cursor) == CubeCorner(k, cursor)
  {
  }

  /** Putting the unit box (0, 0, 0, 1, 1, 1) through the box path reproduces the table quads exactly. */
  lemma UnitBoxIsCube(cursor: Vec3)
    ensures forall i :: 0 <= i < 6 ==> BoxFaceQuad(UnitCube, CubeFaces[i], cursor) == CubeFaceQuad(CubeFaces[i], cursor)
  {
  }

  lemma {:induction false} SilentRow(columns: map<(int, int), Column>, sx: int, y: int, z: int, n: nat)
    requires forall x :: sx <= x < sx + n ==> VoxelQuads(columns, Vec3(x, y, z)) == []
    ensures RowQuads(columns, sx, y, z, n) == []
  {
    if n > 0 {
      SilentRow(columns, sx, y, z, n - 1);
    }
  }

  lemma {:induction false} SilentLayer(columns: map<(int, int), Column>, sx: int, y: int, sz: int, n: nat)
    requires forall x, z :: sx <= x < sx + 16 && sz <= z < sz + n ==> VoxelQuads(columns, Vec3(x, y, z)) == []
    ensures LayerQuads(columns, sx, y, sz, n) == []
  {
    if n > 0 {
      SilentLayer(columns, sx, y, sz, n - 1);
      SilentRow(columns, sx, y, sz + n - 1, 16);
    }
  }

  lemma {:induction false} SilentLayers(columns: map<(int, int), Column>, sx: int, sy: int, sz: int, n: nat)
    requires forall x, y, z :: sx <= x < sx + 16 && sy <= y < sy + n && sz <= z < sz + 16 ==>
      VoxelQuads(columns, Vec3(x, y, z)) == []
    ensures LayersQuads(columns, sx, sy, sz, n) == []
  {
    if n > 0 {
      SilentLayers(columns, sx, sy, sz, n - 1);
      SilentLayer(columns, sx, sy + n - 1, sz, 16);
    }
  }

  /** A section is the voxels' quads in loop order, so a section none of whose voxels emits anything is empty. */
  lemma SilentSection(columns: map<(int, int), Column>, sx: int, sy: int, sz: int)
    requires forall x, y, z :: sx <= x < sx + 16 && sy <= y < sy + 16 && sz <= z < sz + 16 ==>
      VoxelQuads(columns, Vec3(x, y, z)) == []
    ensures SectionQuads(columns, sx, sy, sz) == []
  {
    SilentLayers(columns, sx, sy, sz, 16);
  }

  /** A section of a column that is not loaded emits nothing. */
  lemma UnloadedSectionIsEmpty(columns: map<(int, int), Column>, sx: int, sy: int, sz: int)
    requires sx % 16 == 0 && sz % 16 == 0 && (sx, sz) !in columns
    ensures SectionQuads(columns, sx, sy, sz) == []
  {
    forall x, y, z | sx <= x < sx + 16 && sy <= y < sy + 16 && sz <= z < sz + 16
      ensures VoxelQuads(columns, Vec3(x, y, z)) == []
    {
      var o := ColumnOrigin(Vec3(x, y, z));
      assert o.0 == sx by {
        assert o.0 <= x < o.0 + 16 && o.0 % 16 == 0;
      }
      assert o.1 == sz by {
        assert o.1 <= z < o.1 + 16 && o.1 % 16 == 0;
      }
    }
    SilentSection(columns, sx, sy, sz);
  }
}
