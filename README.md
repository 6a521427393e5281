# prismarine-viewer world mesher in Dafny

This project models `src/world.js` of prismarine-viewer. That file turns a
chunked voxel world into triangle meshes, one mesh per 16 x 16 x 16 section of a
16 x 256 x 16 column, and keeps the store that drives the process:

- `Geometry` (`geometry.dfy`): integer positions, box shapes, the full-cube
  classifier `isCube`, and the static face table `cubeFaces`. Each face has
  an outward direction and four unit-cell corners, which feed two triangles
  (0, 1, 2) and (2, 1, 3).
- `Keys` (`keys.dfy`): the string keys `columnKey` and `sectionKey`, and the
  way `update` reads a column key back with `split(',')` and `parseInt`. The
  maps in the model are keyed by coordinate tuples. The round-trip and
  injectivity lemmas here show that this is the same thing.
- `Blocks` (`blocks.dfy`): `posInChunk` and the lookup `getBlock` performs,
  stated over the value of the column map.
- `MeshBuffers` (`mesh.dfy`): the three buffers `positions`, `normals` and
  `indices`, grown one quad at a time, and their layout invariants.
- `Voxels` (`voxels.dfy`): which quads a voxel, a row, a layer and a whole
  section emit, in the loops' order y, z, x. This covers neighbour culling for
  full cubes and six faces per box for everything else.
- `WorldIndex` (`world.dfy`): `getSectionMesh` as three nested loops over
  growing sequences, one method per loop level (`GetSectionMesh` over y,
  `EmitLayer` over z, `EmitRow` over x), proved equal to the mesh of the
  section's quad list. Also the class `World`, with the column map, the section-mesh map and
  a ghost log of the `scene.add` / `scene.remove` calls, and its methods
  `addColumn`, `update` and `getBlock`.

`World.Valid()` is the class invariant. It says that the scene shows exactly
the stored meshes, and that every stored mesh belongs to a section
(y = 0, 16, ..., 240) of a stored column that has data in that section: a
mesh exists only while its section holds blocks.

Behaviour the model keeps as the code has it, where one might expect
otherwise:

- An unloaded neighbour hides a full cube's face (src/world.js:98). One might
  expect a missing neighbour to leave the face visible, to avoid holes at
  chunk borders. `Voxels.UnloadedNeighboursHideCube` proves that a cube whose
  six neighbours are all unloaded emits nothing.
- `getBlock` masks y with 255, so y = 256 reads the block at y = 0 and
  y = -1 reads y = 255. The returned block keeps the unmasked position
  (`Blocks.YWrapsWithinColumn`). One might expect "not loaded" for a
  position above or below the column instead.
- `addColumn` tears down only the meshes of its own column. Meshes of
  neighbouring columns built while this column was missing keep their
  faces. `update` never rebuilds a section that already has a mesh.

After `update` no section needs a mesh, and when no section needs a mesh
`update` changes nothing. So a second `update` with no `addColumn` in between
adds nothing; `WorldIndex.UpdateTwice` proves this.

## Model

| member | source | states |
|---|---|---|
| Geometry.IsCube | src/world.js:78-82 | true exactly when the shape list is the single unit box (0, 0, 0, 1, 1, 1); an empty list, several boxes or any other box gives false |
| Geometry.LeftFaceIsOutward | src/world.js:6-14 | the left face's direction is an axis unit, its four corners are cell corners on the x = 0 plane, and both triangles (0, 1, 2) and (2, 1, 3) have cross product (b - a) x (c - a) equal to the direction, so they are wound outward |
| Geometry.RightFaceIsOutward | src/world.js:15-23 | the same for the right face (x = 1 plane) |
| Geometry.BottomFaceIsOutward | src/world.js:24-32 | the same for the bottom face (y = 0 plane) |
| Geometry.TopFaceIsOutward | src/world.js:33-41 | the same for the top face (y = 1 plane) |
| Geometry.BackFaceIsOutward | src/world.js:42-50 | the same for the back face (z = 0 plane) |
| Geometry.FrontFaceIsOutward | src/world.js:51-59 | the same for the front face (z = 1 plane) |
| Geometry.CubeFacesGeometry | src/world.js:5-60 | the table has six faces with pairwise different directions, and every corner component is 0 or 1 |
| Keys.ParseIntRoundTrip | src/world.js:159-160 | `parseInt(_, 10)` reads back every integer a template literal writes |
| Keys.ColumnKeyRoundTrip | src/world.js:62-64 | splitting `columnKey(x, z)` at ',' and parsing both parts gives back (x, z), as `update` does at lines 158-160 |
| Keys.ColumnKeyInjective | src/world.js:62-64 | different column origins never share a key |
| Keys.SectionKeyParts | src/world.js:66-68 | a section key splits at ',' into the texts of exactly its three coordinates |
| Keys.SectionKeyInjective | src/world.js:66-68 | different section origins never share a key |
| Blocks.PosInChunk | src/world.js:70-76 | the local position lies in [0, 16) x [0, 256) x [0, 16) and differs from the input by multiples of 16, 256 and 16 |
| Blocks.ColumnOrigin | src/world.js:174 | the owning column's origin is a multiple of 16 on x and z, and the position lies in [origin, origin + 16) on both axes |
| Blocks.BlockAddressing | src/world.js:172-183 | the lookup is null exactly when no column is stored at the origin; origin plus local offset is the position on x and z; the block reports the queried position and the column's shapes at the local position |
| Blocks.AddressingExample | src/world.js:70-76 | (17, 5, -3) is (1, 5, 13) in the column at origin (16, -16) |
| Blocks.YWrapsWithinColumn | src/world.js:173-181 | positions 256 apart in y find the same block shapes, each stamped with its own unmasked position |
| MeshBuffers.QuadPositionsContent | src/world.js:100-103 | a quad adds twelve position values: its four vertices' x, y, z in corner order |
| MeshBuffers.QuadNormalsContent | src/world.js:100-103 | a quad adds twelve normal values: its direction once per vertex |
| MeshBuffers.AppendQuadsConcat | src/world.js:99-107 | emitting a quad list in two parts gives the same buffers as emitting it at once |
| MeshBuffers.MeshLayout | src/world.js:99-107 | after n quads, positions and normals hold 12n values and indices 6n; quad q occupies positions and normals 12q .. 12q+12 with its own values; index i is 4 (i / 6) plus the pattern (0, 1, 2, 2, 1, 3) |
| MeshBuffers.IndicesInRange | src/world.js:113-121 | every index names an existing vertex, and the index ranges of different quads never overlap |
| Voxels.FaceVisibleMeans | src/world.js:97-98 | a cube face shows exactly when the neighbour's column is loaded, the neighbour is not a full cube, and its y is >= 0 |
| Voxels.CubeFaceQuadsDistinct | src/world.js:96-109 | quads of different table faces differ |
| Voxels.CubeQuadsMembers | src/world.js:96-109 | after the first n faces: at most n quads, a face's quad is present exactly when the face is visible, and every quad is one of those faces' quads |
| Voxels.CubeVoxelQuads | src/world.js:95-109 | a full-cube voxel emits a face's quad exactly when that face is visible, nothing else, and at most six quads |
| Voxels.EnclosedCubeIsHidden | src/world.js:95-109 | a full cube whose six neighbours are loaded full cubes emits nothing |
| Voxels.HiddenCubeQuads | src/world.js:96-109 | when none of the first n faces is visible, they emit nothing |
| Voxels.UnloadedNeighboursHideCube | src/world.js:97-98 | a full cube whose six neighbours are all unloaded emits nothing |
| Voxels.ExposedCubeQuads | src/world.js:96-109 | when each of the first n faces is visible, they emit exactly their n quads, in table order |
| Voxels.ExposedCubeShowsAll | src/world.js:95-109 | a full cube with all six faces visible emits the six table quads in order: 72 position values (24 vertices) and 36 indices |
| Voxels.BoxQuadsContent | src/world.js:112-122 | the first n faces of one box give n quads, the i-th from table face i |
| Voxels.ShapesQuadsContent | src/world.js:111-123 | N boxes give 6N quads, and quad 6k + i is face i of box k |
| Voxels.ShapeVoxelQuads | src/world.js:110-123 | a non-empty, non-cube voxel with N boxes emits exactly 6N quads, face by face in table order, whatever its neighbours are |
| Voxels.EmptyVoxelQuads | src/world.js:93-94 | a voxel whose block is null or has no shapes emits nothing |
| Voxels.UnitBoxCorner | src/world.js:115 | on the unit box, the min/max corner choice gives the table corner plus the cursor |
| Voxels.UnitBoxIsCube | src/world.js:111-123 | the unit box through the box path gives exactly the table quads of the cube path |
| Voxels.SilentRow | src/world.js:92-126 | a row of voxels none of which emits anything emits nothing |
| Voxels.SilentLayer | src/world.js:91-127 | the same for a layer of 16 rows |
| Voxels.SilentLayers | src/world.js:90-128 | the same for a stack of layers |
| Voxels.SilentSection | src/world.js:90-128 | a section none of whose voxels emits anything emits nothing |
| Voxels.UnloadedSectionIsEmpty | src/world.js:176-178 | a section of a column that is not stored emits nothing, since every lookup in it is null |
| WorldIndex.ShownAdded | src/world.js:166 | after `scene.add(mesh)` for a section, the scene shows that mesh for it |
| WorldIndex.ShownRemoved | src/world.js:150 | after `scene.remove(mesh)` for a section, the scene shows nothing for it |
| WorldIndex.TeardownEvents | src/world.js:147-153 | the removals for the lowest n sections are only of stored meshes of this column below 16n, every such mesh is removed, and no section is removed twice |
| WorldIndex.TeardownRemovesEachOnce | src/world.js:147-153 | `addColumn` removes each mesh stored for one of the column's 16 sections exactly once, and nothing else |
| WorldIndex.PushQuad | src/world.js:99-107 | the loop over the four corners and the index push append exactly one quad to the buffers |
| WorldIndex.EmitCubeFaces | src/world.js:96-109 | the face loop of a full cube appends exactly the quads of its visible faces, in table order |
| WorldIndex.EmitBox | src/world.js:112-122 | the face loop of one box appends its six quads in table order |
| WorldIndex.EmitBoxes | src/world.js:111-123 | the box loop appends six quads per box, box by box |
| WorldIndex.EmitVoxel | src/world.js:93-125 | one voxel appends exactly the voxel's quads |
| WorldIndex.VoxelStep | src/world.js:92-126 | one more voxel in a row appends exactly that voxel's quads |
| WorldIndex.EmitRow | src/world.js:92-126 | the x loop appends the quads of the row's 16 voxels, in order |
| WorldIndex.RowDone | src/world.js:91-127 | one more row in a layer appends exactly that row's quads |
| WorldIndex.EmitLayer | src/world.js:91-127 | the z loop appends the quads of the layer's 16 rows, in order |
| WorldIndex.LayerDone | src/world.js:90-128 | one more layer in a section appends exactly that layer's quads |
| WorldIndex.GetSectionMesh | src/world.js:84-128 | the three buffers are the mesh of the section's quads in loop order y, z, x, so all the layout, culling and box lemmas apply to them |
| WorldIndex.MeshesAdd | src/world.js:163-166 | storing the built mesh of a section that needed one keeps the meshes bookkeeping of `update` |
| WorldIndex.MeshesSkip | src/world.js:163 | skipping a section that has a mesh or no data keeps that bookkeeping |
| WorldIndex.LogAdd | src/world.js:166 | adding the new mesh to the scene keeps the log bookkeeping: only additions, each for a section that needed a mesh, none twice |
| WorldIndex.World.constructor | src/world.js:139-143 | a new world has no columns, no meshes and an empty scene |
| WorldIndex.World.GetBlock | src/world.js:172-183 | returns the column-map lookup of the position and changes nothing |
| WorldIndex.World.TakeDownColumn | src/world.js:147-153 | the loop over the 16 sections removes exactly the column's stored meshes from the map, and the scene log grows by exactly those removals, bottom up |
| WorldIndex.World.TakeDownSection | src/world.js:147-153 | one section's mesh, if stored, is removed from the map and from the scene, and nothing else changes |
| WorldIndex.World.AddColumn | src/world.js:145-154 | the column is stored at (x, z) and every other column is unchanged; the meshes of the column's 16 sections are gone and every other mesh is unchanged; the scene log grows by exactly the removals of those meshes; the invariant is kept |
| WorldIndex.World.Update | src/world.js:156-170 | columns are unchanged; the meshes are the old ones plus one for each section that needed one, built from the columns; old meshes are kept as they were; afterwards no section needs a mesh; the log only grows by additions, one per new mesh and never two for the same section; when nothing needed a mesh, nothing changes |
| WorldIndex.World.UpdateColumn | src/world.js:162-168 | the y loop over one column's 16 sections keeps the bookkeeping of `update` and completes that column |
| WorldIndex.World.VisitSection | src/world.js:163-167 | one section is meshed and shown when it has data and no mesh, and otherwise left alone |
| WorldIndex.World.ShowSection | src/world.js:164-166 | storing and showing a section's new mesh keeps the invariant and the bookkeeping of `update` |
| WorldIndex.UpdateTwice | src/world.js:156-170 | a second `update` right after a first stores no mesh and makes no scene call: the state is the one the first call left |

## Left out

- THREE.js object construction (`BufferGeometry`, `MeshLambertMaterial`, `Mesh`, the `Float32Array` conversion, src/world.js:130-135) is foreign library code. `WorldIndex.GetSectionMesh` returns the three buffers instead.
- The scene's rendering (`scene.add`, `scene.remove`) is an external sink. Its calls are recorded only in the ghost `sceneLog`. The constructor's `scene` argument is dropped, and `sceneLog` starts empty.
- `vec3` internals: positions are integer triples, so `floored()` is the identity and is not modelled. `plus` is `Vec3.Plus`.
- Column internals: `chunk.getBlock` is a total function from local positions to shape lists, so it never returns null. `chunk.sections` is a sequence of booleans, and an index past its end reads as falsy.
- Floating point: shape scalars and vertex positions are exact reals. `Float32Array` rounding is not modelled.
- Blocks.PosInChunk: the JavaScript masks `&15` and `&255` act on 32-bit integers. They are modelled as Euclidean remainders, which agree for every position whose coordinates fit in 32 bits; wrap-around beyond that range is not modelled.
- The string keys: the maps are keyed by tuples. `Keys` models `columnKey`, `sectionKey`, `split` and `parseInt` on decimal text only. Exponent notation for numbers of 10^21 and more, and leading white space in `parseInt`, are not modelled.
- Object key order: `update` visits the stored columns in the iteration order of a JavaScript object. The model picks them in an arbitrary order, and its contracts hold for every order.
- WorldIndex.World.GetBlock: the source stamps `position` onto the object the column returns, which may be shared with the column. The model returns a new value and does not model that aliasing.
