/**
 * Block lookup through the column store: `posInChunk` (src/world.js:70-76)
 * and `World.getBlock` (src/world.js:172-183), stated over the value of the
 * world's column map so that the mesher's specification can use it.
 */
module Blocks {
  import opened Wrappers
  import opened Geometry

  /**
   * A loaded column (16 x 256 x 16 voxels) as the world uses it: the shapes of
   * the block at each column-local position (`chunk.getBlock(local).shapes`,
   * defined everywhere, never null), and which of the 16 sections hold data
   * (`chunk.sections`).
   */
  datatype Column = Column(shapesAt: Vec3 -> seq<Shape>, sections: seq<bool>)

  /** `chunk.sections[i]` is truthy; an index past the end reads `undefined`, which is falsy. */
  predicate HasSection(c: Column, i: int)
  {
    0 <= i < |c.sections| && c.sections[i]
  }

  /** A block returned by `getBlock`: the queried world position and the block's shapes. */
  datatype Block = Block(position: Vec3, shapes: seq<Shape>)

  /**
   * `posInChunk`: `x & 15`, `y & 255`, `z & 15`. On two's-complement integers a
   * mask with 2^k - 1 is the non-negative remainder modulo 2^k, which is what
   * Dafny's `%` computes.
   */
  function PosInChunk(p: Vec3): (local: Vec3)
    ensures 0 <= local.x < 16 && 0 <= local.y < 256 && 0 <= local.z < 16
    ensures (p.x - local.x) % 16 == 0 && (p.y - local.y) % 256 == 0 && (p.z - local.z) % 16 == 0
  {
    Vec3(p.x % 16, p.y % 256, p.z % 16)
  }

  /**
   * The key of the column that owns `p`: `Math.floor(x / 16) * 16` on each
   * horizontal axis (Dafny's `/` by a positive divisor rounds down, as `Math.floor` does).
   */
  function ColumnOrigin(p: Vec3): (origin: (int, int))
    ensures origin.0 % 16 == 0 && origin.1 % 16 == 0
    ensures origin.0 <= p.x < origin.0 + 16 && origin.1 <= p.z < origin.1 + 16
  {
    ((p.x / 16) * 16, (p.z / 16) * 16)
  }

  /**
   * `getBlock(pos)`: `None` (null) when the owning column is not loaded;
   * otherwise the column's block at the masked local position, stamped with
   * the unmasked position.
   */
  function BlockAt(columns: map<(int, int), Column>, p: Vec3): Option<Block>
  {
    var origin := ColumnOrigin(p);
    if origin !in columns then None
    else Some(Block(p, columns[origin].shapesAt(PosInChunk(p))))
  }

  /**
   * Addressing: the lookup fails exactly when no column is stored at the
   * owning origin; otherwise origin plus local offset is the position on both
   * horizontal axes, and the block reports the queried position.
   */
  lemma BlockAddressing(columns: map<(int, int), Column>, p: Vec3)
    ensures BlockAt(columns, p).None? <==> ColumnOrigin(p) !in columns
    ensures ColumnOrigin(p).0 + PosInChunk(p).x == p.x
    ensures ColumnOrigin(p).1 + PosInChunk(p).z == p.z
    ensures BlockAt(columns, p).Some? ==>
      && BlockAt(columns, p).value.position == p
      && BlockAt(columns, p).value.shapes == columns[ColumnOrigin(p)].shapesAt(PosInChunk(p))
  {
  }

  /** The example of the addressing rule: (17, 5, -3) is (1, 5, 13) in the column at (16, -16). */
  lemma AddressingExample()
    ensures ColumnOrigin(Vec3(17, 5, -3)) == (16, -16)
    ensures PosInChunk(Vec3(17, 5, -3)) == Vec3(1, 5, 13)
  {
  }

  /**
   * The y mask wraps: positions 256 apart vertically read the same column
   * entry, and each reports its own unwrapped position. In particular y = 256
   * reads the block at y = 0 and y = -1 the block at y = 255.
   */
  lemma YWrapsWithinColumn(columns: map<(int, int), Column>, p: Vec3, k: int)
    ensures var q := Vec3(p.x, p.y + 256 * k, p.z);
      && (BlockAt(columns, q).Some? <==> BlockAt(columns, p).Some?)
      && (BlockAt(columns, q).Some? ==>
            && BlockAt(columns, q).value.shapes == BlockAt(columns, p).value.shapes
            && BlockAt(columns, q).value.position == q)
  {
  }
}
