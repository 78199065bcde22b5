/**
 * PlaneMeshIndicesGenerator (src/Engine/Components/Terrain/PlaneMeshIndicesGenerator.hpp):
 * writes the index buffer of one terrain plane through an advancing
 * uint32_t pointer, and the engine's TerrainConfig constants that size it.
 */
module PlaneMeshIndicesGenerator {
  import opened Common
  import opened TerrainMesh

  /** TerrainConfig::RESOLUTION of the engine. */
  const RESOLUTION: nat := 64

  /** TerrainConfig::INDICES_COUNT = (RESOLUTION - 1)^2 * 6. */
  const INDICES_COUNT: nat := (RESOLUTION - 1) * (RESOLUTION - 1) * 6

  /**
   * The buffer the engine sizes with INDICES_COUNT holds exactly the
   * IndexCount(RESOLUTION) entries GetIndices writes.
   */
  lemma IndicesCountIsLength()
    ensures INDICES_COUNT == IndexCount(RESOLUTION) == 23814
  {
  }

  /**
   * GetIndices(IndicesBegin) for a plane of `res` x `res` vertices, with
   * IndicesBegin the entry `begin` of `indices`: the index buffer is
   * written to the IndexCount(res) entries from `begin` on and nothing
   * else in the array changes.
   */
  method GetIndices(res: nat, indices: array<u32>, begin: nat)
    requires 1 <= res <= MAX_RESOLUTION
    requires begin + IndexCount(res) <= indices.Length
    modifies indices
    ensures |PlaneIndices(res)| == IndexCount(res)
    ensures indices[..] == Splice(old(indices[..]), begin, PlaneIndices(res))
  {
    PlaneIndicesLength(res);
    ghost var base := indices[..];
    var p := begin;
    var z := 0;
    while z < res - 1
      invariant 0 <= z <= res - 1
      invariant p == begin + |GridIndices(res, z)| <= begin + |PlaneIndices(res)|
      invariant indices[..] == Splice(base, begin, GridIndices(res, z))
    {
      p := EmitGridRow(indices, begin, p, res, z, base);
      z := z + 1;
    }
  }

  /** One pass of the z loop: row z goes right after the rows before it. */
  method EmitGridRow(indices: array<u32>, begin: nat, p: nat, res: nat, z: nat, ghost base: seq<u32>) returns (next: nat)
    requires 1 <= res <= MAX_RESOLUTION && z < res - 1
    requires begin + |PlaneIndices(res)| <= indices.Length == |base|
    requires p == begin + |GridIndices(res, z)| <= begin + |PlaneIndices(res)|
    requires indices[..] == Splice(base, begin, GridIndices(res, z))
    modifies indices
    ensures next == begin + |GridIndices(res, z + 1)| <= begin + |PlaneIndices(res)|
    ensures indices[..] == Splice(base, begin, GridIndices(res, z + 1))
  {
    GridFits(res, z);
    ghost var before := indices[..];
    next := EmitRow(indices, p, res, z);
    GridStep(base, begin, res, z, before, indices[..]);
  }

  /** Row z still fits in the buffer after the rows before it. */
  lemma GridFits(res: nat, z: nat)
    requires res >= 1 && z < res - 1
    ensures |GridIndices(res, z)| + 6 * (res - 1) <= |PlaneIndices(res)|
    ensures |GridIndices(res, z + 1)| == |GridIndices(res, z)| + 6 * (res - 1)
  {
    NextRowFits(res, z);
    PlaneIndicesLength(res);
  }

  /** Writing row z right after the rows before it extends the grid by one row, within the buffer. */
  lemma GridStep(base: seq<u32>, at: nat, res: nat, z: nat, before: seq<u32>, after: seq<u32>)
    requires res >= 1 && z < res - 1 && at + |GridIndices(res, z)| + |RowIndices(res, z, res - 1)| <= |base|
    requires before == Splice(base, at, GridIndices(res, z))
    requires after == Splice(before, at + |GridIndices(res, z)|, RowIndices(res, z, res - 1))
    ensures after == Splice(base, at, GridIndices(res, z + 1))
  {
    NextRowFits(res, z);
    PlaneIndicesLength(res);
    SpliceExtend(base, at, GridIndices(res, z), RowIndices(res, z, res - 1));
  }

  /** The x loop of GetIndices for row z: its res - 1 cells, in x order. */
  method EmitRow(indices: array<u32>, at: nat, res: nat, z: nat) returns (next: nat)
    requires 1 <= res <= MAX_RESOLUTION && z < res - 1
    requires at + 6 * (res - 1) <= indices.Length
    modifies indices
    ensures next == at + 6 * (res - 1) && |RowIndices(res, z, res - 1)| == 6 * (res - 1)
    ensures indices[..] == Splice(old(indices[..]), at, RowIndices(res, z, res - 1))
  {
    ghost var base := indices[..];
    next := at;
    var x := 0;
    while x < res - 1
      invariant 0 <= x <= res - 1
      invariant next == at + 6 * x && |RowIndices(res, z, x)| == 6 * x
      invariant indices[..] == Splice(base, at, RowIndices(res, z, x))
    {
      next := EmitCell(indices, next, res, x, z);
      RowStep(base, at, res, z, x);
      x := x + 1;
    }
  }

  /** Writing cell x right after the first x cells of a row extends the row by one cell. */
  lemma RowStep(base: seq<u32>, at: nat, res: nat, z: nat, x: nat)
    requires |RowIndices(res, z, x)| == 6 * x && at + 6 * x + 6 <= |base|
    ensures |RowIndices(res, z, x + 1)| == 6 * (x + 1)
    ensures Splice(Splice(base, at, RowIndices(res, z, x)), at + 6 * x, Corners(res, x, z))
         == Splice(base, at, RowIndices(res, z, x + 1))
  {
    RowLength(res, z, x + 1);
    SpliceExtend(base, at, RowIndices(res, z, x), Corners(res, x, z));
  }

  /**
   * One cell of the loop body: the four corners, then six
   * `*IndicesBegin++ = v` stores; the pointer moves past them.
   */
  method EmitCell(indices: array<u32>, at: nat, res: nat, x: nat, z: nat) returns (next: nat)
    requires 1 <= res <= MAX_RESOLUTION && x < res - 1 && z < res - 1
    requires at + 6 <= indices.Length
    modifies indices
    ensures next == at + 6
    ensures indices[..] == Splice(old(indices[..]), at, Corners(res, x, z))
  {
    CornersFit(res, x, z);
    ghost var cell := Corners(res, x, z);
    assert cell[0] < U32_MODULUS && cell[1] < U32_MODULUS && cell[5] < U32_MODULUS;
    var topLeft: u32 := z * res + x;
    var topRight: u32 := topLeft + 1;
    var bottomLeft: u32 := (z + 1) * res + x;
    var bottomRight: u32 := bottomLeft + 1;
    indices[at] := topLeft;
    indices[at + 1] := bottomLeft;
    indices[at + 2] := topRight;
    indices[at + 3] := topRight;
    indices[at + 4] := bottomLeft;
    indices[at + 5] := bottomRight;
    next := at + 6;
    assert indices[at..at + 6] == cell;
  }
}
