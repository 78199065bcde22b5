/**
 * ChunkIndicesGenerator (src/Apps/MeshApp/Components/ChunkIndicesGenerator.cpp
 * and .hpp): the mesh app's index buffer of one chunk, pushed onto a
 * vector, and the INDEX_COUNT constant its header reserves with.
 */
module ChunkIndicesGenerator {
  import opened Common
  import opened TerrainMesh

  /** TerrainConfig::RESOLUTION of the mesh app. */
  const RESOLUTION: nat := 64

  /**
   * TerrainConfig::INDICES_COUNT as the header reads it.  The mesh app's
   * TerrainConfig.hpp defines no INDICES_COUNT; the engine's defines it as
   * (RESOLUTION - 1)^2 * 6, and that is the value taken here.
   */
  const INDICES_COUNT: nat := (RESOLUTION - 1) * (RESOLUTION - 1) * 6

  /** INDEX_COUNT as written: the index count squared a second time. */
  const AS_WRITTEN_INDEX_COUNT: nat := (INDICES_COUNT - 1) * (INDICES_COUNT - 1) * 6

  /** INDEX_COUNT as intended: (RESOLUTION - 1)^2 * 6, as TerrainChunkData defines it. */
  const INDEX_COUNT: nat := (RESOLUTION - 1) * (RESOLUTION - 1) * 6

  /**
   * The INDEX_COUNT of the header is not the number of indices getIndices
   * returns, IndexCount(RESOLUTION) (GetIndices below): it is over 140000
   * times larger, a reservation of some 13.6 GB of uint32_t entries (the
   * product still fits 32 bits, so nothing wraps).
   */
  lemma AsWrittenIndexCountIsNotLength()
    ensures AS_WRITTEN_INDEX_COUNT == 3402353814 < U32_MODULUS
    ensures IndexCount(RESOLUTION) == 23814
    ensures AS_WRITTEN_INDEX_COUNT > 140000 * IndexCount(RESOLUTION)
  {
    AsWrittenIndexCountValue();
  }

  lemma AsWrittenIndexCountValue()
    ensures INDICES_COUNT == 23814
    ensures AS_WRITTEN_INDEX_COUNT == 3402353814
  {
    assert INDICES_COUNT == 23814;
    assert AS_WRITTEN_INDEX_COUNT == 23813 * 23813 * 6;
  }

  /**
   * With the intended constant, reserve(INDEX_COUNT) asks for exactly the
   * IndexCount(RESOLUTION) entries GetIndices pushes.
   */
  lemma IndexCountIsLength()
    ensures INDEX_COUNT == IndexCount(RESOLUTION) == 23814
  {
  }

  /**
   * getIndices() for a chunk of `res` x `res` vertices: the index buffer,
   * (res - 1)^2 * 6 entries long.  reserve only sets the capacity and is
   * not modelled.
   */
  method GetIndices(res: nat) returns (indices: seq<u32>)
    requires 1 <= res <= MAX_RESOLUTION
    ensures indices == PlaneIndices(res)
    ensures |indices| == IndexCount(res)
  {
    PlaneIndicesLength(res);
    indices := [];
    var z := 0;
    while z < res - 1
      invariant 0 <= z <= res - 1
      invariant indices == GridIndices(res, z)
    {
      NextRowFits(res, z);
      var x := 0;
      while x < res - 1
        invariant 0 <= x <= res - 1
        invariant indices == GridIndices(res, z) + RowIndices(res, z, x)
      {
        var cell := CellIndices(res, x, z);
        indices := indices + cell;
        x := x + 1;
      }
      z := z + 1;
    }
  }

  /** The loop body for cell (x, z): the four corners and the six push_backs. */
  method CellIndices(res: nat, x: nat, z: nat) returns (cell: seq<u32>)
    requires 1 <= res <= MAX_RESOLUTION && x < res - 1 && z < res - 1
    ensures cell == Corners(res, x, z)
  {
    CornersFit(res, x, z);
    ghost var corners := Corners(res, x, z);
    assert corners[0] < U32_MODULUS && corners[1] < U32_MODULUS && corners[5] < U32_MODULUS;
    var topLeft: u32 := z * res + x;
    var topRight: u32 := topLeft + 1;
    var bottomLeft: u32 := (z + 1) * res + x;
    var bottomRight: u32 := bottomLeft + 1;
    cell := [];
    cell := cell + [topLeft];
    cell := cell + [bottomLeft];
    cell := cell + [topRight];
    cell := cell + [topRight];
    cell := cell + [bottomLeft];
    cell := cell + [bottomRight];
  }
}
