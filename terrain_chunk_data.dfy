/**
 * TerrainChunkData (src/Apps/MeshApp/Components/TerrainChunkData.hpp): the
 * chunk record of the mesh app, its index buffer at the header's own
 * RESOLUTION, and the n x n grid of chunk records with consecutive
 * instance ids.
 */
module TerrainChunkData {
  import opened Common
  import opened TerrainMesh
  import ChunkIndicesGenerator

  /** ChunkData: where the chunk lies, which instance draws it, and whether it is drawn. */
  datatype ChunkData = ChunkData(worldPos: IVec2, instanceId: u32, isVisible: u32)

  /** The number of terrains drawn per call. */
  const INSTANCE_COUNT: nat := 9

  const RESOLUTION: nat := 64

  const INDEX_COUNT: nat := (RESOLUTION - 1) * (RESOLUTION - 1) * 6

  /** INDEX_COUNT is exactly the IndexCount(RESOLUTION) entries getIndices returns. */
  lemma IndexCountIsLength()
    ensures INDEX_COUNT == IndexCount(RESOLUTION)
  {
  }

  /**
   * getIndices(): the index buffer of a RESOLUTION x RESOLUTION chunk.  Its
   * body is the loop of ChunkIndicesGenerator::getIndices with this
   * header's RESOLUTION, and is modelled by that method.
   */
  method GetIndices() returns (indices: seq<u32>)
    ensures indices == PlaneIndices(RESOLUTION)
    ensures |indices| == INDEX_COUNT
  {
    indices := ChunkIndicesGenerator.GetIndices(RESOLUTION);
  }

  /**
   * The chunk generateChunkGrid(n) creates at loop position (x, y): world
   * position {x, y} (uint32_t converted to int), the running id x * n + y
   * (a uint32_t counter) and visible.
   */
  function GridChunk(n: nat, x: nat, y: nat): ChunkData
  {
    ChunkData(IVec2(AsInt32(Wrap32(x)), AsInt32(Wrap32(y))), Wrap32(x * n + y), 1)
  }

  /** GridChunk as a function of the loop position, for the grid layout below. */
  function ChunkAt(n: nat): (nat, nat) -> ChunkData
  {
    (x: nat, y: nat) => GridChunk(n, x, y)
  }

  lemma ChunkAtIs(n: nat, x: nat, y: nat)
    ensures ChunkAt(n)(x, y) == GridChunk(n, x, y)
  {
  }

  /** The running id of a chunk counts the chunks of the columns before it, then its row. */
  lemma GridChunkId(n: nat, x: nat, k: nat)
    requires |Columns(ChunkAt(n), n, x)| <= k
    ensures GridChunk(n, x, k - |Columns(ChunkAt(n), n, x)|).instanceId == Wrap32(k)
  {
    ColumnsLength(ChunkAt(n), n, x);
  }

  /** The first m cells of column x, in y order. */
  function Column<T>(cell: (nat, nat) -> T, x: nat, m: nat): seq<T>
  {
    if m == 0 then [] else Column(cell, x, m - 1) + [cell(x, m - 1)]
  }

  /** The first m full columns of n cells, in x order. */
  function Columns<T>(cell: (nat, nat) -> T, n: nat, m: nat): seq<T>
  {
    if m == 0 then [] else Columns(cell, n, m - 1) + Column(cell, m - 1, n)
  }

  function ChunkGrid(n: nat): seq<ChunkData>
  {
    Columns(ChunkAt(n), n, n)
  }

  lemma {:induction false} ColumnLength<T>(cell: (nat, nat) -> T, x: nat, m: nat)
    ensures |Column(cell, x, m)| == m
  {
    if m > 0 {
      ColumnLength(cell, x, m - 1);
    }
  }

  lemma {:induction false} ColumnsLength<T>(cell: (nat, nat) -> T, n: nat, m: nat)
    ensures |Columns(cell, n, m)| == m * n
  {
    if m > 0 {
      ColumnsLength(cell, n, m - 1);
      ColumnLength(cell, m - 1, n);
      MulSucc(m, n);
    }
  }

  /** The y-th cell of column x is the cell at (x, y). */
  lemma {:induction false} ColumnAt<T>(cell: (nat, nat) -> T, x: nat, m: nat, y: nat)
    requires y < m
    ensures |Column(cell, x, m)| == m && Column(cell, x, m)[y] == cell(x, y)
  {
    ColumnLength(cell, x, m);
    ColumnLength(cell, x, m - 1);
    if y < m - 1 {
      ColumnAt(cell, x, m - 1, y);
    }
  }

  /** The cells before the last column are those of the first m - 1 columns. */
  lemma ColumnsPrefix<T>(cell: (nat, nat) -> T, n: nat, m: nat, k: nat)
    requires m > 0 && k < |Columns(cell, n, m - 1)|
    ensures k < |Columns(cell, n, m)| && Columns(cell, n, m)[k] == Columns(cell, n, m - 1)[k]
  {
  }

  /** After the first m - 1 columns comes column m - 1. */
  lemma ColumnsLast<T>(cell: (nat, nat) -> T, n: nat, m: nat, k: nat)
    requires m > 0 && |Columns(cell, n, m - 1)| <= k < |Columns(cell, n, m - 1)| + n
    ensures k < |Columns(cell, n, m)|
    ensures Columns(cell, n, m)[k] == cell(m - 1, k - |Columns(cell, n, m - 1)|)
  {
    ColumnAt(cell, m - 1, n, k - |Columns(cell, n, m - 1)|);
  }

  /** Cell (x, y) follows the x full columns before it, at offset y. */
  lemma {:induction false} ColumnsAt<T>(cell: (nat, nat) -> T, n: nat, m: nat, x: nat, y: nat)
    requires x < m && y < n
    ensures |Columns(cell, n, x)| + y < |Columns(cell, n, m)|
    ensures Columns(cell, n, m)[|Columns(cell, n, x)| + y] == cell(x, y)
  {
    if x < m - 1 {
      ColumnsAt(cell, n, m - 1, x, y);
      ColumnsPrefix(cell, n, m, |Columns(cell, n, x)| + y);
    } else {
      ColumnLength(cell, m - 1, n);
      ColumnsLast(cell, n, m, |Columns(cell, n, x)| + y);
    }
  }

  /** The chunks of the last column carry their position in the vector as id. */
  lemma LastColumnIds(n: nat, m: nat, k: nat)
    requires m > 0 && |Columns(ChunkAt(n), n, m - 1)| <= k < |Columns(ChunkAt(n), n, m - 1)| + n
    ensures k < |Columns(ChunkAt(n), n, m)|
    ensures Columns(ChunkAt(n), n, m)[k].instanceId == Wrap32(k) && Columns(ChunkAt(n), n, m)[k].isVisible == 1
  {
    var w := |Columns(ChunkAt(n), n, m - 1)|;
    ColumnsLast(ChunkAt(n), n, m, k);
    ChunkAtIs(n, m - 1, k - w);
    GridChunkId(n, m - 1, k);
  }

  /** Every chunk of the first m columns carries its position in the vector as id, wrapped to 32 bits. */
  lemma {:induction false} ColumnsIdAt(n: nat, m: nat, k: nat)
    requires k < |Columns(ChunkAt(n), n, m)|
    ensures Columns(ChunkAt(n), n, m)[k].instanceId == Wrap32(k) && Columns(ChunkAt(n), n, m)[k].isVisible == 1
  {
    if k < |Columns(ChunkAt(n), n, m - 1)| {
      ColumnsIdAt(n, m - 1, k);
      ColumnsPrefix(ChunkAt(n), n, m, k);
    } else {
      ColumnLength(ChunkAt(n), m - 1, n);
      LastColumnIds(n, m, k);
    }
  }

  /** generateChunkGrid(n) returns exactly n^2 chunks, and the one at x * n + y is GridChunk(n, x, y). */
  lemma ChunkGridLayout(n: nat, x: nat, y: nat)
    requires x < n && y < n
    ensures |ChunkGrid(n)| == n * n
    ensures 0 <= x * n + y < n * n && ChunkGrid(n)[x * n + y] == GridChunk(n, x, y)
  {
    ColumnsAt(ChunkAt(n), n, n, x, y);
    ColumnsLength(ChunkAt(n), n, n);
    ColumnsLength(ChunkAt(n), n, x);
    MulNonNegative(x, n);
  }

  /**
   * While the n^2 ids fit the 32-bit counter, the instance ids are exactly
   * 0 .. n^2 - 1, each the chunk's own position, so no two chunks share one;
   * every chunk is visible.
   */
  lemma ChunkGridIds(n: nat)
    requires n * n <= U32_MODULUS
    ensures |ChunkGrid(n)| == n * n
    ensures forall k :: 0 <= k < n * n ==> ChunkGrid(n)[k].instanceId == k && ChunkGrid(n)[k].isVisible == 1
    ensures forall i, j :: 0 <= i < j < n * n ==> ChunkGrid(n)[i].instanceId != ChunkGrid(n)[j].instanceId
  {
    ColumnsLength(ChunkAt(n), n, n);
    forall k | 0 <= k < n * n
      ensures ChunkGrid(n)[k].instanceId == k && ChunkGrid(n)[k].isVisible == 1
    {
      ColumnsIdAt(n, n, k);
    }
  }

  /** The grid of 3 x 3 chunks has one chunk per drawn instance. */
  lemma ThreeByThreeFillsInstances()
    ensures |ChunkGrid(3)| == INSTANCE_COUNT
  {
    ColumnsLength(ChunkAt(3), 3, 3);
  }

  /** generateChunkGrid(n): x outer, y inner, with a running uint32_t id. */
  method GenerateChunkGrid(n: u32) returns (chunks: seq<ChunkData>)
    ensures chunks == ChunkGrid(n)
  {
    chunks := [];
    var currentId: u32 := 0;
    var x: u32 := 0;
    while x < n
      invariant 0 <= x <= n
      invariant chunks == Columns(ChunkAt(n), n, x)
      invariant currentId == Wrap32(|chunks|)
    {
      ColumnsLength(ChunkAt(n), n, x);
      chunks, currentId := PushColumn(n, x, chunks, currentId);
      x := x + 1;
    }
  }

  /** The y loop of generateChunkGrid for column x: n chunks, each taking the next id. */
  method PushColumn(n: u32, x: u32, prefix: seq<ChunkData>, firstId: u32)
    returns (chunks: seq<ChunkData>, currentId: u32)
    requires |prefix| == x * n && firstId == Wrap32(|prefix|)
    ensures chunks == prefix + Column(ChunkAt(n), x, n)
    ensures currentId == Wrap32(|chunks|)
  {
    chunks, currentId := prefix, firstId;
    var y: u32 := 0;
    while y < n
      invariant 0 <= y <= n
      invariant chunks == prefix + Column(ChunkAt(n), x, y)
      invariant |chunks| == x * n + y
      invariant currentId == Wrap32(|chunks|)
    {
      ColumnLength(ChunkAt(n), x, y);
      var chunk := ChunkData(IVec2(AsInt32(x), AsInt32(y)), currentId, 1);
      assert chunk == ChunkAt(n)(x, y);
      chunks := chunks + [chunk];
      Wrap32AddLeft(|chunks| - 1, 1);
      currentId := Wrap32(currentId + 1);
      y := y + 1;
    }
  }
}
