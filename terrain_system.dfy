/**
 * TerrainSystem (src/Engine/Components/Terrain/TerrainSystem.cpp and .hpp):
 * the engine's terrain component.  FullWriteChunkData fills the chunk-link
 * buffer in the diamond layout around the player's chunk, then writes one
 * heightmap of RESOLUTION^2 samples per link, at the link's instance.
 *
 * The TerrainConfig namespaces the component reads (Chunk, Heightmap,
 * ChunkToHeightmapLinking) are not defined in the engine's TerrainConfig.hpp,
 * so the resolution, the radius and the buffer sizes are parameters of the
 * object; a heightmap image is taken to hold RESOLUTION^2 samples.
 */
module TerrainSystemModel {
  import opened Common
  import opened TerrainMesh
  import opened DiamondLayout

  /** glm::ivec3. */
  datatype IVec3 = IVec3(x: i32, y: i32, z: i32)

  /** ChunkHeightmapLink: where the chunk lies, which heightmap instance it reads, and whether it is drawn. */
  datatype ChunkHeightmapLink = ChunkHeightmapLink(worldPos: IVec2, instanceId: u32, isVisible: u16)

  /** The contents of a slot before anything is written to it. */
  const UNWRITTEN_LINK: ChunkHeightmapLink := ChunkHeightmapLink(IVec2(0, 0), 0, 0)

  /** The remapped noise sample at integer global coordinates, cast to uint16_t. */
  type HeightSampler = (int, int) -> u16

  // ---------------------------------------------------------------------
  // The player's chunk.

  /**
   * One coordinate of the player's chunk as written: the int position
   * divided by the uint32_t resolution is computed in unsigned arithmetic,
   * and the quotient is stored back into an int.
   */
  function AsWrittenChunkCoord(pos: i32, res: nat): i32
    requires 1 <= res < U32_MODULUS
  {
    var unsigned := Wrap32(pos);
    QuotientAtMost(unsigned, res);
    AsInt32(unsigned / res)
  }

  /** The chunk the player is in, as FullWriteChunkData computes it from x and z. */
  function PlayerChunk(p: IVec3, res: nat): IVec2
    requires 1 <= res < U32_MODULUS
  {
    IVec2(AsWrittenChunkCoord(p.x, res), AsWrittenChunkCoord(p.z, res))
  }

  lemma QuotientAtMost(a: nat, b: nat)
    requires b >= 1
    ensures a / b <= a
  {
    var q := a / b;
    assert q * b <= a;
    MulLe(1, b, q);
  }

  /** The evidently intended coordinate: the signed quotient, truncated toward zero. */
  function ChunkCoord(pos: i32, res: nat): i32
    requires res >= 1
  {
    var a: int := if pos < 0 then -(pos as int) else pos;
    QuotientAtMost(a, res);
    TruncDiv(pos, res)
  }

  /** The intended coordinate is the chunk index of the position, counted away from 0 on either side. */
  lemma ChunkCoordIsQuotient(pos: i32, res: nat)
    requires res >= 1
    ensures var q := ChunkCoord(pos, res);
      && (pos >= 0 ==> q * res <= pos < q * res + res)
      && (pos < 0 ==> q * res - res < pos <= q * res)
  {
    var a: int := if pos < 0 then -(pos as int) else pos;
    var d, m := a / res, a % res;
    assert a == d * res + m && 0 <= m < res;
    if pos < 0 {
      assert ChunkCoord(pos, res) == -d;
      assert -d * res == pos + m;
    }
  }

  /** The unsigned division is harmless for positions that are not negative. */
  lemma AsWrittenChunkCoordAgreesOnNonNegative(pos: i32, res: nat)
    requires 1 <= res < U32_MODULUS && pos >= 0
    ensures AsWrittenChunkCoord(pos, res) == ChunkCoord(pos, res) == pos / res
  {
    assert pos / res <= pos;
  }

  /**
   * As written, every negative position lands in a chunk with a positive
   * coordinate, far from the player: the position is read as an unsigned
   * number of nearly 2^32 before the division.
   */
  lemma AsWrittenChunkCoordWrapsNegative(pos: i32, res: nat)
    requires 2 <= res <= 0x8000_0000 && pos < 0
    ensures AsWrittenChunkCoord(pos, res) > 0 >= ChunkCoord(pos, res)
    ensures AsWrittenChunkCoord(pos, res) == (pos + U32_MODULUS) / res
  {
    var unsigned := pos + U32_MODULUS;
    assert Wrap32(pos) == unsigned;
    var q, m := unsigned / res, unsigned % res;
    assert unsigned == q * res + m && m < res <= unsigned;
    MulLe(2, res, q);
    assert q < 0x8000_0000 && q * res > 0;
    QuotientNonNegative(-(pos as int), res);
  }

  lemma QuotientNonNegative(a: nat, b: nat)
    requires b >= 1
    ensures a / b >= 0
  {
  }

  /** With RESOLUTION 64, a player standing at x = -1 is placed in chunk 67108863 instead of chunk 0. */
  lemma AsWrittenChunkCoordOfMinusOne()
    ensures AsWrittenChunkCoord(-1, 64) == 67108863
    ensures ChunkCoord(-1, 64) == 0
  {
    AsWrittenChunkCoordWrapsNegative(-1, 64);
  }

  // ---------------------------------------------------------------------
  // The chunk links.

  /** The link a step writes into `slot`: its cell, the slot as instance, and visible. */
  function SlotLink(player: IVec2, t: Tag, slot: nat): ChunkHeightmapLink
  {
    ChunkHeightmapLink(AsWrittenCell(player, t), Wrap32(slot), 1)
  }

  /** The links buffer once the diamond fill is done: slot s holds the link of step Tags(r)[s]. */
  function DiamondLinks(player: IVec2, r: nat): (links: seq<ChunkHeightmapLink>)
    ensures |links| == InstanceCount(r)
  {
    TagsFillInstances(r);
    seq(InstanceCount(r), s requires 0 <= s < InstanceCount(r) => SlotLink(player, Tags(r)[s], s))
  }

  /**
   * With INSTANCE_COUNT = r^2 + (r + 1)^2 every slot is written exactly
   * once (each step of the loops owns one slot, and every slot belongs to
   * a step); the instance of every slot is the slot itself, every link is
   * visible, and the last slot holds the player's chunk.
   */
  lemma DiamondLinksFillEverySlotOnce(player: IVec2, r: nat)
    requires InstanceCount(r) <= U32_MODULUS
    ensures |Tags(r)| == InstanceCount(r)
    ensures NoRepeats(Tags(r)) && (forall t :: t in Tags(r) <==> ValidTag(r, t))
    ensures forall s :: 0 <= s < |DiamondLinks(player, r)| ==>
      DiamondLinks(player, r)[s].instanceId == s && DiamondLinks(player, r)[s].isVisible == 1
      && DiamondLinks(player, r)[s].worldPos == AsWrittenCell(player, Tags(r)[s])
    ensures DiamondLinks(player, r)[InstanceCount(r) - 1] == ChunkHeightmapLink(player, InstanceCount(r) - 1, 1)
  {
    TagsAreTheSteps(r);
    TagsFillInstances(r);
    if r == 0 {
      assert Tags(r) == [Center];
    } else {
      FirstBlockOnTop(r, r, 0);
      var n := InstanceCount(r);
      assert Tags(r)[n - 5..] == Block(0, 0) + [Center];
      assert Tags(r)[n - 1] == Center;
    }
  }

  /** The top |written| slots of `buf` hold the links of the steps in `written`, lowest slot first. */
  ghost predicate TopSlotsHold(buf: seq<ChunkHeightmapLink>, player: IVec2, written: seq<Tag>)
  {
    && |written| <= |buf|
    && forall s :: |buf| - |written| <= s < |buf| ==> buf[s] == SlotLink(player, written[s - (|buf| - |written|)], s)
  }

  /** The four links the loop body builds for step (i, j) at slots at .. at + 3. */
  lemma BlockLinks(player: IVec2, at: nat, i: nat, j: nat, xPos: i32, xNeg: i32, yPos: i32, yNeg: i32)
    requires xPos == AsInt32(Wrap32(player.x + i + 1)) && xNeg == AsInt32(Wrap32(player.x - i + 1))
    requires yPos == AsInt32(Wrap32(player.y + j)) && yNeg == AsInt32(Wrap32(player.y - j))
    requires at + 3 < U32_MODULUS
    ensures SlotLink(player, Quad(i, j, 0), at) == ChunkHeightmapLink(IVec2(xNeg, yPos), at as u32, 1)
    ensures SlotLink(player, Quad(i, j, 1), at + 1) == ChunkHeightmapLink(IVec2(xPos, yNeg), (at + 1) as u32, 1)
    ensures SlotLink(player, Quad(i, j, 2), at + 2) == ChunkHeightmapLink(IVec2(xNeg, yNeg), (at + 2) as u32, 1)
    ensures SlotLink(player, Quad(i, j, 3), at + 3) == ChunkHeightmapLink(IVec2(xPos, yPos), (at + 3) as u32, 1)
  {
    BlockCells(player, i, j);
  }

  /** Writing the four slots below the written ones with step (i, j)'s links extends what the top slots hold. */
  lemma PushBlock(before: seq<ChunkHeightmapLink>, after: seq<ChunkHeightmapLink>, player: IVec2,
                  written: seq<Tag>, at: nat, i: nat, j: nat)
    requires at + 4 + |written| == |before|
    requires TopSlotsHold(before, player, written)
    requires after == before[at := SlotLink(player, Quad(i, j, 0), at)][at + 1 := SlotLink(player, Quad(i, j, 1), at + 1)]
                            [at + 2 := SlotLink(player, Quad(i, j, 2), at + 2)][at + 3 := SlotLink(player, Quad(i, j, 3), at + 3)]
    ensures TopSlotsHold(after, player, Block(i, j) + written)
  {
    var tags := Block(i, j) + written;
    forall s | at <= s < |after|
      ensures after[s] == SlotLink(player, tags[s - at], s)
    {
      if s >= at + 4 {
        assert tags[s - at] == written[s - (|before| - |written|)];
      }
    }
  }

  // ---------------------------------------------------------------------
  // The heightmaps.

  /** x + (TerrainRes - 1) * ChunkPos.x: a local sample index in global terms. */
  function GlobalCoord(res: nat, local: nat, chunk: int): int
  {
    local + (res - 1) * chunk
  }

  /** The first n samples of row x of the chunk at `pos`, in z order. */
  function SampleRow(res: nat, pos: IVec2, height: HeightSampler, x: nat, n: nat): seq<u16>
  {
    if n == 0 then []
    else SampleRow(res, pos, height, x, n - 1) + [height(GlobalCoord(res, x, pos.x), GlobalCoord(res, n - 1, pos.y))]
  }

  /** The first m rows of the chunk at `pos`. */
  function SampleRows(res: nat, pos: IVec2, height: HeightSampler, m: nat): seq<u16>
  {
    if m == 0 then [] else SampleRows(res, pos, height, m - 1) + SampleRow(res, pos, height, m - 1, res)
  }

  /** The heightmap WriteChunk writes for the chunk at `pos`. */
  function ChunkHeights(res: nat, pos: IVec2, height: HeightSampler): seq<u16>
  {
    SampleRows(res, pos, height, res)
  }

  /** The heightmaps of the first m links, one after the other. */
  function LinkHeights(res: nat, links: seq<ChunkHeightmapLink>, height: HeightSampler, m: nat): seq<u16>
    requires m <= |links|
  {
    if m == 0 then [] else LinkHeights(res, links, height, m - 1) + ChunkHeights(res, links[m - 1].worldPos, height)
  }

  lemma {:induction false} SampleRowLength(res: nat, pos: IVec2, height: HeightSampler, x: nat, n: nat)
    ensures |SampleRow(res, pos, height, x, n)| == n
  {
    if n > 0 {
      SampleRowLength(res, pos, height, x, n - 1);
    }
  }

  lemma {:induction false} SampleRowsLength(res: nat, pos: IVec2, height: HeightSampler, m: nat)
    ensures |SampleRows(res, pos, height, m)| == m * res
  {
    if m > 0 {
      SampleRowsLength(res, pos, height, m - 1);
      SampleRowLength(res, pos, height, m - 1, res);
      MulSucc(m, res);
    }
  }

  lemma {:induction false} LinkHeightsLength(res: nat, links: seq<ChunkHeightmapLink>, height: HeightSampler, m: nat)
    requires m <= |links|
    ensures |LinkHeights(res, links, height, m)| == m * (res * res)
  {
    if m > 0 {
      LinkHeightsLength(res, links, height, m - 1);
      SampleRowsLength(res, links[m - 1].worldPos, height, res);
      MulSucc(m, res * res);
    }
  }

  /** One more row of samples still fits the heightmap, and extends the rows before it. */
  lemma NextSampleRowFits(res: nat, pos: IVec2, height: HeightSampler, x: nat)
    requires x < res
    ensures |SampleRow(res, pos, height, x, res)| == res
    ensures |SampleRows(res, pos, height, x)| + res <= res * res
    ensures SampleRows(res, pos, height, x + 1) == SampleRows(res, pos, height, x) + SampleRow(res, pos, height, x, res)
  {
    SampleRowLength(res, pos, height, x, res);
    SampleRowsLength(res, pos, height, x);
    RowsBefore(x, res, res);
  }

  lemma {:induction false} SampleRowAt(res: nat, pos: IVec2, height: HeightSampler, x: nat, n: nat, z: nat)
    requires z < n
    ensures |SampleRow(res, pos, height, x, n)| == n
    ensures SampleRow(res, pos, height, x, n)[z] == height(GlobalCoord(res, x, pos.x), GlobalCoord(res, z, pos.y))
  {
    SampleRowLength(res, pos, height, x, n);
    SampleRowLength(res, pos, height, x, n - 1);
    if z < n - 1 {
      SampleRowAt(res, pos, height, x, n - 1, z);
    }
  }

  lemma {:induction false} SampleRowsAt(res: nat, pos: IVec2, height: HeightSampler, m: nat, x: nat, z: nat)
    requires x < m && z < res
    ensures |SampleRows(res, pos, height, m)| == m * res
    ensures 0 <= x * res + z < m * res
    ensures SampleRows(res, pos, height, m)[x * res + z] == height(GlobalCoord(res, x, pos.x), GlobalCoord(res, z, pos.y))
  {
    var before := SampleRows(res, pos, height, m - 1);
    var row := SampleRow(res, pos, height, m - 1, res);
    assert SampleRows(res, pos, height, m) == before + row;
    SampleRowsLength(res, pos, height, m);
    SampleRowsLength(res, pos, height, m - 1);
    SampleRowLength(res, pos, height, m - 1, res);
    RowsBefore(x, m, res);
    MulNonNegative(x, res);
    if x < m - 1 {
      SampleRowsAt(res, pos, height, m - 1, x, z);
    } else {
      assert x * res == |before|;
      SampleRowAt(res, pos, height, x, res, z);
    }
  }

  /**
   * WriteChunk writes RESOLUTION^2 samples, x outer and z inner: sample
   * x * RESOLUTION + z of the chunk at (cx, cy) is the height at global
   * coordinates (x + (RESOLUTION - 1) cx, z + (RESOLUTION - 1) cy).
   */
  lemma ChunkHeightsLayout(res: nat, pos: IVec2, height: HeightSampler, x: nat, z: nat)
    requires x < res && z < res
    ensures |ChunkHeights(res, pos, height)| == res * res
    ensures 0 <= x * res + z < res * res
    ensures ChunkHeights(res, pos, height)[x * res + z] == height(x + (res - 1) * pos.x, z + (res - 1) * pos.y)
  {
    SampleRowsAt(res, pos, height, res, x, z);
  }

  lemma {:induction false} LinkHeightsAt(res: nat, links: seq<ChunkHeightmapLink>, height: HeightSampler, m: nat, s: nat, k: nat)
    requires m <= |links| && s < m && k < res * res
    ensures |LinkHeights(res, links, height, m)| == m * (res * res)
    ensures 0 <= s * (res * res) + k < m * (res * res)
    ensures |ChunkHeights(res, links[s].worldPos, height)| == res * res
    ensures LinkHeights(res, links, height, m)[s * (res * res) + k] == ChunkHeights(res, links[s].worldPos, height)[k]
  {
    var p := res * res;
    var before := LinkHeights(res, links, height, m - 1);
    var chunk := ChunkHeights(res, links[m - 1].worldPos, height);
    assert LinkHeights(res, links, height, m) == before + chunk;
    LinkHeightsLength(res, links, height, m);
    LinkHeightsLength(res, links, height, m - 1);
    SampleRowsLength(res, links[m - 1].worldPos, height, res);
    RowsBefore(s, m, p);
    MulNonNegative(s, p);
    if s < m - 1 {
      LinkHeightsAt(res, links, height, m - 1, s, k);
    } else {
      assert s * p == |before|;
    }
  }

  /**
   * The heightmap of a link starts at InstanceId * RESOLUTION^2 whenever the
   * instance is the link's slot, as the diamond fill makes it: sample
   * x * RESOLUTION + z of that instance is the height of the link's chunk
   * at (x, z).
   */
  lemma HeightmapOfEveryLink(res: nat, links: seq<ChunkHeightmapLink>, height: HeightSampler, s: nat, x: nat, z: nat)
    requires s < |links| && links[s].instanceId == s && x < res && z < res
    ensures |LinkHeights(res, links, height, |links|)| == |links| * (res * res)
    ensures 0 <= links[s].instanceId * (res * res) + (x * res + z) < |links| * (res * res)
    ensures LinkHeights(res, links, height, |links|)[links[s].instanceId * (res * res) + (x * res + z)]
         == height(x + (res - 1) * links[s].worldPos.x, z + (res - 1) * links[s].worldPos.y)
  {
    ChunkHeightsLayout(res, links[s].worldPos, height, x, z);
    LinkHeightsAt(res, links, height, |links|, s, x * res + z);
    MulNonNegative(s, res * res);
  }

  // ---------------------------------------------------------------------
  // The component.

  class TerrainSystem {
    /** Chunk::RESOLUTION: samples along each side of a heightmap. */
    const resolution: nat
    /** ChunkToHeightmapLinking::DIAMOND_EXPLORATION_RADIUS. */
    const radius: nat
    /** ChunkLinksBuffer: INSTANCE_COUNT links. */
    const chunkLinksBuffer: array<ChunkHeightmapLink>
    /** HeightmapsBuffer: INSTANCE_COUNT heightmaps one after the other. */
    const heightmapsBuffer: array<u16>
    /** *PlayerPos: the position the pointer handed to Init designates. */
    var playerPos: IVec3

    /** Heightmap::HEIGHTMAP_IMAGE_PIXEL_COUNT. */
    function PixelCount(): nat
    {
      resolution * resolution
    }

    ghost predicate Valid()
    {
      && 1 <= resolution < 0x8000_0000
      && InstanceCount(radius) <= U32_MODULUS
      && chunkLinksBuffer.Length == InstanceCount(radius)
      && heightmapsBuffer.Length == InstanceCount(radius) * PixelCount()
    }

    constructor (resolution: nat, radius: nat)
      requires 1 <= resolution < 0x8000_0000 && InstanceCount(radius) <= U32_MODULUS
      ensures Valid() && this.resolution == resolution && this.radius == radius
      ensures fresh(chunkLinksBuffer) && fresh(heightmapsBuffer)
    {
      this.resolution := resolution;
      this.radius := radius;
      chunkLinksBuffer := new ChunkHeightmapLink[InstanceCount(radius)](_ => UNWRITTEN_LINK);
      heightmapsBuffer := new u16[InstanceCount(radius) * (resolution * resolution)](_ => 0);
      playerPos := IVec3(0, 0, 0);
    }

    /** Init(pPlayerPos): keeps the player position, then fills both buffers. */
    method Init(pPlayerPos: IVec3, height: HeightSampler)
      requires Valid()
      modifies this, chunkLinksBuffer, heightmapsBuffer
      ensures playerPos == pPlayerPos
      ensures chunkLinksBuffer[..] == DiamondLinks(PlayerChunk(pPlayerPos, resolution), radius)
      ensures heightmapsBuffer[..] == LinkHeights(resolution, chunkLinksBuffer[..], height, chunkLinksBuffer.Length)
    {
      playerPos := pPlayerPos;
      FullWriteChunkData(height);
    }

    /**
     * FullWriteChunkData: the player's chunk into the last slot, the
     * diamond below it, and then the heightmap of every link at its
     * instance's offset.
     */
    method FullWriteChunkData(height: HeightSampler)
      requires Valid()
      modifies chunkLinksBuffer, heightmapsBuffer
      ensures chunkLinksBuffer[..] == DiamondLinks(PlayerChunk(playerPos, resolution), radius)
      ensures heightmapsBuffer[..] == LinkHeights(resolution, chunkLinksBuffer[..], height, chunkLinksBuffer.Length)
    {
      var player := IVec2(AsWrittenChunkCoord(playerPos.x, resolution), AsWrittenChunkCoord(playerPos.z, resolution));
      var counter: u32 := InstanceCount(radius) - 1;
      chunkLinksBuffer[counter] := ChunkHeightmapLink(player, counter, 1);
      assert TopSlotsHold(chunkLinksBuffer[..], player, [Center]);
      counter := Wrap32(counter as int - 1);
      FillDiamond(player, counter);
      DiamondLinksFillEverySlotOnce(player, radius);
      WriteAllChunks(height);
    }

    /** The two loops of the diamond fill, below the player's chunk. */
    method FillDiamond(player: IVec2, start: u32)
      requires chunkLinksBuffer.Length == InstanceCount(radius) <= U32_MODULUS
      requires start == Wrap32(InstanceCount(radius) - 2)
      requires TopSlotsHold(chunkLinksBuffer[..], player, [Center])
      modifies chunkLinksBuffer
      ensures chunkLinksBuffer[..] == DiamondLinks(player, radius)
    {
      var n := chunkLinksBuffer.Length;
      var counter := start;
      var i := 0;
      while i < radius
        invariant i <= radius
        invariant TopSlotsHold(chunkLinksBuffer[..], player, Filled(radius, i, 0))
        invariant counter == Wrap32(n - 1 - |Filled(radius, i, 0)|)
      {
        counter := FillColumn(player, i, counter);
        i := i + 1;
      }
      TagsFillInstances(radius);
      assert chunkLinksBuffer[..] == DiamondLinks(player, radius);
    }

    /** The j loop of the fill for one i: the blocks (i, 0) .. (i, radius - i - 1), downwards. */
    method FillColumn(player: IVec2, i: nat, start: u32) returns (counter: u32)
      requires chunkLinksBuffer.Length == InstanceCount(radius) <= U32_MODULUS && i < radius
      requires TopSlotsHold(chunkLinksBuffer[..], player, Filled(radius, i, 0))
      requires start == Wrap32(chunkLinksBuffer.Length - 1 - |Filled(radius, i, 0)|)
      modifies chunkLinksBuffer
      ensures TopSlotsHold(chunkLinksBuffer[..], player, Filled(radius, i, radius - i))
      ensures counter == Wrap32(chunkLinksBuffer.Length - 1 - |Filled(radius, i, radius - i)|)
    {
      var n := chunkLinksBuffer.Length;
      counter := start;
      var xPos := AsInt32(Wrap32(player.x + i + 1));
      var xNeg := AsInt32(Wrap32(player.x - i + 1));
      var j := 0;
      while j < radius - i
        invariant j <= radius - i
        invariant TopSlotsHold(chunkLinksBuffer[..], player, Filled(radius, i, j))
        invariant counter == Wrap32(n - 1 - |Filled(radius, i, j)|)
      {
        var yPos := AsInt32(Wrap32(player.y + j));
        var yNeg := AsInt32(Wrap32(player.y - j));
        BlockFits(radius, i, j);
        WriteBlock(player, counter - 3, i, j, xPos, xNeg, yPos, yNeg, Filled(radius, i, j));
        counter := Wrap32(counter as int - 4);
        j := j + 1;
      }
    }

    /** The block of step (i, j): slots at .. at + 3 get (x_neg, y_pos), (x_pos, y_neg), (x_neg, y_neg), (x_pos, y_pos). */
    method WriteBlock(player: IVec2, at: u32, i: nat, j: nat, xPos: i32, xNeg: i32, yPos: i32, yNeg: i32,
                      ghost written: seq<Tag>)
      requires xPos == AsInt32(Wrap32(player.x + i + 1)) && xNeg == AsInt32(Wrap32(player.x - i + 1))
      requires yPos == AsInt32(Wrap32(player.y + j)) && yNeg == AsInt32(Wrap32(player.y - j))
      requires at + 4 + |written| == chunkLinksBuffer.Length <= U32_MODULUS
      requires TopSlotsHold(chunkLinksBuffer[..], player, written)
      modifies chunkLinksBuffer
      ensures TopSlotsHold(chunkLinksBuffer[..], player, Block(i, j) + written)
    {
      ghost var before := chunkLinksBuffer[..];
      chunkLinksBuffer[at] := ChunkHeightmapLink(IVec2(xNeg, yPos), at, 1);
      chunkLinksBuffer[at + 1] := ChunkHeightmapLink(IVec2(xPos, yNeg), at + 1, 1);
      chunkLinksBuffer[at + 2] := ChunkHeightmapLink(IVec2(xNeg, yNeg), at + 2, 1);
      chunkLinksBuffer[at + 3] := ChunkHeightmapLink(IVec2(xPos, yPos), at + 3, 1);
      BlockLinks(player, at as nat, i, j, xPos, xNeg, yPos, yNeg);
      PushBlock(before, chunkLinksBuffer[..], player, written, at as nat, i, j);
    }

    /** The loop over the links: WriteChunk once per link, at InstanceId * HEIGHTMAP_IMAGE_PIXEL_COUNT. */
    method WriteAllChunks(height: HeightSampler)
      requires Valid()
      requires forall s :: 0 <= s < chunkLinksBuffer.Length ==> chunkLinksBuffer[s].instanceId == s
      modifies heightmapsBuffer
      ensures heightmapsBuffer[..] == LinkHeights(resolution, chunkLinksBuffer[..], height, chunkLinksBuffer.Length)
    {
      ghost var base := heightmapsBuffer[..];
      ghost var links := chunkLinksBuffer[..];
      var k := 0;
      while k < chunkLinksBuffer.Length
        invariant k <= chunkLinksBuffer.Length
        invariant |LinkHeights(resolution, links, height, k)| <= heightmapsBuffer.Length
        invariant heightmapsBuffer[..] == Splice(base, 0, LinkHeights(resolution, links, height, k))
      {
        WriteLinkHeightmap(k, height, base, links);
        k := k + 1;
      }
      LinkHeightsLength(resolution, links, height, k);
      SpliceWhole(base, LinkHeights(resolution, links, height, k));
    }

    /** One pass of the loop over the links: link k's heightmap goes at InstanceId * RESOLUTION^2 = k * RESOLUTION^2. */
    method WriteLinkHeightmap(k: nat, height: HeightSampler, ghost base: seq<u16>, ghost links: seq<ChunkHeightmapLink>)
      requires 1 <= resolution && links == chunkLinksBuffer[..] && k < |links| && links[k].instanceId == k
      requires |base| == heightmapsBuffer.Length == |links| * PixelCount()
      requires |LinkHeights(resolution, links, height, k)| <= |base|
      requires heightmapsBuffer[..] == Splice(base, 0, LinkHeights(resolution, links, height, k))
      modifies heightmapsBuffer
      ensures |LinkHeights(resolution, links, height, k + 1)| <= heightmapsBuffer.Length
      ensures heightmapsBuffer[..] == Splice(base, 0, LinkHeights(resolution, links, height, k + 1))
    {
      LinkHeightsLength(resolution, links, height, k);
      var cl := chunkLinksBuffer[k];
      RowsBefore(k, chunkLinksBuffer.Length, PixelCount());
      WriteChunk(cl.worldPos, cl.instanceId * PixelCount(), height);
      SpliceExtend(base, 0, LinkHeights(resolution, links, height, k), ChunkHeights(resolution, cl.worldPos, height));
      LinkHeightsLength(resolution, links, height, k + 1);
    }

    /** WriteChunk(ChunkPos, ChunkBegin): RESOLUTION^2 samples through an advancing pointer from `begin`. */
    method WriteChunk(chunkPos: IVec2, begin: nat, height: HeightSampler)
      requires 1 <= resolution && begin + PixelCount() <= heightmapsBuffer.Length
      modifies heightmapsBuffer
      ensures |ChunkHeights(resolution, chunkPos, height)| == PixelCount()
      ensures heightmapsBuffer[..] == Splice(old(heightmapsBuffer[..]), begin, ChunkHeights(resolution, chunkPos, height))
    {
      ghost var base := heightmapsBuffer[..];
      SampleRowsLength(resolution, chunkPos, height, resolution);
      assert Splice(base, begin, SampleRows(resolution, chunkPos, height, 0)) == base;
      var p := begin;
      var x := 0;
      while x < resolution
        invariant x <= resolution
        invariant p == begin + |SampleRows(resolution, chunkPos, height, x)| <= begin + PixelCount()
        invariant heightmapsBuffer[..] == Splice(base, begin, SampleRows(resolution, chunkPos, height, x))
      {
        p := WriteNextRow(chunkPos, begin, p, x, height, base);
        x := x + 1;
      }
    }

    /** One pass of WriteChunk's x loop: row x goes right after the rows before it. */
    method WriteNextRow(chunkPos: IVec2, begin: nat, p: nat, x: nat, height: HeightSampler, ghost base: seq<u16>)
      returns (next: nat)
      requires x < resolution && |base| == heightmapsBuffer.Length && begin + PixelCount() <= |base|
      requires p == begin + |SampleRows(resolution, chunkPos, height, x)| <= begin + PixelCount()
      requires heightmapsBuffer[..] == Splice(base, begin, SampleRows(resolution, chunkPos, height, x))
      modifies heightmapsBuffer
      ensures next == begin + |SampleRows(resolution, chunkPos, height, x + 1)| <= begin + PixelCount()
      ensures heightmapsBuffer[..] == Splice(base, begin, SampleRows(resolution, chunkPos, height, x + 1))
    {
      ghost var rows := SampleRows(resolution, chunkPos, height, x);
      ghost var row := SampleRow(resolution, chunkPos, height, x, resolution);
      NextSampleRowFits(resolution, chunkPos, height, x);
      SpliceExtend(base, begin, rows, row);
      next := WriteRow(chunkPos, p, x, height);
    }

    /** The z loop of WriteChunk for row x. */
    method WriteRow(chunkPos: IVec2, at: nat, x: nat, height: HeightSampler) returns (next: nat)
      requires x < resolution && at + resolution <= heightmapsBuffer.Length
      modifies heightmapsBuffer
      ensures next == at + resolution && |SampleRow(resolution, chunkPos, height, x, resolution)| == resolution
      ensures heightmapsBuffer[..] == Splice(old(heightmapsBuffer[..]), at, SampleRow(resolution, chunkPos, height, x, resolution))
    {
      ghost var base := heightmapsBuffer[..];
      var globalX := x + (resolution - 1) * chunkPos.x;
      next := at;
      var z := 0;
      while z < resolution
        invariant z <= resolution && next == at + z
        invariant |SampleRow(resolution, chunkPos, height, x, z)| == z
        invariant heightmapsBuffer[..] == Splice(base, at, SampleRow(resolution, chunkPos, height, x, z))
      {
        var globalZ := z + (resolution - 1) * chunkPos.y;
        ghost var done := SampleRow(resolution, chunkPos, height, x, z);
        ghost var before := heightmapsBuffer[..];
        assert done + [height(globalX, globalZ)] == SampleRow(resolution, chunkPos, height, x, z + 1);
        SpliceStore(base, at, done, height(globalX, globalZ));
        heightmapsBuffer[next] := height(globalX, globalZ);
        assert heightmapsBuffer[..] == before[next := height(globalX, globalZ)];
        next := next + 1;
        z := z + 1;
      }
    }
  }
}
