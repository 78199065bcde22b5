/**
 * ChunkManager (src/Apps/MeshApp/Components/ChunkManager.cpp and .hpp): the
 * mesh app's chunk links.  init registers the link buffers, the heightmap
 * staging buffer and the heightmap image array with the pools;
 * diamondUpdateChunkLinks fills the links in the diamond layout around the
 * player's chunk; uploadChunkLinks copies them to the host-visible buffer
 * and from there to the storage buffer.
 */
module ChunkManagerModel {
  import opened Common
  import opened Vk
  import opened BufferCreateOptions
  import opened GpuMemory
  import opened ImageTypes
  import opened DiamondLayout
  import BufferManagerPool
  import ImagePoolOld
  import VulkanContextModel

  /** TerrainConfig::DIAMOND_EXPLORATION_RADIUS of the mesh app. */
  const DIAMOND_EXPLORATION_RADIUS: nat := 4

  /** TerrainConfig::INSTANCE_COUNT = r^2 + (r + 1)^2. */
  const INSTANCE_COUNT: nat := InstanceCount(DIAMOND_EXPLORATION_RADIUS)

  /** TerrainConfig::RESOLUTION of the mesh app. */
  const RESOLUTION: nat := 64

  /** sizeof(ChunkLink): an ivec2 and two uint32_t, 4 bytes each, no padding. */
  const CHUNK_LINK_SIZE: nat := 16

  /** chunkLinksSize = INSTANCE_COUNT * sizeof(ChunkLink). */
  const CHUNK_LINKS_SIZE: nat := INSTANCE_COUNT * CHUNK_LINK_SIZE

  /** HeightmapConfig::HEIGHTMAP_SIZE = RESOLUTION^2 * sizeof(uint16_t) * INSTANCE_COUNT. */
  const HEIGHTMAP_SIZE: nat := RESOLUTION * RESOLUTION * 2 * INSTANCE_COUNT

  lemma ConfigValues()
    ensures INSTANCE_COUNT == 41 && CHUNK_LINKS_SIZE == 656 && HEIGHTMAP_SIZE == 335872
  {
  }

  /** ChunkLink: where the chunk lies, which heightmap layer it reads, and whether it is drawn. */
  datatype ChunkLink = ChunkLink(worldPos: IVec2, heightmapId: u32, isVisible: u32)

  /** A value-initialised ChunkLink. */
  const UNSET_LINK: ChunkLink := ChunkLink(IVec2(0, 0), 0, 0)

  // ---------------------------------------------------------------------
  // What init registers.

  /** The host-visible buffer the links are uploaded through. */
  const CPU_BUFFER: BufferCreateDescription := BufferCreateDescription(CHUNK_LINKS_SIZE, StagingUpload, Staging)

  /** The storage buffer the shaders read the links from. */
  const GPU_BUFFER: BufferCreateDescription := BufferCreateDescription(CHUNK_LINKS_SIZE, GpuStatic, Ssbo)

  /** The heightmap staging buffer: device-local storage, as registered. */
  const HEIGHTMAP_STAGING_BUFFER: BufferCreateDescription := BufferCreateDescription(HEIGHTMAP_SIZE, GpuStatic, Ssbo)

  /**
   * The heightmap image array: the description's defaults, with one layer
   * per instance, RESOLUTION x RESOLUTION, R16_UNORM, a sampled transfer
   * target.
   */
  const HEIGHTMAP_IMAGE: ImageCreateDescription :=
    DefaultDescription(RESOLUTION, RESOLUTION).(arrayLayers := INSTANCE_COUNT, format := FORMAT_R16_UNORM,
                                                usage := IMAGE_USAGE_TRANSFER_DST | IMAGE_USAGE_SAMPLED)

  // ---------------------------------------------------------------------
  // The diamond fill.

  /** The link a step writes into `slot`: its cell, the slot as heightmap layer, and visible. */
  function SlotLink(player: IVec2, t: Tag, slot: nat): ChunkLink
  {
    ChunkLink(AsWrittenCell(player, t), Wrap32(slot), 1)
  }

  /** chunkLinks once a fill of radius r is done: slot s holds the link of step Tags(r)[s]. */
  function DiamondLinks(player: IVec2, r: nat): (links: seq<ChunkLink>)
    ensures |links| == InstanceCount(r)
  {
    TagsFillInstances(r);
    seq(InstanceCount(r), s requires 0 <= s < InstanceCount(r) => SlotLink(player, Tags(r)[s], s))
  }

  /**
   * The counter ends at -1 having written every slot exactly once (each
   * step of the loops owns one slot and every slot belongs to a step); the
   * heightmap layer of every slot is the slot itself, every link is
   * visible, and the last slot holds the player's chunk.
   */
  lemma DiamondLinksFillEverySlotOnce(player: IVec2, r: nat)
    requires InstanceCount(r) <= U32_MODULUS
    ensures |Tags(r)| == InstanceCount(r)
    ensures NoRepeats(Tags(r)) && (forall t :: t in Tags(r) <==> ValidTag(r, t))
    ensures forall s :: 0 <= s < |DiamondLinks(player, r)| ==>
      DiamondLinks(player, r)[s].heightmapId == s && DiamondLinks(player, r)[s].isVisible == 1
      && DiamondLinks(player, r)[s].worldPos == AsWrittenCell(player, Tags(r)[s])
    ensures DiamondLinks(player, r)[InstanceCount(r) - 1] == ChunkLink(player, InstanceCount(r) - 1, 1)
  {
    TagsAreTheSteps(r);
    TagsFillInstances(r);
    if r == 0 {
      assert Tags(r) == [Center];
    } else {
      FirstBlockOnTop(r, r, 0);
      var n := InstanceCount(r);
      assert Tags(r)[n - 5..] == Block(0, 0) + [Center];
      assert Tags(r)[n - 1] == Center;
    }
  }

  /** The top |written| entries of `links` hold the links of the steps in `written`, lowest slot first. */
  ghost predicate TopSlotsHold(links: seq<ChunkLink>, player: IVec2, written: seq<Tag>)
  {
    && |written| <= |links|
    && forall s :: |links| - |written| <= s < |links| ==> links[s] == SlotLink(player, written[s - (|links| - |written|)], s)
  }

  /** The four links the loop body builds for step (i, j) at slots at .. at + 3. */
  lemma BlockLinks(player: IVec2, at: nat, i: nat, j: nat, xPos: i32, xNeg: i32, yPos: i32, yNeg: i32)
    requires xPos == AsInt32(Wrap32(player.x + i + 1)) && xNeg == AsInt32(Wrap32(player.x - i + 1))
    requires yPos == AsInt32(Wrap32(player.y + j)) && yNeg == AsInt32(Wrap32(player.y - j))
    requires at + 3 < U32_MODULUS
    ensures SlotLink(player, Quad(i, j, 0), at) == ChunkLink(IVec2(xNeg, yPos), at as u32, 1)
    ensures SlotLink(player, Quad(i, j, 1), at + 1) == ChunkLink(IVec2(xPos, yNeg), (at + 1) as u32, 1)
    ensures SlotLink(player, Quad(i, j, 2), at + 2) == ChunkLink(IVec2(xNeg, yNeg), (at + 2) as u32, 1)
    ensures SlotLink(player, Quad(i, j, 3), at + 3) == ChunkLink(IVec2(xPos, yPos), (at + 3) as u32, 1)
  {
    BlockCells(player, i, j);
  }

  /** Writing the block of step (i, j) just below the written slots extends them by that block. */
  lemma BlockWritten(before: seq<ChunkLink>, after: seq<ChunkLink>, player: IVec2, at: nat, i: nat, j: nat,
                     written: seq<Tag>)
    requires at + 4 + |written| == |before|
    requires TopSlotsHold(before, player, written)
    requires after == before[at := SlotLink(player, Quad(i, j, 0), at)][at + 1 := SlotLink(player, Quad(i, j, 1), at + 1)]
                            [at + 2 := SlotLink(player, Quad(i, j, 2), at + 2)][at + 3 := SlotLink(player, Quad(i, j, 3), at + 3)]
    ensures TopSlotsHold(after, player, Block(i, j) + written)
  {
    var tags := Block(i, j) + written;
    forall s | at <= s < |after|
      ensures after[s] == SlotLink(player, tags[s - at], s)
    {
      if s >= at + 4 {
        assert tags[s - at] == written[s - (|before| - |written|)];
      }
    }
  }

  // ---------------------------------------------------------------------
  // The bytes chunkLinks.data() points to.

  /** The four bytes of a 32-bit value, least significant first. */
  function Le32(v: u32): (b: Bytes)
    ensures |b| == 4
  {
    var v1 := v / 256;
    var v2 := v1 / 256;
    var v3 := v2 / 256;
    [v % 256, v1 % 256, v2 % 256, v3 % 256]
  }

  /** The 32-bit value four little-endian bytes hold. */
  function FromLe32(b: Bytes): u32
    requires |b| == 4
  {
    b[0] as int + 256 * (b[1] as int + 256 * (b[2] as int + 256 * (b[3] as int)))
  }

  lemma Le32RoundTrip(v: u32)
    ensures FromLe32(Le32(v)) == v
  {
    var v1 := v / 256;
    var v2 := v1 / 256;
    var v3 := v2 / 256;
    assert v == v % 256 + 256 * v1;
    assert v1 == v1 % 256 + 256 * v2;
    assert v2 == v2 % 256 + 256 * v3;
    assert v3 < 256;
  }

  /** One link in memory: worldPos.x, worldPos.y (two's complement), heightmapId, isVisible. */
  function LinkBytes(l: ChunkLink): (b: Bytes)
    ensures |b| == CHUNK_LINK_SIZE
  {
    Le32(Wrap32(l.worldPos.x)) + Le32(Wrap32(l.worldPos.y)) + Le32(l.heightmapId) + Le32(l.isVisible)
  }

  /** The link 16 bytes of memory hold. */
  function DecodeLink(b: Bytes): ChunkLink
    requires |b| == CHUNK_LINK_SIZE
  {
    ChunkLink(IVec2(AsInt32(FromLe32(b[0..4])), AsInt32(FromLe32(b[4..8]))), FromLe32(b[8..12]), FromLe32(b[12..16]))
  }

  lemma AsInt32OfWrap(x: i32)
    ensures AsInt32(Wrap32(x)) == x
  {
  }

  lemma LinkRoundTrip(l: ChunkLink)
    ensures DecodeLink(LinkBytes(l)) == l
  {
    var b := LinkBytes(l);
    assert b[0..4] == Le32(Wrap32(l.worldPos.x)) && b[4..8] == Le32(Wrap32(l.worldPos.y));
    assert b[8..12] == Le32(l.heightmapId) && b[12..16] == Le32(l.isVisible);
    Le32RoundTrip(Wrap32(l.worldPos.x));
    Le32RoundTrip(Wrap32(l.worldPos.y));
    Le32RoundTrip(l.heightmapId);
    Le32RoundTrip(l.isVisible);
    AsInt32OfWrap(l.worldPos.x);
    AsInt32OfWrap(l.worldPos.y);
  }

  lemma AlignedPlusOne(n: nat)
    requires n % CHUNK_LINK_SIZE == 0
    ensures (n + CHUNK_LINK_SIZE) % CHUNK_LINK_SIZE == 0
  {
  }

  /** The contiguous storage of a vector of links. */
  function LinksBytes(links: seq<ChunkLink>): (b: Bytes)
    ensures |b| == CHUNK_LINK_SIZE * |links| && |b| % CHUNK_LINK_SIZE == 0
  {
    if |links| == 0 then [] else
      var front := LinksBytes(links[..|links| - 1]);
      assert |front + LinkBytes(links[|links| - 1])| == 16 * (|links| - 1) + 16;
      AlignedPlusOne(|front|);
      front + LinkBytes(links[|links| - 1])
  }

  /** The links a block of memory holds, 16 bytes each. */
  function DecodeLinks(b: Bytes): seq<ChunkLink>
    requires |b| % CHUNK_LINK_SIZE == 0
    decreases |b|
  {
    if |b| == 0 then [] else DecodeLinks(b[..|b| - CHUNK_LINK_SIZE]) + [DecodeLink(b[|b| - CHUNK_LINK_SIZE..])]
  }

  /** What uploadChunkLinks copies is exactly the links: reading the bytes back gives the vector. */
  lemma {:induction false} LinksRoundTrip(links: seq<ChunkLink>)
    ensures DecodeLinks(LinksBytes(links)) == links
    decreases |links|
  {
    if |links| > 0 {
      var init := links[..|links| - 1];
      var last := links[|links| - 1];
      var b := LinksBytes(links);
      LastLinkBytes(links);
      assert DecodeLinks(b) == DecodeLinks(LinksBytes(init)) + [DecodeLink(LinkBytes(last))];
      LinksRoundTrip(init);
      LinkRoundTrip(last);
      SplitLast(links);
    }
  }

  lemma SplitLast<T>(s: seq<T>)
    requires |s| > 0
    ensures s == s[..|s| - 1] + [s[|s| - 1]]
  {
  }

  /** The storage of a non-empty vector ends with its last link's 16 bytes. */
  lemma LastLinkBytes(links: seq<ChunkLink>)
    requires |links| > 0
    ensures var b := LinksBytes(links);
      && b[..|b| - CHUNK_LINK_SIZE] == LinksBytes(links[..|links| - 1])
      && b[|b| - CHUNK_LINK_SIZE..] == LinkBytes(links[|links| - 1])
  {
    var b := LinksBytes(links);
    var front := LinksBytes(links[..|links| - 1]);
    assert b == front + LinkBytes(links[|links| - 1]);
  }

  // ---------------------------------------------------------------------
  // The component.

  class ChunkManager {
    /** chunkLinks: the vector the fill writes through a block pointer. */
    var chunkLinks: seq<ChunkLink>
    var cpuBufferId: BufferId
    var gpuBufferId: BufferId
    var heightmapStagingBufferId: BufferId
    var heightmapId: ImageId

    /** ChunkManager() = default: an empty vector; the ids are indeterminate and taken as 0 here. */
    constructor ()
      ensures chunkLinks == []
    {
      chunkLinks := [];
      cpuBufferId, gpuBufferId, heightmapStagingBufferId := BufferId(0), BufferId(0), BufferId(0);
      heightmapId := ImageId(0);
    }

    /**
     * init: adds the cpu link buffer, the gpu link buffer and the heightmap
     * staging buffer, in that order, then the heightmap image array, and
     * keeps the four ids.  What vmaCreateImage and vkCreateImageView write
     * back is a parameter.
     */
    method Init(imageSystem: ImagePoolOld.ImageSystem, bufferManager: BufferManagerPool.BufferManager,
                created: NativeImage, view: Handle)
      requires bufferManager.Valid() && imageSystem.Valid()
      modifies this, imageSystem, bufferManager
      ensures bufferManager.Valid() && imageSystem.Valid()
      ensures chunkLinks == old(chunkLinks)
      ensures var t0 := old(bufferManager.Table());
        var t1 := BufferManagerPool.AddToTable(t0);
        var t2 := BufferManagerPool.AddToTable(t1);
        && cpuBufferId == NextId(t0) && gpuBufferId == NextId(t1) && heightmapStagingBufferId == NextId(t2)
        && bufferManager.Table() == BufferManagerPool.AddToTable(t2)
      ensures bufferManager.calls == old(bufferManager.calls)
        + [CreateCallFor(bufferManager.allocator, CPU_BUFFER)]
        + [CreateCallFor(bufferManager.allocator, GPU_BUFFER)]
        + [CreateCallFor(bufferManager.allocator, HEIGHTMAP_STAGING_BUFFER)]
      ensures heightmapId == old(ImagePoolOld.NextId(imageSystem.Table()))
      ensures imageSystem.Table() == ImagePoolOld.AddToTable(old(imageSystem.Table()), HEIGHTMAP_IMAGE, created, view)
      ensures imageSystem.calls == old(imageSystem.calls)
        + AddCalls(imageSystem.device, imageSystem.allocator, HEIGHTMAP_IMAGE, created)
      ensures old(bufferManager.freeIndices) == [] ==>
        && cpuBufferId == BufferId(|old(bufferManager.data)|)
        && gpuBufferId == BufferId(|old(bufferManager.data)| + 1)
        && heightmapStagingBufferId == BufferId(|old(bufferManager.data)| + 2)
    {
      AddLinkBuffers(bufferManager);
      heightmapId := imageSystem.Add(HEIGHTMAP_IMAGE, created, view);
    }

    /** The three buffer adds of init, in order. */
    method AddLinkBuffers(bufferManager: BufferManagerPool.BufferManager)
      requires bufferManager.Valid()
      modifies this`cpuBufferId, this`gpuBufferId, this`heightmapStagingBufferId, bufferManager
      ensures bufferManager.Valid()
      ensures var t0 := old(bufferManager.Table());
        var t1 := BufferManagerPool.AddToTable(t0);
        var t2 := BufferManagerPool.AddToTable(t1);
        && cpuBufferId == NextId(t0) && gpuBufferId == NextId(t1) && heightmapStagingBufferId == NextId(t2)
        && bufferManager.Table() == BufferManagerPool.AddToTable(t2)
      ensures bufferManager.calls == old(bufferManager.calls)
        + [CreateCallFor(bufferManager.allocator, CPU_BUFFER)]
        + [CreateCallFor(bufferManager.allocator, GPU_BUFFER)]
        + [CreateCallFor(bufferManager.allocator, HEIGHTMAP_STAGING_BUFFER)]
      ensures old(bufferManager.freeIndices) == [] ==>
        && cpuBufferId == BufferId(|old(bufferManager.data)|)
        && gpuBufferId == BufferId(|old(bufferManager.data)| + 1)
        && heightmapStagingBufferId == BufferId(|old(bufferManager.data)| + 2)
    {
      cpuBufferId := bufferManager.Add(CPU_BUFFER);
      gpuBufferId := bufferManager.Add(GPU_BUFFER);
      heightmapStagingBufferId := bufferManager.Add(HEIGHTMAP_STAGING_BUFFER);
    }

    /**
     * uploadChunkLinks: upload(cpuBufferId, chunkLinks.data()) copies the
     * buffer's own size from the vector's storage, then immediateCopy
     * copies chunkLinksSize bytes into the gpu buffer.  A failed get
     * assertion ends the call (the program aborts) with nothing changed.
     */
    method UploadChunkLinks(bufferManager: BufferManagerPool.BufferManager, vkCtx: VulkanContextModel.VulkanContext,
                            cmdFromPool: Handle)
      returns (r: Result<(), PoolError>)
      requires bufferManager.Valid()
      requires CheckedGet(bufferManager.Table(), cpuBufferId).Ok? ==>
        bufferManager.data[cpuBufferId.index].size <= CHUNK_LINK_SIZE * |chunkLinks|
      modifies bufferManager`calls, bufferManager`memory, vkCtx`calls
      ensures bufferManager.Valid()
      ensures r.Ok? <==> CheckedGet(bufferManager.Table(), cpuBufferId).Ok?
                         && CheckedGet(bufferManager.Table(), gpuBufferId).Ok?
      ensures CheckedGet(bufferManager.Table(), cpuBufferId).Ok? ==>
        bufferManager.memory == old(bufferManager.memory)[cpuBufferId.index :=
          LinksBytes(chunkLinks)[..bufferManager.data[cpuBufferId.index].size]]
      ensures r.Ok? ==> bufferManager.calls == old(bufferManager.calls) + [
        MapMemory(bufferManager.allocator, bufferManager.data[cpuBufferId.index].allocation),
        UnmapMemory(bufferManager.allocator, bufferManager.data[cpuBufferId.index].allocation),
        CmdCopyBuffer(cmdFromPool, bufferManager.data[cpuBufferId.index].buffer,
                      bufferManager.data[gpuBufferId.index].buffer, 0, 0, CHUNK_LINKS_SIZE)]
      ensures r.Ok? ==> var q := vkCtx.transferQueueCtx;
        vkCtx.calls == old(vkCtx.calls) + VulkanContextModel.BeginCalls(q.mainCmdPool, cmdFromPool)
          + VulkanContextModel.SubmitCalls(q.queue, q.mainCmdPool, cmdFromPool)
      ensures BufferManagerPool.AllSlotsNull(bufferManager.Table()) ==>
        && r == Err(AssertionFailed)
        && bufferManager.memory == old(bufferManager.memory) && bufferManager.calls == old(bufferManager.calls)
        && vkCtx.calls == old(vkCtx.calls)
    {
      if BufferManagerPool.AllSlotsNull(bufferManager.Table()) {
        BufferManagerPool.EveryGetFails(bufferManager.Table(), [], cpuBufferId);
      }
      r := bufferManager.UploadWhole(cpuBufferId, LinksBytes(chunkLinks));
      if r.Err? {
        return;
      }
      r := bufferManager.ImmediateCopy(vkCtx, cmdFromPool, cpuBufferId, gpuBufferId, CHUNK_LINKS_SIZE);
    }

    /**
     * The evidently intended sizing of the link vector, chunkLinks.resize(INSTANCE_COUNT),
     * which neither the constructor nor init performs: INSTANCE_COUNT
     * value-initialised links.
     */
    method SizeLinks()
      modifies this`chunkLinks
      ensures |chunkLinks| == INSTANCE_COUNT
      ensures forall s :: 0 <= s < |chunkLinks| ==> chunkLinks[s] == UNSET_LINK
    {
      chunkLinks := seq(INSTANCE_COUNT, _ => UNSET_LINK);
    }

    /**
     * diamondUpdateChunkLinks, with the player's chunk (the float position
     * over RESOLUTION, truncated to int) as a parameter.  The vector is
     * never sized here, so it must already hold INSTANCE_COUNT links.
     */
    method DiamondUpdateChunkLinks(playerChunk: IVec2)
      requires |chunkLinks| == INSTANCE_COUNT
      modifies this`chunkLinks
      ensures chunkLinks == DiamondLinks(playerChunk, DIAMOND_EXPLORATION_RADIUS)
    {
      var counter: i32 := INSTANCE_COUNT - 1;
      chunkLinks := chunkLinks[counter := ChunkLink(playerChunk, counter, 1)];
      assert TopSlotsHold(chunkLinks, playerChunk, [Center]);
      counter := counter - 1;
      FillDiamond(playerChunk, counter, DIAMOND_EXPLORATION_RADIUS);
    }

    /**
     * The two loops of the fill, below the player's chunk, for a radius r
     * whose r^2 + (r + 1)^2 slots the vector holds; the int32_t counter
     * ends at -1.
     */
    method FillDiamond(player: IVec2, start: i32, r: nat)
      requires |chunkLinks| == InstanceCount(r) < 0x8000_0000 && start as int == InstanceCount(r) - 2
      requires TopSlotsHold(chunkLinks, player, [Center])
      modifies this`chunkLinks
      ensures chunkLinks == DiamondLinks(player, r)
    {
      var n := |chunkLinks|;
      var counter := start;
      var i := 0;
      while i < r
        invariant i <= r && |chunkLinks| == n
        invariant TopSlotsHold(chunkLinks, player, Filled(r, i, 0))
        invariant counter as int == n - 1 - |Filled(r, i, 0)|
      {
        var xPos := AsInt32(Wrap32(player.x + i + 1));
        var xNeg := AsInt32(Wrap32(player.x - i + 1));
        var j := 0;
        while j < r - i
          invariant j <= r - i && |chunkLinks| == n
          invariant TopSlotsHold(chunkLinks, player, Filled(r, i, j))
          invariant counter as int == n - 1 - |Filled(r, i, j)|
        {
          var yPos := AsInt32(Wrap32(player.y + j));
          var yNeg := AsInt32(Wrap32(player.y - j));
          BlockFits(r, i, j);
          WriteBlock(player, counter - 3, i, j, xPos, xNeg, yPos, yNeg, Filled(r, i, j));
          counter := counter - 4;
          j := j + 1;
        }
        i := i + 1;
      }
      TagsFillInstances(r);
      assert counter == -1;
      assert chunkLinks == DiamondLinks(player, r);
    }

    /** The block of step (i, j) through `block = &chunkLinks[at]`. */
    method WriteBlock(player: IVec2, at: i32, i: nat, j: nat, xPos: i32, xNeg: i32, yPos: i32, yNeg: i32,
                      ghost written: seq<Tag>)
      requires xPos == AsInt32(Wrap32(player.x + i + 1)) && xNeg == AsInt32(Wrap32(player.x - i + 1))
      requires yPos == AsInt32(Wrap32(player.y + j)) && yNeg == AsInt32(Wrap32(player.y - j))
      requires 0 <= at && at as int + 4 + |written| == |chunkLinks| < 0x8000_0000
      requires TopSlotsHold(chunkLinks, player, written)
      modifies this`chunkLinks
      ensures |chunkLinks| == old(|chunkLinks|)
      ensures TopSlotsHold(chunkLinks, player, Block(i, j) + written)
    {
      ghost var before := chunkLinks;
      chunkLinks := chunkLinks[at := ChunkLink(IVec2(xNeg, yPos), at as u32, 1)];
      chunkLinks := chunkLinks[at + 1 := ChunkLink(IVec2(xPos, yNeg), (at + 1) as u32, 1)];
      chunkLinks := chunkLinks[at + 2 := ChunkLink(IVec2(xNeg, yNeg), (at + 2) as u32, 1)];
      chunkLinks := chunkLinks[at + 3 := ChunkLink(IVec2(xPos, yPos), (at + 3) as u32, 1)];
      BlockLinks(player, at as nat, i, j, xPos, xNeg, yPos, yNeg);
      BlockWritten(before, chunkLinks, player, at as nat, i, j, written);
    }
  }

  /**
   * The mesh app's set-up as written (MeshApp.cpp:35-36): a default
   * ChunkManager, then init.  The link vector is still empty, so the
   * diamondUpdateChunkLinks call that follows writes chunkLinks[INSTANCE_COUNT - 1]
   * out of bounds: the precondition of DiamondUpdateChunkLinks is not met.
   */
  method AsWrittenSetUpLeavesLinksEmpty(imageSystem: ImagePoolOld.ImageSystem, bufferManager: BufferManagerPool.BufferManager,
                                        created: NativeImage, view: Handle)
    returns (m: ChunkManager)
    requires bufferManager.Valid() && imageSystem.Valid()
    modifies imageSystem, bufferManager
    ensures |m.chunkLinks| == 0 < INSTANCE_COUNT
    ensures |m.chunkLinks| != INSTANCE_COUNT
  {
    m := new ChunkManager();
    m.Init(imageSystem, bufferManager, created, view);
  }

  /**
   * The set-up with the intended sizing: a default ChunkManager, init,
   * the resize to INSTANCE_COUNT, then diamondUpdateChunkLinks, which now
   * writes inside the vector and leaves it holding the diamond layout.
   */
  method CorrectedSetUpFillsLinks(imageSystem: ImagePoolOld.ImageSystem, bufferManager: BufferManagerPool.BufferManager,
                                  created: NativeImage, view: Handle, playerChunk: IVec2)
    returns (m: ChunkManager)
    requires bufferManager.Valid() && imageSystem.Valid()
    modifies imageSystem, bufferManager
    ensures |m.chunkLinks| == INSTANCE_COUNT
    ensures m.chunkLinks == DiamondLinks(playerChunk, DIAMOND_EXPLORATION_RADIUS)
  {
    m := new ChunkManager();
    m.Init(imageSystem, bufferManager, created, view);
    m.SizeLinks();
    m.DiamondUpdateChunkLinks(playerChunk);
  }
}
