/**
 * FullFeedTerrainData (src/Engine/InferusRenderer/InferusRenderer.cpp:898-971):
 * the terrain upload recorded on the transfer queue, ending with a
 * queue-family release of the heightmap image, followed by the matching
 * acquire on the graphics queue.  This is the release/acquire handshake of
 * "Queue Family Ownership Transfer", section 7.7.4 of the Vulkan 1.3
 * specification.  The code takes its two image barriers from
 * `Recipes::ImageMemoryBarrier::TransferDest` and `::ShaderRead`, which no
 * header of this revision defines; the BarrierRecipes helpers of the RHI
 * revision, which take an image record instead, stand in for them, so the
 * layouts and access masks here are theirs.
 */
module OwnershipTransfer {
  import opened Common
  import opened Vk
  import opened RendererTrace
  import BarrierRecipes
  import ImagePool
  import VulkanContextModel

  /** The release half: ShaderRead moved from the transfer family to the graphics family, no destination access. */
  function ReleaseBarrier(image: ImagePool.ImageRecord, transferIndex: u32, graphicsIndex: u32): ImageBarrier
  {
    BarrierRecipes.ShaderRead(image).(srcQueueFamilyIndex := transferIndex, dstQueueFamilyIndex := graphicsIndex,
                                      dstAccessMask := ACCESS_NONE)
  }

  /** The acquire half: the same transfer, no source access. */
  function AcquireBarrier(image: ImagePool.ImageRecord, transferIndex: u32, graphicsIndex: u32): ImageBarrier
  {
    BarrierRecipes.ShaderRead(image).(srcQueueFamilyIndex := transferIndex, dstQueueFamilyIndex := graphicsIndex,
                                      srcAccessMask := ACCESS_NONE)
  }

  /**
   * A release and an acquire that form one ownership transfer: the same
   * image and range, the same pair of families and the same layout
   * transition; the release makes no destination access and the acquire
   * no source access.
   */
  predicate IsTransferPair(release: ImageBarrier, acquire: ImageBarrier)
  {
    release.image == acquire.image && release.subresourceRange == acquire.subresourceRange
    && release.srcQueueFamilyIndex == acquire.srcQueueFamilyIndex
    && release.dstQueueFamilyIndex == acquire.dstQueueFamilyIndex
    && release.oldLayout == acquire.oldLayout && release.newLayout == acquire.newLayout
    && release.dstAccessMask == ACCESS_NONE && acquire.srcAccessMask == ACCESS_NONE
  }

  /**
   * The calls of FullFeedTerrainData, in order: the transfer single-time
   * buffer with the chunk-link upload, the heightmap staging write, the
   * TransferDest barrier, the buffer-to-image copy and the release; its
   * submission; then the graphics single-time buffer with the acquire.
   */
  function FeedCalls(transfer: QueueCtx, graphics: QueueCtx, transferCmd: Handle, graphicsCmd: Handle,
                     linksCpu: nat, linksGpu: nat, linksSize: nat, heightmapStaging: nat, heightmapSize: nat,
                     stagingBuffer: Handle, image: ImagePool.ImageRecord): seq<RendererCall>
  {
    TransferHalfCalls(transfer, graphics.index, transferCmd, linksCpu, linksGpu, linksSize, heightmapStaging, heightmapSize,
                      stagingBuffer, image)
    + AcquireHalfCalls(transfer.index, graphics, graphicsCmd, image)
  }

  /** The transfer single-time buffer: begun, the upload recorded ending in the release, submitted. */
  function TransferHalfCalls(transfer: QueueCtx, graphicsIndex: u32, cmd: Handle,
                             linksCpu: nat, linksGpu: nat, linksSize: nat, heightmapStaging: nat, heightmapSize: nat,
                             stagingBuffer: Handle, image: ImagePool.ImageRecord): seq<RendererCall>
  {
    Lift(VulkanContextModel.BeginCalls(transfer.mainCmdPool, cmd))
    + UploadRecording(cmd, linksCpu, linksGpu, linksSize, heightmapStaging, heightmapSize, stagingBuffer, image,
                      transfer.index, graphicsIndex)
    + Lift(VulkanContextModel.SubmitCalls(transfer.queue, transfer.mainCmdPool, cmd))
  }

  /** What the transfer buffer records: both uploads, the copy between its two barriers. */
  function UploadRecording(cmd: Handle, linksCpu: nat, linksGpu: nat, linksSize: nat, heightmapStaging: nat,
                           heightmapSize: nat, stagingBuffer: Handle, image: ImagePool.ImageRecord,
                           transferIndex: u32, graphicsIndex: u32): (r: seq<RendererCall>)
    ensures NoFenceCalls(r)
  {
    [ StagedUpload(cmd, linksCpu, linksGpu, linksSize),
      HostUpload(heightmapStaging, heightmapSize),
      PipelineBarrier(cmd, STAGE_TOP_OF_PIPE, STAGE_TRANSFER, BarrierRecipes.TransferDest(image)),
      CopyBufferToImage(cmd, stagingBuffer, image.image, TransferDstOptimal),
      PipelineBarrier(cmd, STAGE_TRANSFER, STAGE_BOTTOM_OF_PIPE, ReleaseBarrier(image, transferIndex, graphicsIndex)) ]
  }

  /** The graphics single-time buffer: begun, the acquire recorded, submitted. */
  function AcquireHalfCalls(transferIndex: u32, graphics: QueueCtx, cmd: Handle, image: ImagePool.ImageRecord): seq<RendererCall>
  {
    Lift(VulkanContextModel.BeginCalls(graphics.mainCmdPool, cmd))
    + [ PipelineBarrier(cmd, STAGE_TRANSFER, STAGE_FRAGMENT_SHADER, AcquireBarrier(image, transferIndex, graphics.index)) ]
    + Lift(VulkanContextModel.SubmitCalls(graphics.queue, graphics.mainCmdPool, cmd))
  }

  /** The two barriers of the feed are one transfer from the transfer family to the graphics family. */
  lemma ReleaseAndAcquireMatch(image: ImagePool.ImageRecord, transferIndex: u32, graphicsIndex: u32)
    ensures IsTransferPair(ReleaseBarrier(image, transferIndex, graphicsIndex), AcquireBarrier(image, transferIndex, graphicsIndex))
    ensures ReleaseBarrier(image, transferIndex, graphicsIndex).srcQueueFamilyIndex == transferIndex
    ensures ReleaseBarrier(image, transferIndex, graphicsIndex).dstQueueFamilyIndex == graphicsIndex
    ensures ReleaseBarrier(image, transferIndex, graphicsIndex).newLayout == ShaderReadOnlyOptimal
  {
  }

  /**
   * The order of the handshake: the release is recorded on the transfer
   * buffer (allocated from the transfer pool) and submitted to the transfer
   * queue, which is waited idle before the graphics buffer is even
   * allocated; the acquire is recorded on that graphics buffer and
   * submitted to the graphics queue.  The copy runs in the layout the
   * first barrier leaves.
   */
  lemma FeedIsReleaseThenAcquire(transfer: QueueCtx, graphics: QueueCtx, transferCmd: Handle, graphicsCmd: Handle,
                                 linksCpu: nat, linksGpu: nat, linksSize: nat, heightmapStaging: nat, heightmapSize: nat,
                                 stagingBuffer: Handle, image: ImagePool.ImageRecord)
    ensures var f := FeedCalls(transfer, graphics, transferCmd, graphicsCmd, linksCpu, linksGpu, linksSize,
                               heightmapStaging, heightmapSize, stagingBuffer, image);
      && |f| == 18
      && f[0] == Context(VulkanContextModel.AllocateCommandBuffer(transfer.mainCmdPool, true, transferCmd))
      && f[4].PipelineBarrier? && f[5].CopyBufferToImage? && f[4].barrier.newLayout == f[5].layout
      && f[6] == PipelineBarrier(transferCmd, STAGE_TRANSFER, STAGE_BOTTOM_OF_PIPE, ReleaseBarrier(image, transfer.index, graphics.index))
      && f[8] == Context(VulkanContextModel.QueueSubmit(transfer.queue, [transferCmd], NULL_HANDLE))
      && f[9] == Context(VulkanContextModel.QueueWaitIdle(transfer.queue))
      && f[11] == Context(VulkanContextModel.AllocateCommandBuffer(graphics.mainCmdPool, true, graphicsCmd))
      && f[13] == PipelineBarrier(graphicsCmd, STAGE_TRANSFER, STAGE_FRAGMENT_SHADER, AcquireBarrier(image, transfer.index, graphics.index))
      && f[15] == Context(VulkanContextModel.QueueSubmit(graphics.queue, [graphicsCmd], NULL_HANDLE))
  {
  }

  /**
   * With the BarrierRecipes stand-ins, the release starts from the
   * undefined layout although the copy left the image in
   * transfer-destination layout, so the transition may discard the copied
   * texels.
   */
  lemma ReleaseForgetsCopyLayout(image: ImagePool.ImageRecord, transferIndex: u32, graphicsIndex: u32)
    ensures ReleaseBarrier(image, transferIndex, graphicsIndex).oldLayout == Undefined
    ensures ReleaseBarrier(image, transferIndex, graphicsIndex).oldLayout != BarrierRecipes.TransferDest(image).newLayout
  {
  }
}
