/**
 * BarrierBuilder (src/Renderer/BarrierBuilder.hpp): a fluent builder over
 * one image memory barrier and its two pipeline stages.  `onImage` builds
 * the value; every setter overwrites its own fields and nothing else.
 */
module BarrierBuilding {
  import opened Common
  import opened Vk
  import QueueSelection

  /** The barrier `onImage` starts from: ignored queue families, colour aspect, mip 0 and layer 0 only. */
  function OnImageBarrier(image: Handle, oldLayout: ImageLayout, newLayout: ImageLayout): (b: ImageBarrier)
    ensures b.image == image && b.oldLayout == oldLayout && b.newLayout == newLayout
    ensures b.srcQueueFamilyIndex == QUEUE_FAMILY_IGNORED && b.dstQueueFamilyIndex == QUEUE_FAMILY_IGNORED
    ensures b.srcAccessMask == 0 && b.dstAccessMask == 0
  {
    ImageBarrier(0, 0, oldLayout, newLayout, QUEUE_FAMILY_IGNORED, QUEUE_FAMILY_IGNORED, image,
                 SubresourceRange(ASPECT_COLOR, 0, 1, 0, 1))
  }

  /** The default range reaches exactly one subresource: mip level 0 of layer 0. */
  lemma DefaultRangeIsOneSubresource(image: Handle, oldLayout: ImageLayout, newLayout: ImageLayout, mip: nat, layer: nat)
    ensures var r := OnImageBarrier(image, oldLayout, newLayout).subresourceRange;
      (r.baseMipLevel <= mip < r.baseMipLevel + r.levelCount && r.baseArrayLayer <= layer < r.baseArrayLayer + r.layerCount)
      <==> mip == 0 && layer == 0
  {
  }

  /** The vkCmdPipelineBarrier call `record` makes. */
  datatype BarrierCall = BarrierCall(cmd: Handle, srcStage: Flags, dstStage: Flags, barrier: ImageBarrier)

  class BarrierBuilder {
    var barrier: ImageBarrier
    var srcStage: Flags
    var dstStage: Flags

    /** onImage: the default barrier with both stages at ALL_COMMANDS. */
    constructor OnImage(image: Handle, oldLayout: ImageLayout, newLayout: ImageLayout)
      ensures barrier == OnImageBarrier(image, oldLayout, newLayout)
      ensures srcStage == STAGE_ALL_COMMANDS && dstStage == STAGE_ALL_COMMANDS
    {
      barrier := OnImageBarrier(image, oldLayout, newLayout);
      srcStage := STAGE_ALL_COMMANDS;
      dstStage := STAGE_ALL_COMMANDS;
    }

    method Access(srcAccessMask: Flags, dstAccessMask: Flags)
      modifies this`barrier
      ensures barrier == old(barrier).(srcAccessMask := srcAccessMask, dstAccessMask := dstAccessMask)
    {
      barrier := barrier.(srcAccessMask := srcAccessMask, dstAccessMask := dstAccessMask);
    }

    /** queues: the two contexts' family indices, read at the time of the call. */
    method Queues(srcQueueCtx: QueueSelection.QueueContext, dstQueueCtx: QueueSelection.QueueContext)
      modifies this`barrier
      ensures barrier == old(barrier).(srcQueueFamilyIndex := srcQueueCtx.index, dstQueueFamilyIndex := dstQueueCtx.index)
    {
      barrier := barrier.(srcQueueFamilyIndex := srcQueueCtx.index, dstQueueFamilyIndex := dstQueueCtx.index);
    }

    method Stages(src: Flags, dst: Flags)
      modifies this`srcStage, this`dstStage
      ensures srcStage == src && dstStage == dst
    {
      srcStage := src;
      dstStage := dst;
    }

    method BaseMipLevel(baseMipLevel: u32)
      modifies this`barrier
      ensures barrier == old(barrier).(subresourceRange := old(barrier).subresourceRange.(baseMipLevel := baseMipLevel))
    {
      barrier := barrier.(subresourceRange := barrier.subresourceRange.(baseMipLevel := baseMipLevel));
    }

    method AspectMask(aspectMask: Flags)
      modifies this`barrier
      ensures barrier == old(barrier).(subresourceRange := old(barrier).subresourceRange.(aspectMask := aspectMask))
    {
      barrier := barrier.(subresourceRange := barrier.subresourceRange.(aspectMask := aspectMask));
    }

    method LevelCount(levelCount: u32)
      modifies this`barrier
      ensures barrier == old(barrier).(subresourceRange := old(barrier).subresourceRange.(levelCount := levelCount))
    {
      barrier := barrier.(subresourceRange := barrier.subresourceRange.(levelCount := levelCount));
    }

    method BaseArrayLayer(baseArrayLayer: u32)
      modifies this`barrier
      ensures barrier == old(barrier).(subresourceRange := old(barrier).subresourceRange.(baseArrayLayer := baseArrayLayer))
    {
      barrier := barrier.(subresourceRange := barrier.subresourceRange.(baseArrayLayer := baseArrayLayer));
    }

    method LayerCount(layerCount: u32)
      modifies this`barrier
      ensures barrier == old(barrier).(subresourceRange := old(barrier).subresourceRange.(layerCount := layerCount))
    {
      barrier := barrier.(subresourceRange := barrier.subresourceRange.(layerCount := layerCount));
    }

    /** record: one pipeline barrier with the current stages and barrier. */
    method Record(cmd: Handle) returns (call: BarrierCall)
      ensures call == BarrierCall(cmd, srcStage, dstStage, barrier)
    {
      call := BarrierCall(cmd, srcStage, dstStage, barrier);
    }
  }
}
