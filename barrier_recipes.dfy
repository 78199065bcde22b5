/**
 * BarrierRecipes (src/RHI/Recipes/BarrierRecipes.cpp): image memory
 * barriers built from a default that covers the whole image and changes
 * nothing, then overridden for the two transitions of an upload.
 */
module BarrierRecipes {
  import opened Common
  import opened Vk
  import ImagePool

  /** The subresource (mip level, array layer) lies in the range. */
  predicate Covers(r: SubresourceRange, mip: nat, layer: nat)
  {
    r.baseMipLevel <= mip < r.baseMipLevel + r.levelCount
    && r.baseArrayLayer <= layer < r.baseArrayLayer + r.layerCount
  }

  /** The barrier neither flushes nor waits on any memory access. */
  predicate NoAccess(b: ImageBarrier)
  {
    b.srcAccessMask == ACCESS_NONE && b.dstAccessMask == ACCESS_NONE
  }

  /** The barrier transfers no queue-family ownership. */
  predicate NoOwnershipTransfer(b: ImageBarrier)
  {
    b.srcQueueFamilyIndex == QUEUE_FAMILY_IGNORED && b.dstQueueFamilyIndex == QUEUE_FAMILY_IGNORED
  }

  /**
   * Default: the image's current layout on both sides, no access, no
   * ownership transfer, and the colour aspect of every mip level and layer.
   */
  function Default(image: ImagePool.ImageRecord): (b: ImageBarrier)
    ensures b.image == image.image
    ensures b.oldLayout == b.newLayout == image.layout
    ensures NoAccess(b) && NoOwnershipTransfer(b)
    ensures b.subresourceRange.aspectMask == ASPECT_COLOR
    ensures forall mip: nat, layer: nat :: Covers(b.subresourceRange, mip, layer) <==> mip < image.mipLevels && layer < image.arrayLayers
  {
    ImageBarrier(ACCESS_NONE, ACCESS_NONE, image.layout, image.layout, QUEUE_FAMILY_IGNORED, QUEUE_FAMILY_IGNORED,
                 image.image, SubresourceRange(ASPECT_COLOR, 0, image.mipLevels, 0, image.arrayLayers))
  }

  /** TransferDest: from undefined to transfer-destination, making transfer writes wait. */
  function TransferDest(image: ImagePool.ImageRecord): (b: ImageBarrier)
    ensures b.oldLayout == Undefined && b.newLayout == TransferDstOptimal
    ensures b.srcAccessMask == ACCESS_NONE && b.dstAccessMask == ACCESS_TRANSFER_WRITE
  {
    Default(image).(oldLayout := Undefined, newLayout := TransferDstOptimal,
                    srcAccessMask := ACCESS_NONE, dstAccessMask := ACCESS_TRANSFER_WRITE)
  }

  /**
   * ShaderRead: from undefined to shader-read-only, making transfer writes
   * available to shader reads.
   */
  function ShaderRead(image: ImagePool.ImageRecord): (b: ImageBarrier)
    ensures b.oldLayout == Undefined && b.newLayout == ShaderReadOnlyOptimal
    ensures b.srcAccessMask == ACCESS_TRANSFER_WRITE && b.dstAccessMask == ACCESS_SHADER_READ
  {
    Default(image).(oldLayout := Undefined, newLayout := ShaderReadOnlyOptimal,
                    srcAccessMask := ACCESS_TRANSFER_WRITE, dstAccessMask := ACCESS_SHADER_READ)
  }

  /**
   * Both recipes differ from Default only in layouts and access masks: the
   * image, the queue families and the whole-image range are kept.
   */
  lemma RecipesKeepDefault(image: ImagePool.ImageRecord)
    ensures forall b :: b == TransferDest(image) || b == ShaderRead(image) ==>
      b.image == image.image && NoOwnershipTransfer(b)
      && b.subresourceRange == Default(image).subresourceRange
      && (forall mip: nat, layer: nat :: Covers(b.subresourceRange, mip, layer) <==> mip < image.mipLevels && layer < image.arrayLayers)
  {
  }

  /**
   * ShaderRead does not continue from TransferDest: it starts again from
   * the undefined layout, so a transition after a copy into the image is
   * allowed to discard what the copy wrote.
   */
  lemma ShaderReadDoesNotChainFromTransferDest(image: ImagePool.ImageRecord)
    ensures ShaderRead(image).oldLayout != TransferDest(image).newLayout
    ensures ShaderRead(image).oldLayout == Undefined
  {
  }
}
