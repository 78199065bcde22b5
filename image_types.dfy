/**
 * What the two ImageSystem revisions share: the image description, the
 * handles vmaCreateImage and vkCreateImageView hand back, the requests the
 * pools issue for a description and the native calls they make.
 */
module ImageTypes {
  import opened Common
  import opened Vk

  /** ImageCreateDescription: extent, depth, mip and layer counts, format, usage. */
  datatype ImageCreateDescription = ImageCreateDescription(
    width: u32, height: u32, depth: u16, mipLevels: u8, arrayLayers: u8, format: nat, usage: Flags)

  /** The member defaults of the description: one level, one layer, RGBA8 sRGB, sampled transfer target. */
  function DefaultDescription(width: u32, height: u32): (d: ImageCreateDescription)
    ensures d.width == width && d.height == height
    ensures d.depth == 1 && d.mipLevels == 1 && d.arrayLayers == 1
    ensures d.format == FORMAT_R8G8B8A8_SRGB && d.usage == IMAGE_USAGE_SAMPLED | IMAGE_USAGE_TRANSFER_DST
  {
    ImageCreateDescription(width, height, 1, 1, 1, FORMAT_R8G8B8A8_SRGB, IMAGE_USAGE_SAMPLED | IMAGE_USAGE_TRANSFER_DST)
  }

  /** ImageId: a 32-bit slot index. */
  datatype ImageId = ImageId(index: u32)

  /** The VkImageCreateInfo and VmaAllocationCreateInfo `add` fills in. */
  datatype ImageRequest = ImageRequest(
    width: u32, height: u32, depth: nat, mipLevels: nat, arrayLayers: nat, format: nat,
    usage: Flags, initialLayout: ImageLayout, memoryUsage: VmaMemoryUsage)

  /** The VkImageViewCreateInfo `add` fills in: a 2D-array color view of every layer. */
  datatype ViewRequest = ViewRequest(image: Handle, format: nat, range: SubresourceRange)

  /** What vmaCreateImage writes back (null handles when it fails). */
  datatype NativeImage = NativeImage(image: Handle, allocation: Handle)

  datatype ImageCall =
    | CreateImage(allocator: Handle, request: ImageRequest)
    | CreateImageView(device: Handle, view: ViewRequest)
    | DestroyImageView(device: Handle, imageView: Handle)
    | DestroyImage(allocator: Handle, image: Handle, allocation: Handle)

  /**
   * The image request ignores the description's depth, mip count and usage:
   * it is always 1 deep, has one level, and is a sampled transfer target.
   */
  function RequestFor(desc: ImageCreateDescription): (q: ImageRequest)
    ensures q.depth == 1 && q.mipLevels == 1
    ensures q.usage == IMAGE_USAGE_TRANSFER_DST | IMAGE_USAGE_SAMPLED
    ensures q.initialLayout == Undefined && q.memoryUsage == VmaAuto
    ensures q.width == desc.width && q.height == desc.height
    ensures q.arrayLayers == desc.arrayLayers && q.format == desc.format
  {
    ImageRequest(desc.width, desc.height, 1, 1, desc.arrayLayers, desc.format,
                 IMAGE_USAGE_TRANSFER_DST | IMAGE_USAGE_SAMPLED, Undefined, VmaAuto)
  }

  function ViewRequestFor(desc: ImageCreateDescription, image: Handle): (v: ViewRequest)
    ensures v.image == image && v.format == desc.format
    ensures v.range == SubresourceRange(ASPECT_COLOR, 0, 1, 0, desc.arrayLayers)
  {
    ViewRequest(image, desc.format, SubresourceRange(ASPECT_COLOR, 0, 1, 0, desc.arrayLayers))
  }

  /** The two calls of `add`: create the image, then a view of whatever image came back. */
  function AddCalls(device: Handle, allocator: Handle, desc: ImageCreateDescription, created: NativeImage): seq<ImageCall>
  {
    [CreateImage(allocator, RequestFor(desc)), CreateImageView(device, ViewRequestFor(desc, created.image))]
  }

  /** A description's usage never reaches the request, so two descriptions differing only in usage ask for the same image. */
  lemma UsageIsIgnored(desc: ImageCreateDescription, usage: Flags)
    ensures RequestFor(desc.(usage := usage)) == RequestFor(desc)
  {
  }
}
