/**
 * The Vulkan and VMA constants the modelled code uses, with the numeric
 * values of the Vulkan 1.3 headers and of vk_mem_alloc.h.  Flag words are
 * 32-bit vectors; enums the code only compares for equality are datatypes.
 */
module Vk {
  import opened Common

  type Flags = bv32

  /** The bitwise or of masks is associative, idempotent and has 0 as its unit. */
  lemma OrAssociative(x: Flags, y: Flags, z: Flags)
    ensures (x | y) | z == x | (y | z)
  {
  }

  lemma OrIdempotent(x: Flags)
    ensures x | x == x
  {
  }

  // VkQueueFlagBits
  const QUEUE_GRAPHICS: Flags := 0x1
  const QUEUE_COMPUTE: Flags := 0x2
  const QUEUE_TRANSFER: Flags := 0x4

  // VkBufferUsageFlagBits
  const BUFFER_USAGE_TRANSFER_SRC: Flags := 0x1
  const BUFFER_USAGE_TRANSFER_DST: Flags := 0x2
  const BUFFER_USAGE_UNIFORM: Flags := 0x10
  const BUFFER_USAGE_STORAGE: Flags := 0x20
  const BUFFER_USAGE_INDEX: Flags := 0x40
  const BUFFER_USAGE_VERTEX: Flags := 0x80

  // VkImageUsageFlagBits
  const IMAGE_USAGE_TRANSFER_DST: Flags := 0x2
  const IMAGE_USAGE_SAMPLED: Flags := 0x4

  // VmaAllocationCreateFlagBits
  const VMA_CREATE_MAPPED: Flags := 0x4
  const VMA_HOST_ACCESS_SEQUENTIAL_WRITE: Flags := 0x400
  const VMA_HOST_ACCESS_RANDOM: Flags := 0x800

  // VkMemoryPropertyFlagBits
  const MEMORY_PROPERTY_DEVICE_LOCAL: Flags := 0x1

  // VkAccessFlagBits
  const ACCESS_NONE: Flags := 0x0
  const ACCESS_SHADER_READ: Flags := 0x20
  const ACCESS_TRANSFER_WRITE: Flags := 0x1000

  // VkPipelineStageFlagBits
  const STAGE_TOP_OF_PIPE: Flags := 0x1
  const STAGE_FRAGMENT_SHADER: Flags := 0x80
  const STAGE_TRANSFER: Flags := 0x1000
  const STAGE_BOTTOM_OF_PIPE: Flags := 0x2000
  const STAGE_ALL_COMMANDS: Flags := 0x10000

  // VkImageAspectFlagBits
  const ASPECT_COLOR: Flags := 0x1

  /** VK_QUEUE_FAMILY_IGNORED, i.e. (~0U). */
  const QUEUE_FAMILY_IGNORED: u32 := 0xFFFF_FFFF

  /** VmaMemoryUsage, with its numeric values. */
  datatype VmaMemoryUsage = VmaUnknown | VmaAuto | VmaAutoPreferDevice | VmaAutoPreferHost

  function VmaMemoryUsageValue(u: VmaMemoryUsage): nat
  {
    match u
    case VmaUnknown => 0
    case VmaAuto => 7
    case VmaAutoPreferDevice => 8
    case VmaAutoPreferHost => 9
  }

  /** The image layouts the modelled code names. */
  datatype ImageLayout = Undefined | TransferDstOptimal | ShaderReadOnlyOptimal
                       | ColorAttachmentOptimal | PresentSrc

  /** VkPhysicalDeviceType is carried as its raw value. */
  const DEVICE_TYPE_OTHER: int := 0
  const DEVICE_TYPE_INTEGRATED_GPU: int := 1
  const DEVICE_TYPE_DISCRETE_GPU: int := 2
  const DEVICE_TYPE_VIRTUAL_GPU: int := 3
  const DEVICE_TYPE_CPU: int := 4

  // VkFormat values used by the code
  const FORMAT_R8G8B8A8_SRGB: nat := 43
  const FORMAT_B8G8R8A8_SRGB: nat := 50
  const FORMAT_R16_UNORM: nat := 70

  // VkColorSpaceKHR
  const COLOR_SPACE_SRGB_NONLINEAR: nat := 0

  // VkPresentModeKHR
  const PRESENT_MODE_IMMEDIATE: nat := 0
  const PRESENT_MODE_MAILBOX: nat := 1
  const PRESENT_MODE_FIFO: nat := 2

  // VkDebugUtilsMessageTypeFlagBitsEXT
  const MESSAGE_TYPE_GENERAL: Flags := 0x1
  const MESSAGE_TYPE_VALIDATION: Flags := 0x2
  const MESSAGE_TYPE_PERFORMANCE: Flags := 0x4

  /** VkSurfaceFormatKHR. */
  datatype SurfaceFormat = SurfaceFormat(format: nat, colorSpace: nat)

  /** VkExtent2D; both axes are uint32. */
  datatype Extent2D = Extent2D(width: u32, height: u32)

  /** The subrange fields of VkImageSubresourceRange. */
  datatype SubresourceRange = SubresourceRange(aspectMask: Flags, baseMipLevel: nat, levelCount: nat,
                                               baseArrayLayer: nat, layerCount: nat)

  /** The fields of VkImageMemoryBarrier that the code sets. */
  datatype ImageBarrier = ImageBarrier(srcAccessMask: Flags, dstAccessMask: Flags,
                                       oldLayout: ImageLayout, newLayout: ImageLayout,
                                       srcQueueFamilyIndex: u32, dstQueueFamilyIndex: u32,
                                       image: Handle, subresourceRange: SubresourceRange)
}
