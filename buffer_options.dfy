/**
 * The buffer allocation policy of src/RHI/Buffer/BufferCreateOptions.hpp:
 * every buffer's creation options are the sum of a memory-class row and a
 * usage row, where the sum ORs the flag words and keeps the first known
 * VMA memory usage.
 */
module BufferCreateOptions {
  import opened Vk

  /** BufferMemoryType, in declaration order (ordinals 0..3). */
  datatype BufferMemoryType = GpuStatic | CpuToGpu | StagingUpload | Readback

  /** BufferUsage, in declaration order (ordinals 0..4). */
  datatype BufferUsage = Vertex | Index | Ssbo | Ubo | Staging

  function MemoryTypeOrdinal(m: BufferMemoryType): (k: nat)
    ensures k < 4
  {
    match m
    case GpuStatic => 0
    case CpuToGpu => 1
    case StagingUpload => 2
    case Readback => 3
  }

  function UsageOrdinal(u: BufferUsage): (k: nat)
    ensures k < 5
  {
    match u
    case Vertex => 0
    case Index => 1
    case Ssbo => 2
    case Ubo => 3
    case Staging => 4
  }

  datatype BufferOptions = BufferOptions(vkUsage: Flags, vmaUsage: VmaMemoryUsage,
                                         vmaFlags: Flags, requiredFlags: Flags)

  /** A value-initialised BufferOptions: no flags, VMA_MEMORY_USAGE_UNKNOWN. */
  const NO_OPTIONS: BufferOptions := BufferOptions(0, VmaUnknown, 0, 0)

  /** BufferOptions::operator+. */
  function Combine(a: BufferOptions, b: BufferOptions): BufferOptions
  {
    BufferOptions(a.vkUsage | b.vkUsage,
                  if a.vmaUsage != VmaUnknown then a.vmaUsage else b.vmaUsage,
                  a.vmaFlags | b.vmaFlags,
                  a.requiredFlags | b.requiredFlags)
  }

  /** BufferMemoryOptions, indexed by MemoryTypeOrdinal. */
  const BUFFER_MEMORY_OPTIONS: seq<BufferOptions> := [
    BufferOptions(BUFFER_USAGE_TRANSFER_DST, VmaUnknown, 0, MEMORY_PROPERTY_DEVICE_LOCAL),
    BufferOptions(0, VmaAutoPreferHost, VMA_HOST_ACCESS_SEQUENTIAL_WRITE | VMA_CREATE_MAPPED, 0),
    BufferOptions(BUFFER_USAGE_TRANSFER_SRC, VmaAutoPreferHost, VMA_HOST_ACCESS_SEQUENTIAL_WRITE | VMA_CREATE_MAPPED, 0),
    BufferOptions(BUFFER_USAGE_TRANSFER_DST, VmaAutoPreferHost, VMA_HOST_ACCESS_RANDOM | VMA_CREATE_MAPPED, 0)
  ]

  /** BufferUsageOptions, indexed by UsageOrdinal. */
  const BUFFER_USAGE_OPTIONS: seq<BufferOptions> := [
    BufferOptions(BUFFER_USAGE_VERTEX, VmaUnknown, 0, 0),
    BufferOptions(BUFFER_USAGE_INDEX, VmaUnknown, 0, 0),
    BufferOptions(BUFFER_USAGE_STORAGE, VmaUnknown, 0, 0),
    BufferOptions(BUFFER_USAGE_UNIFORM, VmaUnknown, 0, 0),
    BufferOptions(0, VmaUnknown, 0, 0)
  ]

  /** getBufferOptions: memory-class row plus usage row. */
  function GetBufferOptions(m: BufferMemoryType, u: BufferUsage): BufferOptions
  {
    Combine(BUFFER_MEMORY_OPTIONS[MemoryTypeOrdinal(m)], BUFFER_USAGE_OPTIONS[UsageOrdinal(u)])
  }

  /** The single vk usage bit a usage row contributes (none for STAGING). */
  function UsageBit(u: BufferUsage): Flags
  {
    match u
    case Vertex => BUFFER_USAGE_VERTEX
    case Index => BUFFER_USAGE_INDEX
    case Ssbo => BUFFER_USAGE_STORAGE
    case Ubo => BUFFER_USAGE_UNIFORM
    case Staging => 0
  }

  predicate IsSingleBit(f: Flags)
  {
    f != 0 && f & (f - 1) == 0
  }

  // ---------------------------------------------------------------------
  // Properties of the sum
  // ---------------------------------------------------------------------

  /** The value-initialised options are a unit of the sum. */
  lemma CombineUnit(a: BufferOptions)
    ensures Combine(NO_OPTIONS, a) == a && Combine(a, NO_OPTIONS) == a
  {
    CombineLeftUnit(a);
    CombineRightUnit(a);
  }

  lemma CombineLeftUnit(a: BufferOptions)
    ensures Combine(NO_OPTIONS, a) == a
  {
  }

  lemma CombineRightUnit(a: BufferOptions)
    ensures Combine(a, NO_OPTIONS) == a
  {
  }

  /** The sum is associative. */
  lemma CombineAssociative(a: BufferOptions, b: BufferOptions, c: BufferOptions)
    ensures Combine(Combine(a, b), c) == Combine(a, Combine(b, c))
  {
    UsageAssociative(a, b, c);
    VmaFlagsAssociative(a, b, c);
    RequiredFlagsAssociative(a, b, c);
  }

  // One flag field per lemma: the solver handles one bit-vector goal at a time far better.
  lemma UsageAssociative(a: BufferOptions, b: BufferOptions, c: BufferOptions)
    ensures Combine(Combine(a, b), c).vkUsage == Combine(a, Combine(b, c)).vkUsage
  {
    OrAssociative(a.vkUsage, b.vkUsage, c.vkUsage);
  }

  lemma VmaFlagsAssociative(a: BufferOptions, b: BufferOptions, c: BufferOptions)
    ensures Combine(Combine(a, b), c).vmaFlags == Combine(a, Combine(b, c)).vmaFlags
  {
    OrAssociative(a.vmaFlags, b.vmaFlags, c.vmaFlags);
  }

  lemma RequiredFlagsAssociative(a: BufferOptions, b: BufferOptions, c: BufferOptions)
    ensures Combine(Combine(a, b), c).requiredFlags == Combine(a, Combine(b, c)).requiredFlags
  {
    OrAssociative(a.requiredFlags, b.requiredFlags, c.requiredFlags);
  }

  /** Adding options twice changes nothing. */
  lemma CombineIsIdempotent(a: BufferOptions, b: BufferOptions)
    ensures Combine(a, a) == a
    ensures Combine(Combine(a, b), b) == Combine(a, b)
  {
    CombineSelf(a);
    CombineSelf(b);
    CombineAssociative(a, b, b);
  }

  lemma CombineSelf(a: BufferOptions)
    ensures Combine(a, a) == a
  {
    UsageSelf(a);
    VmaFlagsSelf(a);
    RequiredFlagsSelf(a);
  }

  lemma UsageSelf(a: BufferOptions)
    ensures Combine(a, a).vkUsage == a.vkUsage
  {
    OrIdempotent(a.vkUsage);
  }

  lemma VmaFlagsSelf(a: BufferOptions)
    ensures Combine(a, a).vmaFlags == a.vmaFlags
  {
    OrIdempotent(a.vmaFlags);
  }

  lemma RequiredFlagsSelf(a: BufferOptions)
    ensures Combine(a, a).requiredFlags == a.requiredFlags
  {
    OrIdempotent(a.requiredFlags);
  }

  /**
   * The sum keeps every flag of either side and no other; its memory usage
   * is the left side's when that is known and the right side's otherwise.
   */
  lemma CombineKeepsExactlyBothSides(a: BufferOptions, b: BufferOptions, bit: Flags)
    requires IsSingleBit(bit)
    ensures (Combine(a, b).vkUsage & bit != 0) <==> (a.vkUsage & bit != 0 || b.vkUsage & bit != 0)
    ensures (Combine(a, b).vmaFlags & bit != 0) <==> (a.vmaFlags & bit != 0 || b.vmaFlags & bit != 0)
    ensures (Combine(a, b).requiredFlags & bit != 0) <==> (a.requiredFlags & bit != 0 || b.requiredFlags & bit != 0)
    ensures Combine(a, b).vmaUsage == (if a.vmaUsage != VmaUnknown then a.vmaUsage else b.vmaUsage)
    ensures Combine(a, b).vmaUsage == VmaUnknown <==> a.vmaUsage == VmaUnknown && b.vmaUsage == VmaUnknown
  {
  }

  // ---------------------------------------------------------------------
  // Properties of the tables
  // ---------------------------------------------------------------------

  lemma OrUnit(x: Flags)
    ensures x | 0 == x && 0 | x == x
  {
  }

  /**
   * Usage rows carry no allocation settings, so a composed option's VMA
   * usage, VMA flags and required memory flags are the memory-class row's,
   * and its vk usage is the memory-class row's plus the usage's own bit.
   */
  lemma AllocationComesFromMemoryClass(m: BufferMemoryType, u: BufferUsage)
    ensures GetBufferOptions(m, u).vmaUsage == BUFFER_MEMORY_OPTIONS[MemoryTypeOrdinal(m)].vmaUsage
    ensures GetBufferOptions(m, u).vmaFlags == BUFFER_MEMORY_OPTIONS[MemoryTypeOrdinal(m)].vmaFlags
    ensures GetBufferOptions(m, u).requiredFlags == BUFFER_MEMORY_OPTIONS[MemoryTypeOrdinal(m)].requiredFlags
    ensures GetBufferOptions(m, u).vkUsage == BUFFER_MEMORY_OPTIONS[MemoryTypeOrdinal(m)].vkUsage | UsageBit(u)
  {
    var row := BUFFER_MEMORY_OPTIONS[MemoryTypeOrdinal(m)];
    UsageRowsAddOneBit(u);
    OrUnit(row.vmaFlags);
    OrUnit(row.requiredFlags);
  }

  /** Every usage row but STAGING adds exactly one vk usage bit; STAGING adds none. */
  lemma UsageRowsAddOneBit(u: BufferUsage)
    ensures BUFFER_USAGE_OPTIONS[UsageOrdinal(u)] == BufferOptions(UsageBit(u), VmaUnknown, 0, 0)
    ensures u != Staging <==> IsSingleBit(UsageBit(u))
  {
  }

  /** GPU_STATIC buffers are transfer destinations in DEVICE_LOCAL memory chosen by required flags only. */
  lemma GpuStaticIsDeviceLocal(u: BufferUsage)
    ensures GetBufferOptions(GpuStatic, u).vkUsage & BUFFER_USAGE_TRANSFER_DST != 0
    ensures GetBufferOptions(GpuStatic, u).requiredFlags == MEMORY_PROPERTY_DEVICE_LOCAL
    ensures GetBufferOptions(GpuStatic, u).vmaUsage == VmaUnknown
    ensures GetBufferOptions(GpuStatic, u).vmaFlags == 0
  {
  }

  /** The host-visible classes: STAGING_UPLOAD and READBACK rows. */
  lemma HostVisibleRows(u: BufferUsage)
    ensures GetBufferOptions(StagingUpload, u) ==
            BufferOptions(BUFFER_USAGE_TRANSFER_SRC | UsageBit(u), VmaAutoPreferHost,
                          VMA_HOST_ACCESS_SEQUENTIAL_WRITE | VMA_CREATE_MAPPED, 0)
    ensures GetBufferOptions(Readback, u) ==
            BufferOptions(BUFFER_USAGE_TRANSFER_DST | UsageBit(u), VmaAutoPreferHost,
                          VMA_HOST_ACCESS_RANDOM | VMA_CREATE_MAPPED, 0)
  {
  }

  /**
   * Exactly the non-GPU_STATIC classes are persistently mapped, and each of
   * them states exactly one host access pattern.
   */
  lemma MappedIffHostClass(m: BufferMemoryType, u: BufferUsage)
    ensures (GetBufferOptions(m, u).vmaFlags & VMA_CREATE_MAPPED != 0) <==> m != GpuStatic
    ensures m != GpuStatic ==>
      ((GetBufferOptions(m, u).vmaFlags & VMA_HOST_ACCESS_SEQUENTIAL_WRITE != 0) <==>
       (GetBufferOptions(m, u).vmaFlags & VMA_HOST_ACCESS_RANDOM == 0))
    ensures (GetBufferOptions(m, u).requiredFlags & MEMORY_PROPERTY_DEVICE_LOCAL != 0) <==> m == GpuStatic
  {
  }
}
