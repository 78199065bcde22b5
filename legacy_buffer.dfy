/**
 * The standalone Buffer class of src/RHI/Buffer.cpp: one VMA buffer whose
 * allocation settings come from a per-type switch rather than from the
 * BufferCreateOptions table.
 */
module LegacyBuffer {
  import opened Common
  import opened Vk
  import opened BufferCreateOptions
  import opened GpuMemory

  /** BufferType, in declaration order. */
  datatype BufferType = GpuStaticType | CpuToGpuType | StagingUploadType | ReadbackType

  /** The memory class of BufferCreateOptions with the same ordinal. */
  function MemoryClassOf(t: BufferType): BufferMemoryType
  {
    match t
    case GpuStaticType => GpuStatic
    case CpuToGpuType => CpuToGpu
    case StagingUploadType => StagingUpload
    case ReadbackType => Readback
  }

  /** The allocation settings the constructor's switch picks for a type. */
  function AllocationFor(t: BufferType): AllocationInfo
  {
    match t
    case GpuStaticType => AllocationInfo(VmaUnknown, 0, MEMORY_PROPERTY_DEVICE_LOCAL)
    case CpuToGpuType => AllocationInfo(VmaAutoPreferDevice, VMA_HOST_ACCESS_SEQUENTIAL_WRITE | VMA_CREATE_MAPPED, 0)
    case StagingUploadType => AllocationInfo(VmaAutoPreferHost, VMA_HOST_ACCESS_SEQUENTIAL_WRITE | VMA_CREATE_MAPPED, 0)
    case ReadbackType => AllocationInfo(VmaAutoPreferHost, VMA_HOST_ACCESS_RANDOM | VMA_CREATE_MAPPED, 0)
  }

  /**
   * The switch agrees with the later BufferCreateOptions table on every
   * type except CPU_TO_GPU, which prefers device memory here and host
   * memory in the table; the host access flags agree everywhere.
   */
  lemma SwitchAgreesWithTableExceptCpuToGpu(t: BufferType, u: BufferUsage)
    ensures t != CpuToGpuType <==> AllocationFor(t) == AllocationOf(GetBufferOptions(MemoryClassOf(t), u))
    ensures AllocationFor(t).flags == GetBufferOptions(MemoryClassOf(t), u).vmaFlags
    ensures t == CpuToGpuType ==>
      AllocationFor(t).usage == VmaAutoPreferDevice && GetBufferOptions(MemoryClassOf(t), u).vmaUsage == VmaAutoPreferHost
  {
    AllocationComesFromMemoryClass(MemoryClassOf(t), u);
  }

  /** Only GPU_STATIC requires DEVICE_LOCAL memory, and only it leaves the VMA usage unknown. */
  lemma OnlyGpuStaticIsRequiredDeviceLocal(t: BufferType)
    ensures (AllocationFor(t).requiredFlags == MEMORY_PROPERTY_DEVICE_LOCAL) <==> t == GpuStaticType
    ensures (AllocationFor(t).usage == VmaUnknown) <==> t == GpuStaticType
    ensures (AllocationFor(t).flags & VMA_CREATE_MAPPED != 0) <==> t != GpuStaticType
  {
  }

  datatype BufferError = CreationFailed

  class Buffer {
    var buffer: Handle
    var allocation: Handle
    var size: nat
    var allocator: Handle
    var bufferType: BufferType
    /** The native calls this object has issued. */
    var calls: seq<BufferCall>
    /** The bytes of the allocation. */
    ghost var memory: Bytes

    ghost predicate Valid()
      reads this
    {
      |memory| == size
    }

    /** Buffer() = default: null handles and size 0. */
    constructor Empty()
      ensures buffer == NULL_HANDLE && allocation == NULL_HANDLE && size == 0 && allocator == NULL_HANDLE
      ensures calls == [] && memory == [] && Valid()
    {
      buffer, allocation, size, allocator := NULL_HANDLE, NULL_HANDLE, 0, NULL_HANDLE;
      bufferType := GpuStaticType;
      calls, memory := [], [];
    }

    constructor FromNative(allocator: Handle, size: nat, bufferType: BufferType, created: NativeBuffer)
      requires CreatedFor(created, size)
      ensures this.allocator == allocator && this.size == size && this.bufferType == bufferType
      ensures buffer == created.buffer && allocation == created.allocation && memory == created.contents
      ensures calls == [CreateBuffer(allocator, size, 0, AllocationFor(bufferType))]
      ensures Valid()
    {
      this.allocator, this.size, this.bufferType := allocator, size, bufferType;
      buffer, allocation := created.buffer, created.allocation;
      memory := created.contents;
      calls := [CreateBuffer(allocator, size, 0, AllocationFor(bufferType))];
    }

    /**
     * Buffer(allocator, size, type): records the three arguments, asks VMA
     * for a buffer with the switch's allocation settings (the buffer usage
     * is never set, so it is 0) and throws when VMA fails.
     */
    static method Create(allocator: Handle, size: nat, bufferType: BufferType, native: Option<NativeBuffer>)
      returns (r: Result<Buffer, BufferError>)
      requires native.Some? ==> CreatedFor(native.value, size)
      ensures r.Err? <==> native.None?
      ensures r.Ok? ==> fresh(r.value) && r.value.Valid()
      ensures r.Ok? ==> r.value.allocator == allocator && r.value.size == size && r.value.bufferType == bufferType
      ensures r.Ok? ==> r.value.buffer == native.value.buffer && r.value.allocation == native.value.allocation
      ensures r.Ok? ==> r.value.calls == [CreateBuffer(allocator, size, 0, AllocationFor(bufferType))]
    {
      if native.None? {
        return Err(BufferError.CreationFailed);
      }
      var b := new Buffer.FromNative(allocator, size, bufferType, native.value);
      return Ok(b);
    }

    /** ~Buffer: destroys the buffer only when its handle is not null. */
    method Destroy()
      modifies this
      ensures calls == old(calls) + (if old(buffer) != NULL_HANDLE
                                     then [DestroyBuffer(allocator, buffer, allocation)] else [])
      ensures buffer == old(buffer) && allocation == old(allocation) && size == old(size)
      ensures allocator == old(allocator) && memory == old(memory)
    {
      if buffer != NULL_HANDLE {
        calls := calls + [DestroyBuffer(allocator, buffer, allocation)];
      }
    }

    /** upload(data, size): map, copy `size` bytes to the start, unmap. */
    method Upload(data: Bytes, n: nat)
      requires Valid() && n <= |data| && n <= size
      modifies this
      ensures Valid()
      ensures memory == Memcpy(old(memory), data, n)
      ensures memory[..n] == data[..n] && memory[n..] == old(memory)[n..]
      ensures calls == old(calls) + [MapMemory(allocator, allocation), UnmapMemory(allocator, allocation)]
      ensures buffer == old(buffer) && allocation == old(allocation) && size == old(size)
      ensures allocator == old(allocator)
    {
      calls := calls + [MapMemory(allocator, allocation)];
      memory := Memcpy(memory, data, n);
      calls := calls + [UnmapMemory(allocator, allocation)];
    }
  }
}
