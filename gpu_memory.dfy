/**
 * The native side of buffer handling, shared by every buffer revision: what
 * vmaCreateBuffer hands back, the calls the code makes into VMA and Vulkan
 * (kept as trace entries), and the byte-level effect of memcpy into mapped
 * memory.
 */
module GpuMemory {
  import opened Common
  import opened Vk
  import opened BufferCreateOptions

  type Bytes = seq<u8>

  /** The VmaAllocationCreateInfo fields the code sets. */
  datatype AllocationInfo = AllocationInfo(usage: VmaMemoryUsage, flags: Flags, requiredFlags: Flags)

  /** The allocation request a composed BufferOptions value produces. */
  function AllocationOf(o: BufferOptions): AllocationInfo
  {
    AllocationInfo(o.vmaUsage, o.vmaFlags, o.requiredFlags)
  }

  /**
   * A successful vmaCreateBuffer: the buffer and allocation handles and the
   * allocation's initial (unspecified) bytes.
   */
  datatype NativeBuffer = NativeBuffer(buffer: Handle, allocation: Handle, contents: Bytes)

  /** What VMA promises of a successful creation of `size` bytes. */
  predicate CreatedFor(n: NativeBuffer, size: nat)
  {
    n.buffer != NULL_HANDLE && n.allocation != NULL_HANDLE && |n.contents| == size
  }

  /** Native calls, in the order the code issues them. */
  datatype BufferCall =
    | CreateBuffer(allocator: Handle, size: nat, usage: Flags, request: AllocationInfo)
    | DestroyBuffer(allocator: Handle, buffer: Handle, allocation: Handle)
    | MapMemory(allocator: Handle, allocation: Handle)
    | UnmapMemory(allocator: Handle, allocation: Handle)
    | CopyMemoryToAllocation(allocator: Handle, src: Handle, dst: Handle, dstOffset: nat, size: nat)
    | CmdCopyBuffer(cmd: Handle, src: Handle, dst: Handle, srcOffset: nat, dstOffset: nat, size: nat)

  /**
   * memcpy of `size` bytes from `src` to the start of `dst`; copying past
   * either end is undefined behaviour, hence the precondition.
   */
  function Memcpy(dst: Bytes, src: Bytes, size: nat): (r: Bytes)
    requires size <= |dst| && size <= |src|
    ensures |r| == |dst|
    ensures forall k :: 0 <= k < |r| ==> r[k] == (if k < size then src[k] else dst[k])
  {
    src[..size] + dst[size..]
  }

  /** Writing the same bytes twice is the same as writing them once. */
  lemma MemcpyIdempotent(dst: Bytes, src: Bytes, size: nat)
    requires size <= |dst| && size <= |src|
    ensures Memcpy(Memcpy(dst, src, size), src, size) == Memcpy(dst, src, size)
  {
    var once := Memcpy(dst, src, size);
    var twice := Memcpy(once, src, size);
    assert forall k :: 0 <= k < |twice| ==> twice[k] == once[k];
  }

  /** A memcpy of the whole buffer replaces its contents. */
  lemma MemcpyWhole(dst: Bytes, src: Bytes)
    requires |src| == |dst|
    ensures Memcpy(dst, src, |dst|) == src
  {
    var r := Memcpy(dst, src, |dst|);
    assert forall k :: 0 <= k < |r| ==> r[k] == src[k];
  }

  // ---------------------------------------------------------------------
  // Buffer pool slots, shared by BufferSystem and BufferManager
  // ---------------------------------------------------------------------

  /** BufferId: an index into a pool's slot vector. */
  datatype BufferId = BufferId(index: nat)

  /** The Buffer slot record. */
  datatype BufferRecord = BufferRecord(buffer: Handle, allocation: Handle, size: nat,
                                       memType: BufferMemoryType, usage: BufferUsage)

  /** Buffer{}: null handles, size 0, enum fields at ordinal 0. */
  const EMPTY_RECORD: BufferRecord := BufferRecord(NULL_HANDLE, NULL_HANDLE, 0, GpuStatic, Vertex)

  datatype BufferCreateDescription = BufferCreateDescription(size: nat, memType: BufferMemoryType, usage: BufferUsage)

  /** A failed C++ assertion (which aborts) or a thrown creation error. */
  datatype PoolError = AssertionFailed | CreationFailed

  /** The slot vector and the free list of a buffer pool. */
  datatype BufferTable = BufferTable(data: seq<BufferRecord>, freeIndices: seq<BufferId>)

  const EMPTY_TABLE: BufferTable := BufferTable([], [])

  /** Every free index names an existing slot. */
  predicate TableWellFormed(t: BufferTable)
  {
    forall k :: 0 <= k < |t.freeIndices| ==> t.freeIndices[k].index < |t.data|
  }

  /** The id `add` hands out: the last free id, or a new slot at the end. */
  function NextId(t: BufferTable): BufferId
  {
    if |t.freeIndices| > 0 then t.freeIndices[|t.freeIndices| - 1] else BufferId(|t.data|)
  }

  /** The first step of `add`: pop the last free id, or append a Buffer{} slot. */
  function Reserve(t: BufferTable): (r: BufferTable)
    requires TableWellFormed(t)
    ensures TableWellFormed(r) && NextId(t).index < |r.data|
    ensures |t.freeIndices| > 0 ==> r.data == t.data && r.freeIndices == t.freeIndices[..|t.freeIndices| - 1]
    ensures |t.freeIndices| == 0 ==> r.data == t.data + [EMPTY_RECORD] && r.freeIndices == t.freeIndices
  {
    if |t.freeIndices| > 0 then BufferTable(t.data, t.freeIndices[..|t.freeIndices| - 1])
    else BufferTable(t.data + [EMPTY_RECORD], t.freeIndices)
  }

  /** get: asserts the index is in range and the slot's buffer is not null. */
  function CheckedGet(t: BufferTable, id: BufferId): (r: Result<BufferRecord, PoolError>)
    ensures r.Ok? <==> id.index < |t.data| && t.data[id.index].buffer != NULL_HANDLE
    ensures r.Ok? ==> r.value == t.data[id.index]
    ensures r.Err? ==> r.error == AssertionFailed
  {
    if id.index < |t.data| && t.data[id.index].buffer != NULL_HANDLE then Ok(t.data[id.index])
    else Err(AssertionFailed)
  }

  /** The vmaCreateBuffer request `add` issues for a description. */
  function CreateCallFor(allocator: Handle, desc: BufferCreateDescription): BufferCall
  {
    var options := GetBufferOptions(desc.memType, desc.usage);
    CreateBuffer(allocator, desc.size, options.vkUsage, AllocationOf(options))
  }

  /** The destroy(Buffer) calls of a destructor loop over the slots, in slot order. */
  function DestroyCalls(allocator: Handle, slots: seq<BufferRecord>): seq<BufferCall>
  {
    if slots == [] then []
    else
      var last := slots[|slots| - 1];
      DestroyCalls(allocator, slots[..|slots| - 1]) +
        (if last.buffer != NULL_HANDLE then [DestroyBuffer(allocator, last.buffer, last.allocation)] else [])
  }

  /** The destructor never passes a null buffer to vmaDestroyBuffer. */
  lemma {:induction false} DestroyCallsSkipNull(allocator: Handle, slots: seq<BufferRecord>)
    ensures forall c :: c in DestroyCalls(allocator, slots) ==>
      c.DestroyBuffer? && c.buffer != NULL_HANDLE && c.allocator == allocator
  {
    if slots != [] {
      DestroyCallsSkipNull(allocator, slots[..|slots| - 1]);
    }
  }

  /** Every slot with a non-null buffer is destroyed by the destructor. */
  lemma {:induction false} DestroyCallsCoverLive(allocator: Handle, slots: seq<BufferRecord>, k: nat)
    requires k < |slots| && slots[k].buffer != NULL_HANDLE
    ensures DestroyBuffer(allocator, slots[k].buffer, slots[k].allocation) in DestroyCalls(allocator, slots)
  {
    if k < |slots| - 1 {
      DestroyCallsCoverLive(allocator, slots[..|slots| - 1], k);
    }
  }

  /** The destructor issues one call per slot with a non-null buffer. */
  function LiveCount(slots: seq<BufferRecord>): nat
  {
    if slots == [] then 0
    else LiveCount(slots[..|slots| - 1]) + (if slots[|slots| - 1].buffer != NULL_HANDLE then 1 else 0)
  }

  lemma {:induction false} DestroyCallsCount(allocator: Handle, slots: seq<BufferRecord>)
    ensures |DestroyCalls(allocator, slots)| == LiveCount(slots) <= |slots|
  {
    if slots != [] {
      DestroyCallsCount(allocator, slots[..|slots| - 1]);
    }
  }
}
