/**
 * BufferManager (src/RHI/Buffer/BufferManager.cpp), the older buffer pool.
 * Its add reserves a slot and issues vmaCreateBuffer into a local Buffer
 * that is never written back, so no slot ever holds a live buffer and every
 * get fails its second assertion; del never returns its slot either.
 */
module BufferManagerPool {
  import opened Common
  import opened Vk
  import opened BufferCreateOptions
  import opened GpuMemory
  import VulkanContextModel

  /** add's effect on the table: the reservation only, never the created buffer. */
  function AddToTable(t: BufferTable): (r: BufferTable)
    requires TableWellFormed(t)
    ensures TableWellFormed(r)
  {
    Reserve(t)
  }

  datatype Op = AddOp(desc: BufferCreateDescription) | DelOp(id: BufferId)

  /** One operation's effect on the table; del changes nothing in it. */
  function Step(t: BufferTable, op: Op): (r: BufferTable)
    requires TableWellFormed(t)
    ensures TableWellFormed(r)
  {
    match op
    case AddOp(_) => AddToTable(t)
    case DelOp(_) => t
  }

  function Run(t: BufferTable, ops: seq<Op>): (r: BufferTable)
    requires TableWellFormed(t)
    ensures TableWellFormed(r)
    decreases |ops|
  {
    if ops == [] then t else Run(Step(t, ops[0]), ops[1..])
  }

  /** No slot holds a created buffer. */
  predicate AllSlotsNull(t: BufferTable)
  {
    forall k :: 0 <= k < |t.data| ==> t.data[k].buffer == NULL_HANDLE
  }

  /**
   * Whatever sequence of add and del a manager sees, a table with no live
   * slot keeps none, so every get fails its assertion.
   */
  lemma {:induction false} EveryGetFails(t: BufferTable, ops: seq<Op>, id: BufferId)
    requires TableWellFormed(t) && AllSlotsNull(t)
    ensures AllSlotsNull(Run(t, ops))
    ensures CheckedGet(Run(t, ops), id) == Err(AssertionFailed)
    decreases |ops|
  {
    if ops != [] {
      var next := Step(t, ops[0]);
      assert AllSlotsNull(next);
      EveryGetFails(next, ops[1..], id);
    }
  }

  /** Nothing is pushed onto freeIndices: a run only pops from its end. */
  lemma {:induction false} FreeListOnlyShrinks(t: BufferTable, ops: seq<Op>)
    requires TableWellFormed(t)
    ensures var r := Run(t, ops);
      |r.freeIndices| <= |t.freeIndices| && r.freeIndices == t.freeIndices[..|r.freeIndices|]
    decreases |ops|
  {
    if ops != [] {
      var next := Step(t, ops[0]);
      assert next.freeIndices == t.freeIndices[..|next.freeIndices|];
      FreeListOnlyShrinks(next, ops[1..]);
    }
  }

  class BufferManager {
    var allocator: Handle
    var data: seq<BufferRecord>
    var freeIndices: seq<BufferId>
    /** The VMA and Vulkan calls issued so far. */
    var calls: seq<BufferCall>
    /** The bytes of each slot's allocation. */
    ghost var memory: seq<Bytes>

    function Table(): BufferTable
      reads this
    {
      BufferTable(data, freeIndices)
    }

    ghost predicate Valid()
      reads this
    {
      && TableWellFormed(Table())
      && |memory| == |data|
      && forall k :: 0 <= k < |data| ==> |memory[k]| == data[k].size
    }

    constructor ()
      ensures Valid() && data == [] && freeIndices == [] && calls == [] && allocator == NULL_HANDLE
    {
      allocator, data, freeIndices, calls, memory := NULL_HANDLE, [], [], [], [];
    }

    /** init: records the allocator; unlike the newer pool it does not clear the vectors. */
    method Init(vmaAllocator: Handle)
      modifies this`allocator
      ensures allocator == vmaAllocator
    {
      allocator := vmaAllocator;
    }

    /** add(createDesc): the id is returned whether or not vmaCreateBuffer succeeded. */
    method Add(desc: BufferCreateDescription) returns (id: BufferId)
      requires Valid()
      modifies this
      ensures Valid()
      ensures id == old(NextId(Table())) && Table() == AddToTable(old(Table()))
      ensures calls == old(calls) + [CreateCallFor(allocator, desc)] && allocator == old(allocator)
      ensures forall j :: 0 <= j < |old(memory)| ==> memory[j] == old(memory)[j]
      ensures AllSlotsNull(old(Table())) ==> AllSlotsNull(Table())
    {
      if |freeIndices| > 0 {
        id := freeIndices[|freeIndices| - 1];
        freeIndices := freeIndices[..|freeIndices| - 1];
      } else {
        id := BufferId(|data|);
        data := data + [EMPTY_RECORD];
        memory := memory + [[]];
      }
      calls := calls + [CreateCallFor(allocator, desc)];
    }

    /** get(id): both assertions, then a reference to the slot. */
    method Get(id: BufferId) returns (r: Result<BufferRecord, PoolError>)
      ensures r == CheckedGet(Table(), id)
      ensures AllSlotsNull(Table()) ==> r == Err(AssertionFailed)
    {
      if id.index < |data| && data[id.index].buffer != NULL_HANDLE {
        r := Ok(data[id.index]);
      } else {
        r := Err(AssertionFailed);
      }
    }

    /** del(id): destroy(get(id)); the slot and the free list stay. */
    method Del(id: BufferId) returns (r: Result<(), PoolError>)
      modifies this`calls
      ensures r.Ok? <==> CheckedGet(Table(), id).Ok?
      ensures calls == old(calls) + (if r.Ok? then [DestroyBuffer(allocator, data[id.index].buffer,
                                                                  data[id.index].allocation)] else [])
    {
      var slot := Get(id);
      if slot.Err? {
        return Err(slot.error);
      }
      Destroy(slot.value);
      r := Ok(());
    }

    /** destroy(Buffer): vmaDestroyBuffer, only for a non-null buffer. */
    method Destroy(b: BufferRecord)
      modifies this`calls
      ensures calls == old(calls) + (if b.buffer != NULL_HANDLE then [DestroyBuffer(allocator, b.buffer, b.allocation)] else [])
    {
      if b.buffer != NULL_HANDLE {
        calls := calls + [DestroyBuffer(allocator, b.buffer, b.allocation)];
      }
    }

    /** copy(cmd, src, dst, size): one region of `size` bytes at offsets 0 and 0. */
    method CopyRecorded(cmd: Handle, src: BufferId, dst: BufferId, size: nat) returns (r: Result<(), PoolError>)
      modifies this`calls
      ensures r.Ok? <==> CheckedGet(Table(), src).Ok? && CheckedGet(Table(), dst).Ok?
      ensures calls == old(calls) + (if r.Ok? then [CmdCopyBuffer(cmd, data[src.index].buffer, data[dst.index].buffer, 0, 0, size)] else [])
    {
      var s := Get(src);
      var d := Get(dst);
      if s.Err? || d.Err? {
        return Err(AssertionFailed);
      }
      calls := calls + [CmdCopyBuffer(cmd, s.value.buffer, d.value.buffer, 0, 0, size)];
      r := Ok(());
    }

    /** copy(src, dst, size): host copy through the mapped source allocation. */
    method CopyHost(src: BufferId, dst: BufferId, size: nat) returns (r: Result<(), PoolError>)
      requires Valid()
      requires CheckedGet(Table(), src).Ok? && CheckedGet(Table(), dst).Ok? ==>
        size <= data[src.index].size && size <= data[dst.index].size
      modifies this`calls, this`memory
      ensures Valid()
      ensures r.Ok? <==> CheckedGet(Table(), src).Ok? && CheckedGet(Table(), dst).Ok?
      ensures r.Ok? ==> memory == old(memory)[dst.index := Memcpy(old(memory)[dst.index], old(memory)[src.index], size)]
      ensures r.Ok? ==> calls == old(calls) + [MapMemory(allocator, data[src.index].allocation),
                          CopyMemoryToAllocation(allocator, data[src.index].allocation, data[dst.index].allocation, 0, size)]
      ensures r.Err? ==> memory == old(memory) && calls == old(calls)
    {
      var s := Get(src);
      var d := Get(dst);
      if s.Err? || d.Err? {
        return Err(AssertionFailed);
      }
      calls := calls + [MapMemory(allocator, s.value.allocation),
                        CopyMemoryToAllocation(allocator, s.value.allocation, d.value.allocation, 0, size)];
      memory := memory[dst.index := Memcpy(memory[dst.index], memory[src.index], size)];
      r := Ok(());
    }

    /** upload(dst, data, size): map, memcpy `size` bytes, unmap. */
    method Upload(dst: BufferId, bytes: Bytes, size: nat) returns (r: Result<(), PoolError>)
      requires Valid()
      requires CheckedGet(Table(), dst).Ok? ==> size <= |bytes| && size <= data[dst.index].size
      modifies this`calls, this`memory
      ensures Valid()
      ensures r.Ok? <==> CheckedGet(Table(), dst).Ok?
      ensures r.Ok? ==> memory == old(memory)[dst.index := Memcpy(old(memory)[dst.index], bytes, size)]
      ensures r.Ok? ==> memory[dst.index][..size] == bytes[..size]
      ensures r.Ok? ==> calls == old(calls) + [MapMemory(allocator, data[dst.index].allocation),
                                               UnmapMemory(allocator, data[dst.index].allocation)]
      ensures r.Err? ==> r == Err(AssertionFailed) && memory == old(memory) && calls == old(calls)
    {
      var d := Get(dst);
      if d.Err? {
        return Err(AssertionFailed);
      }
      var alloc := d.value.allocation;
      calls := calls + [MapMemory(allocator, alloc)];
      memory := memory[dst.index := Memcpy(memory[dst.index], bytes, size)];
      calls := calls + [UnmapMemory(allocator, alloc)];
      r := Ok(());
    }

    /** upload(dst, data): an upload of the slot's recorded size. */
    method UploadWhole(dst: BufferId, bytes: Bytes) returns (r: Result<(), PoolError>)
      requires Valid()
      requires CheckedGet(Table(), dst).Ok? ==> data[dst.index].size <= |bytes|
      modifies this`calls, this`memory
      ensures Valid()
      ensures r.Ok? <==> CheckedGet(Table(), dst).Ok?
      ensures r.Ok? ==> memory == old(memory)[dst.index := bytes[..data[dst.index].size]]
      ensures r.Ok? ==> calls == old(calls) + [MapMemory(allocator, data[dst.index].allocation),
                                               UnmapMemory(allocator, data[dst.index].allocation)]
      ensures r.Err? ==> r == Err(AssertionFailed) && memory == old(memory) && calls == old(calls)
    {
      var d := Get(dst);
      if d.Err? {
        return Err(AssertionFailed);
      }
      r := Upload(dst, bytes, d.value.size);
      assert Memcpy(old(memory)[dst.index], bytes, d.value.size) == bytes[..d.value.size];
    }

    /** upload(cmd, staging, dst, data, size): host upload into staging, then one recorded copy. */
    method StagedUpload(cmd: Handle, staging: BufferId, dst: BufferId, bytes: Bytes, size: nat)
      returns (r: Result<(), PoolError>)
      requires Valid()
      requires CheckedGet(Table(), staging).Ok? ==> size <= |bytes| && size <= data[staging.index].size
      modifies this`calls, this`memory
      ensures Valid()
      ensures r.Ok? <==> CheckedGet(Table(), staging).Ok? && CheckedGet(Table(), dst).Ok?
      ensures r.Ok? ==> calls == old(calls) + [MapMemory(allocator, data[staging.index].allocation),
                                               UnmapMemory(allocator, data[staging.index].allocation),
                                               CmdCopyBuffer(cmd, data[staging.index].buffer, data[dst.index].buffer, 0, 0, size)]
      ensures CheckedGet(Table(), staging).Err? ==> memory == old(memory) && calls == old(calls)
    {
      r := Upload(staging, bytes, size);
      if r.Err? {
        return;
      }
      r := CopyRecorded(cmd, staging, dst, size);
    }

    /**
     * immediateCopy: a single-time command buffer on the transfer queue
     * around one recorded copy; a failed get assertion ends it before submit.
     */
    method ImmediateCopy(ctx: VulkanContextModel.VulkanContext, cmdFromPool: Handle, src: BufferId, dst: BufferId, size: nat)
      returns (r: Result<(), PoolError>)
      modifies this`calls, ctx`calls
      ensures r.Ok? <==> CheckedGet(Table(), src).Ok? && CheckedGet(Table(), dst).Ok?
      ensures var q := ctx.transferQueueCtx;
        ctx.calls == old(ctx.calls) + VulkanContextModel.BeginCalls(q.mainCmdPool, cmdFromPool)
          + (if r.Ok? then VulkanContextModel.SubmitCalls(q.queue, q.mainCmdPool, cmdFromPool) else [])
      ensures calls == old(calls) + (if r.Ok? then [CmdCopyBuffer(cmdFromPool, data[src.index].buffer, data[dst.index].buffer, 0, 0, size)] else [])
    {
      var cmd := ctx.SingleTimeCmdBegin(ctx.transferQueueCtx, cmdFromPool);
      r := CopyRecorded(cmd, src, dst, size);
      if r.Err? {
        return;
      }
      ctx.SingleTimeCmdSubmit(ctx.transferQueueCtx, cmd);
    }

    /**
     * immediateUpload: begins a single-time command buffer, adds a staging
     * buffer of `size` bytes and stages the upload through it.  The staging
     * slot is never deleted, and since add never stores a buffer, the staged
     * upload fails get's assertion on any manager with no live slot.
     */
    method ImmediateUpload(ctx: VulkanContextModel.VulkanContext, cmdFromPool: Handle, dst: BufferId, bytes: Bytes, size: nat)
      returns (r: Result<(), PoolError>)
      requires Valid() && size <= |bytes|
      modifies this, ctx`calls
      ensures Valid()
      ensures |data| >= |old(data)|
      ensures AllSlotsNull(old(Table())) ==> r == Err(AssertionFailed) && AllSlotsNull(Table())
      ensures AllSlotsNull(old(Table())) ==> calls == old(calls) + [CreateCallFor(allocator, BufferCreateDescription(size, StagingUpload, Staging))]
      ensures var q := ctx.transferQueueCtx;
        r.Err? ==> ctx.calls == old(ctx.calls) + VulkanContextModel.BeginCalls(q.mainCmdPool, cmdFromPool)
    {
      var cmd := ctx.SingleTimeCmdBegin(ctx.transferQueueCtx, cmdFromPool);
      var staging := Add(BufferCreateDescription(size, StagingUpload, Staging));
      var d := Get(staging);
      if d.Err? {
        return Err(AssertionFailed);
      }
      if size > d.value.size {
        // A memcpy past the end of a reused slot's allocation is undefined
        // behaviour; the model stops here instead.
        return Err(AssertionFailed);
      }
      r := StagedUpload(cmd, staging, dst, bytes, size);
      if r.Err? {
        return;
      }
      ctx.SingleTimeCmdSubmit(ctx.transferQueueCtx, cmd);
    }

    /** ~BufferManager: destroy(buffer) for a copy of every slot, in order. */
    method Destruct()
      modifies this`calls
      ensures calls == old(calls) + DestroyCalls(allocator, data)
    {
      var i := 0;
      while i < |data|
        invariant 0 <= i <= |data|
        invariant calls == old(calls) + DestroyCalls(allocator, data[..i])
      {
        assert data[..i + 1][..i] == data[..i];
        Destroy(data[i]);
        i := i + 1;
      }
      assert data[..i] == data;
    }
  }

  /** With no live slot the destructor issues no vmaDestroyBuffer at all. */
  lemma {:induction false} NothingToDestroy(allocator: Handle, slots: seq<BufferRecord>)
    requires forall k :: 0 <= k < |slots| ==> slots[k].buffer == NULL_HANDLE
    ensures DestroyCalls(allocator, slots) == []
  {
    if slots != [] {
      NothingToDestroy(allocator, slots[..|slots| - 1]);
    }
  }
}
