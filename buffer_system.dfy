/**
 * BufferSystem (src/Engine/Renderer/Buffer/BufferSystem.cpp): a slot vector
 * of Buffer records addressed by BufferId, with a LIFO free list.  The free
 * list is only ever popped: `del` destroys the native buffer but leaves its
 * slot and the free list as they were.  The creation options come from
 * `BufferCreateOptions::GetBufferOptions` of an engine-side header that is
 * not part of this model; the RHI table of BufferCreateOptions stands in.
 */
module BufferSystemPool {
  import opened Common
  import opened Vk
  import opened BufferCreateOptions
  import opened GpuMemory

  /** The record a successful add stores: memType and usage keep their Buffer{} values. */
  function StoredRecord(desc: BufferCreateDescription, n: NativeBuffer): BufferRecord
  {
    BufferRecord(n.buffer, n.allocation, desc.size, GpuStatic, Vertex)
  }

  datatype AddOutcome = AddOutcome(table: BufferTable, result: Result<BufferId, PoolError>)

  /** add: reserve a slot, create the native buffer, throw or store the record. */
  function AddToTable(t: BufferTable, desc: BufferCreateDescription, native: Option<NativeBuffer>): (o: AddOutcome)
    requires TableWellFormed(t)
    ensures TableWellFormed(o.table)
  {
    var id := NextId(t);
    var reserved := Reserve(t);
    if native.None? then AddOutcome(reserved, Err(CreationFailed))
    else AddOutcome(reserved.(data := reserved.data[id.index := StoredRecord(desc, native.value)]), Ok(id))
  }

  /** The operations that change the table. */
  datatype Op = AddOp(desc: BufferCreateDescription, native: Option<NativeBuffer>) | DelOp(id: BufferId)

  /** One operation's effect on the table; del leaves it as it was. */
  function Step(t: BufferTable, op: Op): (r: BufferTable)
    requires TableWellFormed(t)
    ensures TableWellFormed(r)
  {
    match op
    case AddOp(desc, native) => AddToTable(t, desc, native).table
    case DelOp(_) => t
  }

  function Run(t: BufferTable, ops: seq<Op>): (r: BufferTable)
    requires TableWellFormed(t)
    ensures TableWellFormed(r)
    decreases |ops|
  {
    if ops == [] then t else Run(Step(t, ops[0]), ops[1..])
  }

  /** The indices handed out by the successful adds of a run, in order. */
  function Issued(t: BufferTable, ops: seq<Op>): seq<nat>
    requires TableWellFormed(t)
    decreases |ops|
  {
    if ops == [] then []
    else
      var rest := Issued(Step(t, ops[0]), ops[1..]);
      match ops[0]
      case AddOp(desc, native) =>
        (if native.Some? then [NextId(t).index] else []) + rest
      case DelOp(_) => rest
  }

  // ---------------------------------------------------------------------
  // Properties of the table operations
  // ---------------------------------------------------------------------

  /**
   * add hands out the last free id (popping it) when there is one and a new
   * slot at the end otherwise; a successful add is visible to get with the
   * described size, and no other slot changes.
   */
  lemma AddStoresIntoItsSlotOnly(t: BufferTable, desc: BufferCreateDescription, n: NativeBuffer, j: nat)
    requires TableWellFormed(t) && CreatedFor(n, desc.size)
    ensures var o := AddToTable(t, desc, Some(n));
      && o.result == Ok(NextId(t))
      && CheckedGet(o.table, NextId(t)) == Ok(BufferRecord(n.buffer, n.allocation, desc.size, GpuStatic, Vertex))
      && (j < |t.data| && j != NextId(t).index ==> o.table.data[j] == t.data[j])
      && |o.table.data| == |t.data| + (if |t.freeIndices| > 0 then 0 else 1)
  {
  }

  /**
   * A failed creation throws after the slot was reserved: the popped id is
   * gone from the free list, or the appended Buffer{} slot stays behind and
   * fails get's assertion.
   */
  lemma FailedAddStillReserves(t: BufferTable, desc: BufferCreateDescription)
    requires TableWellFormed(t)
    ensures var o := AddToTable(t, desc, None);
      && o.result == Err(CreationFailed)
      && |o.table.data| + |o.table.freeIndices| == |t.data| + |t.freeIndices| + (if |t.freeIndices| > 0 then -1 else 1)
      && (|t.freeIndices| == 0 ==> CheckedGet(o.table, NextId(t)) == Err(AssertionFailed))
  {
  }

  /** del does not free its slot: whatever get answered before, it answers after. */
  lemma DelKeepsSlotReadable(t: BufferTable, id: BufferId, probe: BufferId)
    requires TableWellFormed(t)
    ensures CheckedGet(Step(t, DelOp(id)), probe) == CheckedGet(t, probe)
    ensures NextId(Step(t, DelOp(id))) == NextId(t)
  {
  }

  /** Nothing pushes onto FreeIndices, so after init it stays empty. */
  lemma {:induction false} FreeListStaysEmpty(t: BufferTable, ops: seq<Op>)
    requires TableWellFormed(t) && t.freeIndices == []
    ensures Run(t, ops).freeIndices == []
    ensures |Run(t, ops).data| >= |t.data|
    decreases |ops|
  {
    if ops != [] {
      FreeListStaysEmpty(Step(t, ops[0]), ops[1..]);
    }
  }

  /**
   * Starting from an empty free list, successful adds hand out strictly
   * increasing fresh indices: no id is ever handed out twice.
   */
  lemma {:induction false} IssuedIdsIncrease(t: BufferTable, ops: seq<Op>)
    requires TableWellFormed(t) && t.freeIndices == []
    ensures forall i :: 0 <= i < |Issued(t, ops)| ==> |t.data| <= Issued(t, ops)[i] < |Run(t, ops).data|
    ensures forall i, j :: 0 <= i < j < |Issued(t, ops)| ==> Issued(t, ops)[i] < Issued(t, ops)[j]
    decreases |ops|
  {
    if ops != [] {
      var next := Step(t, ops[0]);
      assert |next.data| >= |t.data| && next.freeIndices == [];
      IssuedIdsIncrease(next, ops[1..]);
      FreeListStaysEmpty(next, ops[1..]);
      if ops[0].AddOp? {
        assert |next.data| == |t.data| + 1;
      }
    }
  }

  class BufferSystem {
    var allocator: Handle
    var data: seq<BufferRecord>
    var freeIndices: seq<BufferId>
    /** The VMA and Vulkan calls issued so far. */
    var calls: seq<BufferCall>
    /** The bytes of each slot's allocation. */
    ghost var memory: seq<Bytes>

    function Table(): BufferTable
      reads this
    {
      BufferTable(data, freeIndices)
    }

    ghost predicate Valid()
      reads this
    {
      && TableWellFormed(Table())
      && |memory| == |data|
      && forall k :: 0 <= k < |data| ==> |memory[k]| == data[k].size
    }

    /** The header of this revision is not in view: its implicit constructor is taken to leave both vectors empty. */
    constructor ()
      ensures Valid() && data == [] && freeIndices == [] && calls == [] && allocator == NULL_HANDLE
    {
      allocator, data, freeIndices, calls, memory := NULL_HANDLE, [], [], [], [];
    }

    /** init: records the allocator and clears both vectors. */
    method Init(vmaAllocator: Handle)
      modifies this
      ensures Valid() && data == [] && freeIndices == [] && allocator == vmaAllocator
      ensures calls == old(calls)
    {
      allocator, data, freeIndices, memory := vmaAllocator, [], [], [];
    }

    /** add(createDesc), with the outcome of vmaCreateBuffer as a parameter. */
    method Add(desc: BufferCreateDescription, native: Option<NativeBuffer>) returns (r: Result<BufferId, PoolError>)
      requires Valid()
      requires native.Some? ==> CreatedFor(native.value, desc.size)
      modifies this
      ensures Valid()
      ensures Table() == AddToTable(old(Table()), desc, native).table
      ensures r == AddToTable(old(Table()), desc, native).result
      ensures calls == old(calls) + [CreateCallFor(allocator, desc)] && allocator == old(allocator)
      ensures var k := old(NextId(Table())).index;
        && (native.Some? ==> memory[k] == native.value.contents)
        && forall j :: 0 <= j < |old(memory)| && j != k ==> memory[j] == old(memory)[j]
    {
      var id: BufferId;
      ghost var before := Table();
      if |freeIndices| > 0 {
        id := freeIndices[|freeIndices| - 1];
        freeIndices := freeIndices[..|freeIndices| - 1];
      } else {
        id := BufferId(|data|);
        data := data + [EMPTY_RECORD];
        memory := memory + [[]];
      }
      calls := calls + [CreateCallFor(allocator, desc)];
      if native.None? {
        return Err(CreationFailed);
      }
      data := data[id.index := StoredRecord(desc, native.value)];
      memory := memory[id.index := native.value.contents];
      r := Ok(id);
    }

    /** get(id): both assertions, then a reference to the slot. */
    method Get(id: BufferId) returns (r: Result<BufferRecord, PoolError>)
      ensures r == CheckedGet(Table(), id)
      ensures r.Ok? <==> id.index < |data| && data[id.index].buffer != NULL_HANDLE
    {
      if id.index < |data| && data[id.index].buffer != NULL_HANDLE {
        r := Ok(data[id.index]);
      } else {
        r := Err(AssertionFailed);
      }
    }

    /** del(id): destroy a copy of the slot; the slot and the free list stay. */
    method Del(id: BufferId) returns (r: Result<(), PoolError>)
      requires Valid()
      modifies this
      ensures Valid() && Table() == old(Table()) && memory == old(memory) && allocator == old(allocator)
      ensures r.Ok? <==> CheckedGet(Table(), id).Ok?
      ensures calls == old(calls) + (if r.Ok? then [DestroyBuffer(allocator, data[id.index].buffer,
                                                                  data[id.index].allocation)] else [])
    {
      var slot := Get(id);
      if slot.Err? {
        return Err(slot.error);
      }
      Destroy(slot.value);
      r := Ok(());
    }

    /** destroy(Buffer): vmaDestroyBuffer, only for a non-null buffer. */
    method Destroy(b: BufferRecord)
      modifies this`calls
      ensures calls == old(calls) + (if b.buffer != NULL_HANDLE then [DestroyBuffer(allocator, b.buffer, b.allocation)] else [])
    {
      if b.buffer != NULL_HANDLE {
        calls := calls + [DestroyBuffer(allocator, b.buffer, b.allocation)];
      }
    }

    /** copy(cmd, src, dst, size): one region of `size` bytes at offsets 0 and 0. */
    method CopyRecorded(cmd: Handle, src: BufferId, dst: BufferId, size: nat) returns (r: Result<(), PoolError>)
      modifies this`calls
      ensures r.Ok? <==> CheckedGet(Table(), src).Ok? && CheckedGet(Table(), dst).Ok?
      ensures calls == old(calls) + (if r.Ok? then [CmdCopyBuffer(cmd, data[src.index].buffer, data[dst.index].buffer, 0, 0, size)] else [])
    {
      var s := Get(src);
      var d := Get(dst);
      if s.Err? || d.Err? {
        return Err(AssertionFailed);
      }
      calls := calls + [CmdCopyBuffer(cmd, s.value.buffer, d.value.buffer, 0, 0, size)];
      r := Ok(());
    }

    /**
     * copy(src, dst, size): host copy of the first `size` bytes of the source
     * allocation into the destination (the source stays mapped).
     */
    method CopyHost(src: BufferId, dst: BufferId, size: nat) returns (r: Result<(), PoolError>)
      requires Valid()
      requires CheckedGet(Table(), src).Ok? && CheckedGet(Table(), dst).Ok? ==>
        size <= data[src.index].size && size <= data[dst.index].size
      modifies this`calls, this`memory
      ensures Valid()
      ensures r.Ok? <==> CheckedGet(Table(), src).Ok? && CheckedGet(Table(), dst).Ok?
      ensures r.Ok? ==> memory == old(memory)[dst.index := Memcpy(old(memory)[dst.index], old(memory)[src.index], size)]
      ensures r.Ok? ==> calls == old(calls) + [MapMemory(allocator, data[src.index].allocation),
                          CopyMemoryToAllocation(allocator, data[src.index].allocation, data[dst.index].allocation, 0, size)]
      ensures r.Err? ==> memory == old(memory) && calls == old(calls)
    {
      var s := Get(src);
      var d := Get(dst);
      if s.Err? || d.Err? {
        return Err(AssertionFailed);
      }
      calls := calls + [MapMemory(allocator, s.value.allocation),
                        CopyMemoryToAllocation(allocator, s.value.allocation, d.value.allocation, 0, size)];
      memory := memory[dst.index := Memcpy(memory[dst.index], memory[src.index], size)];
      r := Ok(());
    }

    /** upload(dst, data, size): map, memcpy `size` bytes, unmap. */
    method Upload(dst: BufferId, bytes: Bytes, size: nat) returns (r: Result<(), PoolError>)
      requires Valid()
      requires CheckedGet(Table(), dst).Ok? ==> size <= |bytes| && size <= data[dst.index].size
      modifies this`calls, this`memory
      ensures Valid()
      ensures r.Ok? <==> CheckedGet(Table(), dst).Ok?
      ensures r.Ok? ==> memory == old(memory)[dst.index := Memcpy(old(memory)[dst.index], bytes, size)]
      ensures r.Ok? ==> memory[dst.index][..size] == bytes[..size]
      ensures r.Ok? ==> calls == old(calls) + [MapMemory(allocator, data[dst.index].allocation),
                                               UnmapMemory(allocator, data[dst.index].allocation)]
      ensures r.Err? ==> memory == old(memory) && calls == old(calls)
    {
      var d := Get(dst);
      if d.Err? {
        return Err(AssertionFailed);
      }
      var alloc := d.value.allocation;
      calls := calls + [MapMemory(allocator, alloc)];
      memory := memory[dst.index := Memcpy(memory[dst.index], bytes, size)];
      calls := calls + [UnmapMemory(allocator, alloc)];
      r := Ok(());
    }

    /** upload(dst, data): an upload of the slot's recorded size. */
    method UploadWhole(dst: BufferId, bytes: Bytes) returns (r: Result<(), PoolError>)
      requires Valid()
      requires CheckedGet(Table(), dst).Ok? ==> data[dst.index].size <= |bytes|
      modifies this`calls, this`memory
      ensures Valid()
      ensures r.Ok? <==> CheckedGet(Table(), dst).Ok?
      ensures r.Ok? ==> memory == old(memory)[dst.index := bytes[..data[dst.index].size]]
      ensures r.Err? ==> memory == old(memory) && calls == old(calls)
    {
      var d := Get(dst);
      if d.Err? {
        return Err(AssertionFailed);
      }
      r := Upload(dst, bytes, d.value.size);
      assert Memcpy(old(memory)[dst.index], bytes, d.value.size) == bytes[..d.value.size];
    }

    /**
     * upload(cmd, staging, dst, data, size): a host upload into the staging
     * slot followed by one recorded copy of `size` bytes into dst.
     */
    method StagedUpload(cmd: Handle, staging: BufferId, dst: BufferId, bytes: Bytes, size: nat)
      returns (r: Result<(), PoolError>)
      requires Valid()
      requires CheckedGet(Table(), staging).Ok? ==> size <= |bytes| && size <= data[staging.index].size
      modifies this`calls, this`memory
      ensures Valid()
      ensures r.Ok? <==> CheckedGet(Table(), staging).Ok? && CheckedGet(Table(), dst).Ok?
      ensures CheckedGet(Table(), staging).Ok? ==>
        memory == old(memory)[staging.index := Memcpy(old(memory)[staging.index], bytes, size)]
      ensures r.Ok? ==> calls == old(calls) + [MapMemory(allocator, data[staging.index].allocation),
                                               UnmapMemory(allocator, data[staging.index].allocation),
                                               CmdCopyBuffer(cmd, data[staging.index].buffer, data[dst.index].buffer, 0, 0, size)]
    {
      r := Upload(staging, bytes, size);
      if r.Err? {
        return;
      }
      r := CopyRecorded(cmd, staging, dst, size);
    }

    /** ~BufferSystem: destroy(buffer) for a copy of every slot, in order. */
    method Destruct()
      modifies this`calls
      ensures calls == old(calls) + DestroyCalls(allocator, data)
    {
      var i := 0;
      while i < |data|
        invariant 0 <= i <= |data|
        invariant calls == old(calls) + DestroyCalls(allocator, data[..i])
      {
        assert data[..i + 1][..i] == data[..i];
        Destroy(data[i]);
        i := i + 1;
      }
      assert data[..i] == data;
    }
  }
}
