/**
 * ImageSystem (src/Engine/InferusRenderer/Image/ImageSystem.cpp): a slot
 * vector of Image records addressed by a 32-bit ImageId, with a LIFO free
 * list.  `del` destroys the slot's image through a reference, nulling its
 * image and view handles, and pushes the id without checking whether it is
 * already free; `get` checks nothing.
 */
module ImagePool {
  import opened Common
  import opened Vk
  import opened ImageTypes

  /** Image: the handles, the description fields and the current layout. */
  datatype ImageRecord = ImageRecord(
    image: Handle, imageView: Handle, allocation: Handle,
    width: u32, height: u32, depth: u16, mipLevels: u8, arrayLayers: u8, format: nat, layout: ImageLayout)

  /** A value-initialised Image. */
  const EMPTY_IMAGE: ImageRecord := ImageRecord(NULL_HANDLE, NULL_HANDLE, NULL_HANDLE, 0, 0, 0, 0, 0, 0, Undefined)

  datatype ImageTable = ImageTable(data: seq<ImageRecord>, freeIndices: seq<ImageId>)

  /** Every free id names an existing slot (del of a missing slot is undefined behaviour). */
  predicate TableWellFormed(t: ImageTable)
  {
    forall k :: 0 <= k < |t.freeIndices| ==> t.freeIndices[k].index < |t.data|
  }

  /** The id `add` hands out: a new slot at the end (its index cast to 32 bits), or the last free id. */
  function NextId(t: ImageTable): ImageId
  {
    if |t.freeIndices| == 0 then ImageId(Wrap32(|t.data|)) else t.freeIndices[|t.freeIndices| - 1]
  }

  /** The record `add` stores: the description's fields and an undefined layout. */
  function StoredImage(desc: ImageCreateDescription, created: NativeImage, view: Handle): ImageRecord
  {
    ImageRecord(created.image, view, created.allocation, desc.width, desc.height, desc.depth,
                desc.mipLevels, desc.arrayLayers, desc.format, Undefined)
  }

  /** add: append a slot or pop the last free id, then store the new record there. */
  function AddToTable(t: ImageTable, desc: ImageCreateDescription, created: NativeImage, view: Handle): (r: ImageTable)
    requires TableWellFormed(t)
    ensures TableWellFormed(r)
    ensures NextId(t).index < |r.data| && r.data[NextId(t).index] == StoredImage(desc, created, view)
    ensures |r.data| == |t.data| + (if |t.freeIndices| == 0 then 1 else 0)
  {
    var id := NextId(t);
    if |t.freeIndices| == 0 then ImageTable((t.data + [EMPTY_IMAGE])[id.index := StoredImage(desc, created, view)], t.freeIndices)
    else ImageTable(t.data[id.index := StoredImage(desc, created, view)], t.freeIndices[..|t.freeIndices| - 1])
  }

  /** destroy(Image&) on one slot: its image and view handles become null. */
  function Nulled(img: ImageRecord): ImageRecord
  {
    img.(image := NULL_HANDLE, imageView := NULL_HANDLE)
  }

  /** del: destroy the slot in place and push the id, already free or not. */
  function DelFromTable(t: ImageTable, id: ImageId): (r: ImageTable)
    requires TableWellFormed(t) && id.index < |t.data|
    ensures TableWellFormed(r) && |r.data| == |t.data|
  {
    ImageTable(t.data[id.index := Nulled(t.data[id.index])], t.freeIndices + [id])
  }

  /** The two calls of destroy(Image): the view first, then the image with its allocation. */
  function DestroyImageCalls(device: Handle, allocator: Handle, img: ImageRecord): seq<ImageCall>
  {
    [DestroyImageView(device, img.imageView), DestroyImage(allocator, img.image, img.allocation)]
  }

  /** The calls of destroy(): destroy(Image&) on a copy of every slot, in slot order. */
  function DestroyAllCalls(device: Handle, allocator: Handle, slots: seq<ImageRecord>): seq<ImageCall>
  {
    if slots == [] then []
    else DestroyAllCalls(device, allocator, slots[..|slots| - 1]) + DestroyImageCalls(device, allocator, slots[|slots| - 1])
  }

  // ---------------------------------------------------------------------
  // Properties of the table operations
  // ---------------------------------------------------------------------

  /**
   * add stores the description with an undefined layout in the slot it
   * hands out and changes no other slot; below 2^32 slots, a new slot is
   * the next index at the end.
   */
  lemma AddStoresIntoItsSlotOnly(t: ImageTable, desc: ImageCreateDescription, created: NativeImage, view: Handle, j: nat)
    requires TableWellFormed(t)
    ensures var r := AddToTable(t, desc, created, view);
      && r.data[NextId(t).index].layout == Undefined
      && r.data[NextId(t).index].image == created.image && r.data[NextId(t).index].imageView == view
      && (j < |t.data| && j != NextId(t).index ==> r.data[j] == t.data[j])
      && (|t.freeIndices| == 0 && |t.data| < U32_MODULUS ==> NextId(t).index == |t.data|)
      && (|t.freeIndices| > 0 ==> r.freeIndices == t.freeIndices[..|t.freeIndices| - 1])
  {
  }

  /** del nulls the slot's image and view, keeps its allocation and fields, and frees the id. */
  lemma DelNullsHandlesAndFrees(t: ImageTable, id: ImageId, j: nat)
    requires TableWellFormed(t) && id.index < |t.data|
    ensures var r := DelFromTable(t, id);
      && r.data[id.index].image == NULL_HANDLE && r.data[id.index].imageView == NULL_HANDLE
      && r.data[id.index].allocation == t.data[id.index].allocation
      && r.data[id.index].width == t.data[id.index].width && r.data[id.index].layout == t.data[id.index].layout
      && (j < |t.data| && j != id.index ==> r.data[j] == t.data[j])
      && NextId(r) == id
  {
  }

  /**
   * A second del of the same id frees it twice, so the next two adds both
   * return it: both callers hold the same slot, and the second add's record
   * has replaced the first's.
   */
  lemma DoubleDelAliasesTwoAdds(t: ImageTable, id: ImageId,
                                d1: ImageCreateDescription, c1: NativeImage, v1: Handle,
                                d2: ImageCreateDescription, c2: NativeImage, v2: Handle)
    requires TableWellFormed(t) && id.index < |t.data|
    ensures var freedTwice := DelFromTable(DelFromTable(t, id), id);
      var afterFirst := AddToTable(freedTwice, d1, c1, v1);
      var afterSecond := AddToTable(afterFirst, d2, c2, v2);
      && NextId(freedTwice) == id && NextId(afterFirst) == id
      && afterSecond.data[id.index] == StoredImage(d2, c2, v2)
  {
    var once := DelFromTable(t, id);
    var freedTwice := DelFromTable(once, id);
    assert freedTwice.freeIndices == t.freeIndices + [id] + [id];
    var afterFirst := AddToTable(freedTwice, d1, c1, v1);
    assert afterFirst.freeIndices == t.freeIndices + [id];
  }

  /** destroy() issues two calls per slot, in slot order, whatever the slot holds. */
  lemma {:induction false} DestroyAllCallsPerSlot(device: Handle, allocator: Handle, slots: seq<ImageRecord>, k: nat)
    requires k < |slots|
    ensures |DestroyAllCalls(device, allocator, slots)| == 2 * |slots|
    ensures DestroyAllCalls(device, allocator, slots)[2 * k] == DestroyImageView(device, slots[k].imageView)
    ensures DestroyAllCalls(device, allocator, slots)[2 * k + 1] == DestroyImage(allocator, slots[k].image, slots[k].allocation)
    decreases |slots|
  {
    var init := slots[..|slots| - 1];
    if k < |slots| - 1 {
      DestroyAllCallsPerSlot(device, allocator, init, k);
    } else if init != [] {
      DestroyAllCallsPerSlot(device, allocator, init, 0);
    }
  }

  class ImageSystem {
    var device: Handle
    var allocator: Handle
    var data: seq<ImageRecord>
    var freeIndices: seq<ImageId>
    /** The Vulkan and VMA calls issued so far. */
    var calls: seq<ImageCall>

    function Table(): ImageTable
      reads this
    {
      ImageTable(data, freeIndices)
    }

    ghost predicate Valid()
      reads this
    {
      TableWellFormed(Table())
    }

    constructor ()
      ensures Valid() && data == [] && freeIndices == [] && calls == []
    {
      device, allocator, data, freeIndices, calls := NULL_HANDLE, NULL_HANDLE, [], [], [];
    }

    /** create: records the device and allocator and clears both vectors. */
    method Create(vkDevice: Handle, vmaAllocator: Handle)
      modifies this
      ensures Valid() && data == [] && freeIndices == []
      ensures device == vkDevice && allocator == vmaAllocator && calls == old(calls)
    {
      device, allocator, data, freeIndices := vkDevice, vmaAllocator, [], [];
    }

    /** destroy(): destroy(Image&) on a copy of each slot, so the slots keep their handles. */
    method Destroy()
      modifies this`calls
      ensures calls == old(calls) + DestroyAllCalls(device, allocator, data)
    {
      var i := 0;
      while i < |data|
        invariant 0 <= i <= |data|
        invariant calls == old(calls) + DestroyAllCalls(device, allocator, data[..i])
      {
        assert data[..i + 1][..i] == data[..i];
        var copy := data[i];
        calls := calls + DestroyImageCalls(device, allocator, copy);
        i := i + 1;
      }
      assert data[..i] == data;
    }

    /**
     * add(imageDesc), with what vmaCreateImage and vkCreateImageView write
     * back as parameters; neither result is checked.
     */
    method Add(desc: ImageCreateDescription, created: NativeImage, view: Handle) returns (id: ImageId)
      requires Valid()
      modifies this
      ensures Valid()
      ensures id == old(NextId(Table())) && Table() == AddToTable(old(Table()), desc, created, view)
      ensures calls == old(calls) + AddCalls(device, allocator, desc, created)
      ensures device == old(device) && allocator == old(allocator)
    {
      if |freeIndices| == 0 {
        id := ImageId(Wrap32(|data|));
        data := data + [EMPTY_IMAGE];
      } else {
        id := freeIndices[|freeIndices| - 1];
        freeIndices := freeIndices[..|freeIndices| - 1];
      }
      calls := calls + [CreateImage(allocator, RequestFor(desc))];
      calls := calls + [CreateImageView(device, ViewRequestFor(desc, created.image))];
      data := data[id.index := StoredImage(desc, created, view)];
    }

    /** get(id): the slot, live or not; an index past the end is undefined behaviour. */
    method Get(id: ImageId) returns (img: ImageRecord)
      requires id.index < |data|
      ensures img == data[id.index]
    {
      img := data[id.index];
    }

    /** destroy(Image&): destroy the slot's view and image, then null both handles in place. */
    method DestroyAt(index: nat)
      requires index < |data|
      modifies this
      ensures data == old(data)[index := Nulled(old(data)[index])]
      ensures calls == old(calls) + DestroyImageCalls(device, allocator, old(data)[index])
      ensures freeIndices == old(freeIndices) && device == old(device) && allocator == old(allocator)
    {
      calls := calls + [DestroyImageView(device, data[index].imageView)];
      calls := calls + [DestroyImage(allocator, data[index].image, data[index].allocation)];
      data := data[index := data[index].(image := NULL_HANDLE)];
      data := data[index := data[index].(imageView := NULL_HANDLE)];
    }

    /** del(id): destroy the slot in place and push the id, with no check that it was live. */
    method Del(id: ImageId)
      requires Valid() && id.index < |data|
      modifies this
      ensures Valid()
      ensures Table() == DelFromTable(old(Table()), id)
      ensures calls == old(calls) + DestroyImageCalls(device, allocator, old(data)[id.index])
      ensures device == old(device) && allocator == old(allocator)
    {
      DestroyAt(id.index);
      freeIndices := freeIndices + [id];
    }
  }
}
