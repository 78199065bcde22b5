/**
 * The older ImageSystem (src_old/RHI/Image/ImageSystem.cpp).  Its slots
 * carry no layout, its free list holds raw 32-bit indices, and its
 * destroy(Image) takes the slot by value: `del` releases the native
 * objects but leaves their handles in the slot, and the destructor
 * destroys every slot again, freed ones included.
 */
module ImagePoolOld {
  import opened Common
  import opened Vk
  import opened ImageTypes

  /** Image: the handles and the description fields. */
  datatype ImageRecord = ImageRecord(
    image: Handle, imageView: Handle, allocation: Handle,
    width: u32, height: u32, depth: u16, mipLevels: u8, arrayLayers: u8, format: nat)

  const EMPTY_IMAGE: ImageRecord := ImageRecord(NULL_HANDLE, NULL_HANDLE, NULL_HANDLE, 0, 0, 0, 0, 0, 0)

  datatype ImageTable = ImageTable(data: seq<ImageRecord>, freeIndices: seq<u32>)

  predicate TableWellFormed(t: ImageTable)
  {
    forall k :: 0 <= k < |t.freeIndices| ==> t.freeIndices[k] < |t.data|
  }

  function NextId(t: ImageTable): ImageId
  {
    if |t.freeIndices| == 0 then ImageId(Wrap32(|t.data|)) else ImageId(t.freeIndices[|t.freeIndices| - 1])
  }

  function StoredImage(desc: ImageCreateDescription, created: NativeImage, view: Handle): ImageRecord
  {
    ImageRecord(created.image, view, created.allocation, desc.width, desc.height, desc.depth,
                desc.mipLevels, desc.arrayLayers, desc.format)
  }

  /** add: append a slot or pop the last free index, then store the new record there. */
  function AddToTable(t: ImageTable, desc: ImageCreateDescription, created: NativeImage, view: Handle): (r: ImageTable)
    requires TableWellFormed(t)
    ensures TableWellFormed(r)
    ensures NextId(t).index < |r.data| && r.data[NextId(t).index] == StoredImage(desc, created, view)
    ensures |r.data| == |t.data| + (if |t.freeIndices| == 0 then 1 else 0)
  {
    var id := NextId(t);
    if |t.freeIndices| == 0 then ImageTable((t.data + [EMPTY_IMAGE])[id.index := StoredImage(desc, created, view)], t.freeIndices)
    else ImageTable(t.data[id.index := StoredImage(desc, created, view)], t.freeIndices[..|t.freeIndices| - 1])
  }

  /** del: destroy a copy of the slot and push its index; the slot itself is untouched. */
  function DelFromTable(t: ImageTable, id: ImageId): (r: ImageTable)
    requires TableWellFormed(t) && id.index < |t.data|
    ensures TableWellFormed(r)
  {
    ImageTable(t.data, t.freeIndices + [id.index])
  }

  function DestroyImageCalls(device: Handle, allocator: Handle, img: ImageRecord): seq<ImageCall>
  {
    [DestroyImageView(device, img.imageView), DestroyImage(allocator, img.image, img.allocation)]
  }

  /** The destructor's calls: destroy(Image) on every slot, in slot order. */
  function DestroyAllCalls(device: Handle, allocator: Handle, slots: seq<ImageRecord>): seq<ImageCall>
  {
    if slots == [] then []
    else DestroyAllCalls(device, allocator, slots[..|slots| - 1]) + DestroyImageCalls(device, allocator, slots[|slots| - 1])
  }

  /** How often a call occurs in a trace. */
  function Occurrences(trace: seq<ImageCall>, c: ImageCall): nat
  {
    if trace == [] then 0
    else Occurrences(trace[..|trace| - 1], c) + (if trace[|trace| - 1] == c then 1 else 0)
  }

  lemma {:induction false} OccurrencesAppend(a: seq<ImageCall>, b: seq<ImageCall>, c: ImageCall)
    ensures Occurrences(a + b, c) == Occurrences(a, c) + Occurrences(b, c)
    decreases |b|
  {
    if b == [] {
      assert a + b == a;
    } else {
      assert (a + b)[..|a + b| - 1] == a + b[..|b| - 1];
      OccurrencesAppend(a, b[..|b| - 1], c);
    }
  }

  lemma OccurrencesInPair(x: ImageCall, y: ImageCall, c: ImageCall)
    ensures Occurrences([x, y], c) == (if x == c then 1 else 0) + (if y == c then 1 else 0)
  {
    assert [x, y][..1] == [x];
    assert [x][..0] == [];
    assert Occurrences([x], c) == (if x == c then 1 else 0);
  }

  // ---------------------------------------------------------------------
  // Properties of the table operations
  // ---------------------------------------------------------------------

  /** add stores the description in the slot it hands out and changes no other slot. */
  lemma AddStoresIntoItsSlotOnly(t: ImageTable, desc: ImageCreateDescription, created: NativeImage, view: Handle, j: nat)
    requires TableWellFormed(t)
    ensures var r := AddToTable(t, desc, created, view);
      && r.data[NextId(t).index].image == created.image && r.data[NextId(t).index].imageView == view
      && r.data[NextId(t).index].arrayLayers == desc.arrayLayers && r.data[NextId(t).index].format == desc.format
      && (j < |t.data| && j != NextId(t).index ==> r.data[j] == t.data[j])
      && (|t.freeIndices| == 0 && |t.data| < U32_MODULUS ==> NextId(t).index == |t.data|)
  {
  }

  /** After del the freed slot still reads as the live image it was, and add hands it out next. */
  lemma DelKeepsHandles(t: ImageTable, id: ImageId)
    requires TableWellFormed(t) && id.index < |t.data|
    ensures DelFromTable(t, id).data == t.data
    ensures NextId(DelFromTable(t, id)) == id
  {
  }

  /**
   * A slot freed by del and never reused is destroyed again by the
   * destructor: the vmaDestroyImage for its image occurs once in del's calls
   * and once more in the destructor's.
   */
  lemma {:induction false} FreedSlotDestroyedTwice(device: Handle, allocator: Handle, slots: seq<ImageRecord>, k: nat)
    requires k < |slots|
    requires forall j :: 0 <= j < |slots| && j != k ==> slots[j].image != slots[k].image
    ensures var c := DestroyImage(allocator, slots[k].image, slots[k].allocation);
      Occurrences(DestroyImageCalls(device, allocator, slots[k]) + DestroyAllCalls(device, allocator, slots), c) == 2
  {
    var c := DestroyImage(allocator, slots[k].image, slots[k].allocation);
    OccurrencesAppend(DestroyImageCalls(device, allocator, slots[k]), DestroyAllCalls(device, allocator, slots), c);
    OccurrencesInPair(DestroyImageView(device, slots[k].imageView), c, c);
    DestroyAllOccurrences(device, allocator, slots, k);
  }

  /** In the destructor's calls, a slot's vmaDestroyImage occurs once when no other slot shares its image. */
  lemma {:induction false} DestroyAllOccurrences(device: Handle, allocator: Handle, slots: seq<ImageRecord>, k: nat)
    requires k < |slots|
    requires forall j :: 0 <= j < |slots| && j != k ==> slots[j].image != slots[k].image
    ensures Occurrences(DestroyAllCalls(device, allocator, slots), DestroyImage(allocator, slots[k].image, slots[k].allocation)) == 1
    decreases |slots|
  {
    var c := DestroyImage(allocator, slots[k].image, slots[k].allocation);
    var init := slots[..|slots| - 1];
    var last := slots[|slots| - 1];
    OccurrencesAppend(DestroyAllCalls(device, allocator, init), DestroyImageCalls(device, allocator, last), c);
    OccurrencesInPair(DestroyImageView(device, last.imageView), DestroyImage(allocator, last.image, last.allocation), c);
    if k < |slots| - 1 {
      DestroyAllOccurrences(device, allocator, init, k);
    } else {
      NoOccurrence(device, allocator, init, c);
    }
  }

  lemma {:induction false} NoOccurrence(device: Handle, allocator: Handle, slots: seq<ImageRecord>, c: ImageCall)
    requires c.DestroyImage? && forall j :: 0 <= j < |slots| ==> slots[j].image != c.image
    ensures Occurrences(DestroyAllCalls(device, allocator, slots), c) == 0
    decreases |slots|
  {
    if slots != [] {
      var init := slots[..|slots| - 1];
      var last := slots[|slots| - 1];
      OccurrencesAppend(DestroyAllCalls(device, allocator, init), DestroyImageCalls(device, allocator, last), c);
      OccurrencesInPair(DestroyImageView(device, last.imageView), DestroyImage(allocator, last.image, last.allocation), c);
      NoOccurrence(device, allocator, init, c);
    }
  }

  class ImageSystem {
    var device: Handle
    var allocator: Handle
    var data: seq<ImageRecord>
    var freeIndices: seq<u32>
    /** The Vulkan and VMA calls issued so far. */
    var calls: seq<ImageCall>

    function Table(): ImageTable
      reads this
    {
      ImageTable(data, freeIndices)
    }

    ghost predicate Valid()
      reads this
    {
      TableWellFormed(Table())
    }

    /** ImageSystem(), declared in RHI/Image/ImageSystem.hpp but not defined in this revision: taken to leave both vectors empty. */
    constructor ()
      ensures Valid() && data == [] && freeIndices == [] && calls == []
    {
      device, allocator, data, freeIndices, calls := NULL_HANDLE, NULL_HANDLE, [], [], [];
    }

    /** init: records the device and allocator and clears both vectors. */
    method Init(vkDevice: Handle, vmaAllocator: Handle)
      modifies this
      ensures Valid() && data == [] && freeIndices == []
      ensures device == vkDevice && allocator == vmaAllocator && calls == old(calls)
    {
      device, allocator, data, freeIndices := vkDevice, vmaAllocator, [], [];
    }

    /** ~ImageSystem: destroy(Image) on every slot. */
    method Destruct()
      modifies this`calls
      ensures calls == old(calls) + DestroyAllCalls(device, allocator, data)
    {
      var i := 0;
      while i < |data|
        invariant 0 <= i <= |data|
        invariant calls == old(calls) + DestroyAllCalls(device, allocator, data[..i])
      {
        assert data[..i + 1][..i] == data[..i];
        Destroy(data[i]);
        i := i + 1;
      }
      assert data[..i] == data;
    }

    /** add(imageDesc), with what vmaCreateImage and vkCreateImageView write back as parameters. */
    method Add(desc: ImageCreateDescription, created: NativeImage, view: Handle) returns (id: ImageId)
      requires Valid()
      modifies this
      ensures Valid()
      ensures id == old(NextId(Table())) && Table() == AddToTable(old(Table()), desc, created, view)
      ensures calls == old(calls) + AddCalls(device, allocator, desc, created)
      ensures device == old(device) && allocator == old(allocator)
    {
      if |freeIndices| == 0 {
        id := ImageId(Wrap32(|data|));
        data := data + [EMPTY_IMAGE];
      } else {
        id := ImageId(freeIndices[|freeIndices| - 1]);
        freeIndices := freeIndices[..|freeIndices| - 1];
      }
      calls := calls + [CreateImage(allocator, RequestFor(desc))];
      calls := calls + [CreateImageView(device, ViewRequestFor(desc, created.image))];
      data := data[id.index := StoredImage(desc, created, view)];
    }

    /** get(id): the slot, unchecked. */
    method Get(id: ImageId) returns (img: ImageRecord)
      requires id.index < |data|
      ensures img == data[id.index]
    {
      img := data[id.index];
    }

    /** destroy(Image): destroys the native objects of a copy. */
    method Destroy(img: ImageRecord)
      modifies this`calls
      ensures calls == old(calls) + DestroyImageCalls(device, allocator, img)
    {
      calls := calls + [DestroyImageView(device, img.imageView)];
      calls := calls + [DestroyImage(allocator, img.image, img.allocation)];
    }

    /** del(id): destroy a copy of the slot and push its index. */
    method Del(id: ImageId)
      requires Valid() && id.index < |data|
      modifies this
      ensures Valid()
      ensures Table() == DelFromTable(old(Table()), id)
      ensures calls == old(calls) + DestroyImageCalls(device, allocator, data[id.index])
      ensures device == old(device) && allocator == old(allocator)
    {
      Destroy(data[id.index]);
      freeIndices := freeIndices + [id.index];
    }
  }
}
