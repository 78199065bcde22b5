/**
 * The earlier DescriptorSetBuilder (src/RHI/Descriptor/DescriptorSetBuilder.cpp):
 * texture configs only; `build` fills bindings and writes index by index
 * into vectors sized to the configs, keeps the image infos in a growing
 * local vector, asks the pool for one descriptor per config without
 * merging equal types, and creates the layout, the pool and the set.
 * Each write points into the image-info vector while it still grows, so
 * the model follows that vector's storage to tell which pointers are
 * still valid when vkUpdateDescriptorSets reads them. The header beside
 * this .cpp (DescriptorSetBuilder.hpp) declares texture and buffer config
 * deques and no `configs`; declarations and definitions do not agree, and
 * the model follows the .cpp.
 */
module DescriptorSetBuildingOld {
  import opened Common
  import opened Vk
  import opened DescriptorTypes
  import DescriptorSetBuilding

  datatype TextureConfig = TextureConfig(binding: u32, descriptorType: nat, stage: Flags, view: Handle, sampler: Handle)

  /** bindings[i]: one descriptor of the config's type, at its binding, for its stages. */
  function BindingsFor(configs: seq<TextureConfig>): seq<LayoutBinding>
  {
    seq(|configs|, k requires 0 <= k < |configs| => LayoutBinding(configs[k].binding, configs[k].descriptorType, 1, configs[k].stage))
  }

  /** imageInfos: the configs' views and samplers, sampled in shader-read-only layout. */
  function ImageInfosFor(configs: seq<TextureConfig>): seq<ImageInfo>
  {
    seq(|configs|, k requires 0 <= k < |configs| => ImageInfo(ShaderReadOnlyOptimal, configs[k].view, configs[k].sampler))
  }

  /** writes[i]: one descriptor at the config's binding, pointing at imageInfos[i] as the pointer was taken. */
  function WritesFor(configs: seq<TextureConfig>): seq<Write>
  {
    seq(|configs|, k requires 0 <= k < |configs| => Write(NULL_HANDLE, configs[k].binding, configs[k].descriptorType, 1, ImageRef(k)))
  }

  /**
   * The storage of a std::vector: its size, its capacity and the block
   * that holds its elements, numbered in allocation order.
   */
  datatype Storage = Storage(size: nat, capacity: nat, allocation: nat)

  /**
   * The image-info vector before the loop: empty, with a block of
   * `reserved` elements. The code reserves nothing, so it starts with
   * capacity 0, as a default-constructed vector does in the common
   * standard libraries; `imageInfos.reserve(configs.size())` would give
   * Reserved(|configs|).
   */
  function Reserved(reserved: nat): Storage
  {
    Storage(0, reserved, 0)
  }

  /**
   * push_back: a full vector moves its elements into a new block, of at
   * least one more element and of the size the standard library's growth
   * policy `grow` picks from the old capacity; pointers into the old block
   * dangle from then on. A vector with room keeps its block.
   */
  function PushBack(s: Storage, grow: nat -> nat): Storage
  {
    if s.size < s.capacity then s.(size := s.size + 1)
    else Storage(s.size + 1, Max(grow(s.capacity), s.size + 1), s.allocation + 1)
  }

  /** One push_back: one more element, and a new block exactly when the old one was full. */
  lemma PushBackMoves(s: Storage, grow: nat -> nat)
    requires s.size <= s.capacity
    ensures PushBack(s, grow).size == s.size + 1 <= PushBack(s, grow).capacity
    ensures PushBack(s, grow).allocation == (if s.size == s.capacity then s.allocation + 1 else s.allocation)
    ensures PushBack(s, grow).allocation == s.allocation ==> PushBack(s, grow).capacity == s.capacity
  {
  }

  /** The storage after n more push_backs. */
  function StorageAfter(start: Storage, n: nat, grow: nat -> nat): Storage
    decreases n
  {
    if n == 0 then start else PushBack(StorageAfter(start, n - 1, grow), grow)
  }

  /**
   * While a vector stays in one block it keeps that block's capacity, so
   * it must leave the block once it holds more elements than the block
   * has room for.
   */
  lemma {:induction false} StorageGrows(start: Storage, n: nat, grow: nat -> nat)
    requires start.size <= start.capacity
    ensures StorageAfter(start, n, grow).size == start.size + n <= StorageAfter(start, n, grow).capacity
    ensures start.allocation <= StorageAfter(start, n, grow).allocation
    ensures StorageAfter(start, n, grow).allocation == start.allocation ==> StorageAfter(start, n, grow).capacity == start.capacity
    decreases n
  {
    if n > 0 {
      StorageGrows(start, n - 1, grow);
      PushBackMoves(StorageAfter(start, n - 1, grow), grow);
    }
  }

  lemma {:induction false} StorageAfterSplit(start: Storage, m: nat, n: nat, grow: nat -> nat)
    ensures StorageAfter(start, m + n, grow) == StorageAfter(StorageAfter(start, m, grow), n, grow)
    decreases n
  {
    if n > 0 {
      StorageAfterSplit(start, m, n - 1, grow);
      assert StorageAfter(start, m + n, grow) == PushBack(StorageAfter(start, m + (n - 1), grow), grow);
    }
  }

  /** taken[k]: the block `&imageInfos[k]` points into, the one holding the vector right after its k-th push_back. */
  function TakenIn(start: Storage, n: nat, grow: nat -> nat): (taken: seq<nat>)
    ensures |taken| == n
  {
    seq(n, k requires 0 <= k < n => StorageAfter(start, k + 1, grow).allocation)
  }

  lemma TakenInStep(start: Storage, n: nat, grow: nat -> nat)
    ensures StorageAfter(start, n + 1, grow) == PushBack(StorageAfter(start, n, grow), grow)
    ensures TakenIn(start, n + 1, grow) == TakenIn(start, n, grow) + [StorageAfter(start, n + 1, grow).allocation]
  {
    assert TakenIn(start, n + 1, grow)[..n] == TakenIn(start, n, grow);
  }

  /**
   * The writes as vkUpdateDescriptorSets reads them when the vector sits
   * in block `current`: a pointer into any other block is stale.
   */
  function AsRead(writes: seq<Write>, taken: seq<nat>, current: nat): (r: seq<Write>)
    requires |taken| == |writes|
    ensures |r| == |writes|
    ensures forall k :: 0 <= k < |r| ==> r[k].info == (if taken[k] == current then writes[k].info else StaleImageRef(k))
    ensures forall k :: 0 <= k < |r| ==> r[k].(info := writes[k].info) == writes[k]
  {
    seq(|writes|, k requires 0 <= k < |writes| => if taken[k] == current then writes[k] else writes[k].(info := StaleImageRef(k)))
  }

  /** The writes build hands to vkUpdateDescriptorSets, for an image-info vector that starts as `start`. */
  function PassedWrites(configs: seq<TextureConfig>, start: Storage, grow: nat -> nat): seq<Write>
  {
    AsRead(WritesFor(configs), TakenIn(start, |configs|, grow), StorageAfter(start, |configs|, grow).allocation)
  }

  /** poolSizes: one entry of count 1 per config. */
  function PoolSizesFor(configs: seq<TextureConfig>): seq<PoolSize>
  {
    seq(|configs|, k requires 0 <= k < |configs| => PoolSize(configs[k].descriptorType, 1))
  }

  function TypesOf(configs: seq<TextureConfig>): seq<nat>
  {
    seq(|configs|, k requires 0 <= k < |configs| => configs[k].descriptorType)
  }

  /** The native calls of build, stopping at the first failed creation. */
  function BuildCalls(configs: seq<TextureConfig>, grow: nat -> nat, layoutResult: Option<Handle>,
                      poolResult: Option<Handle>, setResult: Option<Handle>): seq<DescriptorCall>
  {
    [CreateSetLayout(BindingsFor(configs))]
    + (if layoutResult.None? then []
       else [CreatePool(PoolSizesFor(configs), 1)]
            + (if poolResult.None? then []
               else [AllocateSet(poolResult.value, layoutResult.value)]
                    + (if setResult.None? then []
                       else [UpdateSets(DescriptorSetBuilding.WithSet(PassedWrites(configs, Reserved(0), grow), setResult.value))])))
  }

  /**
   * Each write is built pointing at the image info of its own config, and
   * with that config's binding, type and count; whether the pointer is
   * still valid when it is read is FirstWriteIsStale's concern.
   */
  lemma WritesReferToOwnInfo(configs: seq<TextureConfig>, i: nat)
    requires i < |configs|
    ensures WritesFor(configs)[i].info == ImageRef(i) && i < |ImageInfosFor(configs)|
    ensures ImageInfosFor(configs)[i] == ImageInfo(ShaderReadOnlyOptimal, configs[i].view, configs[i].sampler)
    ensures WritesFor(configs)[i].dstBinding == BindingsFor(configs)[i].binding == configs[i].binding
    ensures WritesFor(configs)[i].descriptorType == BindingsFor(configs)[i].descriptorType == configs[i].descriptorType
    ensures WritesFor(configs)[i].descriptorCount == BindingsFor(configs)[i].descriptorCount == 1
  {
  }

  /**
   * As written: once there are more textures than the first push_back's
   * block has room for, the vector moves, and the first write's pointer is
   * stale when vkUpdateDescriptorSets reads it.
   */
  lemma FirstWriteIsStale(configs: seq<TextureConfig>, grow: nat -> nat)
    requires PushBack(Reserved(0), grow).capacity < |configs|
    ensures PassedWrites(configs, Reserved(0), grow)[0].info == StaleImageRef(0)
  {
    FirstBlockLeft(|configs|, grow);
  }

  /** More push_backs than the first block has room for leave that block. */
  lemma FirstBlockLeft(n: nat, grow: nat -> nat)
    requires PushBack(Reserved(0), grow).capacity < n
    ensures TakenIn(Reserved(0), n, grow)[0] != StorageAfter(Reserved(0), n, grow).allocation
  {
    var start := Reserved(0);
    var first := PushBack(start, grow);
    assert first.allocation == 1 && first.size == 1;
    assert StorageAfter(start, 1, grow) == first;
    assert TakenIn(start, n, grow)[0] == 1;
    StorageAfterSplit(start, 1, n - 1, grow);
    StorageGrows(first, n - 1, grow);
    assert StorageAfter(first, n - 1, grow).allocation != 1;
  }

  /** The same stale pointer reaches the UpdateSets call of a successful build. */
  lemma AsWrittenFirstWriteIsStale(configs: seq<TextureConfig>, grow: nat -> nat, layout: Handle, pool: Handle,
                                   descriptorSet: Handle)
    requires PushBack(Reserved(0), grow).capacity < |configs|
    ensures var calls := BuildCalls(configs, grow, Some(layout), Some(pool), Some(descriptorSet));
      |calls| == 4 && calls[3].UpdateSets? && |calls[3].writes| == |configs| && calls[3].writes[0].info == StaleImageRef(0)
  {
    FirstWriteIsStale(configs, grow);
    var ws := DescriptorSetBuilding.WithSet(PassedWrites(configs, Reserved(0), grow), descriptorSet);
    assert BuildCalls(configs, grow, Some(layout), Some(pool), Some(descriptorSet))
      == [CreateSetLayout(BindingsFor(configs)), CreatePool(PoolSizesFor(configs), 1), AllocateSet(pool, layout), UpdateSets(ws)];
  }

  /**
   * The growth of libstdc++, libc++ and the Microsoft library gives the
   * first push_back a block of one element, so two textures already make
   * the first write stale.
   */
  lemma DoublingGrowthStaleWithTwoTextures(configs: seq<TextureConfig>)
    requires |configs| >= 2
    ensures PassedWrites(configs, Reserved(0), c => 2 * c)[0].info == StaleImageRef(0)
  {
    FirstWriteIsStale(configs, c => 2 * c);
  }

  /** The pointer taken after the last push_back is never stale. */
  lemma LastWriteIsLive(configs: seq<TextureConfig>, grow: nat -> nat)
    requires configs != []
    ensures PassedWrites(configs, Reserved(0), grow)[|configs| - 1] == WritesFor(configs)[|configs| - 1]
  {
  }

  lemma {:induction false} ReservedNeverMoves(n: nat, k: nat, grow: nat -> nat)
    requires k <= n
    ensures StorageAfter(Reserved(n), k, grow) == Storage(k, n, 0)
  {
    if k > 0 {
      ReservedNeverMoves(n, k - 1, grow);
    }
  }

  /**
   * Corrected: with imageInfos.reserve(configs.size()) before the loop
   * the vector never moves, and every write reads the image info of its
   * own config.
   */
  lemma ReservedWritesAreLive(configs: seq<TextureConfig>, grow: nat -> nat)
    ensures PassedWrites(configs, Reserved(|configs|), grow) == WritesFor(configs)
    ensures forall k :: 0 <= k < |configs| ==> PassedWrites(configs, Reserved(|configs|), grow)[k].info == ImageRef(k)
  {
    var n := |configs|;
    ReservedNeverMoves(n, n, grow);
    forall k | 0 <= k < n
      ensures TakenIn(Reserved(n), n, grow)[k] == StorageAfter(Reserved(n), n, grow).allocation
    {
      ReservedNeverMoves(n, k + 1, grow);
    }
    assert PassedWrites(configs, Reserved(n), grow) == WritesFor(configs);
  }

  /**
   * Equal types are not merged, yet the pool is asked for the same number
   * of descriptors of each type as the later revision's tally asks for.
   */
  lemma {:induction false} UnmergedPoolSizesCountTheSame(configs: seq<TextureConfig>, t: nat)
    ensures |PoolSizesFor(configs)| == |configs|
    ensures CountOf(PoolSizesFor(configs), t) == Occurrences(TypesOf(configs), t)
    ensures CountOf(PoolSizesFor(configs), t) == CountOf(DescriptorSetBuilding.Tally(TypesOf(configs)), t)
  {
    UnmergedCounts(configs, t);
    DescriptorSetBuilding.TallyIsPoolSizeMap(TypesOf(configs));
  }

  lemma {:induction false} UnmergedCounts(configs: seq<TextureConfig>, t: nat)
    ensures CountOf(PoolSizesFor(configs), t) == Occurrences(TypesOf(configs), t)
  {
    if configs != [] {
      UnmergedCounts(configs[1..], t);
      assert PoolSizesFor(configs)[1..] == PoolSizesFor(configs[1..]);
      assert TypesOf(configs)[1..] == TypesOf(configs[1..]);
    }
  }

  /** Two textures of one type: two pool-size entries here, one merged entry in the later revision. */
  lemma SameTypeNotMerged(a: TextureConfig, b: TextureConfig)
    requires a.descriptorType == b.descriptorType
    ensures PoolSizesFor([a, b]) == [PoolSize(a.descriptorType, 1), PoolSize(a.descriptorType, 1)]
    ensures DescriptorSetBuilding.Tally(TypesOf([a, b])) == [PoolSize(a.descriptorType, 2)]
  {
    var d := a.descriptorType;
    assert TypesOf([a, b]) == [d, d];
    assert [d, d][..1] == [d];
    assert [d][..0] == [];
    assert DescriptorSetBuilding.Tally([d]) == [PoolSize(d, 1)];
    assert DescriptorSetBuilding.Tally([d, d]) == DescriptorSetBuilding.Bump([PoolSize(d, 1)], d);
    assert PoolSizesFor([a, b])[1] == PoolSize(d, 1);
  }

  class DescriptorSetBuilder {
    var configs: seq<TextureConfig>
    var calls: seq<DescriptorCall>

    constructor ()
      ensures configs == [] && calls == []
    {
      configs := [];
      calls := [];
    }

    /** addTexture: one config with the given binding, type, stages, view and sampler. */
    method AddTexture(binding: u32, descriptorType: nat, stage: Flags, view: Handle, sampler: Handle)
      modifies this`configs
      ensures configs == old(configs) + [TextureConfig(binding, descriptorType, stage, view, sampler)]
    {
      configs := configs + [TextureConfig(binding, descriptorType, stage, view, sampler)];
    }

    /**
     * build: the layout over the bindings, the pool for one set with one
     * size entry per config, the set, and the writes pointed at it; each
     * failed creation throws. `grow` is the standard library's growth
     * policy for the image-info vector.
     */
    method Build(grow: nat -> nat, layoutResult: Option<Handle>, poolResult: Option<Handle>, setResult: Option<Handle>)
      returns (r: Result<BuiltSet, BuildError>)
      modifies this`calls
      ensures r == BuildOutcome(layoutResult, poolResult, setResult)
      ensures calls == old(calls) + BuildCalls(configs, grow, layoutResult, poolResult, setResult)
    {
      var bindings, writes, imageInfos, taken, storage := FillArrays(grow, 0);
      calls := calls + [CreateSetLayout(bindings)];
      if layoutResult.None? {
        return Err(LayoutCreationFailed);
      }
      var poolSizes := PoolSizes();
      calls := calls + [CreatePool(poolSizes, 1)];
      if poolResult.None? {
        return Err(PoolCreationFailed);
      }
      calls := calls + [AllocateSet(poolResult.value, layoutResult.value)];
      if setResult.None? {
        return Err(SetAllocationFailed);
      }
      writes := DescriptorSetBuilding.PointAtSet(AsRead(writes, taken, storage.allocation), setResult.value);
      calls := calls + [UpdateSets(writes)];
      r := Ok(BuiltSet(setResult.value, poolResult.value, layoutResult.value));
    }

    /**
     * The index loop of build over vectors sized to the configs, with the
     * image infos appended as it goes to a vector that starts with room
     * for `reserved` of them. `taken` records the block each write's
     * pointer was taken in, and `storage` the vector's storage at the end.
     */
    method FillArrays(grow: nat -> nat, reserved: nat)
      returns (bindings: seq<LayoutBinding>, writes: seq<Write>, imageInfos: seq<ImageInfo>, taken: seq<nat>, storage: Storage)
      ensures bindings == BindingsFor(configs) && writes == WritesFor(configs) && imageInfos == ImageInfosFor(configs)
      ensures storage == StorageAfter(Reserved(reserved), |configs|, grow) && storage.size == |imageInfos|
      ensures taken == TakenIn(Reserved(reserved), |configs|, grow)
    {
      var n := |configs|;
      bindings := seq(n, _ => LayoutBinding(0, 0, 0, 0));
      writes := seq(n, _ => Write(NULL_HANDLE, 0, 0, 0, NoInfo));
      imageInfos := [];
      storage := Reserved(reserved);
      taken := [];
      var i := 0;
      while i < n
        invariant 0 <= i <= n == |bindings| == |writes|
        invariant bindings[..i] == BindingsFor(configs)[..i]
        invariant writes[..i] == WritesFor(configs)[..i]
        invariant imageInfos == ImageInfosFor(configs)[..i]
        invariant storage == StorageAfter(Reserved(reserved), i, grow)
        invariant taken == TakenIn(Reserved(reserved), i, grow)
      {
        var config := configs[i];
        bindings := bindings[i := LayoutBinding(config.binding, config.descriptorType, 1, config.stage)];
        imageInfos := imageInfos + [ImageInfo(ShaderReadOnlyOptimal, config.view, config.sampler)];
        storage := PushBack(storage, grow);
        writes := writes[i := Write(NULL_HANDLE, config.binding, config.descriptorType, 1, ImageRef(i))];
        taken := taken + [storage.allocation];
        assert ImageInfosFor(configs)[..i + 1] == ImageInfosFor(configs)[..i] + [ImageInfosFor(configs)[i]];
        TakenInStep(Reserved(reserved), i, grow);
        i := i + 1;
      }
      assert bindings == bindings[..i] && writes == writes[..i];
      StorageGrows(Reserved(reserved), n, grow);
    }

    /**
     * The corrected loop: with the image-info vector reserved to the
     * number of configs first, every write points at a live info.
     */
    method ReservedWrites(grow: nat -> nat) returns (writes: seq<Write>)
      ensures writes == WritesFor(configs)
      ensures forall k :: 0 <= k < |configs| ==> writes[k].info == ImageRef(k)
    {
      var bindings, imageInfos, taken, storage;
      bindings, writes, imageInfos, taken, storage := FillArrays(grow, |configs|);
      writes := AsRead(writes, taken, storage.allocation);
      ReservedWritesAreLive(configs, grow);
    }

    /** The pool-size loop of build: one {type, 1} per config, in config order. */
    method PoolSizes() returns (poolSizes: seq<PoolSize>)
      ensures poolSizes == PoolSizesFor(configs)
    {
      poolSizes := [];
      var i := 0;
      while i < |configs|
        invariant 0 <= i <= |configs| && poolSizes == PoolSizesFor(configs)[..i]
      {
        poolSizes := poolSizes + [PoolSize(configs[i].descriptorType, 1)];
        assert PoolSizesFor(configs)[..i + 1] == PoolSizesFor(configs)[..i] + [PoolSizesFor(configs)[i]];
        i := i + 1;
      }
    }
  }
}
