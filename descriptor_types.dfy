/**
 * The records both DescriptorSetBuilder revisions assemble before the
 * three Vulkan calls that turn them into a descriptor set: layout
 * bindings, descriptor writes, pool sizes, and the trace of those calls.
 */
module DescriptorTypes {
  import opened Common
  import opened Vk

  /** VkDescriptorSetLayoutBinding without immutable samplers. */
  datatype LayoutBinding = LayoutBinding(binding: u32, descriptorType: nat, descriptorCount: nat, stageFlags: Flags)

  /** VkDescriptorImageInfo. */
  datatype ImageInfo = ImageInfo(imageLayout: ImageLayout, imageView: Handle, sampler: Handle)

  /** VkDescriptorBufferInfo. */
  datatype BufferInfo = BufferInfo(buffer: Handle, offset: nat, range: nat)

  /**
   * What a write's pImageInfo or pBufferInfo points at, as an index into
   * the container that owns the info. StaleImageRef is a pointer to an
   * image info whose storage the owning vector has since given up.
   */
  datatype InfoRef = NoInfo | ImageRef(imageIndex: nat) | BufferRef(bufferIndex: nat) | StaleImageRef(imageIndex: nat)

  /** VkWriteDescriptorSet with dstArrayElement 0. */
  datatype Write = Write(dstSet: Handle, dstBinding: u32, descriptorType: nat, descriptorCount: nat, info: InfoRef)

  /** VkDescriptorPoolSize. */
  datatype PoolSize = PoolSize(descriptorType: nat, descriptorCount: nat)

  /** The native calls of `build`, in order. */
  datatype DescriptorCall =
    | CreateSetLayout(bindings: seq<LayoutBinding>)
    | CreatePool(poolSizes: seq<PoolSize>, maxSets: nat)
    | AllocateSet(pool: Handle, layout: Handle)
    | UpdateSets(writes: seq<Write>)

  /** The three runtime_errors `build` can throw. */
  datatype BuildError = LayoutCreationFailed | PoolCreationFailed | SetAllocationFailed

  /** The handles `build` writes through its reference parameters. */
  datatype BuiltSet = BuiltSet(descriptorSet: Handle, pool: Handle, layout: Handle)

  /** What build returns: the three handles, or the first creation that failed. */
  function BuildOutcome(layoutResult: Option<Handle>, poolResult: Option<Handle>, setResult: Option<Handle>)
    : Result<BuiltSet, BuildError>
  {
    if layoutResult.None? then Err(LayoutCreationFailed)
    else if poolResult.None? then Err(PoolCreationFailed)
    else if setResult.None? then Err(SetAllocationFailed)
    else Ok(BuiltSet(setResult.value, poolResult.value, layoutResult.value))
  }

  /** The descriptors of type `t` a pool-size list asks for, over all its entries. */
  function CountOf(ps: seq<PoolSize>, t: nat): nat
  {
    if ps == [] then 0
    else (if ps[0].descriptorType == t then ps[0].descriptorCount else 0) + CountOf(ps[1..], t)
  }

  /** All descriptors a pool-size list asks for. */
  function Total(ps: seq<PoolSize>): nat
  {
    if ps == [] then 0 else ps[0].descriptorCount + Total(ps[1..])
  }

  /** The types a pool-size list names. */
  function Types(ps: seq<PoolSize>): set<nat>
  {
    set p | p in ps :: p.descriptorType
  }

  /** How many times `t` occurs in `ts`. */
  function Occurrences(ts: seq<nat>, t: nat): nat
  {
    if ts == [] then 0 else (if ts[0] == t then 1 else 0) + Occurrences(ts[1..], t)
  }

  lemma {:induction false} CountOfAppend(a: seq<PoolSize>, b: seq<PoolSize>, t: nat)
    ensures CountOf(a + b, t) == CountOf(a, t) + CountOf(b, t)
  {
    if a != [] {
      assert (a + b)[1..] == a[1..] + b;
      CountOfAppend(a[1..], b, t);
    } else {
      assert a + b == b;
    }
  }

  lemma {:induction false} TotalAppend(a: seq<PoolSize>, b: seq<PoolSize>)
    ensures Total(a + b) == Total(a) + Total(b)
  {
    if a != [] {
      assert (a + b)[1..] == a[1..] + b;
      TotalAppend(a[1..], b);
    } else {
      assert a + b == b;
    }
  }

  lemma {:induction false} OccurrencesAppend(a: seq<nat>, b: seq<nat>, t: nat)
    ensures Occurrences(a + b, t) == Occurrences(a, t) + Occurrences(b, t)
  {
    if a != [] {
      assert (a + b)[1..] == a[1..] + b;
      OccurrencesAppend(a[1..], b, t);
    } else {
      assert a + b == b;
    }
  }
}
