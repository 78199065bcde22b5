/**
 * DescriptorSetBuilder (src/RHI/Pipeline/Descriptor/DescriptorSetBuilder.cpp,
 * declared in src/RHI/Descriptor/DescriptorSetBuilder.hpp): texture and
 * buffer configs collected in two deques; `build` appends one layout binding
 * and one write per config, textures first, tallies the descriptor types in
 * a std::map, creates the layout, the pool and the set, and points every
 * write at the set.
 */
module DescriptorSetBuilding {
  import opened Common
  import opened Vk
  import opened DescriptorTypes
  import LegacyBuffer

  datatype BindConfig = BindConfig(binding: u32, descriptorType: nat, stage: Flags)
  datatype TextureConfig = TextureConfig(bind: BindConfig, imageInfo: ImageInfo)
  datatype BufferConfig = BufferConfig(bind: BindConfig, bufferInfo: BufferInfo)

  // ---------------------------------------------------------------------
  // The std::map<VkDescriptorType, uint32_t> tally, kept as a list sorted
  // by type, which is also the order the map iterates in.
  // ---------------------------------------------------------------------

  /** Entries in strictly ascending type order: the keys of a std::map. */
  predicate StrictlyAscending(ps: seq<PoolSize>)
  {
    forall i, j :: 0 <= i < j < |ps| ==> ps[i].descriptorType < ps[j].descriptorType
  }

  /** `poolSizeMap[t]++`: bump the entry of `t`, inserting it with count 1 in its place when absent. */
  function Bump(ps: seq<PoolSize>, t: nat): seq<PoolSize>
  {
    if ps == [] then [PoolSize(t, 1)]
    else if ps[0].descriptorType == t then [ps[0].(descriptorCount := ps[0].descriptorCount + 1)] + ps[1..]
    else if t < ps[0].descriptorType then [PoolSize(t, 1)] + ps
    else [ps[0]] + Bump(ps[1..], t)
  }

  /** The map after bumping every type of `ts`, in order. */
  function Tally(ts: seq<nat>): seq<PoolSize>
  {
    if ts == [] then [] else Bump(Tally(ts[..|ts| - 1]), ts[|ts| - 1])
  }

  /** Tallying one more type of a sequence bumps the running map by that type. */
  lemma TallyStep(ts: seq<nat>, n: nat)
    requires n < |ts|
    ensures Tally(ts[..n + 1]) == Bump(Tally(ts[..n]), ts[n])
  {
    assert ts[..n + 1][..n] == ts[..n];
  }

  lemma {:induction false} BumpCounts(ps: seq<PoolSize>, t: nat, u: nat)
    ensures CountOf(Bump(ps, t), u) == CountOf(ps, u) + (if u == t then 1 else 0)
  {
    if ps != [] && ps[0].descriptorType != t && t > ps[0].descriptorType {
      BumpCounts(ps[1..], t, u);
      assert Bump(ps, t)[1..] == Bump(ps[1..], t);
    } else if ps != [] && ps[0].descriptorType == t {
      assert Bump(ps, t)[1..] == ps[1..];
    } else if ps != [] {
      assert Bump(ps, t)[1..] == ps;
    }
  }

  lemma {:induction false} BumpTotal(ps: seq<PoolSize>, t: nat)
    ensures Total(Bump(ps, t)) == Total(ps) + 1
  {
    if ps != [] && ps[0].descriptorType != t && t > ps[0].descriptorType {
      BumpTotal(ps[1..], t);
      assert Bump(ps, t)[1..] == Bump(ps[1..], t);
    } else if ps != [] && ps[0].descriptorType == t {
      assert Bump(ps, t)[1..] == ps[1..];
    } else if ps != [] {
      assert Bump(ps, t)[1..] == ps;
    }
  }

  lemma {:induction false} BumpTypes(ps: seq<PoolSize>, t: nat)
    ensures Types(Bump(ps, t)) == Types(ps) + {t}
    ensures (forall k :: 0 <= k < |ps| ==> ps[k].descriptorCount > 0) ==>
            forall k :: 0 <= k < |Bump(ps, t)| ==> Bump(ps, t)[k].descriptorCount > 0
  {
    if ps == [] {
      assert Bump(ps, t)[0] == PoolSize(t, 1);
    } else {
      var b := Bump(ps, t);
      assert ps == [ps[0]] + ps[1..];
      assert Types(ps) == {ps[0].descriptorType} + Types(ps[1..]) by { SplitTypes(ps[0], ps[1..]); }
      if ps[0].descriptorType == t {
        assert b == [b[0]] + ps[1..];
        SplitTypes(b[0], ps[1..]);
      } else if t < ps[0].descriptorType {
        assert b == [PoolSize(t, 1)] + ps;
        SplitTypes(PoolSize(t, 1), ps);
      } else {
        BumpTypes(ps[1..], t);
        assert b == [ps[0]] + Bump(ps[1..], t);
        SplitTypes(ps[0], Bump(ps[1..], t));
      }
    }
  }

  lemma SplitTypes(p: PoolSize, ps: seq<PoolSize>)
    ensures Types([p] + ps) == {p.descriptorType} + Types(ps)
  {
    assert forall q :: q in [p] + ps <==> q == p || q in ps;
  }

  lemma {:induction false} BumpAbove(ps: seq<PoolSize>, t: nat, lo: nat)
    requires lo < t && forall k :: 0 <= k < |ps| ==> lo < ps[k].descriptorType
    ensures forall k :: 0 <= k < |Bump(ps, t)| ==> lo < Bump(ps, t)[k].descriptorType
  {
    if ps != [] && t > ps[0].descriptorType {
      BumpAbove(ps[1..], t, lo);
      assert Bump(ps, t) == [ps[0]] + Bump(ps[1..], t);
    }
  }

  lemma {:induction false} BumpSorted(ps: seq<PoolSize>, t: nat)
    requires StrictlyAscending(ps)
    ensures StrictlyAscending(Bump(ps, t))
  {
    var b := Bump(ps, t);
    if ps == [] {
    } else if ps[0].descriptorType == t {
      assert forall k :: 0 < k < |b| ==> b[k] == ps[k];
    } else if t < ps[0].descriptorType {
      assert forall k :: 0 < k < |b| ==> b[k] == ps[k - 1];
    } else {
      var rest := ps[1..];
      BumpSorted(rest, t);
      BumpAbove(rest, t, ps[0].descriptorType);
      var br := Bump(rest, t);
      assert forall k :: 0 < k < |b| ==> b[k] == br[k - 1];
    }
  }

  /**
   * The pool sizes `build` derives from the config types: one entry per
   * distinct type, in ascending type order, each counting that type's
   * configs (never zero), and all together counting every config.
   */
  lemma {:induction false} TallyIsPoolSizeMap(ts: seq<nat>)
    ensures StrictlyAscending(Tally(ts))
    ensures Types(Tally(ts)) == set x | x in ts
    ensures forall t :: CountOf(Tally(ts), t) == Occurrences(ts, t)
    ensures Total(Tally(ts)) == |ts|
    ensures forall k :: 0 <= k < |Tally(ts)| ==> Tally(ts)[k].descriptorCount > 0
  {
    TallyShape(ts);
    TallyContents(ts);
  }

  lemma {:induction false} TallyShape(ts: seq<nat>)
    ensures StrictlyAscending(Tally(ts))
    ensures Total(Tally(ts)) == |ts|
    ensures forall k :: 0 <= k < |Tally(ts)| ==> Tally(ts)[k].descriptorCount > 0
    decreases |ts|
  {
    if ts != [] {
      var init := ts[..|ts| - 1];
      TallyShape(init);
      BumpSorted(Tally(init), ts[|ts| - 1]);
      BumpTypes(Tally(init), ts[|ts| - 1]);
      BumpTotal(Tally(init), ts[|ts| - 1]);
    }
  }

  lemma {:induction false} TallyContents(ts: seq<nat>)
    ensures Types(Tally(ts)) == set x | x in ts
    ensures forall t :: CountOf(Tally(ts), t) == Occurrences(ts, t)
    decreases |ts|
  {
    if ts != [] {
      var init := ts[..|ts| - 1];
      var last := ts[|ts| - 1];
      TallyContents(init);
      BumpTypes(Tally(init), last);
      assert ts == init + [last];
      forall t ensures CountOf(Tally(ts), t) == Occurrences(ts, t) {
        BumpCounts(Tally(init), last, t);
        OccurrencesAppend(init, [last], t);
      }
      assert (set x | x in ts) == (set x | x in init) + {last};
    }
  }

  /** A layout binding for one config: one descriptor of its type, at its binding, for its stages. */
  function BindingOf(c: BindConfig): LayoutBinding
  {
    LayoutBinding(c.binding, c.descriptorType, 1, c.stage)
  }

  /** The descriptor types of the configs, textures first, in `build`'s order. */
  function ConfigTypes(textures: seq<TextureConfig>, buffers: seq<BufferConfig>): seq<nat>
  {
    seq(|textures|, k requires 0 <= k < |textures| => textures[k].bind.descriptorType)
    + seq(|buffers|, k requires 0 <= k < |buffers| => buffers[k].bind.descriptorType)
  }

  function TextureBindings(textures: seq<TextureConfig>): seq<LayoutBinding>
  {
    seq(|textures|, k requires 0 <= k < |textures| => BindingOf(textures[k].bind))
  }

  function BufferBindings(buffers: seq<BufferConfig>): seq<LayoutBinding>
  {
    seq(|buffers|, k requires 0 <= k < |buffers| => BindingOf(buffers[k].bind))
  }

  /** The bindings one `build` appends: one per config, textures first. */
  function BuildBindings(textures: seq<TextureConfig>, buffers: seq<BufferConfig>): seq<LayoutBinding>
  {
    TextureBindings(textures) + BufferBindings(buffers)
  }

  /** The write of one config, not yet pointed at a set. */
  function WriteOf(c: BindConfig, info: InfoRef): Write
  {
    Write(NULL_HANDLE, c.binding, c.descriptorType, 1, info)
  }

  function TextureWrites(textures: seq<TextureConfig>): seq<Write>
  {
    seq(|textures|, k requires 0 <= k < |textures| => WriteOf(textures[k].bind, ImageRef(k)))
  }

  function BufferWrites(buffers: seq<BufferConfig>): seq<Write>
  {
    seq(|buffers|, k requires 0 <= k < |buffers| => WriteOf(buffers[k].bind, BufferRef(k)))
  }

  /** The writes one `build` appends: one per config, textures first, each pointing at its own config's info. */
  function BuildWrites(textures: seq<TextureConfig>, buffers: seq<BufferConfig>): seq<Write>
  {
    TextureWrites(textures) + BufferWrites(buffers)
  }

  /** Appending calls one at a time is appending the nested list that the call trace functions build. */
  lemma AppendTwo<T>(s: seq<T>, a: T, b: T)
    ensures s + [a] + [b] == s + ([a] + [b])
  {
  }

  lemma AppendThree<T>(s: seq<T>, a: T, b: T, c: T)
    ensures s + [a] + [b] + [c] == s + ([a] + ([b] + [c]))
  {
  }

  lemma AppendFour<T>(s: seq<T>, a: T, b: T, c: T, d: T)
    ensures s + [a] + [b] + [c] + [d] == s + ([a] + ([b] + ([c] + [d])))
  {
  }

  /**
   * The native calls of build: the layout over all bindings; if it was
   * created, the pool for one set with the tallied sizes; if that was
   * created, the set allocation from them; if that succeeded, the update
   * with every write.
   */
  function BuildCalls(bindings: seq<LayoutBinding>, poolSizes: seq<PoolSize>, layoutResult: Option<Handle>,
                      poolResult: Option<Handle>, setResult: Option<Handle>, finalWrites: seq<Write>): seq<DescriptorCall>
  {
    [CreateSetLayout(bindings)]
    + (if layoutResult.None? then []
       else [CreatePool(poolSizes, 1)]
            + (if poolResult.None? then []
               else [AllocateSet(poolResult.value, layoutResult.value)]
                    + (if setResult.None? then [] else [UpdateSets(finalWrites)])))
  }

  /** Every write pointed at `set`, nothing else changed. */
  function WithSet(ws: seq<Write>, descriptorSet: Handle): (r: seq<Write>)
    ensures |r| == |ws| && forall k :: 0 <= k < |ws| ==> r[k] == ws[k].(dstSet := descriptorSet)
  {
    seq(|ws|, k requires 0 <= k < |ws| => ws[k].(dstSet := descriptorSet))
  }

  /**
   * Each write of a build agrees with the binding for the same config, and
   * the info it points at is that config's.
   */
  lemma WritesMatchBindings(textures: seq<TextureConfig>, buffers: seq<BufferConfig>, k: nat)
    requires k < |textures| + |buffers|
    ensures var w := BuildWrites(textures, buffers)[k];
      var b := BuildBindings(textures, buffers)[k];
      && w.dstBinding == b.binding && w.descriptorType == b.descriptorType && w.descriptorCount == b.descriptorCount == 1
      && (k < |textures| ==> w.info == ImageRef(k) && w.dstBinding == textures[k].bind.binding)
      && (k >= |textures| ==> w.info == BufferRef(k - |textures|) && w.dstBinding == buffers[k - |textures|].bind.binding)
  {
    if k >= |textures| {
      var j := k - |textures|;
      assert BuildWrites(textures, buffers)[|textures| + j] == WriteOf(buffers[j].bind, BufferRef(j));
    }
  }

  class DescriptorSetBuilder {
    var textureConfigs: seq<TextureConfig>
    var bufferConfigs: seq<BufferConfig>
    var writes: seq<Write>
    var bindings: seq<LayoutBinding>
    var calls: seq<DescriptorCall>

    constructor ()
      ensures textureConfigs == [] && bufferConfigs == [] && writes == [] && bindings == [] && calls == []
    {
      textureConfigs := [];
      bufferConfigs := [];
      writes := [];
      bindings := [];
      calls := [];
    }

    /** addTexture: one texture config sampled in shader-read-only layout. */
    method AddTexture(binding: u32, descriptorType: nat, stage: Flags, view: Handle, sampler: Handle)
      modifies this`textureConfigs
      ensures textureConfigs == old(textureConfigs)
        + [TextureConfig(BindConfig(binding, descriptorType, stage), ImageInfo(ShaderReadOnlyOptimal, view, sampler))]
    {
      textureConfigs := textureConfigs
        + [TextureConfig(BindConfig(binding, descriptorType, stage), ImageInfo(ShaderReadOnlyOptimal, view, sampler))];
    }

    /** addBuffer with an explicit range. */
    method AddBufferRange(binding: u32, descriptorType: nat, stage: Flags, buffer: Handle, offset: nat, range: nat)
      modifies this`bufferConfigs
      ensures bufferConfigs == old(bufferConfigs)
        + [BufferConfig(BindConfig(binding, descriptorType, stage), BufferInfo(buffer, offset, range))]
    {
      bufferConfigs := bufferConfigs + [BufferConfig(BindConfig(binding, descriptorType, stage), BufferInfo(buffer, offset, range))];
    }

    /** addBuffer of a whole Buffer: offset 0 and the buffer's size as the range. */
    method AddBuffer(binding: u32, descriptorType: nat, stage: Flags, buffer: LegacyBuffer.Buffer)
      modifies this`bufferConfigs
      ensures bufferConfigs == old(bufferConfigs)
        + [BufferConfig(BindConfig(binding, descriptorType, stage), BufferInfo(buffer.buffer, 0, buffer.size))]
    {
      AddBufferRange(binding, descriptorType, stage, buffer.buffer, 0, buffer.size);
    }

    /** bind: one layout binding and one write without info, both for one descriptor. */
    method Bind(config: BindConfig)
      modifies this`bindings, this`writes
      ensures bindings == old(bindings) + [BindingOf(config)]
      ensures writes == old(writes) + [WriteOf(config, NoInfo)]
    {
      bindings := bindings + [BindingOf(config)];
      writes := writes + [WriteOf(config, NoInfo)];
    }

    /**
     * build: the bindings and writes are appended to what earlier builds
     * left; then the layout, the pool (maxSets 1, sizes from the tally) and
     * the set are created, each failure throwing; finally every write,
     * earlier ones included, is pointed at the new set and submitted.
     */
    method Build(layoutResult: Option<Handle>, poolResult: Option<Handle>, setResult: Option<Handle>)
      returns (r: Result<BuiltSet, BuildError>)
      modifies this`bindings, this`writes, this`calls
      ensures r == BuildOutcome(layoutResult, poolResult, setResult)
      ensures bindings == old(bindings) + BuildBindings(textureConfigs, bufferConfigs)
      ensures r.Err? ==> writes == old(writes) + BuildWrites(textureConfigs, bufferConfigs)
      ensures r.Ok? ==> writes == WithSet(old(writes) + BuildWrites(textureConfigs, bufferConfigs), r.value.descriptorSet)
      ensures calls == old(calls) + BuildCalls(bindings, Tally(ConfigTypes(textureConfigs, bufferConfigs)),
                                               layoutResult, poolResult, setResult, writes)
    {
      BindAll();
      r := Submit(layoutResult, poolResult, setResult);
    }

    /** The Vulkan half of build, after the bindings are recorded: create the layout, the pool and the set,
        then point and submit the writes, stopping at the first failure. */
    method Submit(layoutResult: Option<Handle>, poolResult: Option<Handle>, setResult: Option<Handle>)
      returns (r: Result<BuiltSet, BuildError>)
      modifies this`writes, this`calls
      ensures r == BuildOutcome(layoutResult, poolResult, setResult)
      ensures r.Err? ==> writes == old(writes)
      ensures r.Ok? ==> writes == WithSet(old(writes), r.value.descriptorSet)
      ensures calls == old(calls) + BuildCalls(bindings, Tally(ConfigTypes(textureConfigs, bufferConfigs)),
                                               layoutResult, poolResult, setResult, writes)
    {
      ghost var start := calls;
      calls := calls + [CreateSetLayout(bindings)];
      if layoutResult.None? {
        return Err(LayoutCreationFailed);
      }
      var poolSizes := PoolSizes();
      calls := calls + [CreatePool(poolSizes, 1)];
      if poolResult.None? {
        AppendTwo(start, CreateSetLayout(bindings), CreatePool(poolSizes, 1));
        return Err(PoolCreationFailed);
      }
      calls := calls + [AllocateSet(poolResult.value, layoutResult.value)];
      if setResult.None? {
        AppendThree(start, CreateSetLayout(bindings), CreatePool(poolSizes, 1), AllocateSet(poolResult.value, layoutResult.value));
        return Err(SetAllocationFailed);
      }
      writes := PointAtSet(writes, setResult.value);
      calls := calls + [UpdateSets(writes)];
      AppendFour(start, CreateSetLayout(bindings), CreatePool(poolSizes, 1), AllocateSet(poolResult.value, layoutResult.value),
                 UpdateSets(writes));
      r := Ok(BuiltSet(setResult.value, poolResult.value, layoutResult.value));
    }

    /** The two binding loops of build: each config bound, and its write pointed at the config's own info. */
    method BindAll()
      modifies this`bindings, this`writes
      ensures bindings == old(bindings) + BuildBindings(textureConfigs, bufferConfigs)
      ensures writes == old(writes) + BuildWrites(textureConfigs, bufferConfigs)
    {
      BindTextures();
      BindBuffers();
    }

    method BindTextures()
      modifies this`bindings, this`writes
      ensures bindings == old(bindings) + TextureBindings(textureConfigs)
      ensures writes == old(writes) + TextureWrites(textureConfigs)
    {
      var k := 0;
      while k < |textureConfigs|
        invariant 0 <= k <= |textureConfigs|
        invariant bindings == old(bindings) + TextureBindings(textureConfigs)[..k]
        invariant writes == old(writes) + TextureWrites(textureConfigs)[..k]
      {
        Bind(textureConfigs[k].bind);
        writes := writes[|writes| - 1 := writes[|writes| - 1].(info := ImageRef(k))];
        assert TextureBindings(textureConfigs)[..k + 1] == TextureBindings(textureConfigs)[..k] + [BindingOf(textureConfigs[k].bind)];
        assert TextureWrites(textureConfigs)[..k + 1] == TextureWrites(textureConfigs)[..k] + [WriteOf(textureConfigs[k].bind, ImageRef(k))];
        k := k + 1;
      }
    }

    method BindBuffers()
      modifies this`bindings, this`writes
      ensures bindings == old(bindings) + BufferBindings(bufferConfigs)
      ensures writes == old(writes) + BufferWrites(bufferConfigs)
    {
      var k := 0;
      while k < |bufferConfigs|
        invariant 0 <= k <= |bufferConfigs|
        invariant bindings == old(bindings) + BufferBindings(bufferConfigs)[..k]
        invariant writes == old(writes) + BufferWrites(bufferConfigs)[..k]
      {
        Bind(bufferConfigs[k].bind);
        writes := writes[|writes| - 1 := writes[|writes| - 1].(info := BufferRef(k))];
        assert BufferBindings(bufferConfigs)[..k + 1] == BufferBindings(bufferConfigs)[..k] + [BindingOf(bufferConfigs[k].bind)];
        assert BufferWrites(bufferConfigs)[..k + 1] == BufferWrites(bufferConfigs)[..k] + [WriteOf(bufferConfigs[k].bind, BufferRef(k))];
        k := k + 1;
      }
    }

    /** The poolSizeMap loops of build, then the map read out in key order. */
    method PoolSizes() returns (poolSizes: seq<PoolSize>)
      ensures poolSizes == Tally(ConfigTypes(textureConfigs, bufferConfigs))
    {
      ghost var ts := ConfigTypes(textureConfigs, bufferConfigs);
      poolSizes := [];
      var k := 0;
      while k < |textureConfigs|
        invariant 0 <= k <= |textureConfigs|
        invariant poolSizes == Tally(ts[..k])
      {
        assert ts[k] == textureConfigs[k].bind.descriptorType;
        TallyStep(ts, k);
        poolSizes := Bump(poolSizes, textureConfigs[k].bind.descriptorType);
        k := k + 1;
      }
      k := 0;
      while k < |bufferConfigs|
        invariant 0 <= k <= |bufferConfigs|
        invariant poolSizes == Tally(ts[..|textureConfigs| + k])
      {
        var n := |textureConfigs| + k;
        assert ts[n] == bufferConfigs[k].bind.descriptorType;
        TallyStep(ts, n);
        poolSizes := Bump(poolSizes, bufferConfigs[k].bind.descriptorType);
        k := k + 1;
      }
      assert ts[..|textureConfigs| + k] == ts;
    }
  }

  /** The loop of build that points every write, old and new, at the allocated set. */
  method PointAtSet(ws: seq<Write>, descriptorSet: Handle) returns (r: seq<Write>)
    ensures r == WithSet(ws, descriptorSet)
  {
    r := ws;
    var i := 0;
    while i < |r|
      invariant 0 <= i <= |r| == |ws|
      invariant forall k :: 0 <= k < i ==> r[k] == ws[k].(dstSet := descriptorSet)
      invariant forall k :: i <= k < |r| ==> r[k] == ws[k]
    {
      r := r[i := r[i].(dstSet := descriptorSet)];
      i := i + 1;
    }
  }

  /**
   * The bindings and writes are never cleared, so a second build on the
   * same configs submits every binding twice: the layout it creates has
   * twice as many bindings as configs, each config's binding number twice.
   */
  lemma RebuildDuplicatesBindings(textures: seq<TextureConfig>, buffers: seq<BufferConfig>, k: nat)
    requires k < |textures| + |buffers|
    ensures var twice := BuildBindings(textures, buffers) + BuildBindings(textures, buffers);
      |twice| == 2 * (|textures| + |buffers|) && twice[k] == twice[k + |textures| + |buffers|]
  {
  }

  /**
   * build called twice on one builder: the second call appends every
   * binding again, so after it each config's binding sits in the
   * bindings twice, one config count apart.
   */
  method BuildTwice(b: DescriptorSetBuilder, first: (Option<Handle>, Option<Handle>, Option<Handle>),
                    second: (Option<Handle>, Option<Handle>, Option<Handle>))
    returns (r1: Result<BuiltSet, BuildError>, r2: Result<BuiltSet, BuildError>)
    modifies b`bindings, b`writes, b`calls
    ensures var once := BuildBindings(b.textureConfigs, b.bufferConfigs);
      b.bindings == old(b.bindings) + once + once
    ensures var n := |b.textureConfigs| + |b.bufferConfigs|;
      && |b.bindings| == |old(b.bindings)| + 2 * n
      && forall k :: |old(b.bindings)| <= k < |old(b.bindings)| + n ==> b.bindings[k] == b.bindings[k + n]
  {
    r1 := b.Build(first.0, first.1, first.2);
    r2 := b.Build(second.0, second.1, second.2);
    var once := BuildBindings(b.textureConfigs, b.bufferConfigs);
    assert b.bindings == old(b.bindings) + once + once;
    var start, n := |old(b.bindings)|, |b.textureConfigs| + |b.bufferConfigs|;
    forall k | start <= k < start + n
      ensures b.bindings[k] == b.bindings[k + n]
    {
      RebuildDuplicatesBindings(b.textureConfigs, b.bufferConfigs, k - start);
    }
  }
}
