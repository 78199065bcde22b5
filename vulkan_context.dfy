/**
 * The queue wiring of VulkanContext (src/RHI/VulkanContext.cpp): the four
 * role criteria built from one base selector, the selection order, the
 * queue create infos from a std::set of family indices, the per-role queue
 * and command pool, and the single-time command buffer helpers.
 */
module VulkanContextModel {
  import opened Common
  import opened Vk
  import opened QueueSelection

  /** The native calls the context makes, in order. */
  datatype ContextCall =
    | GetDeviceQueue(family: u32, queueIndex: nat, queue: Handle)
    | CreateCommandPool(family: u32, resetCommandBuffer: bool)
    | AllocateCommandBuffer(pool: Handle, primary: bool, cmd: Handle)
    | BeginCommandBuffer(cmd: Handle, oneTimeSubmit: bool)
    | EndCommandBuffer(cmd: Handle)
    | QueueSubmit(queue: Handle, cmds: seq<Handle>, fence: Handle)
    | QueueWaitIdle(queue: Handle)
    | FreeCommandBuffer(pool: Handle, cmd: Handle)

  /** VkDeviceQueueCreateInfo, reduced to the family and the queue count. */
  datatype QueueCreateInfo = QueueCreateInfo(queueFamilyIndex: u32, queueCount: nat)

  datatype Role = PresentRole | GraphicsRole | TransferRole | ComputeRole

  datatype ContextError = NoQueueFor(role: Role) | CommandPoolCreationFailed

  // ---------------------------------------------------------------------
  // Role criteria
  // ---------------------------------------------------------------------

  /** The base criteria: no target, exclusive against all four role contexts. */
  function BaseCriteria(families: seq<QueueFamily>, g: QueueContext, p: QueueContext,
                        t: QueueContext, c: QueueContext): QueueSelector
  {
    DesireExclusivenessAgainst(DesireExclusivenessAgainst(DesireExclusivenessAgainst(
      DesireExclusivenessAgainst(StartCriteria(null, families), g), p), t), c)
  }

  function PresentCriteria(base: QueueSelector, p: QueueContext, physicalDevice: Handle, surface: Handle): QueueSelector
  {
    ClearExclusiveness(RequireSurfaceSupport(StartFrom(base, p), physicalDevice, surface))
  }

  function GraphicsCriteria(base: QueueSelector, g: QueueContext): QueueSelector
  {
    AddRequiredFlags(StartFrom(base, g), QUEUE_GRAPHICS)
  }

  function TransferCriteria(base: QueueSelector, t: QueueContext): QueueSelector
  {
    AddAvoidedFlags(AddAvoidedFlags(AddRequiredFlags(StartFrom(base, t), QUEUE_TRANSFER), QUEUE_GRAPHICS), QUEUE_COMPUTE)
  }

  function ComputeCriteria(base: QueueSelector, c: QueueContext): QueueSelector
  {
    AddAvoidedFlags(AddAvoidedFlags(AddRequiredFlags(StartFrom(base, c), QUEUE_COMPUTE), QUEUE_GRAPHICS), QUEUE_TRANSFER)
  }

  /**
   * What each role asks for.  The present criteria require surface support
   * with no exclusiveness, and since requireSurfaceSupport does not store
   * its arguments they query the null device and surface.  The other three
   * are exclusive against all four contexts, graphics included.
   */
  lemma RoleCriteriaFields(families: seq<QueueFamily>, g: QueueContext, p: QueueContext, t: QueueContext,
                           c: QueueContext, physicalDevice: Handle, surface: Handle)
    ensures var base := BaseCriteria(families, g, p, t, c);
      && base.uniqueAgainst == [g, p, t, c] && base.candidateQueues == families
      && (var pr := PresentCriteria(base, p, physicalDevice, surface);
          pr.requiresSurfaceSupport && pr.uniqueAgainst == [] && pr.requiredFlags == 0 && pr.avoidedFlags == 0
          && pr.device == NULL_HANDLE && pr.surface == NULL_HANDLE && pr.queueCtxToFit == p)
      && (var gr := GraphicsCriteria(base, g);
          !gr.requiresSurfaceSupport && gr.requiredFlags == QUEUE_GRAPHICS && gr.avoidedFlags == 0
          && gr.uniqueAgainst == [g, p, t, c] && gr.queueCtxToFit == g)
      && (var tr := TransferCriteria(base, t);
          !tr.requiresSurfaceSupport && tr.requiredFlags == QUEUE_TRANSFER
          && tr.avoidedFlags == QUEUE_GRAPHICS | QUEUE_COMPUTE && tr.uniqueAgainst == [g, p, t, c] && tr.queueCtxToFit == t)
      && (var cr := ComputeCriteria(base, c);
          !cr.requiresSurfaceSupport && cr.requiredFlags == QUEUE_COMPUTE
          && cr.avoidedFlags == QUEUE_GRAPHICS | QUEUE_TRANSFER && cr.uniqueAgainst == [g, p, t, c] && cr.queueCtxToFit == c)
  {
    var base := BaseCriteria(families, g, p, t, c);
    var tr := TransferCriteria(base, t);
    assert tr.requiredFlags == QUEUE_TRANSFER by { assert 0 | QUEUE_TRANSFER == QUEUE_TRANSFER; }
    assert tr.avoidedFlags == QUEUE_GRAPHICS | QUEUE_COMPUTE by { assert 0 | QUEUE_GRAPHICS == QUEUE_GRAPHICS; }
    var cr := ComputeCriteria(base, c);
    assert cr.requiredFlags == QUEUE_COMPUTE by { assert 0 | QUEUE_COMPUTE == QUEUE_COMPUTE; }
    assert cr.avoidedFlags == QUEUE_GRAPHICS | QUEUE_TRANSFER by { assert 0 | QUEUE_GRAPHICS == QUEUE_GRAPHICS; }
    var gr := GraphicsCriteria(base, g);
    assert gr.requiredFlags == QUEUE_GRAPHICS by { assert 0 | QUEUE_GRAPHICS == QUEUE_GRAPHICS; }
  }

  /** No family of the list passes the criteria. */
  predicate NoFamilyFits(s: QueueSelector, query: SurfaceQuery)
  {
    forall i :: 0 <= i < |s.candidateQueues| ==> Rejects(s, query, i)
  }

  /** select() on one role, with its exclusiveness list read off beforehand. */
  method Pick(s: QueueSelector, query: SurfaceQuery, ghost seen: seq<u32>) returns (picked: Result<nat, SelectError>)
    requires s.queueCtxToFit != null && |s.candidateQueues| < U32_MODULUS
    requires |seen| == |s.uniqueAgainst| && forall k :: 0 <= k < |seen| ==> seen[k] == s.uniqueAgainst[k].index
    modifies s.queueCtxToFit
    ensures picked.Ok? ==> IsBestFamily(s, query, seen, s.queueCtxToFit.index)
    ensures picked.Err? ==> NoFamilyFits(s, query)
  {
    assert seen == IndicesOf(s.uniqueAgainst);
    picked := Select(s, query);
  }

  // ---------------------------------------------------------------------
  // The std::set of family indices
  // ---------------------------------------------------------------------

  predicate StrictlyIncreasing(xs: seq<u32>)
  {
    forall i, j :: 0 <= i < j < |xs| ==> xs[i] < xs[j]
  }

  /** Insertion into an ordered set kept as an increasing sequence. */
  function InsertOrdered(xs: seq<u32>, x: u32): (r: seq<u32>)
    requires StrictlyIncreasing(xs)
    ensures StrictlyIncreasing(r)
    ensures forall y :: y in r <==> y in xs || y == x
  {
    if xs == [] then [x]
    else if x < xs[0] then [x] + xs
    else if x == xs[0] then xs
    else
      var rest := InsertOrdered(xs[1..], x);
      assert forall k :: 0 <= k < |rest| ==> xs[0] < rest[k] by {
        forall k | 0 <= k < |rest| ensures xs[0] < rest[k] {
          assert rest[k] in xs[1..] || rest[k] == x;
        }
      }
      [xs[0]] + rest
  }

  /** The iteration order of a std::set built from a list: distinct, ascending. */
  function OrderedSetOf(xs: seq<u32>): (r: seq<u32>)
    ensures StrictlyIncreasing(r)
    ensures forall y :: y in r <==> y in xs
  {
    if xs == [] then [] else InsertOrdered(OrderedSetOf(xs[..|xs| - 1]), xs[|xs| - 1])
  }

  /** An increasing sequence has no repeated entries. */
  lemma OrderedSetHasNoRepeats(xs: seq<u32>, i: nat, j: nat)
    requires i < j < |OrderedSetOf(xs)|
    ensures OrderedSetOf(xs)[i] != OrderedSetOf(xs)[j]
  {
  }

  // ---------------------------------------------------------------------
  // The context
  // ---------------------------------------------------------------------

  class VulkanContext {
    var graphicsQueueCtx: QueueContext
    var presentQueueCtx: QueueContext
    var transferQueueCtx: QueueContext
    var computeQueueCtx: QueueContext
    /** The native calls issued so far. */
    var calls: seq<ContextCall>

    ghost predicate Valid()
      reads this
    {
      && graphicsQueueCtx != presentQueueCtx && graphicsQueueCtx != transferQueueCtx
      && graphicsQueueCtx != computeQueueCtx && presentQueueCtx != transferQueueCtx
      && presentQueueCtx != computeQueueCtx && transferQueueCtx != computeQueueCtx
    }

    function Contexts(): seq<QueueContext>
      reads this
    {
      [graphicsQueueCtx, presentQueueCtx, transferQueueCtx, computeQueueCtx]
    }

    /** The four family indices, which start out uninitialised and are parameters here. */
    constructor (g: u32, p: u32, t: u32, c: u32)
      ensures Valid() && calls == []
      ensures graphicsQueueCtx.index == g && presentQueueCtx.index == p
      ensures transferQueueCtx.index == t && computeQueueCtx.index == c
      ensures fresh(graphicsQueueCtx) && fresh(presentQueueCtx) && fresh(transferQueueCtx) && fresh(computeQueueCtx)
    {
      graphicsQueueCtx := new QueueContext(g);
      presentQueueCtx := new QueueContext(p);
      transferQueueCtx := new QueueContext(t);
      computeQueueCtx := new QueueContext(c);
      calls := [];
    }

    /**
     * The selector chain of init: present, graphics, transfer, compute, each
     * scored against the indices already written by the ones before it.
     */
    method SelectQueues(families: seq<QueueFamily>, physicalDevice: Handle, surface: Handle, query: SurfaceQuery)
      returns (r: Result<(), ContextError>)
      requires Valid() && |families| < U32_MODULUS
      modifies graphicsQueueCtx, presentQueueCtx, transferQueueCtx, computeQueueCtx
      ensures var base := BaseCriteria(families, graphicsQueueCtx, presentQueueCtx, transferQueueCtx, computeQueueCtx);
        r.Ok? ==>
          && IsBestFamily(PresentCriteria(base, presentQueueCtx, physicalDevice, surface), query, [],
                          presentQueueCtx.index)
          && IsBestFamily(GraphicsCriteria(base, graphicsQueueCtx), query,
                          [old(graphicsQueueCtx.index), presentQueueCtx.index, old(transferQueueCtx.index), old(computeQueueCtx.index)],
                          graphicsQueueCtx.index)
          && IsBestFamily(TransferCriteria(base, transferQueueCtx), query,
                          [graphicsQueueCtx.index, presentQueueCtx.index, old(transferQueueCtx.index), old(computeQueueCtx.index)],
                          transferQueueCtx.index)
          && IsBestFamily(ComputeCriteria(base, computeQueueCtx), query,
                          [graphicsQueueCtx.index, presentQueueCtx.index, transferQueueCtx.index, old(computeQueueCtx.index)],
                          computeQueueCtx.index)
      ensures var base := BaseCriteria(families, graphicsQueueCtx, presentQueueCtx, transferQueueCtx, computeQueueCtx);
        r.Err? ==> r.error.NoQueueFor? && match r.error.role
          case PresentRole => NoFamilyFits(PresentCriteria(base, presentQueueCtx, physicalDevice, surface), query)
          case GraphicsRole => NoFamilyFits(GraphicsCriteria(base, graphicsQueueCtx), query)
          case TransferRole => NoFamilyFits(TransferCriteria(base, transferQueueCtx), query)
          case ComputeRole => NoFamilyFits(ComputeCriteria(base, computeQueueCtx), query)
    {
      var g, p, t, c := graphicsQueueCtx, presentQueueCtx, transferQueueCtx, computeQueueCtx;
      var base := BaseCriteria(families, g, p, t, c);
      RoleCriteriaFields(families, g, p, t, c, physicalDevice, surface);
      ghost var g0, t0, c0 := g.index, t.index, c.index;

      var present := PresentCriteria(base, p, physicalDevice, surface);
      var picked := Pick(present, query, []);
      if picked.Err? {
        return Err(NoQueueFor(PresentRole));
      }
      ghost var pi := p.index;

      var graphics := GraphicsCriteria(base, g);
      picked := Pick(graphics, query, [g0, pi, t0, c0]);
      if picked.Err? {
        return Err(NoQueueFor(GraphicsRole));
      }
      ghost var gi := g.index;

      var transfer := TransferCriteria(base, t);
      picked := Pick(transfer, query, [gi, pi, t0, c0]);
      if picked.Err? {
        return Err(NoQueueFor(TransferRole));
      }
      ghost var ti := t.index;

      var compute := ComputeCriteria(base, c);
      picked := Pick(compute, query, [gi, pi, ti, c0]);
      if picked.Err? {
        return Err(NoQueueFor(ComputeRole));
      }
      assert g.index == gi && p.index == pi && t.index == ti;
      r := Ok(());
    }

    /** One create info, with one queue, per distinct family index, ascending. */
    method QueueCreateInfos() returns (infos: seq<QueueCreateInfo>)
      ensures var unique := OrderedSetOf([graphicsQueueCtx.index, presentQueueCtx.index,
                                          transferQueueCtx.index, computeQueueCtx.index]);
        && |infos| == |unique|
        && forall k :: 0 <= k < |infos| ==> infos[k] == QueueCreateInfo(unique[k], 1)
    {
      var unique := OrderedSetOf([graphicsQueueCtx.index, presentQueueCtx.index,
                                  transferQueueCtx.index, computeQueueCtx.index]);
      infos := [];
      var i := 0;
      while i < |unique|
        invariant 0 <= i <= |unique| && |infos| == i
        invariant forall k :: 0 <= k < i ==> infos[k] == QueueCreateInfo(unique[k], 1)
      {
        infos := infos + [QueueCreateInfo(unique[i], 1)];
        i := i + 1;
      }
    }

    /** The four family indices, in the order graphics, present, transfer, compute. */
    function Indices(): seq<u32>
      reads this, graphicsQueueCtx, presentQueueCtx, transferQueueCtx, computeQueueCtx
    {
      [graphicsQueueCtx.index, presentQueueCtx.index, transferQueueCtx.index, computeQueueCtx.index]
    }

    /**
     * For each of graphics, present, transfer and compute: queue 0 of its
     * family, then a command pool with resettable buffers.  A failed pool
     * throws: the contexts before it are filled, the failing one has its
     * queue but keeps its old pool, and the later ones are untouched.
     */
    method FillQueueContexts(deviceQueue: (u32, nat) -> Handle, pools: seq<Option<Handle>>)
      returns (r: Result<(), ContextError>)
      requires Valid() && |pools| == 4
      modifies this`calls, graphicsQueueCtx, presentQueueCtx, transferQueueCtx, computeQueueCtx
      ensures Indices() == old(Indices())
      ensures r.Ok? <==> forall k :: 0 <= k < 4 ==> pools[k].Some?
      ensures r.Err? ==> r.error == CommandPoolCreationFailed
      ensures calls == old(calls) + FillCalls(Indices(), deviceQueue, Attempted(pools))
      ensures forall k :: 0 <= k < 4 ==>
        Contexts()[k].queue == (if k < Attempted(pools) then deviceQueue(Indices()[k], 0) else old(Contexts()[k].queue))
      ensures forall k :: 0 <= k < 4 ==>
        Contexts()[k].mainCmdPool == (if k < FirstMissing(pools, 0) then pools[k].value else old(Contexts()[k].mainCmdPool))
    {
      var queues := [graphicsQueueCtx, presentQueueCtx, transferQueueCtx, computeQueueCtx];
      ghost var indices := Indices();
      ghost var oldQueues := [queues[0].queue, queues[1].queue, queues[2].queue, queues[3].queue];
      ghost var oldPools := [queues[0].mainCmdPool, queues[1].mainCmdPool, queues[2].mainCmdPool, queues[3].mainCmdPool];
      var i := 0;
      while i < 4
        invariant 0 <= i <= 4 && queues == Contexts() && Indices() == indices
        invariant forall a, b :: 0 <= a < b < 4 ==> queues[a] != queues[b]
        invariant i <= FirstMissing(pools, 0)
        invariant calls == old(calls) + FillCalls(indices, deviceQueue, i)
        invariant forall k :: 0 <= k < 4 ==>
          queues[k].queue == (if k < i then deviceQueue(indices[k], 0) else oldQueues[k])
        invariant forall k :: 0 <= k < 4 ==>
          queues[k].mainCmdPool == (if k < i then pools[k].value else oldPools[k])
      {
        var ok := FillContext(queues[i], deviceQueue, pools[i]);
        assert calls == old(calls) + FillCalls(indices, deviceQueue, i + 1);
        if !ok {
          FirstMissingAt(pools, 0, i);
          return Err(CommandPoolCreationFailed);
        }
        i := i + 1;
      }
      r := Ok(());
    }

    /** One turn of the fill: the context's queue, then its pool, which is stored only when created. */
    method FillContext(ctx: QueueContext, deviceQueue: (u32, nat) -> Handle, pool: Option<Handle>) returns (ok: bool)
      modifies this`calls, ctx
      ensures ok <==> pool.Some?
      ensures ctx.index == old(ctx.index) && ctx.queue == deviceQueue(ctx.index, 0)
      ensures ctx.mainCmdPool == (if ok then pool.value else old(ctx.mainCmdPool))
      ensures calls == old(calls) + [GetDeviceQueue(ctx.index, 0, ctx.queue), CreateCommandPool(ctx.index, true)]
    {
      ctx.queue := deviceQueue(ctx.index, 0);
      calls := calls + [GetDeviceQueue(ctx.index, 0, ctx.queue), CreateCommandPool(ctx.index, true)];
      ok := pool.Some?;
      if ok {
        ctx.mainCmdPool := pool.value;
      }
    }

    /** singleTimeCmdBegin: one primary buffer from the context's pool, begun for one submission. */
    method SingleTimeCmdBegin(ctx: QueueContext, fromPool: Handle) returns (cmd: Handle)
      modifies this`calls
      ensures cmd == fromPool
      ensures calls == old(calls) + BeginCalls(ctx.mainCmdPool, cmd)
    {
      cmd := fromPool;
      calls := calls + [AllocateCommandBuffer(ctx.mainCmdPool, true, cmd), BeginCommandBuffer(cmd, true)];
    }

    /** singleTimeCmdSubmit: end, submit without a fence, wait for the queue to go idle, free. */
    method SingleTimeCmdSubmit(ctx: QueueContext, cmd: Handle)
      modifies this`calls
      ensures calls == old(calls) + SubmitCalls(ctx.queue, ctx.mainCmdPool, cmd)
    {
      calls := calls + [EndCommandBuffer(cmd), QueueSubmit(ctx.queue, [cmd], NULL_HANDLE),
                        QueueWaitIdle(ctx.queue), FreeCommandBuffer(ctx.mainCmdPool, cmd)];
    }
  }

  /** The position of the first pool creation that fails, counting from `i`; |pools| when none does. */
  function FirstMissing(pools: seq<Option<Handle>>, i: nat): (n: nat)
    requires i <= |pools|
    ensures i <= n <= |pools|
    ensures forall k :: i <= k < n ==> pools[k].Some?
    ensures n < |pools| ==> pools[n].None?
    decreases |pools| - i
  {
    if i == |pools| || pools[i].None? then i else FirstMissing(pools, i + 1)
  }

  /** A failing creation at `m`, after successes from `i` on, is the first failure. */
  lemma FirstMissingAt(pools: seq<Option<Handle>>, i: nat, m: nat)
    requires i <= m < |pools| && pools[m].None?
    requires forall k :: i <= k < m ==> pools[k].Some?
    ensures FirstMissing(pools, i) == m
  {
  }

  /** How many contexts the fill reaches: all four, or up to and including the failing one. */
  function Attempted(pools: seq<Option<Handle>>): nat
    requires |pools| == 4
  {
    var n := FirstMissing(pools, 0);
    if n < 4 then n + 1 else 4
  }

  /** The calls of the first n turns of the fill: the queue of each context, then its pool. */
  function FillCalls(indices: seq<u32>, deviceQueue: (u32, nat) -> Handle, n: nat): (calls: seq<ContextCall>)
    requires n <= |indices|
    ensures |calls| == 2 * n
  {
    if n == 0 then []
    else FillCalls(indices, deviceQueue, n - 1)
         + [GetDeviceQueue(indices[n - 1], 0, deviceQueue(indices[n - 1], 0)), CreateCommandPool(indices[n - 1], true)]
  }

  /** Turn k of the fill is the queue query, then the pool creation, of context k. */
  lemma {:induction false} FillCallsAt(indices: seq<u32>, deviceQueue: (u32, nat) -> Handle, n: nat, k: nat)
    requires k < n <= |indices|
    ensures FillCalls(indices, deviceQueue, n)[2 * k] == GetDeviceQueue(indices[k], 0, deviceQueue(indices[k], 0))
    ensures FillCalls(indices, deviceQueue, n)[2 * k + 1] == CreateCommandPool(indices[k], true)
  {
    if k < n - 1 {
      FillCallsAt(indices, deviceQueue, n - 1, k);
    }
  }

  function BeginCalls(pool: Handle, cmd: Handle): seq<ContextCall>
  {
    [AllocateCommandBuffer(pool, true, cmd), BeginCommandBuffer(cmd, true)]
  }

  function SubmitCalls(queue: Handle, pool: Handle, cmd: Handle): seq<ContextCall>
  {
    [EndCommandBuffer(cmd), QueueSubmit(queue, [cmd], NULL_HANDLE), QueueWaitIdle(queue), FreeCommandBuffer(pool, cmd)]
  }

  /**
   * A single-time submission is complete when the helper returns: its only
   * submission carries no fence and is followed by an idle wait on the same
   * queue before the buffer is freed.
   */
  lemma SingleTimeSubmitWaitsBeforeFree(queue: Handle, pool: Handle, cmd: Handle)
    ensures var trace := SubmitCalls(queue, pool, cmd);
      forall i :: 0 <= i < |trace| && trace[i].QueueSubmit? ==>
        && trace[i].fence == NULL_HANDLE && trace[i].cmds == [cmd]
        && i + 2 < |trace| && trace[i + 1] == QueueWaitIdle(trace[i].queue)
        && trace[i + 2] == FreeCommandBuffer(pool, cmd)
  {
  }
}
