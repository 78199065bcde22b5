/**
 * QueueSelector (src/RHI/Intialization/QueueSelector.hpp): criteria for one
 * queue role, built by chained setters on a value, then `select`, which
 * scores every queue family and writes the best one's index into the
 * target QueueContext.
 */
module QueueSelection {
  import opened Common
  import opened Vk

  /** QueueContext: a queue, its family index and its main command pool. */
  class QueueContext {
    var queue: Handle
    var index: u32
    var mainCmdPool: Handle

    /** The index field is left uninitialised by the source, so it is a parameter here. */
    constructor (initialIndex: u32)
      ensures index == initialIndex && queue == NULL_HANDLE && mainCmdPool == NULL_HANDLE
    {
      index, queue, mainCmdPool := initialIndex, NULL_HANDLE, NULL_HANDLE;
    }
  }

  /** VkQueueFamilyProperties, reduced to the flags the score reads. */
  datatype QueueFamily = QueueFamily(queueFlags: Flags)

  /** vkGetPhysicalDeviceSurfaceSupportKHR: (physical device, surface, family) to supported. */
  type SurfaceQuery = (Handle, Handle, nat) -> bool

  /** The criteria value; the chained setters return a modified copy. */
  datatype QueueSelector = QueueSelector(
    requiredFlags: Flags,
    avoidedFlags: Flags,
    uniqueAgainst: seq<QueueContext>,
    requiresSurfaceSupport: bool,
    device: Handle,
    surface: Handle,
    queueCtxToFit: QueueContext?,
    candidateQueues: seq<QueueFamily>)

  /** startCriteria(queueCtx, families): default criteria for one target. */
  function StartCriteria(ctx: QueueContext?, families: seq<QueueFamily>): (s: QueueSelector)
    ensures s.requiredFlags == 0 && s.avoidedFlags == 0 && s.uniqueAgainst == []
    ensures !s.requiresSurfaceSupport && s.device == NULL_HANDLE && s.surface == NULL_HANDLE
    ensures s.queueCtxToFit == ctx && s.candidateQueues == families
  {
    QueueSelector(0, 0, [], false, NULL_HANDLE, NULL_HANDLE, ctx, families)
  }

  /** startCriteria(base, queueCtx): a copy of base aimed at another target. */
  function StartFrom(base: QueueSelector, ctx: QueueContext?): (r: QueueSelector)
    ensures r.queueCtxToFit == ctx
    ensures r.requiredFlags == base.requiredFlags && r.avoidedFlags == base.avoidedFlags && r.uniqueAgainst == base.uniqueAgainst
    ensures r.requiresSurfaceSupport == base.requiresSurfaceSupport && r.device == base.device && r.surface == base.surface
    ensures r.candidateQueues == base.candidateQueues
  {
    base.(queueCtxToFit := ctx)
  }

  function LoadProperties(s: QueueSelector, families: seq<QueueFamily>): QueueSelector
  {
    s.(candidateQueues := families)
  }

  function AddRequiredFlags(s: QueueSelector, flags: Flags): QueueSelector
  {
    s.(requiredFlags := s.requiredFlags | flags)
  }

  function AddAvoidedFlags(s: QueueSelector, flags: Flags): QueueSelector
  {
    s.(avoidedFlags := s.avoidedFlags | flags)
  }

  /**
   * requireSurfaceSupport(device, surface): the body assigns each parameter
   * to itself, so only the boolean member changes.
   */
  function RequireSurfaceSupport(s: QueueSelector, device: Handle, surface: Handle): QueueSelector
  {
    s.(requiresSurfaceSupport := true)
  }

  /** desireExclusivenessAgainst: appends one context after those already listed. */
  function DesireExclusivenessAgainst(s: QueueSelector, ctx: QueueContext): (r: QueueSelector)
    ensures |r.uniqueAgainst| == |s.uniqueAgainst| + 1 && r.uniqueAgainst[|s.uniqueAgainst|] == ctx
    ensures r.uniqueAgainst[..|s.uniqueAgainst|] == s.uniqueAgainst
    ensures r.(uniqueAgainst := s.uniqueAgainst) == s
  {
    s.(uniqueAgainst := s.uniqueAgainst + [ctx])
  }

  /** clearExclusiveness: drops the uniqueness contexts and keeps every other criterion. */
  function ClearExclusiveness(s: QueueSelector): (r: QueueSelector)
    ensures r.uniqueAgainst == []
    ensures r.requiredFlags == s.requiredFlags && r.avoidedFlags == s.avoidedFlags
    ensures r.requiresSurfaceSupport == s.requiresSurfaceSupport && r.device == s.device && r.surface == s.surface
    ensures r.queueCtxToFit == s.queueCtxToFit && r.candidateQueues == s.candidateQueues
  {
    s.(uniqueAgainst := [])
  }

  /** The current index of every context in a list. */
  function IndicesOf(ctxs: seq<QueueContext>): (r: seq<u32>)
    reads set c | c in ctxs
    ensures |r| == |ctxs| && forall k :: 0 <= k < |ctxs| ==> r[k] == ctxs[k].index
  {
    if ctxs == [] then [] else IndicesOf(ctxs[..|ctxs| - 1]) + [ctxs[|ctxs| - 1].index]
  }

  /** How many recorded indices are neither the candidate nor -1 (uint32 0xFFFFFFFF). */
  function DistinctFrom(seen: seq<u32>, index: nat): (n: nat)
    ensures n <= |seen|
  {
    if seen == [] then 0
    else
      var last := seen[|seen| - 1];
      DistinctFrom(seen[..|seen| - 1], index) + (if last != index && last != QUEUE_FAMILY_IGNORED then 1 else 0)
  }

  predicate Rejects(s: QueueSelector, query: SurfaceQuery, index: nat)
    requires index < |s.candidateQueues|
  {
    || (s.requiresSurfaceSupport && !query(s.device, s.surface, index))
    || s.candidateQueues[index].queueFlags & s.requiredFlags != s.requiredFlags
  }

  /** 100 when a family has none of the avoided flags, 0 otherwise. */
  function AvoidanceBonus(s: QueueSelector, index: nat): (b: int)
    requires index < |s.candidateQueues|
    ensures b == 0 || b == 100
  {
    if s.candidateQueues[index].queueFlags & s.avoidedFlags == 0 then 100 else 0
  }

  /**
   * evaluateQueue, with the uniqueness contexts' indices as they are when
   * it runs: -1 for a family the criteria reject, otherwise the avoidance
   * bonus plus 10 per context whose index is elsewhere.
   */
  function Score(s: QueueSelector, query: SurfaceQuery, seen: seq<u32>, index: nat): (score: int)
    requires index < |s.candidateQueues|
    ensures score == -1 <==> Rejects(s, query, index)
    ensures score != -1 ==> score == AvoidanceBonus(s, index) + 10 * DistinctFrom(seen, index)
  {
    if Rejects(s, query, index) then -1
    else AvoidanceBonus(s, index) + 10 * DistinctFrom(seen, index)
  }

  /** The family `select` may pick: valid, and scoring at least as well as every family. */
  predicate IsBestFamily(s: QueueSelector, query: SurfaceQuery, seen: seq<u32>, k: nat)
  {
    && k < |s.candidateQueues|
    && Score(s, query, seen, k) >= 0
    && forall j :: 0 <= j < |s.candidateQueues| ==> Score(s, query, seen, j) <= Score(s, query, seen, k)
  }

  datatype SelectError = NoQueueFits

  /**
   * The scoring part of `select`: score every family, keep the non-negative
   * ones, fail when none is left, and take a top scorer (std::sort is not
   * stable, so which of several equal scorers is unspecified).
   */
  method ChooseFamily(s: QueueSelector, query: SurfaceQuery, seen: seq<u32>) returns (r: Result<nat, SelectError>)
    ensures r.Err? <==> forall i :: 0 <= i < |s.candidateQueues| ==> Score(s, query, seen, i) < 0
    ensures r.Ok? ==> IsBestFamily(s, query, seen, r.value)
  {
    var best: int := -1;
    var bestScore: int := -1;
    var i := 0;
    while i < |s.candidateQueues|
      invariant 0 <= i <= |s.candidateQueues|
      invariant best == -1 <==> forall j :: 0 <= j < i ==> Score(s, query, seen, j) < 0
      invariant best == -1 ==> bestScore == -1
      invariant best != -1 ==> 0 <= best < i && bestScore == Score(s, query, seen, best) >= 0
      invariant forall j :: 0 <= j < i ==> Score(s, query, seen, j) <= bestScore
    {
      var score := Score(s, query, seen, i);
      if score >= 0 && score > bestScore {
        best, bestScore := i, score;
      }
      i := i + 1;
    }
    if best == -1 {
      return Err(NoQueueFits);
    }
    r := Ok(best);
  }

  /** select(): writes the chosen family into the target context, or throws. */
  method Select(s: QueueSelector, query: SurfaceQuery) returns (r: Result<nat, SelectError>)
    requires s.queueCtxToFit != null && |s.candidateQueues| < U32_MODULUS
    modifies s.queueCtxToFit
    ensures r.Err? ==> forall i :: 0 <= i < |s.candidateQueues| ==> Score(s, query, old(IndicesOf(s.uniqueAgainst)), i) < 0
    ensures (forall i :: 0 <= i < |s.candidateQueues| ==> Score(s, query, old(IndicesOf(s.uniqueAgainst)), i) < 0) ==> r.Err?
    ensures r.Ok? ==> IsBestFamily(s, query, old(IndicesOf(s.uniqueAgainst)), r.value) && s.queueCtxToFit.index == r.value
    ensures r.Err? ==> forall i :: 0 <= i < |s.candidateQueues| ==> Rejects(s, query, i)
    ensures r.Err? ==> s.queueCtxToFit.index == old(s.queueCtxToFit.index)
    ensures s.queueCtxToFit.queue == old(s.queueCtxToFit.queue)
    ensures s.queueCtxToFit.mainCmdPool == old(s.queueCtxToFit.mainCmdPool)
  {
    var seen := IndicesOf(s.uniqueAgainst);
    r := ChooseFamily(s, query, seen);
    if r.Ok? {
      s.queueCtxToFit.index := r.value;
    }
    assert seen == old(IndicesOf(s.uniqueAgainst));
    assert r.Err? <==> forall i :: 0 <= i < |s.candidateQueues| ==> Score(s, query, seen, i) < 0;
    if r.Err? {
      forall i | 0 <= i < |s.candidateQueues| ensures Rejects(s, query, i) {
        ScoreBounds(s, query, seen, i);
      }
    }
  }

  // ---------------------------------------------------------------------
  // Properties of the criteria and the score
  // ---------------------------------------------------------------------

  /** Clearing exclusiveness forgets every desired context, however many were added. */
  lemma ClearForgetsDesired(s: QueueSelector, ctx: QueueContext)
    ensures ClearExclusiveness(DesireExclusivenessAgainst(s, ctx)) == ClearExclusiveness(s)
  {
  }

  /** Flags accumulate by OR, so adding in two steps is adding the union. */
  lemma FlagsAccumulate(s: QueueSelector, a: Flags, b: Flags)
    ensures AddRequiredFlags(AddRequiredFlags(s, a), b) == AddRequiredFlags(s, a | b)
    ensures AddAvoidedFlags(AddAvoidedFlags(s, a), b) == AddAvoidedFlags(s, a | b)
  {
    RequiredFlagsAccumulate(s, a, b);
    AvoidedFlagsAccumulate(s, a, b);
  }

  lemma RequiredFlagsAccumulate(s: QueueSelector, a: Flags, b: Flags)
    ensures AddRequiredFlags(AddRequiredFlags(s, a), b) == AddRequiredFlags(s, a | b)
  {
    var once := AddRequiredFlags(s, a | b);
    var twice := AddRequiredFlags(AddRequiredFlags(s, a), b);
    OrAssociative(s.requiredFlags, a, b);
    assert twice.requiredFlags == once.requiredFlags;
  }

  lemma AvoidedFlagsAccumulate(s: QueueSelector, a: Flags, b: Flags)
    ensures AddAvoidedFlags(AddAvoidedFlags(s, a), b) == AddAvoidedFlags(s, a | b)
  {
    var once := AddAvoidedFlags(s, a | b);
    var twice := AddAvoidedFlags(AddAvoidedFlags(s, a), b);
    OrAssociative(s.avoidedFlags, a, b);
    assert twice.avoidedFlags == once.avoidedFlags;
  }

  /**
   * requireSurfaceSupport leaves the member device and surface as they
   * were, so a selector started by startCriteria asks the surface query
   * about the null device and the null surface.
   */
  lemma SurfaceQueryUsesMembers(s: QueueSelector, device: Handle, surface: Handle)
    ensures RequireSurfaceSupport(s, device, surface).device == s.device
    ensures RequireSurfaceSupport(s, device, surface).surface == s.surface
    ensures RequireSurfaceSupport(s, device, surface) == s.(requiresSurfaceSupport := true)
  {
  }

  /**
   * With no contexts to be unique against (the present criteria), a family
   * scores -1 when rejected and otherwise only its avoidance bonus.
   */
  lemma ClearedScoreIsAvoidanceOnly(s: QueueSelector, query: SurfaceQuery, index: nat)
    requires index < |s.candidateQueues|
    ensures var c := ClearExclusiveness(s);
      IndicesOf(c.uniqueAgainst) == [] &&
      Score(c, query, [], index) == (if Rejects(c, query, index) then -1 else AvoidanceBonus(c, index))
  {
    assert DistinctFrom([], index) == 0;
  }

  /** A score never exceeds the avoidance bonus plus ten per listed context. */
  lemma ScoreBounds(s: QueueSelector, query: SurfaceQuery, seen: seq<u32>, index: nat)
    requires index < |s.candidateQueues|
    ensures -1 <= Score(s, query, seen, index) <= 100 + 10 * |seen|
    ensures !Rejects(s, query, index) ==> Score(s, query, seen, index) >= AvoidanceBonus(s, index)
  {
  }

  /**
   * Avoidance dominates uniqueness while fewer than ten contexts are
   * listed: when some acceptable family has none of the avoided flags, the
   * family `select` picks has none of them either.
   */
  lemma AvoidanceDominates(s: QueueSelector, query: SurfaceQuery, seen: seq<u32>, clean: nat, best: nat)
    requires |seen| < 10
    requires clean < |s.candidateQueues| && !Rejects(s, query, clean)
    requires s.candidateQueues[clean].queueFlags & s.avoidedFlags == 0
    requires IsBestFamily(s, query, seen, best)
    ensures s.candidateQueues[best].queueFlags & s.avoidedFlags == 0
  {
    assert Score(s, query, seen, clean) >= 100;
    assert Score(s, query, seen, best) <= AvoidanceBonus(s, best) + 10 * |seen|;
  }

  /** Each listed context elsewhere adds ten: DistinctFrom counts exactly those entries. */
  lemma {:induction false} DistinctFromCounts(seen: seq<u32>, index: nat)
    ensures DistinctFrom(seen, index) == |seen| <==>
      forall k :: 0 <= k < |seen| ==> seen[k] != index && seen[k] != QUEUE_FAMILY_IGNORED
    ensures DistinctFrom(seen, index) == 0 <==>
      forall k :: 0 <= k < |seen| ==> seen[k] == index || seen[k] == QUEUE_FAMILY_IGNORED
  {
    if seen != [] {
      DistinctFromCounts(seen[..|seen| - 1], index);
      assert forall k :: 0 <= k < |seen| - 1 ==> seen[..|seen| - 1][k] == seen[k];
    }
  }
}
