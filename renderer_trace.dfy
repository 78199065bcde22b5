/**
 * The native calls InferusRenderer makes after Init
 * (src/Engine/InferusRenderer/InferusRenderer.cpp:833-1110), as trace
 * events, with the two pieces of bookkeeping the trace carries: the state
 * of each frame's in-flight fence, and the swapchain-image table that
 * RecreateSwapchain resizes and CleanupSwapchainImages walks.
 */
module RendererTrace {
  import opened Common
  import opened Vk
  import VulkanContextModel

  /** MAX_FRAMES_IN_FLIGHT (src/Engine/InferusRenderer/InferusRenderer.hpp:87). */
  const MAX_FRAMES_IN_FLIGHT: nat := 2

  /** SwapchainImage: the image, its view and its render-finished semaphore. */
  datatype SwapchainImage = SwapchainImage(image: Handle, imageView: Handle, renderFinished: Handle)

  /** QueueContext: the family index, the queue and its main command pool, fixed once Init is done. */
  datatype QueueCtx = QueueCtx(index: u32, queue: Handle, mainCmdPool: Handle)

  /** FrameData: the image-available semaphore and the command buffer; its fence is tracked by slot. */
  datatype FrameData = FrameData(imageAvailable: Handle, cmdBuffer: Handle)

  const EMPTY_SWAPCHAIN_IMAGE: SwapchainImage := SwapchainImage(NULL_HANDLE, NULL_HANDLE, NULL_HANDLE)

  datatype RendererCall =
    | DeviceWaitIdle
    | CreateSwapchain(extent: Extent2D, oldSwapchain: Handle)
    | CreateImageView(image: Handle, format: nat)
    | CreateSemaphore
    | DestroyImageView(imageView: Handle)
    | DestroySemaphore(semaphore: Handle)
    | DestroySwapchain(swapchain: Handle)
    /** vkWaitForFences on the frame fence of `slot`. */
    | WaitForFence(slot: nat)
    | AcquireNextImage(slot: nat)
    /** vkResetCommandBuffer and vkBeginCommandBuffer on the frame's buffer. */
    | BeginFrameCommands(cmd: Handle)
    | ResetFence(slot: nat)
    /** Everything recorded between the fence reset and vkEndCommandBuffer. */
    | RecordFrame(cmd: Handle, imageIndex: nat)
    /** The frame submission, signalling the fence of `slot`. */
    | FrameSubmit(queue: Handle, cmd: Handle, waitSemaphore: Handle, signalSemaphore: Handle, slot: nat)
    | QueuePresent(queue: Handle, imageIndex: nat, waitSemaphore: Handle)
    /** The single-time command helpers' calls. */
    | Context(call: VulkanContextModel.ContextCall)
    /** BufferSystem.upload with a command buffer: host write into `staging`, recorded copy into `dst`. */
    | StagedUpload(cmd: Handle, staging: nat, dst: nat, size: nat)
    /** BufferSystem.upload without one: host write into `dst`. */
    | HostUpload(dst: nat, size: nat)
    | PipelineBarrier(cmd: Handle, srcStage: Flags, dstStage: Flags, barrier: ImageBarrier)
    | CopyBufferToImage(cmd: Handle, buffer: Handle, image: Handle, layout: ImageLayout)

  /** The single-time helpers' calls as renderer events. */
  function Lift(calls: seq<VulkanContextModel.ContextCall>): (r: seq<RendererCall>)
    ensures |r| == |calls| && forall k :: 0 <= k < |calls| ==> r[k] == Context(calls[k])
    ensures NoFenceCalls(r)
  {
    seq(|calls|, k requires 0 <= k < |calls| => Context(calls[k]))
  }

  // ---------------------------------------------------------------------
  // Frame fences
  // ---------------------------------------------------------------------

  /**
   * One frame fence: signalled, reset with nothing submitted, or reset and
   * attached to a submission the GPU has not finished.
   */
  datatype FenceState = Signaled | Unsignaled | InFlight

  /**
   * The fence of `slot` after one event, or None when the event is invalid
   * for it: a wait on a fence nothing will signal never returns, a reset of
   * a fence with a pending submission and a submission with a fence that
   * is not unsignaled both break the Vulkan usage rules.  A wait that
   * returns means the attached submission has finished.
   */
  function FenceStep(f: FenceState, e: RendererCall, slot: nat): Option<FenceState>
  {
    match e
    case WaitForFence(s) => if s != slot then Some(f) else if f == Unsignaled then None else Some(Signaled)
    case ResetFence(s) => if s != slot then Some(f) else if f == InFlight then None else Some(Unsignaled)
    case FrameSubmit(_, _, _, _, s) => if s != slot then Some(f) else if f != Unsignaled then None else Some(InFlight)
    case _ => Some(f)
  }

  /** The fence of `slot` after a whole trace; every fence is created signalled. */
  function FenceAfter(trace: seq<RendererCall>, slot: nat): Option<FenceState>
  {
    if trace == [] then Some(Signaled)
    else match FenceAfter(trace[..|trace| - 1], slot)
      case None => None
      case Some(f) => FenceStep(f, trace[|trace| - 1], slot)
  }

  lemma FenceAfterAppend(trace: seq<RendererCall>, e: RendererCall, slot: nat)
    ensures FenceAfter(trace + [e], slot) ==
      (match FenceAfter(trace, slot) case None => None case Some(f) => FenceStep(f, e, slot))
  {
    assert (trace + [e])[..|trace|] == trace;
  }

  /** Calls that no fence rule looks at: no wait, reset or submission. */
  predicate NoFenceCalls(es: seq<RendererCall>)
  {
    forall k :: 0 <= k < |es| ==> !es[k].WaitForFence? && !es[k].ResetFence? && !es[k].FrameSubmit?
  }

  /** The fences a trace leaves, one per frame slot. */
  predicate FencesAre(trace: seq<RendererCall>, fences: seq<FenceState>)
  {
    |fences| == MAX_FRAMES_IN_FLIGHT && forall s :: 0 <= s < MAX_FRAMES_IN_FLIGHT ==> FenceAfter(trace, s) == Some(fences[s])
  }

  /** A call that is no fence's wait, reset or submission leaves every fence as it was. */
  lemma FencesAfterOther(trace: seq<RendererCall>, fences: seq<FenceState>, e: RendererCall)
    requires FencesAre(trace, fences) && !e.WaitForFence? && !e.ResetFence? && !e.FrameSubmit?
    ensures FencesAre(trace + [e], fences)
  {
    forall s | 0 <= s < MAX_FRAMES_IN_FLIGHT
      ensures FenceAfter(trace + [e], s) == Some(fences[s])
    {
      FenceAfterAppend(trace, e, s);
    }
  }

  /** A valid wait, reset or submission on `slot` moves that fence alone. */
  lemma FencesAfterStep(trace: seq<RendererCall>, fences: seq<FenceState>, e: RendererCall, slot: nat, next: FenceState)
    requires FencesAre(trace, fences) && slot < MAX_FRAMES_IN_FLIGHT
    requires (e.WaitForFence? || e.ResetFence? || e.FrameSubmit?) && e.slot == slot
    requires FenceStep(fences[slot], e, slot) == Some(next)
    ensures FencesAre(trace + [e], fences[slot := next])
  {
    forall s | 0 <= s < MAX_FRAMES_IN_FLIGHT
      ensures FenceAfter(trace + [e], s) == Some(fences[slot := next][s])
    {
      FenceAfterAppend(trace, e, s);
    }
  }

  /**
   * The frame submissions on `slot` that no later wait on `slot` has
   * retired: a wait retires all of them, a submission adds one.
   */
  function Unretired(trace: seq<RendererCall>, slot: nat): nat
  {
    if trace == [] then 0
    else
      var e := trace[|trace| - 1];
      var before := Unretired(trace[..|trace| - 1], slot);
      if e == WaitForFence(slot) then 0
      else if e.FrameSubmit? && e.slot == slot then before + 1
      else before
  }

  /**
   * In a trace that keeps the fence rules, a slot has at most one
   * unretired submission, and has one exactly while its fence is in flight.
   */
  lemma {:induction false} UnretiredMatchesFence(trace: seq<RendererCall>, slot: nat)
    requires FenceAfter(trace, slot).Some?
    ensures Unretired(trace, slot) == (if FenceAfter(trace, slot) == Some(InFlight) then 1 else 0)
    ensures Unretired(trace, slot) <= 1
    decreases |trace|
  {
    if trace != [] {
      var before := trace[..|trace| - 1];
      UnretiredMatchesFence(before, slot);
    }
  }

  /**
   * The frame bound: with both frame fences kept by the rules, at most
   * MAX_FRAMES_IN_FLIGHT frame submissions are unretired at any time.
   */
  lemma FramesInFlightBound(trace: seq<RendererCall>)
    requires forall s :: 0 <= s < MAX_FRAMES_IN_FLIGHT ==> FenceAfter(trace, s).Some?
    ensures Unretired(trace, 0) + Unretired(trace, 1) <= MAX_FRAMES_IN_FLIGHT
  {
    UnretiredMatchesFence(trace, 0);
    UnretiredMatchesFence(trace, 1);
  }

  // ---------------------------------------------------------------------
  // Swapchain images
  // ---------------------------------------------------------------------

  /** std::vector::resize: truncate, or pad with value-initialised entries. */
  function Resized(images: seq<SwapchainImage>, n: nat): (r: seq<SwapchainImage>)
    ensures |r| == n
    ensures forall k :: 0 <= k < n && k < |images| ==> r[k] == images[k]
    ensures forall k :: |images| <= k < n ==> r[k] == EMPTY_SWAPCHAIN_IMAGE
  {
    if n <= |images| then images[..n] else images + seq(n - |images|, _ => EMPTY_SWAPCHAIN_IMAGE)
  }

  /** The cleanup of one entry: its view and then its semaphore, when not null. */
  function EntryCleanupCalls(img: SwapchainImage): seq<RendererCall>
  {
    (if img.imageView != NULL_HANDLE then [DestroyImageView(img.imageView)] else [])
    + (if img.renderFinished != NULL_HANDLE then [DestroySemaphore(img.renderFinished)] else [])
  }

  /** CleanupSwapchainImages: every entry's cleanup, in table order. */
  function CleanupCalls(images: seq<SwapchainImage>): seq<RendererCall>
  {
    if images == [] then [] else EntryCleanupCalls(images[0]) + CleanupCalls(images[1..])
  }

  /** The cleanup of a suffix is its first entry's, then the rest's. */
  lemma CleanupCallsAt(images: seq<SwapchainImage>, i: nat)
    requires i < |images|
    ensures CleanupCalls(images[i..]) == EntryCleanupCalls(images[i]) + CleanupCalls(images[i + 1..])
  {
    assert images[i..][1..] == images[i + 1..];
  }

  /** The cleanup destroys a view exactly when some entry holds it. */
  lemma {:induction false} CleanupDestroysExactlyHeldViews(images: seq<SwapchainImage>, view: Handle)
    requires view != NULL_HANDLE
    ensures DestroyImageView(view) in CleanupCalls(images) <==> exists k :: 0 <= k < |images| && images[k].imageView == view
  {
    if images != [] {
      CleanupDestroysExactlyHeldViews(images[1..], view);
      var rest := CleanupCalls(images[1..]);
      var img := images[0];
      var head := EntryCleanupCalls(img);
      assert CleanupCalls(images) == head + rest;
      assert DestroyImageView(view) in head <==> img.imageView == view;
      if exists k :: 0 <= k < |images| && images[k].imageView == view {
        var k :| 0 <= k < |images| && images[k].imageView == view;
        if k > 0 {
          assert images[1..][k - 1].imageView == view;
        }
      }
      if exists k :: 0 <= k < |images[1..]| && images[1..][k].imageView == view {
        var k :| 0 <= k < |images[1..]| && images[1..][k].imageView == view;
        assert images[k + 1].imageView == view;
      }
    }
  }

  /**
   * RecreateSwapchain resizes the table before cleaning it up, so when the
   * new swapchain has fewer images, the views of the dropped entries are
   * never destroyed (as long as no kept entry shares them).
   */
  lemma ShrinkLeavesDroppedViews(images: seq<SwapchainImage>, n: nat, k: nat)
    requires n <= k < |images| && images[k].imageView != NULL_HANDLE
    requires forall j :: 0 <= j < n ==> images[j].imageView != images[k].imageView
    ensures DestroyImageView(images[k].imageView) !in CleanupCalls(Resized(images, n))
  {
    CleanupDestroysExactlyHeldViews(Resized(images, n), images[k].imageView);
  }

  /** When the table does not shrink, every view it held is destroyed. */
  lemma GrowthCleansEveryView(images: seq<SwapchainImage>, n: nat, k: nat)
    requires |images| <= n && k < |images| && images[k].imageView != NULL_HANDLE
    ensures DestroyImageView(images[k].imageView) in CleanupCalls(Resized(images, n))
  {
    CleanupDestroysExactlyHeldViews(Resized(images, n), images[k].imageView);
    assert Resized(images, n)[k].imageView == images[k].imageView;
  }
}
