/**
 * The per-call state of InferusRenderer
 * (src/Engine/InferusRenderer/InferusRenderer.cpp): the extent, scissor and
 * render area that Resize clamps, the swapchain and its image table that
 * RecreateSwapchain regenerates, the two frame fences and the
 * TargetFrameIndex ring that Render advances, and the trace of native calls.
 */
module Renderer {
  import opened Common
  import opened Vk
  import opened RendererTrace
  import OwnershipTransfer
  import ImagePool
  import VulkanContextModel

  /** The part of VkSurfaceCapabilitiesKHR that Resize reads. */
  datatype SurfaceCapabilities = SurfaceCapabilities(minImageExtent: Extent2D, maxImageExtent: Extent2D)

  /** The two runtime_errors RecreateSwapchain can throw. */
  datatype RenderError = SwapchainCreationFailed | SwapchainImageSetupFailed

  /** The creation calls of the regenerated entries, up to and including the first failure. */
  function CreationCalls(images: seq<Handle>, format: nat, views: seq<Option<Handle>>, semaphores: seq<Option<Handle>>)
    : seq<RendererCall>
    requires |views| == |semaphores| == |images|
  {
    if images == [] then []
    else if views[0].None? then [CreateImageView(images[0], format)]
    else if semaphores[0].None? then [CreateImageView(images[0], format), CreateSemaphore]
    else [CreateImageView(images[0], format), CreateSemaphore] + CreationCalls(images[1..], format, views[1..], semaphores[1..])
  }

  /** The table holds each new image with its created view and semaphore. */
  predicate TableHolds(table: seq<SwapchainImage>, images: seq<Handle>, views: seq<Option<Handle>>, semaphores: seq<Option<Handle>>)
  {
    |table| == |images| == |views| == |semaphores|
    && forall k :: 0 <= k < |images| ==>
      views[k].Some? && semaphores[k].Some? && table[k] == SwapchainImage(images[k], views[k].value, semaphores[k].value)
  }

  /** Every view and semaphore creation of the regenerated entries succeeds. */
  predicate AllCreated(views: seq<Option<Handle>>, semaphores: seq<Option<Handle>>)
  {
    (forall k :: 0 <= k < |views| ==> views[k].Some?) && (forall k :: 0 <= k < |semaphores| ==> semaphores[k].Some?)
  }

  /** What RecreateSwapchain returns: which of its two runtime_errors, if any, it throws. */
  function RecreateOutcome(created: Option<Handle>, views: seq<Option<Handle>>, semaphores: seq<Option<Handle>>)
    : Result<(), RenderError>
  {
    if created.None? then Err(SwapchainCreationFailed)
    else if !AllCreated(views, semaphores) then Err(SwapchainImageSetupFailed)
    else Ok(())
  }

  /**
   * The calls of RecreateSwapchain: wait idle, create; if that succeeded,
   * clean up the table already resized to the new image count, create the
   * entries up to the first failure and, when none failed, destroy the
   * old swapchain.
   */
  function RecreateCalls(oldSwapchain: Handle, extent: Extent2D, table: seq<SwapchainImage>, created: Option<Handle>,
                         images: seq<Handle>, format: nat, views: seq<Option<Handle>>, semaphores: seq<Option<Handle>>)
    : seq<RendererCall>
    requires |views| == |semaphores| == |images|
  {
    [DeviceWaitIdle, CreateSwapchain(extent, oldSwapchain)]
    + (if created.None? then [] else InstallCalls(oldSwapchain, table, created.value, images, format, views, semaphores))
  }

  /** The calls after a successful creation of `newSwapchain`. */
  function InstallCalls(oldSwapchain: Handle, table: seq<SwapchainImage>, newSwapchain: Handle,
                        images: seq<Handle>, format: nat, views: seq<Option<Handle>>, semaphores: seq<Option<Handle>>)
    : seq<RendererCall>
    requires |views| == |semaphores| == |images|
  {
    CleanupCalls(Resized(table, |images|)) + CreationCalls(images, format, views, semaphores)
    + (if AllCreated(views, semaphores) && newSwapchain != NULL_HANDLE then [DestroySwapchain(oldSwapchain)] else [])
  }

  /** The wait on the frame's fence and the image acquire that start every Render. */
  function AcquireCalls(slot: nat): seq<RendererCall>
  {
    [WaitForFence(slot), AcquireNextImage(slot)]
  }

  /**
   * The rest of a frame that acquired image `imageIndex`: the buffer is
   * begun, the fence reset, the frame recorded and submitted waiting on the
   * image-available semaphore and signalling the image's render-finished
   * semaphore and the fence, and the image presented after that semaphore.
   */
  function FrameCalls(slot: nat, frame: FrameData, imageIndex: nat, finished: Handle, graphicsQueue: Handle, presentQueue: Handle)
    : seq<RendererCall>
  {
    [BeginFrameCommands(frame.cmdBuffer), ResetFence(slot), RecordFrame(frame.cmdBuffer, imageIndex),
     FrameSubmit(graphicsQueue, frame.cmdBuffer, frame.imageAvailable, finished, slot),
     QueuePresent(presentQueue, imageIndex, finished)]
  }

  class InferusRenderer {
    const graphics: QueueCtx
    const present: QueueCtx
    const transfer: QueueCtx
    const frames: seq<FrameData>
    const surfaceFormat: nat

    var extent: Extent2D
    var scissorExtent: Extent2D
    var renderAreaExtent: Extent2D
    var swapchain: Handle
    var swapchainImages: seq<SwapchainImage>
    var swapchainImageCount: u32
    var fences: seq<FenceState>
    var targetFrameIndex: nat
    var trace: seq<RendererCall>

    /** The fences are what the trace made of them, and the ring index names a frame. */
    predicate Valid()
      reads this`fences, this`targetFrameIndex, this`trace
    {
      |frames| == MAX_FRAMES_IN_FLIGHT && |fences| == MAX_FRAMES_IN_FLIGHT
      && targetFrameIndex < MAX_FRAMES_IN_FLIGHT
      && FencesAre(trace, fences)
    }

    /**
     * The state Init leaves for the calls modelled here, short of its
     * RecreateSwapchain(VK_NULL_HANDLE) at InferusRenderer.cpp:420: the
     * chosen queues, one frame per slot with its fence created signalled,
     * frame 0 next, and no swapchain yet.  The caller completes Init by
     * calling RecreateSwapchain(NULL_HANDLE, ...) on the new object.
     */
    constructor (graphics: QueueCtx, present: QueueCtx, transfer: QueueCtx, frames: seq<FrameData>,
                 surfaceFormat: nat, extent: Extent2D)
      requires |frames| == MAX_FRAMES_IN_FLIGHT
      ensures Valid()
      ensures this.graphics == graphics && this.present == present && this.transfer == transfer
      ensures this.frames == frames && this.surfaceFormat == surfaceFormat
      ensures this.extent == extent && scissorExtent == extent && renderAreaExtent == extent
      ensures fences == [Signaled, Signaled] && targetFrameIndex == 0 && trace == []
      ensures swapchain == NULL_HANDLE && swapchainImages == []
      ensures NoFenceReset()
    {
      this.graphics := graphics;
      this.present := present;
      this.transfer := transfer;
      this.frames := frames;
      this.surfaceFormat := surfaceFormat;
      this.extent := extent;
      scissorExtent := extent;
      renderAreaExtent := extent;
      swapchain := NULL_HANDLE;
      swapchainImages := [];
      swapchainImageCount := 0;
      fences := [Signaled, Signaled];
      targetFrameIndex := 0;
      trace := [];
    }

    /**
     * Between two calls no fence is left reset with no submission to
     * signal it: a fence is reset only right before the submission that
     * signals it. The constructor establishes this and Render keeps it, so
     * every Render meets its own precondition on the fence it waits for.
     */
    predicate NoFenceReset()
      reads this
    {
      forall s :: 0 <= s < |fences| ==> fences[s] != Unsignaled
    }

    /** Append one call that no fence rule looks at. */
    method Emit(e: RendererCall)
      requires Valid() && !e.WaitForFence? && !e.ResetFence? && !e.FrameSubmit?
      modifies this`trace
      ensures Valid() && trace == old(trace) + [e]
    {
      FencesAfterOther(trace, fences, e);
      trace := trace + [e];
    }

    /** Append calls that no fence rule looks at. */
    method EmitAll(es: seq<RendererCall>)
      requires Valid() && NoFenceCalls(es)
      modifies this`trace
      ensures Valid() && trace == old(trace) + es
    {
      var i := 0;
      while i < |es|
        invariant 0 <= i <= |es| && Valid() && trace == old(trace) + es[..i]
      {
        Emit(es[i]);
        assert es[..i + 1] == es[..i] + [es[i]];
        i := i + 1;
      }
      assert es[..i] == es;
    }

    /**
     * Render: wait on the frame's fence, acquire an image; when the
     * swapchain is out of date return at once, else reset the fence, record,
     * submit signalling the fence, present, and advance the ring.
     */
    method Render(outOfDate: bool, imageIndex: nat)
      requires Valid()
      requires !outOfDate ==> imageIndex < |swapchainImages|
      requires fences[targetFrameIndex] != Unsignaled
      modifies this`trace, this`fences, this`targetFrameIndex
      ensures Valid()
      ensures old(NoFenceReset()) ==> NoFenceReset()
      ensures outOfDate ==> trace == old(trace) + AcquireCalls(old(targetFrameIndex))
      ensures outOfDate ==> targetFrameIndex == old(targetFrameIndex) && fences == old(fences)[old(targetFrameIndex) := Signaled]
      ensures !outOfDate ==> targetFrameIndex == (old(targetFrameIndex) + 1) % MAX_FRAMES_IN_FLIGHT
      ensures !outOfDate ==> fences == old(fences)[old(targetFrameIndex) := InFlight]
      ensures !outOfDate ==>
        trace == old(trace) + AcquireCalls(old(targetFrameIndex))
                 + FrameCalls(old(targetFrameIndex), frames[old(targetFrameIndex)], imageIndex,
                              swapchainImages[imageIndex].renderFinished, graphics.queue, present.queue)
    {
      var slot := targetFrameIndex;
      ghost var t0 := trace;
      SetFence(WaitForFence(slot), slot, Signaled);
      Emit(AcquireNextImage(slot));
      assert trace == t0 + AcquireCalls(slot);
      if outOfDate {
        return;
      }
      SubmitFrame(slot, imageIndex);
      targetFrameIndex := (targetFrameIndex + 1) % MAX_FRAMES_IN_FLIGHT;
    }

    /** The part of Render after a successful acquire: record, submit signalling the fence, present. */
    method SubmitFrame(slot: nat, imageIndex: nat)
      requires Valid() && slot < MAX_FRAMES_IN_FLIGHT && imageIndex < |swapchainImages|
      requires fences[slot] == Signaled
      modifies this`trace, this`fences
      ensures Valid() && fences == old(fences)[slot := InFlight]
      ensures trace == old(trace) + FrameCalls(slot, frames[slot], imageIndex, swapchainImages[imageIndex].renderFinished,
                                               graphics.queue, present.queue)
    {
      var frame := frames[slot];
      var finished := swapchainImages[imageIndex].renderFinished;
      RecordFrameCommands(slot, frame, imageIndex);
      SubmitAndPresent(slot, frame, imageIndex, finished);
    }

    /** Begin the frame's buffer, reset its fence and record the frame. */
    method RecordFrameCommands(slot: nat, frame: FrameData, imageIndex: nat)
      requires Valid() && slot < MAX_FRAMES_IN_FLIGHT && fences[slot] == Signaled
      modifies this`trace, this`fences
      ensures Valid() && fences == old(fences)[slot := Unsignaled]
      ensures trace == old(trace) + [BeginFrameCommands(frame.cmdBuffer), ResetFence(slot), RecordFrame(frame.cmdBuffer, imageIndex)]
    {
      Emit(BeginFrameCommands(frame.cmdBuffer));
      SetFence(ResetFence(slot), slot, Unsignaled);
      Emit(RecordFrame(frame.cmdBuffer, imageIndex));
    }

    /** Submit the recorded frame signalling its fence, then present the image. */
    method SubmitAndPresent(slot: nat, frame: FrameData, imageIndex: nat, finished: Handle)
      requires Valid() && slot < MAX_FRAMES_IN_FLIGHT && fences[slot] == Unsignaled
      modifies this`trace, this`fences
      ensures Valid() && fences == old(fences)[slot := InFlight]
      ensures trace == old(trace) + [FrameSubmit(graphics.queue, frame.cmdBuffer, frame.imageAvailable, finished, slot),
                                     QueuePresent(present.queue, imageIndex, finished)]
    {
      SetFence(FrameSubmit(graphics.queue, frame.cmdBuffer, frame.imageAvailable, finished, slot), slot, InFlight);
      Emit(QueuePresent(present.queue, imageIndex, finished));
    }

    /** Append a fence event of `slot` that the rules allow, moving that fence to `next`. */
    method SetFence(e: RendererCall, slot: nat, next: FenceState)
      requires Valid() && slot < MAX_FRAMES_IN_FLIGHT
      requires (e.WaitForFence? || e.ResetFence? || e.FrameSubmit?) && e.slot == slot
      requires FenceStep(fences[slot], e, slot) == Some(next)
      modifies this`trace, this`fences
      ensures Valid() && trace == old(trace) + [e] && fences == old(fences)[slot := next]
    {
      FencesAfterStep(trace, fences, e, slot, next);
      trace := trace + [e];
      fences := fences[slot := next];
    }

    /**
     * Between any two calls, each frame slot has at most one submission
     * that no wait has retired, so at most MAX_FRAMES_IN_FLIGHT frames are
     * in flight, and a slot whose fence is not in flight has none.
     */
    lemma InFlightBound()
      requires Valid()
      ensures Unretired(trace, 0) + Unretired(trace, 1) <= MAX_FRAMES_IN_FLIGHT
      ensures forall s :: 0 <= s < MAX_FRAMES_IN_FLIGHT ==> Unretired(trace, s) <= 1
      ensures forall s :: 0 <= s < MAX_FRAMES_IN_FLIGHT && fences[s] != InFlight ==> Unretired(trace, s) == 0
    {
      FramesInFlightBound(trace);
      forall s | 0 <= s < MAX_FRAMES_IN_FLIGHT
        ensures Unretired(trace, s) <= 1 && (fences[s] != InFlight ==> Unretired(trace, s) == 0)
      {
        UnretiredMatchesFence(trace, s);
      }
    }

    /**
     * Resize: a zero width or height changes nothing; otherwise both axes
     * are clamped into the surface limits, the scissor and render area take
     * the new extent, and the swapchain is recreated from the current one.
     */
    method Resize(width: u32, height: u32, caps: SurfaceCapabilities, created: Option<Handle>,
                  images: seq<Handle>, views: seq<Option<Handle>>, semaphores: seq<Option<Handle>>)
      returns (r: Result<(), RenderError>)
      requires Valid()
      requires caps.minImageExtent.width <= caps.maxImageExtent.width
      requires caps.minImageExtent.height <= caps.maxImageExtent.height
      requires |views| == |semaphores| == |images| < U32_MODULUS
      modifies this`extent, this`scissorExtent, this`renderAreaExtent, this`swapchain, this`swapchainImages,
               this`swapchainImageCount, this`trace
      ensures Valid()
      ensures width == 0 || height == 0 ==>
        r.Ok? && extent == old(extent) && scissorExtent == old(scissorExtent) && renderAreaExtent == old(renderAreaExtent)
        && swapchain == old(swapchain) && swapchainImages == old(swapchainImages) && trace == old(trace)
      ensures width != 0 && height != 0 ==>
        && extent == Extent2D(Clamp(width, caps.minImageExtent.width, caps.maxImageExtent.width),
                              Clamp(height, caps.minImageExtent.height, caps.maxImageExtent.height))
        && scissorExtent == extent && renderAreaExtent == extent
        && trace == old(trace) + [DeviceWaitIdle]
                    + RecreateCalls(old(swapchain), extent, old(swapchainImages), created, images, surfaceFormat, views, semaphores)
        && r == RecreateOutcome(created, views, semaphores)
    {
      if width == 0 || height == 0 {
        return Ok(());
      }
      Emit(DeviceWaitIdle);
      extent := Extent2D(Clamp(width, caps.minImageExtent.width, caps.maxImageExtent.width),
                         Clamp(height, caps.minImageExtent.height, caps.maxImageExtent.height));
      scissorExtent := extent;
      renderAreaExtent := extent;
      r := RecreateSwapchain(swapchain, created, images, views, semaphores);
    }

    /**
     * RecreateSwapchain: wait idle and create the new swapchain from the old
     * one, throwing on failure; resize the image table to the new image
     * count and only then clean it up; give every entry its image, a new
     * view and a new semaphore, throwing at the first failure; and destroy
     * the old swapchain once a new one exists.
     */
    method RecreateSwapchain(oldSwapchain: Handle, created: Option<Handle>, images: seq<Handle>,
                             views: seq<Option<Handle>>, semaphores: seq<Option<Handle>>)
      returns (r: Result<(), RenderError>)
      requires Valid()
      requires |views| == |semaphores| == |images| < U32_MODULUS
      modifies this`swapchain, this`swapchainImages, this`swapchainImageCount, this`trace
      ensures Valid() && r == RecreateOutcome(created, views, semaphores)
      ensures trace == old(trace) + RecreateCalls(oldSwapchain, extent, old(swapchainImages), created, images, surfaceFormat, views, semaphores)
      ensures created.None? ==> swapchain == old(swapchain) && swapchainImages == old(swapchainImages)
      ensures created.Some? ==> swapchain == created.value && swapchainImageCount == |images| && |swapchainImages| == |images|
      ensures r.Ok? ==> TableHolds(swapchainImages, images, views, semaphores)
    {
      ghost var table := swapchainImages;
      var opening := [DeviceWaitIdle, CreateSwapchain(extent, oldSwapchain)];
      EmitAll(opening);
      if created.None? {
        assert RecreateCalls(oldSwapchain, extent, table, created, images, surfaceFormat, views, semaphores) == opening + [];
        return Err(SwapchainCreationFailed);
      }
      r := InstallSwapchain(oldSwapchain, created.value, images, views, semaphores);
      assert RecreateCalls(oldSwapchain, extent, table, created, images, surfaceFormat, views, semaphores)
          == opening + InstallCalls(oldSwapchain, table, created.value, images, surfaceFormat, views, semaphores);
    }

    /**
     * The rest of RecreateSwapchain once the new swapchain exists: keep it,
     * resize the table, clean it up, fill it from the new images and, when
     * that succeeds, destroy the old swapchain.
     */
    method InstallSwapchain(oldSwapchain: Handle, newSwapchain: Handle, images: seq<Handle>,
                            views: seq<Option<Handle>>, semaphores: seq<Option<Handle>>)
      returns (r: Result<(), RenderError>)
      requires Valid() && |views| == |semaphores| == |images| < U32_MODULUS
      modifies this`swapchain, this`swapchainImages, this`swapchainImageCount, this`trace
      ensures Valid() && r == (if AllCreated(views, semaphores) then Ok(()) else Err(SwapchainImageSetupFailed))
      ensures trace == old(trace) + InstallCalls(oldSwapchain, old(swapchainImages), newSwapchain, images, surfaceFormat, views, semaphores)
      ensures swapchain == newSwapchain && swapchainImageCount == |images| && |swapchainImages| == |images|
      ensures r.Ok? ==> TableHolds(swapchainImages, images, views, semaphores)
    {
      swapchain := newSwapchain;
      swapchainImageCount := |images|;
      swapchainImages := Resized(swapchainImages, |images|);
      var _ := CleanupSwapchainImages();
      r := CreateImageEntries(images, views, semaphores);
      if r.Err? {
        return;
      }
      if swapchain != NULL_HANDLE {
        Emit(DestroySwapchain(oldSwapchain));
      }
    }

    /** The loop of RecreateSwapchain over the new images, stopping at the first failed creation. */
    method CreateImageEntries(images: seq<Handle>, views: seq<Option<Handle>>, semaphores: seq<Option<Handle>>)
      returns (r: Result<(), RenderError>)
      requires Valid() && |views| == |semaphores| == |images| == |swapchainImages|
      modifies this`swapchainImages, this`trace
      ensures Valid() && |swapchainImages| == |images|
      ensures r == (if AllCreated(views, semaphores) then Ok(()) else Err(SwapchainImageSetupFailed))
      ensures trace == old(trace) + CreationCalls(images, surfaceFormat, views, semaphores)
      ensures r.Ok? ==> TableHolds(swapchainImages, images, views, semaphores)
    {
      var i := 0;
      while i < |images|
        invariant 0 <= i <= |images| && Valid() && |swapchainImages| == |images|
        invariant forall k :: 0 <= k < i ==> views[k].Some? && semaphores[k].Some?
        invariant forall k :: 0 <= k < i ==> swapchainImages[k] == SwapchainImage(images[k], views[k].value, semaphores[k].value)
        invariant trace == old(trace) + CreationCalls(images[..i], surfaceFormat, views[..i], semaphores[..i])
      {
        CreationCallsSplit(images, surfaceFormat, views, semaphores, i);
        CreationCallsExtend(images, surfaceFormat, views, semaphores, i);
        var ok := CreateImageEntry(i, images[i], views[i], semaphores[i]);
        if !ok {
          return Err(SwapchainImageSetupFailed);
        }
        i := i + 1;
      }
      assert images[..i] == images && views[..i] == views && semaphores[..i] == semaphores;
      r := Ok(());
    }

    /**
     * One turn of that loop: store the image, create its view and, when
     * that succeeds, its semaphore; `ok` says whether both were created.
     */
    method CreateImageEntry(i: nat, image: Handle, view: Option<Handle>, semaphore: Option<Handle>) returns (ok: bool)
      requires Valid() && i < |swapchainImages|
      modifies this`swapchainImages, this`trace
      ensures Valid() && |swapchainImages| == old(|swapchainImages|) && ok == (view.Some? && semaphore.Some?)
      ensures forall k :: 0 <= k < |swapchainImages| && k != i ==> swapchainImages[k] == old(swapchainImages[k])
      ensures ok ==> swapchainImages[i] == SwapchainImage(image, view.value, semaphore.value)
      ensures trace == old(trace) + (if view.None? then [CreateImageView(image, surfaceFormat)]
                                     else [CreateImageView(image, surfaceFormat), CreateSemaphore])
    {
      swapchainImages := swapchainImages[i := swapchainImages[i].(image := image)];
      if view.None? {
        Emit(CreateImageView(image, surfaceFormat));
        return false;
      }
      swapchainImages := swapchainImages[i := swapchainImages[i].(imageView := view.value)];
      EmitAll([CreateImageView(image, surfaceFormat), CreateSemaphore]);
      if semaphore.None? {
        return false;
      }
      swapchainImages := swapchainImages[i := swapchainImages[i].(renderFinished := semaphore.value)];
      ok := true;
    }

    /** CleanupSwapchainImages: destroy every non-null view and semaphore in the table, which is kept. */
    method CleanupSwapchainImages() returns (calls: seq<RendererCall>)
      requires Valid()
      modifies this`trace
      ensures Valid() && calls == CleanupCalls(swapchainImages) && trace == old(trace) + calls
    {
      calls := [];
      var i := 0;
      while i < |swapchainImages|
        invariant 0 <= i <= |swapchainImages| && Valid()
        invariant calls + CleanupCalls(swapchainImages[i..]) == CleanupCalls(swapchainImages)
        invariant trace == old(trace) + calls
      {
        CleanupCallsAt(swapchainImages, i);
        var step := CleanupEntry(swapchainImages[i]);
        calls := calls + step;
        i := i + 1;
      }
    }

    /** One turn of the cleanup loop: the entry's view, then its semaphore, when not null. */
    method CleanupEntry(img: SwapchainImage) returns (step: seq<RendererCall>)
      requires Valid()
      modifies this`trace
      ensures Valid() && step == EntryCleanupCalls(img) && trace == old(trace) + step
    {
      step := [];
      if img.imageView != NULL_HANDLE {
        Emit(DestroyImageView(img.imageView));
        step := step + [DestroyImageView(img.imageView)];
      }
      if img.renderFinished != NULL_HANDLE {
        Emit(DestroySemaphore(img.renderFinished));
        step := step + [DestroySemaphore(img.renderFinished)];
      }
    }

    /** SingleTimeCmdBegin: allocate one primary buffer from the queue's pool and begin it for one submission. */
    method SingleTimeCmdBegin(ctx: QueueCtx, fromPool: Handle) returns (cmd: Handle)
      requires Valid()
      modifies this`trace
      ensures Valid() && cmd == fromPool
      ensures trace == old(trace) + Lift(VulkanContextModel.BeginCalls(ctx.mainCmdPool, cmd))
    {
      cmd := fromPool;
      EmitAll(Lift(VulkanContextModel.BeginCalls(ctx.mainCmdPool, cmd)));
    }

    /** SingleTimeCmdSubmit: end, submit without a fence, wait for the queue to go idle, free the buffer. */
    method SingleTimeCmdSubmit(ctx: QueueCtx, cmd: Handle)
      requires Valid()
      modifies this`trace
      ensures Valid() && trace == old(trace) + Lift(VulkanContextModel.SubmitCalls(ctx.queue, ctx.mainCmdPool, cmd))
    {
      EmitAll(Lift(VulkanContextModel.SubmitCalls(ctx.queue, ctx.mainCmdPool, cmd)));
    }

    /**
     * FullFeedTerrainData: the transfer-queue upload ending in the release,
     * then the graphics-queue acquire; the frame fences are untouched.
     */
    method FullFeedTerrainData(transferCmd: Handle, graphicsCmd: Handle, linksCpu: nat, linksGpu: nat, linksSize: nat,
                               heightmapStaging: nat, heightmapSize: nat, stagingBuffer: Handle,
                               image: ImagePool.ImageRecord)
      requires Valid()
      modifies this`trace
      ensures Valid() && fences == old(fences)
      ensures trace == old(trace) + OwnershipTransfer.FeedCalls(transfer, graphics, transferCmd, graphicsCmd, linksCpu, linksGpu,
                                                                linksSize, heightmapStaging, heightmapSize, stagingBuffer, image)
    {
      FeedTransferHalf(transferCmd, linksCpu, linksGpu, linksSize, heightmapStaging, heightmapSize, stagingBuffer, image);
      FeedAcquireHalf(graphicsCmd, image);
    }

    /** The transfer-queue half of FullFeedTerrainData, ending in the release. */
    method FeedTransferHalf(transferCmd: Handle, linksCpu: nat, linksGpu: nat, linksSize: nat,
                            heightmapStaging: nat, heightmapSize: nat, stagingBuffer: Handle, image: ImagePool.ImageRecord)
      requires Valid()
      modifies this`trace
      ensures Valid() && fences == old(fences)
      ensures trace == old(trace) + OwnershipTransfer.TransferHalfCalls(transfer, graphics.index, transferCmd, linksCpu, linksGpu,
                                                                        linksSize, heightmapStaging, heightmapSize, stagingBuffer, image)
    {
      var cmd := SingleTimeCmdBegin(transfer, transferCmd);
      EmitAll(OwnershipTransfer.UploadRecording(cmd, linksCpu, linksGpu, linksSize, heightmapStaging, heightmapSize,
                                                stagingBuffer, image, transfer.index, graphics.index));
      SingleTimeCmdSubmit(transfer, cmd);
    }

    /** The graphics-queue half of FullFeedTerrainData: the acquire. */
    method FeedAcquireHalf(graphicsCmd: Handle, image: ImagePool.ImageRecord)
      requires Valid()
      modifies this`trace
      ensures Valid() && fences == old(fences)
      ensures trace == old(trace) + OwnershipTransfer.AcquireHalfCalls(transfer.index, graphics, graphicsCmd, image)
    {
      var cmd := SingleTimeCmdBegin(graphics, graphicsCmd);
      Emit(PipelineBarrier(cmd, STAGE_TRANSFER, STAGE_FRAGMENT_SHADER,
                           OwnershipTransfer.AcquireBarrier(image, transfer.index, graphics.index)));
      SingleTimeCmdSubmit(graphics, cmd);
    }
  }

  /** The creation calls split at any point before which every creation succeeded. */
  lemma {:induction false} CreationCallsSplit(images: seq<Handle>, format: nat, views: seq<Option<Handle>>,
                                              semaphores: seq<Option<Handle>>, i: nat)
    requires |views| == |semaphores| == |images| && i <= |images|
    requires forall k :: 0 <= k < i ==> views[k].Some? && semaphores[k].Some?
    ensures CreationCalls(images, format, views, semaphores)
      == CreationCalls(images[..i], format, views[..i], semaphores[..i]) + CreationCalls(images[i..], format, views[i..], semaphores[i..])
    decreases i
  {
    if i == 0 {
      assert images[..0] == [] && images[0..] == images && views[0..] == views && semaphores[0..] == semaphores;
    } else {
      CreationCallsSplit(images[1..], format, views[1..], semaphores[1..], i - 1);
      assert images[1..][..i - 1] == images[..i][1..] && images[1..][i - 1..] == images[i..];
      assert views[1..][..i - 1] == views[..i][1..] && views[1..][i - 1..] == views[i..];
      assert semaphores[1..][..i - 1] == semaphores[..i][1..] && semaphores[1..][i - 1..] == semaphores[i..];
    }
  }

  /**
   * One more step of the loop: after the earlier entries succeeded, entry
   * `i` adds its view creation, then its semaphore creation if the view
   * was created, and the calls go on past it only if both were.
   */
  lemma CreationCallsExtend(images: seq<Handle>, format: nat, views: seq<Option<Handle>>,
                            semaphores: seq<Option<Handle>>, i: nat)
    requires |views| == |semaphores| == |images| && i < |images|
    requires forall k :: 0 <= k < i ==> views[k].Some? && semaphores[k].Some?
    ensures views[i].None? ==> CreationCalls(images[i..], format, views[i..], semaphores[i..]) == [CreateImageView(images[i], format)]
    ensures views[i].Some? && semaphores[i].None? ==>
      CreationCalls(images[i..], format, views[i..], semaphores[i..]) == [CreateImageView(images[i], format), CreateSemaphore]
    ensures views[i].Some? && semaphores[i].Some? ==>
      CreationCalls(images[..i + 1], format, views[..i + 1], semaphores[..i + 1])
      == CreationCalls(images[..i], format, views[..i], semaphores[..i]) + [CreateImageView(images[i], format), CreateSemaphore]
  {
    var n := i + 1;
    CreationCallsSplit(images[..n], format, views[..n], semaphores[..n], i);
    assert images[..n][..i] == images[..i] && views[..n][..i] == views[..i] && semaphores[..n][..i] == semaphores[..i];
    assert images[..n][i..] == [images[i]] && views[..n][i..] == [views[i]] && semaphores[..n][i..] == [semaphores[i]];
    assert images[i..][0] == images[i] && views[i..][0] == views[i] && semaphores[i..][0] == semaphores[i];
  }

  /** The creation calls destroy nothing. */
  lemma {:induction false} CreationCallsDestroyNothing(images: seq<Handle>, format: nat, views: seq<Option<Handle>>,
                                                      semaphores: seq<Option<Handle>>, view: Handle)
    requires |views| == |semaphores| == |images|
    ensures DestroyImageView(view) !in CreationCalls(images, format, views, semaphores)
  {
    if images != [] && views[0].Some? && semaphores[0].Some? {
      CreationCallsDestroyNothing(images[1..], format, views[1..], semaphores[1..], view);
    }
  }

  /**
   * As written, a recreation that leaves fewer images than before never
   * destroys the views of the dropped entries, whatever the creations do.
   */
  lemma RecreateLeaksDroppedViews(oldSwapchain: Handle, extent: Extent2D, table: seq<SwapchainImage>, created: Option<Handle>,
                                  images: seq<Handle>, format: nat, views: seq<Option<Handle>>,
                                  semaphores: seq<Option<Handle>>, k: nat)
    requires |views| == |semaphores| == |images| <= k < |table| && table[k].imageView != NULL_HANDLE
    requires forall j :: 0 <= j < |images| ==> table[j].imageView != table[k].imageView
    ensures DestroyImageView(table[k].imageView) !in RecreateCalls(oldSwapchain, extent, table, created, images, format, views, semaphores)
  {
    ShrinkLeavesDroppedViews(table, |images|, k);
    CreationCallsDestroyNothing(images, format, views, semaphores, table[k].imageView);
  }
}
