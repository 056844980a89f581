/** FixedVulkanStuff: the renderer's fixed set of objects — surface, device,
    swapchain batch, one framebuffer per swapchain view, the command pool, and
    per frame slot a command buffer, two semaphores and a fence — with the
    swapchain recreation sequence and the teardown. */
module FixedStuff {
  import opened Vk
  import opened Driver
  import Surface
  import opened Swapchain
  import Images

  const MAX_FRAMES_IN_FLIGHT: nat := 2

  /** The framebuffer parameters create_swapchain_frame_buffer uses for one
      swapchain view: that view and the depth view, the extent, one layer. */
  function FramebufferInfo(view: Handle, renderPass: Handle, extent: Extent2D, depthView: Handle): FramebufferCreateInfo {
    FramebufferCreateInfo(renderPass, [view, depthView], extent.width, extent.height, 1)
  }

  /** The creation calls for framebuffers fbs[i] over views[i], in order. */
  function FramebufferCalls(fbs: seq<Handle>, views: seq<Handle>, renderPass: Handle, extent: Extent2D, depthView: Handle): (r: seq<Call>)
    requires |fbs| == |views|
    ensures |r| == |fbs|
    ensures forall i | 0 <= i < |fbs| ::
      r[i] == CreatedFramebuffer(fbs[i], FramebufferInfo(views[i], renderPass, extent, depthView))
  {
    seq(|fbs|, i requires 0 <= i < |fbs| =>
      CreatedFramebuffer(fbs[i], FramebufferInfo(views[i], renderPass, extent, depthView)))
  }

  /** The creation calls for already-signalled fences. */
  function SignaledFenceCalls(fences: seq<Handle>): (r: seq<Call>)
    ensures |r| == |fences|
    ensures forall i | 0 <= i < |fences| :: r[i] == CreatedFence(fences[i], true)
  {
    seq(|fences|, i requires 0 <= i < |fences| => CreatedFence(fences[i], true))
  }

  /** What Drop destroys, in order: all semaphores (image-available first),
      the fences, the pool, the current framebuffers, the render pass. */
  function DropCalls(imageAvailable: seq<Handle>, renderFinished: seq<Handle>, fences: seq<Handle>,
                     pool: Handle, framebuffers: seq<Handle>, renderPass: Handle): seq<Call>
  {
    DestroyAll(Semaphore, imageAvailable + renderFinished)
    + DestroyAll(Fence, fences)
    + [Destroyed(CommandPool, pool)]
    + DestroyAll(Framebuffer, framebuffers)
    + [Destroyed(RenderPass, renderPass)]
  }

  /** The handles Drop is responsible for, in destruction order. */
  function OwnedHandles(imageAvailable: seq<Handle>, renderFinished: seq<Handle>, fences: seq<Handle>,
                        pool: Handle, framebuffers: seq<Handle>, renderPass: Handle): seq<Handle>
  {
    imageAvailable + renderFinished + fences + [pool] + framebuffers + [renderPass]
  }

  /** Drop destroys every owned handle exactly once and nothing else. */
  lemma DropDestroysEachOnce(imageAvailable: seq<Handle>, renderFinished: seq<Handle>, fences: seq<Handle>,
                             pool: Handle, framebuffers: seq<Handle>, renderPass: Handle, h: Handle)
    requires Distinct(OwnedHandles(imageAvailable, renderFinished, fences, pool, framebuffers, renderPass))
    ensures DestroyedHandles(DropCalls(imageAvailable, renderFinished, fences, pool, framebuffers, renderPass))
            == OwnedHandles(imageAvailable, renderFinished, fences, pool, framebuffers, renderPass)
    ensures var destroyed := DestroyedHandles(DropCalls(imageAvailable, renderFinished, fences, pool, framebuffers, renderPass));
      && (h in OwnedHandles(imageAvailable, renderFinished, fences, pool, framebuffers, renderPass) ==> Occurrences(destroyed, h) == 1)
      && (h !in OwnedHandles(imageAvailable, renderFinished, fences, pool, framebuffers, renderPass) ==> Occurrences(destroyed, h) == 0)
  {
    var sems := DestroyAll(Semaphore, imageAvailable + renderFinished);
    var fs := DestroyAll(Fence, fences);
    var p := [Destroyed(CommandPool, pool)];
    var fb := DestroyAll(Framebuffer, framebuffers);
    var rp := [Destroyed(RenderPass, renderPass)];
    DestroyedHandlesAppend(sems + fs + p + fb, rp);
    DestroyedHandlesAppend(sems + fs + p, fb);
    DestroyedHandlesAppend(sems + fs, p);
    DestroyedHandlesAppend(sems, fs);
    DestroyedHandlesOfDestroyAll(Semaphore, imageAvailable + renderFinished);
    DestroyedHandlesOfDestroyAll(Fence, fences);
    DestroyedHandlesOfDestroyAll(Framebuffer, framebuffers);
    assert DestroyedHandles(p) == [pool];
    assert DestroyedHandles(rp) == [renderPass];
    var owned := OwnedHandles(imageAvailable, renderFinished, fences, pool, framebuffers, renderPass);
    if h in owned {
      DistinctOccursOnce(owned, h);
    }
  }

  /** Replacing the framebuffers in the owned set by freshly created ones keeps
      all owned handles distinct. */
  lemma ReplaceFramebuffersKeepsFresh(imageAvailable: seq<Handle>, renderFinished: seq<Handle>, fences: seq<Handle>,
                                      pool: Handle, oldFbs: seq<Handle>, newFbs: seq<Handle>, renderPass: Handle,
                                      n: nat, n': nat)
    requires FreshRun(OwnedHandles(imageAvailable, renderFinished, fences, pool, oldFbs, renderPass), 0, n)
    requires FreshRun(newFbs, n, n') && n <= n'
    ensures FreshRun(OwnedHandles(imageAvailable, renderFinished, fences, pool, newFbs, renderPass), 0, n')
  {
    var pre := imageAvailable + renderFinished + fences + [pool];
    var before := pre + oldFbs + [renderPass];
    var after := pre + newFbs + [renderPass];
    assert OwnedHandles(imageAvailable, renderFinished, fences, pool, oldFbs, renderPass) == before;
    assert OwnedHandles(imageAvailable, renderFinished, fences, pool, newFbs, renderPass) == after;
    // positions of `after` that are not new framebuffers keep a handle of `before`
    forall i | 0 <= i < |after| && !(|pre| <= i < |pre| + |newFbs|)
      ensures after[i] < n
      ensures exists k | 0 <= k < |before| && !(|pre| <= k < |pre| + |oldFbs|) :: after[i] == before[k]
    {
      if i < |pre| {
        assert after[i] == pre[i] == before[i];
      } else {
        assert after[i] == renderPass == before[|before| - 1];
      }
    }
    forall i | 0 <= i < |after| ensures 0 <= after[i] < n' {
      if |pre| <= i < |pre| + |newFbs| {
        assert after[i] == newFbs[i - |pre|];
      }
    }
    forall i, j | 0 <= i < j < |after| ensures after[i] != after[j] {
      var iNew := |pre| <= i < |pre| + |newFbs|;
      var jNew := |pre| <= j < |pre| + |newFbs|;
      if iNew && jNew {
        assert after[i] == newFbs[i - |pre|] && after[j] == newFbs[j - |pre|];
      } else if iNew {
        assert after[i] == newFbs[i - |pre|];
      } else if jNew {
        assert after[j] == newFbs[j - |pre|];
      } else if j < |pre| {
        assert after[i] == before[i] && after[j] == before[j];
      } else {
        // j is the render pass, so i lies in the unchanged prefix
        assert after[i] == before[i] && after[j] == before[|before| - 1];
      }
    }
  }

  /** try_array_init over the slots: one new object per frame slot. */
  method CreatePerSlot(device: Device, kind: ObjectKind) returns (hs: seq<Handle>)
    modifies device
    ensures |hs| == MAX_FRAMES_IN_FLIGHT
    ensures FreshRun(hs, old(device.nextHandle), device.nextHandle)
    ensures device.calls == old(device.calls) + CreateAll(kind, hs)
    ensures old(device.nextHandle) <= device.nextHandle
  {
    hs := [];
    while |hs| < MAX_FRAMES_IN_FLIGHT
      invariant |hs| <= MAX_FRAMES_IN_FLIGHT
      invariant old(device.nextHandle) <= device.nextHandle
      invariant FreshRun(hs, old(device.nextHandle), device.nextHandle)
      invariant device.calls == old(device.calls) + CreateAll(kind, hs)
    {
      FreshRunExtend(hs, old(device.nextHandle), device.nextHandle);
      var h := device.Create(kind);
      assert CreateAll(kind, hs + [h]) == CreateAll(kind, hs) + [Created(kind, h)];
      hs := hs + [h];
    }
  }

  /** The per-slot fences, each created in the signalled state so that the
      first wait on every slot returns at once. */
  method CreateSignaledFences(device: Device) returns (hs: seq<Handle>)
    modifies device
    ensures |hs| == MAX_FRAMES_IN_FLIGHT
    ensures FreshRun(hs, old(device.nextHandle), device.nextHandle)
    ensures device.calls == old(device.calls) + SignaledFenceCalls(hs)
    ensures old(device.nextHandle) <= device.nextHandle
  {
    hs := [];
    while |hs| < MAX_FRAMES_IN_FLIGHT
      invariant |hs| <= MAX_FRAMES_IN_FLIGHT
      invariant old(device.nextHandle) <= device.nextHandle
      invariant FreshRun(hs, old(device.nextHandle), device.nextHandle)
      invariant device.calls == old(device.calls) + SignaledFenceCalls(hs)
    {
      FreshRunExtend(hs, old(device.nextHandle), device.nextHandle);
      var h := device.CreateFence(true);
      assert SignaledFenceCalls(hs + [h]) == SignaledFenceCalls(hs) + [CreatedFence(h, true)];
      hs := hs + [h];
    }
  }

  /** create_swapchain_frame_buffer: one framebuffer per swapchain view, in
      view order. */
  method CreateSwapchainFramebuffers(device: Device, views: seq<Handle>, renderPass: Handle,
                                     extent: Extent2D, depthView: Handle) returns (fbs: seq<Handle>)
    modifies device
    ensures |fbs| == |views|
    ensures FreshRun(fbs, old(device.nextHandle), device.nextHandle)
    ensures device.calls == old(device.calls) + FramebufferCalls(fbs, views, renderPass, extent, depthView)
    ensures old(device.nextHandle) <= device.nextHandle
  {
    fbs := [];
    while |fbs| < |views|
      invariant |fbs| <= |views|
      invariant old(device.nextHandle) <= device.nextHandle
      invariant FreshRun(fbs, old(device.nextHandle), device.nextHandle)
      invariant device.calls == old(device.calls)
                                + FramebufferCalls(fbs, views[..|fbs|], renderPass, extent, depthView)
    {
      var i := |fbs|;
      FreshRunExtend(fbs, old(device.nextHandle), device.nextHandle);
      var fb := device.CreateFramebuffer(FramebufferInfo(views[i], renderPass, extent, depthView));
      assert FramebufferCalls(fbs + [fb], views[..i + 1], renderPass, extent, depthView)
          == FramebufferCalls(fbs, views[..i], renderPass, extent, depthView)
             + [CreatedFramebuffer(fb, FramebufferInfo(views[i], renderPass, extent, depthView))];
      fbs := fbs + [fb];
    }
    assert views[..|fbs|] == views;
  }

  /** The calls that create the per-slot objects: the pool, the command
      buffers, both semaphore arrays and the signalled fences. */
  function SlotObjectCalls(pool: Handle, cbs: seq<Handle>, ia: seq<Handle>, rf: seq<Handle>,
                           fences: seq<Handle>): (r: seq<Call>)
    ensures |r| == 1 + |cbs| + |ia| + |rf| + |fences|
    ensures NoAttachments(r)
  {
    var r := [Created(CommandPool, pool)] + CreateAll(CommandBuffer, cbs) + CreateAll(Semaphore, ia)
             + CreateAll(Semaphore, rf) + SignaledFenceCalls(fences);
    NoAttachmentsAppend([Created(CommandPool, pool)], CreateAll(CommandBuffer, cbs));
    NoAttachmentsAppend([Created(CommandPool, pool)] + CreateAll(CommandBuffer, cbs), CreateAll(Semaphore, ia));
    NoAttachmentsAppend([Created(CommandPool, pool)] + CreateAll(CommandBuffer, cbs) + CreateAll(Semaphore, ia),
                        CreateAll(Semaphore, rf));
    NoAttachmentsAppend([Created(CommandPool, pool)] + CreateAll(CommandBuffer, cbs) + CreateAll(Semaphore, ia)
                        + CreateAll(Semaphore, rf), SignaledFenceCalls(fences));
    r
  }

  /** The pool, then per slot a command buffer, an image-available and a
      render-finished semaphore and a signalled fence. */
  method CreateSlotObjects(device: Device)
    returns (pool: Handle, cbs: seq<Handle>, ia: seq<Handle>, rf: seq<Handle>, fences: seq<Handle>)
    modifies device
    ensures pool == old(device.nextHandle) && pool < device.nextHandle
    ensures |cbs| == MAX_FRAMES_IN_FLIGHT
    ensures |ia| == |rf| == |fences| == MAX_FRAMES_IN_FLIGHT
    ensures FreshRun(ia + rf + fences, pool + 1, device.nextHandle)
    ensures device.calls == old(device.calls) + SlotObjectCalls(pool, cbs, ia, rf, fences)
  {
    pool := device.Create(CommandPool);
    cbs := CreatePerSlot(device, CommandBuffer);
    var n1 := device.nextHandle;
    ia := CreatePerSlot(device, Semaphore);
    var m1 := device.nextHandle;
    rf := CreatePerSlot(device, Semaphore);
    var m2 := device.nextHandle;
    fences := CreateSignaledFences(device);
    FreshRunConcat(ia, rf, n1, m1, m2);
    FreshRunConcat(ia + rf, fences, n1, m2, device.nextHandle);
    FreshRunGrow(ia + rf + fences, n1, device.nextHandle, pool + 1, device.nextHandle);
  }

  class FixedVulkanStuff {
    const surface: Surface.Surface
    const device: Device
    const swapchainBatch: SwapChainBatch
    var swapchainFramebuffers: seq<Handle>
    const commandPool: Handle
    const commandBuffers: seq<Handle>
    const imageAvailableSemaphores: seq<Handle>
    const renderFinishedSemaphores: seq<Handle>
    const inFlightFences: seq<Handle>
    /** DepthStencilImageAndView: the depth image, its view and their extent. */
    var depthImage: Handle
    var depthImageView: Handle
    var depthExtent: Extent2D
    const renderPass: Handle
    const depthFormat: Format

    function Owned(): seq<Handle>
      reads this
    {
      OwnedHandles(imageAvailableSemaphores, renderFinishedSemaphores, inFlightFences,
                   commandPool, swapchainFramebuffers, renderPass)
    }

    /** One of each per-slot object per frame slot, one framebuffer per
        swapchain view, the batch shares the surface and device, the depth
        image matches the surface extent, and the owned handles are distinct. */
    predicate Valid()
      reads this, device, swapchainBatch, surface
    {
      && |commandBuffers| == MAX_FRAMES_IN_FLIGHT
      && |imageAvailableSemaphores| == MAX_FRAMES_IN_FLIGHT
      && |renderFinishedSemaphores| == MAX_FRAMES_IN_FLIGHT
      && |inFlightFences| == MAX_FRAMES_IN_FLIGHT
      && swapchainBatch.surface == surface && swapchainBatch.device == device
      && swapchainBatch.Valid()
      && |swapchainFramebuffers| == |swapchainBatch.imageViews|
      && depthExtent == surface.Extent()
      && FreshRun(Owned(), 0, device.nextHandle)
    }

    constructor Assemble(surface: Surface.Surface, device: Device, swapchainBatch: SwapChainBatch,
                         framebuffers: seq<Handle>, pool: Handle, commandBuffers: seq<Handle>,
                         imageAvailable: seq<Handle>, renderFinished: seq<Handle>, fences: seq<Handle>,
                         depthImage: Handle, depthImageView: Handle, depthExtent: Extent2D,
                         renderPass: Handle, depthFormat: Format)
      ensures this.surface == surface && this.device == device && this.swapchainBatch == swapchainBatch
      ensures this.swapchainFramebuffers == framebuffers && this.commandPool == pool
      ensures this.commandBuffers == commandBuffers
      ensures this.imageAvailableSemaphores == imageAvailable
      ensures this.renderFinishedSemaphores == renderFinished
      ensures this.inFlightFences == fences
      ensures this.depthImage == depthImage && this.depthImageView == depthImageView
      ensures this.depthExtent == depthExtent
      ensures this.renderPass == renderPass && this.depthFormat == depthFormat
    {
      this.surface := surface;
      this.device := device;
      this.swapchainBatch := swapchainBatch;
      this.swapchainFramebuffers := framebuffers;
      this.commandPool := pool;
      this.commandBuffers := commandBuffers;
      this.imageAvailableSemaphores := imageAvailable;
      this.renderFinishedSemaphores := renderFinished;
      this.inFlightFences := fences;
      this.depthImage := depthImage;
      this.depthImageView := depthImageView;
      this.depthExtent := depthExtent;
      this.renderPass := renderPass;
      this.depthFormat := depthFormat;
    }

    /** FixedVulkanStuff::new over an existing surface and device: the batch,
        the pool, per slot a command buffer, two semaphores and a signalled
        fence, the depth format, the depth image, the render pass, then the
        framebuffers. When no depth candidate is supported the new returns
        FormatNotSupported: the batch is dropped, and the pool, command
        buffers, semaphores and fences, being raw handles, are left behind;
        no depth image, render pass or framebuffer is created. */
    static method New(surface: Surface.Surface, device: Device, driverImages: seq<Handle>,
                      formatProperties: Format -> Images.FormatProperties)
      returns (r: Result<FixedVulkanStuff>)
      requires surface.instance == device.instance
      requires surface.physicalDevice == device.physicalDevice
      requires CreateInfoComputable(surface.attributes)
      modifies device
      ensures r.Err? <==> Images.FindDepthFormat(formatProperties).Err?
      ensures r.Err? ==>
        && r.error == FormatNotSupported
        && |old(device.calls)| < |device.calls|
        && device.calls[..|old(device.calls)|] == old(device.calls)
        && device.calls[|device.calls| - 1].Destroyed? && device.calls[|device.calls| - 1].kind == Swapchain
        && NoAttachments(device.calls[|old(device.calls)|..])
      ensures r.Ok? ==> var f := r.value;
        && fresh(f) && fresh(f.swapchainBatch) && f.Valid()
        && f.surface == surface && f.device == device
        && f.depthFormat == Images.FindDepthFormat(formatProperties).value
        && FreshRun(f.Owned(), old(device.nextHandle), device.nextHandle)
        && device.calls == old(device.calls)
           + [Created(Swapchain, f.swapchainBatch.swapchain)]
           + CreateViewCalls(f.swapchainBatch.imageViews, f.swapchainBatch.images, surface.Format())
           + SlotObjectCalls(f.commandPool, f.commandBuffers, f.imageAvailableSemaphores,
                             f.renderFinishedSemaphores, f.inFlightFences)
           + [CreatedDepthImage(f.depthImage, f.depthImageView, surface.Extent(), f.depthFormat)]
           + [Created(RenderPass, f.renderPass)]
           + FramebufferCalls(f.swapchainFramebuffers, f.swapchainBatch.imageViews, f.renderPass,
                              surface.Extent(), f.depthImageView)
    {
      var batch := SwapChainBatch.New(surface, device, driverImages);
      var pool, cbs, ia, rf, fences := CreateSlotObjects(device);
      var found := Images.FindDepthFormat(formatProperties);
      if found.Err? {
        ghost var before := device.calls;
        NoAttachmentsAppend([Created(Swapchain, batch.swapchain)],
                            CreateViewCalls(batch.imageViews, batch.images, surface.Format()));
        NoAttachmentsAppend([Created(Swapchain, batch.swapchain)]
                              + CreateViewCalls(batch.imageViews, batch.images, surface.Format()),
                            SlotObjectCalls(pool, cbs, ia, rf, fences));
        assert before[|old(device.calls)|..] == [Created(Swapchain, batch.swapchain)]
                 + CreateViewCalls(batch.imageViews, batch.images, surface.Format())
                 + SlotObjectCalls(pool, cbs, ia, rf, fences);
        batch.Drop();
        NoAttachmentsAppend(before[|old(device.calls)|..], DisposeCalls(batch.imageViews, batch.swapchain));
        assert device.calls[|old(device.calls)|..]
            == before[|old(device.calls)|..] + DisposeCalls(batch.imageViews, batch.swapchain);
        return Err(found.error);
      }
      var depthFormat := found.value;
      var n2 := device.nextHandle;
      var depthImage, depthView := device.CreateDepthImage(surface.Extent(), depthFormat);
      var rp := device.Create(RenderPass);
      var n3 := device.nextHandle;
      var fbs := CreateSwapchainFramebuffers(device, batch.imageViews, rp, surface.Extent(), depthView);
      var f := new FixedVulkanStuff.Assemble(surface, device, batch, fbs, pool, cbs, ia, rf, fences,
                                             depthImage, depthView, surface.Extent(), rp, depthFormat);
      OwnedFresh(ia, rf, fences, pool, fbs, rp, pool, pool + 1, n2, n3, device.nextHandle);
      FreshRunGrow(f.Owned(), pool, device.nextHandle, old(device.nextHandle), device.nextHandle);
      FreshRunGrow(batch.imageViews + [batch.swapchain], 0, pool, 0, device.nextHandle);
      r := Ok(f);
    }

    /** recreate_swapchain: wait for the device to be idle, refit the surface,
        recreate the swapchain batch, rebuild the depth image at the new extent,
        destroy every old framebuffer and build one per new view. A failing
        wait (`waitAnswer`, the driver's answer to vkDeviceWaitIdle) or a
        failing refit aborts after the wait with nothing else changed.
        Per-slot objects, the pool and the render pass are never touched. */
    method RecreateSwapchain(
      waitAnswer: VkResult<()>,
      capsQuery: VkResult<Surface.SurfaceCapabilities>,
      formatsQuery: VkResult<seq<Surface.SurfaceFormat>>,
      modesQuery: VkResult<seq<PresentMode>>,
      windowSize: Extent2D,
      driverImages: seq<Handle>) returns (r: Result<()>)
      requires Valid()
      requires Surface.QueryExtentUsable(capsQuery)
      requires capsQuery.Success? ==> MinImageCountComputable(capsQuery.value)
      modifies this, device, surface, swapchainBatch
      ensures Valid()
      ensures waitAnswer.Failure? ==>
        && r == Err(VkError(waitAnswer.code))
        && device.calls == old(device.calls) + [DeviceWaitIdle]
        && surface.attributes == old(surface.attributes)
        && swapchainFramebuffers == old(swapchainFramebuffers)
        && swapchainBatch.imageViews == old(swapchainBatch.imageViews)
        && swapchainBatch.swapchain == old(swapchainBatch.swapchain)
        && depthImageView == old(depthImageView)
      ensures waitAnswer.Success? ==>
        var attrs := Surface.GetSurfaceAttrs(capsQuery, formatsQuery, modesQuery, old(surface.Format()), windowSize);
        && (attrs.Err? ==>
              && r == Err(attrs.error)
              && device.calls == old(device.calls) + [DeviceWaitIdle]
              && surface.attributes == old(surface.attributes)
              && swapchainFramebuffers == old(swapchainFramebuffers)
              && swapchainBatch.imageViews == old(swapchainBatch.imageViews)
              && swapchainBatch.swapchain == old(swapchainBatch.swapchain)
              && depthImageView == old(depthImageView))
        && (attrs.Ok? ==>
              && r == Ok(())
              && surface.attributes == attrs.value
              && swapchainBatch.images == driverImages
              && device.calls == old(device.calls) + [DeviceWaitIdle]
                 + DisposeCalls(old(swapchainBatch.imageViews), old(swapchainBatch.swapchain))
                 + [Created(Swapchain, swapchainBatch.swapchain)]
                 + CreateViewCalls(swapchainBatch.imageViews, swapchainBatch.images, surface.Format())
                 + [CreatedDepthImage(depthImage, depthImageView, surface.Extent(), depthFormat)]
                 + DestroyAll(Framebuffer, old(swapchainFramebuffers))
                 + FramebufferCalls(swapchainFramebuffers, swapchainBatch.imageViews, renderPass,
                                    surface.Extent(), depthImageView))
      ensures surface.Format() == old(surface.Format())
    {
      device.WaitIdle();
      if waitAnswer.Failure? {
        return Err(VkError(waitAnswer.code));
      }
      var refit := surface.RefitSurfaceAttribute(capsQuery, formatsQuery, modesQuery, windowSize);
      if refit.Err? {
        return Err(refit.error);
      }
      swapchainBatch.Recreate(driverImages);
      var n := device.nextHandle;
      depthImage, depthImageView := device.CreateDepthImage(surface.Extent(), depthFormat);
      depthExtent := surface.Extent();
      device.DestroyEach(Framebuffer, swapchainFramebuffers);
      var n' := device.nextHandle;
      FreshRunGrow(Owned(), 0, old(device.nextHandle), 0, n');
      FreshRunGrow(swapchainBatch.imageViews + [swapchainBatch.swapchain], 0, n, 0, n');
      var fbs := CreateSwapchainFramebuffers(device, swapchainBatch.imageViews, renderPass,
                                             surface.Extent(), depthImageView);
      ReplaceFramebuffersKeepsFresh(imageAvailableSemaphores, renderFinishedSemaphores, inFlightFences,
                                    commandPool, swapchainFramebuffers, fbs, renderPass, n', device.nextHandle);
      FreshRunGrow(swapchainBatch.imageViews + [swapchainBatch.swapchain], 0, n', 0, device.nextHandle);
      swapchainFramebuffers := fbs;
      return Ok(());
    }

    /** Drop for FixedVulkanStuff. The swapchain batch's own Drop runs after it. */
    method Drop()
      modifies device
      ensures device.calls == old(device.calls)
        + DropCalls(imageAvailableSemaphores, renderFinishedSemaphores, inFlightFences,
                    commandPool, swapchainFramebuffers, renderPass)
    {
      device.DestroyEach(Semaphore, imageAvailableSemaphores + renderFinishedSemaphores);
      device.DestroyEach(Fence, inFlightFences);
      device.Destroy(CommandPool, commandPool);
      device.DestroyEach(Framebuffer, swapchainFramebuffers);
      device.Destroy(RenderPass, renderPass);
    }
  }

  /** The handles created by FixedVulkanStuff::new, taken from consecutive
      windows of the driver's handle counter, are all distinct. */
  lemma OwnedFresh(ia: seq<Handle>, rf: seq<Handle>, fences: seq<Handle>, pool: Handle,
                   fbs: seq<Handle>, rp: Handle, n0: nat, n1: nat, n2: nat, n3: nat, n4: nat)
    requires pool == n0 && n0 < n1
    requires FreshRun(ia + rf + fences, n1, n2) && n1 <= n2
    requires n2 < rp && rp + 1 == n3
    requires FreshRun(fbs, n3, n4) && n3 <= n4
    ensures FreshRun(OwnedHandles(ia, rf, fences, pool, fbs, rp), n0, n4)
  {
    var owned := OwnedHandles(ia, rf, fences, pool, fbs, rp);
    var sync := ia + rf + fences;
    assert owned == sync + [pool] + fbs + [rp];
    assert owned[|sync|] == pool && owned[|owned| - 1] == rp;
    forall i | 0 <= i < |owned| ensures n0 <= owned[i] < n4 {
      if i < |sync| { assert owned[i] == sync[i]; }
      else if i == |sync| { }
      else if i < |sync| + 1 + |fbs| { assert owned[i] == fbs[i - |sync| - 1]; }
    }
    forall i, j | 0 <= i < j < |owned| ensures owned[i] != owned[j] {
      if j < |sync| { assert owned[i] == sync[i] && owned[j] == sync[j]; }
      else if j == |sync| { assert owned[i] == sync[i]; }
      else if j < |sync| + 1 + |fbs| {
        assert owned[j] == fbs[j - |sync| - 1];
        if i < |sync| { assert owned[i] == sync[i]; }
        else if i > |sync| { assert owned[i] == fbs[i - |sync| - 1]; }
      } else {
        if i < |sync| { assert owned[i] == sync[i]; }
        else if i > |sync| { assert owned[i] == fbs[i - |sync| - 1]; }
      }
    }
  }
}
