/** The swapchain batch: the swapchain, its images (answered by the driver)
    and one colour view per image, together with the rules that fill in the
    swapchain's creation parameters from the surface. */
module Swapchain {
  import opened Vk
  import opened Driver
  import Surface

  datatype SharingMode = Exclusive | Concurrent

  /** vk::CompositeAlphaFlagsKHR::OPAQUE */
  const COMPOSITE_ALPHA_OPAQUE: Flags := 0x1

  /** vk::SwapchainCreateInfoKHR as create_swapchain fills it in. */
  datatype SwapchainCreateInfo = SwapchainCreateInfo(
    surface: Handle,
    minImageCount: int,
    imageFormat: Format,
    imageColorSpace: ColorSpace,
    imageExtent: Extent2D,
    imageArrayLayers: nat,
    imageUsage: Flags,
    sharingMode: SharingMode,
    queueFamilyIndices: seq<u32>,
    preTransform: Flags,
    compositeAlpha: Flags,
    presentMode: PresentMode,
    clipped: bool,
    oldSwapchain: Handle)

  /** `minImageCount + 1` is a u32 addition, which overflows (a panic in debug
      builds) when minImageCount is u32::MAX. */
  predicate MinImageCountComputable(caps: Surface.SurfaceCapabilities) {
    caps.minImageCount < U32_MAX
  }

  /** The requested image count exactly as written: one more than the minimum,
      capped by maxImageCount even when maxImageCount is 0, which Vulkan uses
      for "no upper limit". */
  function MinImageCountAsWritten(caps: Surface.SurfaceCapabilities): (n: int)
    requires MinImageCountComputable(caps)
    ensures n <= caps.maxImageCount && n <= caps.minImageCount + 1
    ensures n == caps.maxImageCount || n == caps.minImageCount + 1
  {
    Min(caps.maxImageCount, caps.minImageCount + 1)
  }

  /** With "no limit" reported, the count as written collapses to 0 and falls
      below the surface's minimum whenever that minimum is positive. */
  lemma MinImageCountAsWrittenBelowMinimum(caps: Surface.SurfaceCapabilities)
    requires MinImageCountComputable(caps)
    requires caps.maxImageCount == 0 && caps.minImageCount > 0
    ensures MinImageCountAsWritten(caps) == 0
    ensures MinImageCountAsWritten(caps) < caps.minImageCount
  {
  }

  /** A concrete surface (min 2, no maximum) for which the request is 0. */
  lemma MinImageCountAsWrittenCounterexample()
    ensures var caps := Surface.SurfaceCapabilities(2, 0, Extent2D(800, 600), Extent2D(1, 1),
                                                    Extent2D(4096, 4096), 1);
      MinImageCountAsWritten(caps) == 0 < caps.minImageCount
  {
  }

  /** Vulkan's guarantee on reported limits: no maximum, or one at least the minimum. */
  predicate ImageCountLimitsSane(caps: Surface.SurfaceCapabilities) {
    caps.maxImageCount == 0 || caps.minImageCount <= caps.maxImageCount
  }

  /** The requested image count as intended: one more than the minimum, capped
      by the maximum only when there is one. */
  function MinImageCount(caps: Surface.SurfaceCapabilities): (n: int)
    requires MinImageCountComputable(caps)
    ensures ImageCountLimitsSane(caps) ==> caps.minImageCount <= n
    ensures caps.maxImageCount != 0 ==> n <= caps.maxImageCount
    ensures n <= caps.minImageCount + 1
    ensures caps.maxImageCount == 0 || caps.maxImageCount > caps.minImageCount
            <==> n == caps.minImageCount + 1
  {
    if caps.maxImageCount == 0 then caps.minImageCount + 1
    else Min(caps.maxImageCount, caps.minImageCount + 1)
  }

  /** The corrected count agrees with the code as written whenever a maximum
      is reported, and differs only in the "no limit" case. */
  lemma MinImageCountAgreesWhenBounded(caps: Surface.SurfaceCapabilities)
    requires MinImageCountComputable(caps)
    ensures caps.maxImageCount != 0 <==> MinImageCount(caps) == MinImageCountAsWritten(caps)
  {
  }

  predicate CreateInfoComputable(attrs: Surface.SurfaceAttributes) {
    MinImageCountComputable(attrs.capabilities)
  }

  /** create_swapchain's parameters, derived from the surface's attributes and
      the device's queue family indices. */
  function CreateSwapchainInfo(surface: Handle, attrs: Surface.SurfaceAttributes, familyIndices: seq<u32>): (ci: SwapchainCreateInfo)
    requires CreateInfoComputable(attrs)
    ensures ci.sharingMode == Concurrent <==> |familyIndices| > 1
    ensures ci.sharingMode == Exclusive <==> |familyIndices| <= 1
    ensures ci.queueFamilyIndices == familyIndices
    ensures ci.surface == surface && ci.oldSwapchain == NULL_HANDLE
    ensures ci.imageFormat == attrs.format.format && ci.imageColorSpace == attrs.format.colorSpace
    ensures ci.imageExtent == attrs.extent && ci.presentMode == attrs.presentMode
    ensures ci.preTransform == attrs.capabilities.currentTransform
    ensures ci.minImageCount == MinImageCountAsWritten(attrs.capabilities)
    ensures attrs.capabilities.maxImageCount != 0 ==> ci.minImageCount == MinImageCount(attrs.capabilities)
    ensures ci.imageArrayLayers == 1 && ci.imageUsage == IMAGE_USAGE_COLOR_ATTACHMENT
    ensures ci.compositeAlpha == COMPOSITE_ALPHA_OPAQUE && !ci.clipped
  {
    SwapchainCreateInfo(
      surface,
      MinImageCountAsWritten(attrs.capabilities),
      attrs.format.format,
      attrs.format.colorSpace,
      attrs.extent,
      1,
      IMAGE_USAGE_COLOR_ATTACHMENT,
      if |familyIndices| > 1 then Concurrent else Exclusive,
      familyIndices,
      attrs.capabilities.currentTransform,
      COMPOSITE_ALPHA_OPAQUE,
      attrs.presentMode,
      false,
      NULL_HANDLE)
  }

  /** The swapchain is created with the count as written: for a surface
      without a maximum it asks for 0 images, below the surface's minimum. */
  lemma CreateSwapchainInfoUnboundedBelowMinimum(surface: Handle, attrs: Surface.SurfaceAttributes, familyIndices: seq<u32>)
    requires CreateInfoComputable(attrs)
    requires attrs.capabilities.maxImageCount == 0 && attrs.capabilities.minImageCount > 0
    ensures CreateSwapchainInfo(surface, attrs, familyIndices).minImageCount == 0
    ensures CreateSwapchainInfo(surface, attrs, familyIndices).minImageCount < attrs.capabilities.minImageCount
  {
    MinImageCountAsWrittenBelowMinimum(attrs.capabilities);
  }

  /** The view-creation calls for views[i] over images[i], in order. */
  function CreateViewCalls(views: seq<Handle>, images: seq<Handle>, format: Format): (r: seq<Call>)
    requires |views| == |images|
    ensures |r| == |views|
    ensures forall i | 0 <= i < |views| :: r[i] == CreatedImageView(views[i], images[i], format)
  {
    seq(|views|, i requires 0 <= i < |views| => CreatedImageView(views[i], images[i], format))
  }

  /** dispose_gpu_resources: every view, then the swapchain. */
  function DisposeCalls(views: seq<Handle>, swapchain: Handle): (r: seq<Call>)
    ensures |r| == |views| + 1
    ensures r[|views|] == Destroyed(Swapchain, swapchain)
    ensures forall i | 0 <= i < |views| :: r[i] == Destroyed(ImageView, views[i])
  {
    DestroyAll(ImageView, views) + [Destroyed(Swapchain, swapchain)]
  }

  /** Disposing a batch with distinct views and swapchain destroys each of them
      exactly once and nothing else. */
  lemma DisposeDestroysEachOnce(views: seq<Handle>, swapchain: Handle, h: Handle)
    requires Distinct(views + [swapchain])
    ensures DestroyedHandles(DisposeCalls(views, swapchain)) == views + [swapchain]
    ensures h in views + [swapchain] ==> Occurrences(DestroyedHandles(DisposeCalls(views, swapchain)), h) == 1
    ensures h !in views + [swapchain] ==> Occurrences(DestroyedHandles(DisposeCalls(views, swapchain)), h) == 0
  {
    DestroyedHandlesAppend(DestroyAll(ImageView, views), [Destroyed(Swapchain, swapchain)]);
    DestroyedHandlesOfDestroyAll(ImageView, views);
    assert DestroyedHandles([Destroyed(Swapchain, swapchain)]) == [swapchain];
    if h in views + [swapchain] {
      DistinctOccursOnce(views + [swapchain], h);
    }
  }

  /** The swapchain with its images and per-image views. */
  class SwapChainBatch {
    const surface: Surface.Surface
    const device: Device
    var swapchain: Handle
    /** The parameters the current swapchain was created with. */
    var createInfo: SwapchainCreateInfo
    var images: seq<Handle>
    var imageViews: seq<Handle>

    /** One view per image; the batch's own handles are distinct driver handles. */
    predicate Valid()
      reads this, device
    {
      && |imageViews| == |images|
      && FreshRun(imageViews + [swapchain], 0, device.nextHandle)
    }

    constructor Assemble(surface: Surface.Surface, device: Device, swapchain: Handle,
                         createInfo: SwapchainCreateInfo, images: seq<Handle>, imageViews: seq<Handle>)
      ensures this.surface == surface && this.device == device && this.swapchain == swapchain
      ensures this.createInfo == createInfo && this.images == images && this.imageViews == imageViews
    {
      this.surface := surface;
      this.device := device;
      this.swapchain := swapchain;
      this.createInfo := createInfo;
      this.images := images;
      this.imageViews := imageViews;
    }

    /** SwapChainBatch::new: the surface and the device must come from the same
        instance and physical device. `driverImages` is the driver's answer to
        get_swapchain_images. */
    static method New(surface: Surface.Surface, device: Device, driverImages: seq<Handle>) returns (b: SwapChainBatch)
      requires surface.instance == device.instance
      requires surface.physicalDevice == device.physicalDevice
      requires CreateInfoComputable(surface.attributes)
      modifies device
      ensures fresh(b) && b.Valid()
      ensures b.surface == surface && b.device == device
      ensures b.images == driverImages
      ensures b.createInfo == CreateSwapchainInfo(surface.inner, surface.attributes, device.queueFamilyIndices)
      ensures old(device.nextHandle) <= b.swapchain
      ensures FreshRun(b.imageViews + [b.swapchain], old(device.nextHandle), device.nextHandle)
      ensures old(device.nextHandle) <= device.nextHandle
      ensures device.calls == old(device.calls) + [Created(Swapchain, b.swapchain)]
                              + CreateViewCalls(b.imageViews, b.images, surface.Format())
    {
      var sc, ci, imgs, views := CreateSwapchainImageAndViews(surface, device, driverImages);
      b := new SwapChainBatch.Assemble(surface, device, sc, ci, imgs, views);
    }

    /** dispose_gpu_resources followed by a fresh swapchain, images and views. */
    method Recreate(driverImages: seq<Handle>)
      requires Valid()
      requires CreateInfoComputable(surface.attributes)
      modifies this, device
      ensures Valid()
      ensures images == driverImages
      ensures createInfo == CreateSwapchainInfo(surface.inner, surface.attributes, device.queueFamilyIndices)
      ensures FreshRun(imageViews + [swapchain], old(device.nextHandle), device.nextHandle)
      ensures old(device.nextHandle) <= device.nextHandle
      ensures device.calls == old(device.calls) + DisposeCalls(old(imageViews), old(swapchain))
                              + [Created(Swapchain, swapchain)]
                              + CreateViewCalls(imageViews, images, surface.Format())
    {
      DisposeGpuResources();
      var sc, ci, imgs, views := CreateSwapchainImageAndViews(surface, device, driverImages);
      swapchain, createInfo, images, imageViews := sc, ci, imgs, views;
    }

    /** Destroys every view and then the swapchain; the batch's fields are left
        as they are. Drop runs exactly this. */
    method DisposeGpuResources()
      modifies device
      ensures device.calls == old(device.calls) + DisposeCalls(imageViews, swapchain)
      ensures device.nextHandle == old(device.nextHandle)
    {
      device.DestroyEach(ImageView, imageViews);
      device.Destroy(Swapchain, swapchain);
    }

    /** Drop for SwapChainBatch. */
    method Drop()
      modifies device
      ensures device.calls == old(device.calls) + DisposeCalls(imageViews, swapchain)
      ensures device.nextHandle == old(device.nextHandle)
    {
      DisposeGpuResources();
    }
  }

  /** create_swapchain_image_and_views: create the swapchain, take its images
      and create one view per image, in image order, with the surface format. */
  method CreateSwapchainImageAndViews(surface: Surface.Surface, device: Device, driverImages: seq<Handle>)
    returns (swapchain: Handle, createInfo: SwapchainCreateInfo, images: seq<Handle>, views: seq<Handle>)
    requires CreateInfoComputable(surface.attributes)
    modifies device
    ensures createInfo == CreateSwapchainInfo(surface.inner, surface.attributes, device.queueFamilyIndices)
    ensures images == driverImages && |views| == |images|
    ensures swapchain == old(device.nextHandle)
    ensures FreshRun(views + [swapchain], old(device.nextHandle), device.nextHandle)
    ensures old(device.nextHandle) < device.nextHandle
    ensures device.calls == old(device.calls) + [Created(Swapchain, swapchain)]
                            + CreateViewCalls(views, images, surface.Format())
  {
    createInfo := CreateSwapchainInfo(surface.inner, surface.attributes, device.queueFamilyIndices);
    swapchain := device.Create(Swapchain);
    images := driverImages;
    views := [];
    var i := 0;
    while i < |images|
      invariant 0 <= i <= |images| && |views| == i
      invariant FreshRun(views, swapchain + 1, device.nextHandle)
      invariant swapchain < device.nextHandle
      invariant device.calls == old(device.calls) + [Created(Swapchain, swapchain)]
                                + CreateViewCalls(views, images[..i], surface.Format())
    {
      FreshRunExtend(views, swapchain + 1, device.nextHandle);
      var v := device.CreateImageView(images[i], surface.Format());
      assert CreateViewCalls(views + [v], images[..i + 1], surface.Format())
          == CreateViewCalls(views, images[..i], surface.Format()) + [CreatedImageView(v, images[i], surface.Format())];
      views := views + [v];
      i := i + 1;
    }
    assert images[..i] == images;
    FreshRunAppendEarlier(views, swapchain, device.nextHandle);
  }
}
