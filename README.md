# vulkan-examples-rs, modelled in Dafny

This project models the sequential logic of the Rust Vulkan sample
framework vulkan-examples-rs. The Vulkan driver is treated as an opaque
party. Its handles are integers. Its answers (a `VkResult`, the list of
swapchain images, the surface capabilities, the format properties) are
inputs. Every object it creates or destroys is recorded in a call log kept
by a `Device` object (driver.dfy).

The model covers these parts of the framework:

- **Frame loop** (viking_room.dfy): the frame loop of the viking-room
  example. Each frame waits on the slot's fence, acquires an image, resets
  the fence, submits, presents, and recreates the swapchain when the
  surface is out of date, is suboptimal or was resized. The frame slot then
  advances modulo `MAX_FRAMES_IN_FLIGHT`.
- **Renderer objects** (fixed_stuff.dfy): the renderer's fixed set of
  objects. There is one semaphore pair, one fence and one command buffer
  per frame slot, and one framebuffer per swapchain view. This file also
  models `recreate_swapchain` and `Drop`.
- **Swapchain** (swapchain.dfy): the swapchain batch, covering creation,
  recreation and disposal, and the create-info rules: image count, sharing
  mode, extent and present mode.
- **Surface** (surface.dfy): the surface attributes, covering the extent
  choice with its `u32::MAX` sentinel and clamping, the sRGB format search,
  the MAILBOX/FIFO choice and the refit that keeps the held format.
- **Buffers** (buffer.dfy): `Buffer<T>` with its mapped/unmapped state,
  its byte contents and the memory-type search.
- **Images** (image.dfy): the image-layout transition table, the texture
  upload sequence, the depth-format search and `ImageBuffer::new`'s fixed
  parameters.
- **Queue families** (queue.dfy, queue_family.dfy): the queue-family search
  and the merging of family indices.
- **Instances** (objects_instance.dfy, wrappers_instance.dfy,
  physical_devices.dfy): the two instance builders, with the extensions and
  layers they enable, the debug messenger, and the bucketing of physical
  devices by type with its pick-first order.
- **UI overlay** (ui_overlay.dfy): the UI overlay's per-slot vertex and
  index buffers. This covers resizing, loading the draw lists at running
  offsets, and the indexed draws with their accumulated offsets.
- **OBJ loading** (mesh.dfy): the OBJ loader's de-indexing loop and the
  vertex layout.

Pure parts of the source are functions with lemmas. Parts that change
state are classes whose methods update their fields:

- `Buffer`
- `ImageBuffer`
- `Surface`
- `SwapChainBatch`
- `FixedVulkanStuff`
- `UIOverlay`
- the frame loop's `FrameLoop`
- the driver's `Device`

Loops in the source are methods with loop invariants. Each is proved
against a specification function.

## Model

| member | source | states |
|---|---|---|
| VikingRoom.PresentNeedsRecreate | examples/viking_room/main.rs:121-125 | Recreation is needed exactly for OUT_OF_DATE or `Ok(true)`. No recreation is needed exactly for `Ok(false)`. Every other present error is fatal. |
| VikingRoom.WaitComesFirst | examples/viking_room/main.rs:54-61 | Every frame's first event is the wait on the current slot's fence. Nothing is acquired, reset or submitted before it. |
| VikingRoom.OutOfDateAcquireRecreatesOnly | examples/viking_room/main.rs:67-73 | An OUT_OF_DATE acquire recreates the swapchain exactly once. It does not reset the fence and submits and presents nothing. |
| VikingRoom.FailedAcquireNeverResets | examples/viking_room/main.rs:67-76 | After any failed acquire, the fence is never reset and nothing is submitted. |
| VikingRoom.FenceResetBetweenAcquireAndSubmit | examples/viking_room/main.rs:82-113 | The slot's fence is reset once, after the successful acquire and before the submit. The submit signals that same fence. |
| VikingRoom.SubmitAndPresentChainSemaphores | examples/viking_room/main.rs:95-119 | The submit waits on the slot's image-available semaphore and signals its render-finished semaphore. The present waits on that same semaphore. |
| VikingRoom.RecreateAfterPresentIff | examples/viking_room/main.rs:121-131 | After a non-fatal present, the swapchain is recreated exactly once if the present asked for it or the window was resized, and not at all otherwise. |
| VikingRoom.SuboptimalAcquireDoesNotRecreate | examples/viking_room/main.rs:74-78 | A suboptimal acquire is treated as a success and does not by itself cause recreation. |
| VikingRoom.FrameLoop.OnWindowResized | examples/viking_room/main.rs:138-140 | Only sets `window_resized`. The slot, the fences and the events are unchanged. |
| VikingRoom.FrameLoop.WaitForFence | examples/viking_room/main.rs:54-61 | After the wait the slot's fence is signalled and the slot has no pending work. Only the wait event is added. |
| VikingRoom.FrameLoop.ResetSubmitPresent | examples/viking_room/main.rs:82-119 | Resets the slot's fence, records into its command buffer, submits and presents. The slot's fence is left unsignalled with work pending. The other slot's fence and the slot index are unchanged. |
| VikingRoom.FrameLoop.DrawFrame | examples/viking_room/main.rs:52-136 | The outcome and the events equal the frame specification for the driver's answers. An early return keeps the slot and the resize flag. A drawn frame advances the slot modulo 2 and clears the resize flag. It leaves the fence unsignalled with work pending. After an OUT_OF_DATE acquire the fence is signalled with nothing pending. The other slot's fence is untouched either way. |
| VikingRoom.FrameLoop.AfterPresent | examples/viking_room/main.rs:121-131 | A fatal present panics and adds no event. Otherwise recreation happens if it is needed or the window was resized, and the resize flag is cleared. |
| VikingRoom.FrameLoop.OnMainEventsCleared | src/app/window_app.rs:71-76 | A frame is drawn only when both window dimensions are positive, with the events, slot, resize flag and fences `DrawFrame` gives. A zero-sized window changes nothing: no event, same slot, same resize flag, same fences. |
| VikingRoom.SlotAfter | examples/viking_room/main.rs:134 | The frame slot stays below `MAX_FRAMES_IN_FLIGHT` through any run of frames. |
| VikingRoom.PassOutcome | src/app/window_app.rs:71-76 | A pass of the event loop draws nothing exactly when a window dimension is 0. Otherwise its outcome is the frame's. |
| VikingRoom.RunFrames | src/app/window_app.rs:52-76 | Resize notifications and cleared-events passes are handled in order. The run panics exactly when some pass draws a frame that panics. A run that does not panic keeps the state valid and ends on the slot `SlotAfter` predicts. |
| FixedStuff.FramebufferCalls | src/app/fixed_stuff.rs:155-175 | Framebuffer i is created over view i with the attachments [view, depth view], the given extent and one layer. |
| FixedStuff.SignaledFenceCalls | src/app/fixed_stuff.rs:71-79 | Every per-slot fence is created already signalled. |
| FixedStuff.CreatePerSlot | src/app/fixed_stuff.rs:61-70 | Creates exactly `MAX_FRAMES_IN_FLIGHT` objects of the kind, as fresh distinct handles, and logs their creation. |
| FixedStuff.CreateSignaledFences | src/app/fixed_stuff.rs:71-79 | Creates one signalled fence per slot, as fresh distinct handles. |
| FixedStuff.CreateSwapchainFramebuffers | src/app/fixed_stuff.rs:155-175 | Creates one fresh framebuffer per swapchain view, in view order. |
| FixedStuff.SlotObjectCalls | src/app/fixed_stuff.rs:41-79 | The per-slot creation calls hold one call per object and create no depth image, render pass or framebuffer. |
| FixedStuff.CreateSlotObjects | src/app/fixed_stuff.rs:41-79 | Creates the pool, then per slot a command buffer, two semaphores and a signalled fence, as fresh distinct handles, and logs exactly those calls. |
| FixedStuff.FixedVulkanStuff.New | src/app/fixed_stuff.rs:32-106 | Fails with FormatNotSupported exactly when `find_depth_format` finds no candidate. On that path the batch is dropped (its swapchain destroyed last) and no depth image, render pass or framebuffer is created. Otherwise the depth format is the one found, the calls are logged in the source's order, and there is one of each per-slot object per slot and one framebuffer per view. All owned handles are fresh and distinct. |
| FixedStuff.FixedVulkanStuff.RecreateSwapchain | src/app/fixed_stuff.rs:108-130 | A failing wait for the device to be idle returns its error after logging the wait, with nothing else changed. Otherwise, in order: waits for the device to be idle, refits the surface keeping its format, recreates the swapchain and the depth image, destroys the old framebuffers and creates new ones, one per new view. Sync objects, the pool, the command buffers and the render pass are unchanged. |
| FixedStuff.FixedVulkanStuff.Drop | src/app/fixed_stuff.rs:134-152 | Destroys the semaphores, fences, pool, current framebuffers and render pass, in the source's order. |
| FixedStuff.DropDestroysEachOnce | src/app/fixed_stuff.rs:134-152 | Drop destroys every owned handle exactly once and nothing else. |
| FixedStuff.ReplaceFramebuffersKeepsFresh | src/app/fixed_stuff.rs:111-127 | Replacing the framebuffers with newly created ones keeps all owned handles distinct. |
| FixedStuff.OwnedFresh | src/app/fixed_stuff.rs:48-103 | The handles created by `new` from consecutive fresh runs are distinct. |
| Swapchain.MinImageCountAsWritten | src/vulkan_objects/swapchain.rs:139-144 | The requested count is `min(maxImageCount, minImageCount + 1)`, exactly as written. |
| Swapchain.MinImageCountAsWrittenBelowMinimum | src/vulkan_objects/swapchain.rs:139-144 | When the surface reports no maximum (0), the count as written is 0, which is below the surface's minimum. |
| Swapchain.MinImageCountAsWrittenCounterexample | src/vulkan_objects/swapchain.rs:139-144 | For the concrete surface (min 2, max 0), the count as written is 0. |
| Swapchain.MinImageCount | src/vulkan_objects/swapchain.rs:139-144 | The corrected count is at least the minimum, at most the maximum when there is one, and at most minimum + 1. |
| Swapchain.MinImageCountAgreesWhenBounded | src/vulkan_objects/swapchain.rs:139-144 | The corrected and the as-written counts agree exactly when a maximum is reported. |
| Swapchain.CreateSwapchainInfoUnboundedBelowMinimum | src/vulkan_objects/swapchain.rs:139-144 | A swapchain created for a surface without a maximum asks for 0 images, below the surface's minimum. |
| Swapchain.CreateSwapchainInfo | src/vulkan_objects/swapchain.rs:132-163 | The requested image count is the as-written `MinImageCountAsWritten`, and it equals the corrected count whenever the surface reports a maximum. Sharing is CONCURRENT if and only if more than one family index is passed. It uses the surface's format, colour space, extent, present mode and transform, one layer, a colour-attachment usage, opaque alpha, no clipping and a null old swapchain. |
| Swapchain.CreateViewCalls | src/vulkan_objects/swapchain.rs:108-127 | View i is created over image i with the surface format. |
| Swapchain.DisposeCalls | src/vulkan_objects/swapchain.rs:87-94 | Disposal destroys every view and then the swapchain. |
| Swapchain.DisposeDestroysEachOnce | src/vulkan_objects/swapchain.rs:87-94 | With distinct handles, disposal destroys each view and the swapchain exactly once and nothing else. |
| Swapchain.SwapChainBatch.New | src/vulkan_objects/swapchain.rs:17-34 | Requires the surface and the device to share the instance and the physical device. Creates one view per driver image and a swapchain with the create-info rules, all as fresh handles. |
| Swapchain.SwapChainBatch.Recreate | src/vulkan_objects/swapchain.rs:36-43 | Disposes the old views and swapchain before creating fresh ones. Afterwards there is again one view per image. |
| Swapchain.SwapChainBatch.DisposeGpuResources | src/vulkan_objects/swapchain.rs:87-94 | Destroys the batch's views and swapchain and creates nothing. |
| Swapchain.SwapChainBatch.Drop | src/vulkan_objects/swapchain.rs:97-101 | Drop disposes exactly what `recreate` disposes. |
| Swapchain.CreateSwapchainImageAndViews | src/vulkan_objects/swapchain.rs:103-129 | Creates the swapchain from the create info, takes the driver's images, and creates as many fresh views as there are images. |
| Surface.ClampIsNearest | src/vulkan_objects/surface.rs:180-189 | The clamped value lies in [lo, hi] and no value in that range is nearer to the input. |
| Surface.Clamp | src/vulkan_objects/surface.rs:181-188 | The result lies in [lo, hi], and it equals the value exactly when the value is already in range. |
| Surface.GetWindowExtent | src/vulkan_objects/surface.rs:173-191 | The current extent when its width is not `u32::MAX`. Otherwise the window size is clamped independently per dimension into the surface's image-extent range. |
| Surface.ScissorCoversExactlyExtent | src/vulkan_objects/surface.rs:166-171 | The scissor has offset (0,0) and the given extent, and lets through exactly the pixels inside it. |
| Surface.FirstWantedIndex | src/vulkan_objects/surface.rs:125-136 | The index of the first reported format with the wanted format in sRGB-nonlinear colour space, or the list's length if there is none. |
| Surface.FindSurfaceFormat | src/vulkan_objects/surface.rs:125-136 | The first matching reported format. FormatNotSupported if and only if no entry matches. |
| Surface.ChoosePresentMode | src/vulkan_objects/surface.rs:137-141 | MAILBOX when it is reported, FIFO otherwise. |
| Surface.GetSurfaceAttrs | src/vulkan_objects/surface.rs:114-149 | Query errors are propagated in call order. Success exactly when all queries succeed and a format matches. The attributes then hold the capabilities, the chosen extent, the format and the present mode. |
| Surface.Surface.New | src/vulkan_objects/surface.rs:31-58 | The new surface holds the attributes selected for the requested format, or the selection's error. |
| Surface.Surface.RefitSurfaceAttribute | src/vulkan_objects/surface.rs:80-89 | Recomputes every attribute, re-requesting the currently held format. The format is unchanged afterwards. |
| Surface.RefitKeepsFormat | src/vulkan_objects/surface.rs:80-89 | Any successful refit keeps the held format. |
| Buffers.FindMemoryType | src/vulkan_objects/buffer.rs:223-245 | The lowest index below `memory_type_count` whose bit is set and whose flags contain the requested ones. MemoryTypeNotSupported if and only if there is none. |
| Buffers.Overwrite | src/vulkan_objects/buffer.rs:144-154 | The written range holds the data, and every other byte is unchanged. |
| Buffers.Buffer.New | src/vulkan_objects/buffer.rs:21-61 | Size is `element_num × element size`, and the buffer starts unmapped with the first suitable memory type. The buffer and its memory take the next two handles. On MemoryTypeNotSupported, the already created buffer is left in the log. |
| Buffers.Buffer.ElementNum | src/vulkan_objects/buffer.rs:67-69 | The number of whole elements that fit in the byte size. |
| Buffers.ElementNumOfNew | src/vulkan_objects/buffer.rs:67-69 | A buffer made for n elements reports n elements. |
| Buffers.MultipleBelowFactor | src/vulkan_objects/buffer.rs:67-69 | The only multiple of a positive element size below that size is 0. This is the step that makes the element count exact. |
| Buffers.Buffer.Descriptor | src/vulkan_objects/buffer.rs:99-109 | The descriptor names this buffer with the given offset and range. |
| Buffers.Buffer.DescriptorDefault | src/vulkan_objects/buffer.rs:111-113 | The default descriptor covers exactly the bytes [0, size_in_bytes). |
| Buffers.Buffer.MapMemory | src/vulkan_objects/buffer.rs:115-132 | Requires the buffer to be unmapped and the range to lie inside it. On success the buffer is mapped at that range; a driver error leaves it unmapped. The contents are unchanged. |
| Buffers.Buffer.MapMemoryAll | src/vulkan_objects/buffer.rs:134-136 | Maps the whole buffer. |
| Buffers.Buffer.UnmapMemory | src/vulkan_objects/buffer.rs:138-142 | Requires the buffer to be mapped and leaves it unmapped, with the contents unchanged. |
| Buffers.Buffer.LoadData | src/vulkan_objects/buffer.rs:144-154 | Requires an aligned offset and that the data fits. Writes exactly the data's bytes at the offset and ends unmapped. A mapping error leaves the contents unchanged. |
| Buffers.LoadThenRead | src/vulkan_objects/buffer.rs:144-154 | Reading back the written range yields the data, and writing the same data twice is the same as writing it once. |
| Buffers.Buffer.CopyTo | src/vulkan_objects/buffer.rs:156-178 | Requires equal byte sizes. When the one-time command succeeds, the destination's bytes become the source's bytes. When it fails, its error is returned and the destination is unchanged. |
| Buffers.Buffer.Drop | src/vulkan_objects/buffer.rs:212-217 | Destroys the buffer and frees its memory. |
| Buffers.NewDeviceLocal | src/vulkan_objects/buffer.rs:180-208 | Succeeds exactly when both buffers find a memory type, the staging map succeeds and the copy succeeds; each failure returns its own error. A failed copy drops the device-local buffer and then the staging buffer. The staging buffer is a host-visible, coherent transfer source. It is dropped on every path after its creation, and the log says so call by call. The result is a device-local transfer-destination and index buffer, with one element per data element, holding the data's bytes, left unmapped. |
| Images.TransitionMasks | src/vulkan_objects/image.rs:99-122 | Accepts exactly UNDEFINED→TRANSFER_DST and TRANSFER_DST→SHADER_READ_ONLY, each with its fixed access and stage masks. Anything else is LayoutTransitionNotSupported. |
| Images.TransitionLayout | src/vulkan_objects/image.rs:91-160 | A supported pair records one barrier with those masks. Any other pair records nothing and fails. |
| Images.UploadLeavesImageReadable | src/vulkan_objects/image.rs:205-252 | The upload runs transition, copy, transition from UNDEFINED and ends in SHADER_READ_ONLY. The copy happens in TRANSFER_DST, and the masks chain the transfer write to the shader read. |
| Images.TransitionsOnlyForward | src/vulkan_objects/image.rs:99-122 | No transition leaves SHADER_READ_ONLY, none returns to UNDEFINED, and none keeps a layout. |
| Images.FirstSupportedFormat | src/vulkan_objects/image.rs:337-363 | The first candidate whose features for the tiling contain the requested ones. FormatNotSupported if and only if none does, which includes the empty list and other tilings. |
| Images.FilterSupportedFormat | src/vulkan_objects/image.rs:337-363 | The loop returns the first supporting candidate. |
| Images.FindDepthFormat | src/vulkan_objects/image.rs:365-376 | FormatNotSupported exactly when no depth candidate supports optimal-tiling depth/stencil attachment. A found format is a candidate with that support. |
| Images.DepthFormatPreference | src/vulkan_objects/image.rs:365-376 | D32_SFLOAT, then D32_SFLOAT_S8_UINT, then D24_UNORM_S8_UINT, else FormatNotSupported. |
| Images.FoundDepthFormatStencil | src/vulkan_objects/image.rs:378-380 | A found depth format is a candidate, and it has a stencil component exactly when it is not D32_SFLOAT. |
| Images.NewImageInfo | src/vulkan_objects/image.rs:18-69 | A 2D image with one sample, one mip level and one layer, exclusively owned, starting UNDEFINED so that the upload transition applies. |
| Images.ImageBuffer.New | src/vulkan_objects/image.rs:18-69 | Creates the image and then memory of the first suitable type. On MemoryTypeNotSupported the created image is left in the log. |
| Images.ImageBuffer.Drop | src/vulkan_objects/image.rs:271-276 | Destroys the image and frees its memory. |
| Images.DepthBufferInfo | src/vulkan_objects/image.rs:257-267 | An optimal-tiling depth/stencil attachment of the preferred depth format at the extent. Fails exactly when no depth format is found. |
| QueueFamily.GraphicsTestAlwaysHolds | src/vulkan_objects/queue.rs:34-37 | The graphics test as written, `!(flags \| GRAPHICS).is_empty()`, holds for every family. |
| QueueFamily.FirstAnswered | src/vulkan_objects/queue.rs:33-53 | The first family whose surface-support query did not answer "unsupported". |
| QueueFamily.PresentSearch | src/vulkan_objects/queue.rs:33-61 | On success, the first family supporting presentation. QueueFamilyNotSupported if and only if no family supports it and no query failed. Otherwise the first query error is returned. |
| QueueFamily.PresentSearchSkipsUnsupported | src/vulkan_objects/queue.rs:33-53 | Skipping a prefix of unsupported families shifts the search's result by the prefix length. |
| QueueFamily.Merge | src/queue_family.rs:16-25 | None if and only if not ready. Otherwise the set of the two indices, of size 1 exactly when they coincide. |
| QueueFamily.FromSurface | src/queue_family.rs:27-57 | A ready result has both indices equal to the first presentation family. Finding none gives Ok with present unset. Query errors are propagated. |
| Queue.QueueInfoNew | src/vulkan_objects/queue.rs:20-62 | Both indices are the first presentation family, with priority 1.0. Otherwise QueueFamilyNotSupported or the first query error. |
| Queue.Inserted | src/vulkan_objects/queue.rs:64-76 | The map's keys are the inserted indices, and the last insertion's priority wins. |
| Queue.MergeQueueFamilyIndexAndPriority | src/vulkan_objects/queue.rs:64-76 | Inserts the graphics entry and then the present entry into the map. |
| Queue.MergeOneEntryPerFamily | src/vulkan_objects/queue.rs:64-76 | One entry when the indices coincide, carrying the present priority. Otherwise two entries, each with its own priority. |
| PhysicalDevices.OfType | src/vulkan_objects/instance.rs:191-203 | A bucket holds exactly the devices of its type. |
| PhysicalDevices.FirstOfType | src/vulkan_objects/instance.rs:191-203 | The first enumerated device of a type, or None if and only if there is no device of that type. |
| PhysicalDevices.CollectDevices | src/vulkan_objects/instance.rs:191-211 | The loop buckets every device by type, in enumeration order, and drops other types. |
| PhysicalDevices.Chained | src/vulkan_objects/instance.rs:305-323 | The chained iteration has one entry per bucketed device, holds exactly the bucketed devices, and is empty exactly when the collection `is_empty`. |
| PhysicalDevices.PickFirst | src/vulkan_objects/instance.rs:305-323 | None if and only if the collection is empty. Otherwise a device of the chained iteration. |
| PhysicalDevices.PickFirstPrefersDiscrete | src/vulkan_objects/instance.rs:309-323 | Picks the first discrete device, else the first integrated one, else the first cpu one. The collection is empty exactly when no device has one of these types. |
| VulkanObjectsInstance.GetU32Version | src/vulkan_objects/instance.rs:23-30 | Each version maps to `VK_MAKE_API_VERSION(0, 1, minor, 0)`. |
| VulkanObjectsInstance.GetU32VersionInjective | src/vulkan_objects/instance.rs:23-30 | The mapping is one-to-one. |
| VulkanObjectsInstance.DefaultBuilder | src/vulkan_objects/instance.rs:43-55 | No window, no names, versions 0, API 1.0, validation off. |
| VulkanObjectsInstance.WithWindow | src/vulkan_objects/instance.rs:58-61 | Sets only the window. |
| VulkanObjectsInstance.WithAppNameAndVersion | src/vulkan_objects/instance.rs:63-67 | Sets only the application name and version. |
| VulkanObjectsInstance.WithEngineNameAndVersion | src/vulkan_objects/instance.rs:69-73 | Sets only the engine name and version. |
| VulkanObjectsInstance.WithVulkanApiVersion | src/vulkan_objects/instance.rs:75-78 | Sets only the API version. |
| VulkanObjectsInstance.EnableValidationLayer | src/vulkan_objects/instance.rs:80-83 | Sets only the validation flag. |
| VulkanObjectsInstance.AppInfo | src/vulkan_objects/instance.rs:139-145 | A missing application name is sent as "" and a missing engine name as "No Engine". The versions and the API version are passed on. |
| VulkanObjectsInstance.NameAndVersion | src/vulkan_objects/instance.rs:218-220 | `Some((name, version))` if and only if a name was given. |
| VulkanObjectsInstance.NewFailure | src/vulkan_objects/instance.rs:128-223 | Failures in call order. PhysicalDeviceNotSupported exactly when every call succeeds but every bucket is empty. |
| VulkanObjectsInstance.InstanceNew | src/vulkan_objects/instance.rs:128-223 | The layer list is [validation] if and only if validation is on, and the debug messenger then uses the fixed severities and callback. The devices are bucketed and a device can be picked. The names are reported back. |
| VulkanObjectsInstance.BuildFailure | src/vulkan_objects/instance.rs:85-114 | The window's extension query fails first; otherwise the failure is that of `Instance::new`. |
| VulkanObjectsInstance.BuildExtensions | src/vulkan_objects/instance.rs:86-103 | The window's required extensions (none without a window), followed by DebugUtils if and only if validation is on. |
| VulkanObjectsInstance.Build | src/vulkan_objects/instance.rs:85-114 | Enables those extensions and layers, and `validation_layer_enabled` agrees with the flag. |
| VulkanObjectsInstance.DefaultBuildIsBare | src/vulkan_objects/instance.rs:43-55 | The default builder enables nothing and sends "" and "No Engine" with API 1.0. |
| VulkanWrappersInstance.NewBuilder | src/vulkan_wrappers/instance.rs:48-65 | No window, no names, versions 0, API 1.0, strategy Idle. |
| VulkanWrappersInstance.Window | src/vulkan_wrappers/instance.rs:67-70 | Sets only the window. |
| VulkanWrappersInstance.AppNameAndVersion | src/vulkan_wrappers/instance.rs:72-76 | Sets only the application name and version. |
| VulkanWrappersInstance.EngineNameAndVersion | src/vulkan_wrappers/instance.rs:78-82 | Sets only the engine name and version. |
| VulkanWrappersInstance.VulkanApiVersion | src/vulkan_wrappers/instance.rs:84-87 | Sets only the API version. |
| VulkanWrappersInstance.DebugStrategy | src/vulkan_wrappers/instance.rs:89-92 | Sets only the debug strategy. |
| VulkanWrappersInstance.BuildFailure | src/vulkan_wrappers/instance.rs:94-212 | Failures in call order. PhysicalDeviceNotSupported only when the enumeration succeeds and every bucket is empty. |
| VulkanWrappersInstance.Build | src/vulkan_wrappers/instance.rs:94-212 | `support_window` holds if and only if a window was given. DebugUtils, the validation layer and the messenger are present if and only if the strategy is not Idle, and the messenger carries that strategy's callback. The names, devices and version are as in the other builder. |
| VulkanWrappersInstance.PrintAllOutcome | src/vulkan_wrappers/instance.rs:308-334 | Never panics and returns FALSE. |
| VulkanWrappersInstance.PanicOnErrorsOutcome | src/vulkan_wrappers/instance.rs:336-367 | Panics exactly when the severity is ERROR, and otherwise returns FALSE. |
| VulkanWrappersInstance.CallbacksDifferOnlyOnError | src/vulkan_wrappers/instance.rs:336-367 | The two callbacks behave alike on every severity except ERROR. |
| UiOverlay.ConcatPrefix | src/app/ui_overlay.rs:340-348 | The lists loaded so far form a prefix of the full load. |
| UiOverlay.ReplaceCalls | src/app/ui_overlay.rs:326-335 | Replacing a buffer destroys exactly the old buffer and its memory. |
| UiOverlay.NewSlotBuffer | src/app/ui_overlay.rs:445-461 | A fresh host-visible buffer of exactly n elements. |
| UiOverlay.ReplaceSlotBuffer | src/app/ui_overlay.rs:326-335 | The new buffer has n elements, and the old one is dropped. |
| UiOverlay.Write | src/app/ui_overlay.rs:340-348 | The data is written at the offset, and every other element is unchanged. |
| UiOverlay.WriteNextPart | src/app/ui_overlay.rs:340-348 | Writing list i at the running offset extends the loaded prefix by that list, and the offset advances by its length. |
| UiOverlay.ListDraws | src/app/ui_overlay.rs:404-442 | Every draw of a list is indexed and uses the list's vertex offset. |
| UiOverlay.DataDraws | src/app/ui_overlay.rs:401-442 | Every recorded draw is an indexed draw. |
| UiOverlay.TilesAppend | src/app/ui_overlay.rs:401-442 | Two runs of draws that tile adjacent index ranges tile their union. |
| UiOverlay.ListDrawsTile | src/app/ui_overlay.rs:404-442 | One list's draws cover its index range in order, without gap or overlap, and the index offset advances by each count. |
| UiOverlay.DrawsTileIndexBuffer | src/app/ui_overlay.rs:401-442 | A frame's draws cover the index buffer from 0 up to the total Elements count, without gap or overlap. |
| UiOverlay.ElementsCoverLoadedIndices | src/app/ui_overlay.rs:340-442 | When each list's Elements counts add up to its index count, the draws cover exactly the loaded indices. |
| UiOverlay.UIOverlay.constructor | src/app/ui_overlay.rs:288-293 | Each slot starts with 1-element vertex and index buffers. |
| UiOverlay.UIOverlay.LoadDrawLists | src/app/ui_overlay.rs:340-348 | The slot's buffers hold all lists' vertices and indices (`Vertices` and `Indices`, the concatenation of every list's data in list order), each list at its running offset. The other slot is unchanged. |
| UiOverlay.UIOverlay.ResizeSlot | src/app/ui_overlay.rs:326-335 | Each of the slot's buffers is replaced by one of exactly the total count if and only if its count differs. The result is true if and only if one was replaced. The other slot is unchanged. |
| UiOverlay.UIOverlay.SetSlotMapped | src/app/ui_overlay.rs:337-353 | Maps or unmaps both of the slot's buffers. |
| UiOverlay.UIOverlay.Update | src/app/ui_overlay.rs:315-356 | With no vertices or no indices, returns false and changes nothing. Otherwise resizes, loads the lists and leaves both buffers unmapped, and returns whether a buffer was replaced. The other slot is unchanged. |
| UiOverlay.UIOverlay.Draw | src/app/ui_overlay.rs:358-443 | Without draw lists, records nothing. Otherwise binds the slot's buffers and records the draws with the accumulated offsets. |
| UiOverlay.RecordDataDraws | src/app/ui_overlay.rs:401-442 | The loop over the lists records exactly the specified draws. |
| UiOverlay.DrawStep | src/app/ui_overlay.rs:401-442 | The draws and both offsets grow by one list's draws, Elements count and vertex count. |
| UiOverlay.RecordListDraws | src/app/ui_overlay.rs:404-440 | The loop over one list records its draws and advances the index offset by its Elements count. |
| Mesh.NewVertex | src/mesh.rs:17-23 | A white, untextured vertex at the position. |
| Mesh.WithColor | src/mesh.rs:25-28 | Changes only the colour. |
| Mesh.WithTextureCoord | src/mesh.rs:30-33 | Changes only the texture coordinate. |
| Mesh.BindingDescription | src/mesh.rs:35-41 | Binding 0, a stride of one vertex (32 bytes), per-vertex rate. |
| Mesh.AttrDescriptions | src/mesh.rs:43-64 | Position, colour and texture coordinate at locations 0, 1 and 2 of binding 0, with their formats. Each fits inside the stride, and they are in order without overlap. |
| Mesh.CornerVertex | src/mesh.rs:81-92 | Position from positions[3v], positions[3v+1] and the negated positions[3v+2]. Texture coordinate (texcoords[2t], 1 − texcoords[2t+1]). White colour. |
| Mesh.MeshVertices | src/mesh.rs:80-95 | One vertex per corner, in corner order. |
| Mesh.DeIndexed | src/mesh.rs:78-96 | The vertex count is the sum of the models' index counts. |
| Mesh.CountingIndices | src/mesh.rs:94 | Index k is k truncated to u32. |
| Mesh.CountingIndicesPush | src/mesh.rs:94 | Pushing the list's length keeps it counting. |
| Mesh.PushMeshVertices | src/mesh.rs:80-95 | The inner loop appends the mesh's corner vertices, and the indices keep counting. |
| Mesh.LoadObjModel | src/mesh.rs:68-99 | A load error becomes ObjLoadError. Otherwise the result is the de-indexed vertices and the counting indices. |
| Mesh.DeIndexedAt | src/mesh.rs:78-96 | Corner i of model j lands at that model's offset + i. |
| Mesh.IndexedDrawReproducesVertices | src/mesh.rs:94 | While the count fits in u32, the indices are 0..n−1, so an indexed draw reproduces the vertex stream. |
| Mesh.IndicesWrapPastU32 | src/mesh.rs:94 | Past 2^32 corners the truncated index wraps to 0. |

## Left out

- Driver calls that create objects, and every other driver call except the queried answers, `map_memory`, `device_wait_idle` in `recreate_swapchain` and the one-time command in `copy_to`, are modelled as succeeding. Their `?` error paths are left out; the logic errors that the framework raises itself are modelled (FormatNotSupported, MemoryTypeNotSupported, LayoutTransitionNotSupported, PhysicalDeviceNotSupported, ObjLoadError).
- Driver answers that are queried (acquire, present, surface support, capabilities, formats, images, format properties, memory properties) are inputs rather than calls.
- Floating point is left out. Vertex coordinates and queue priorities are `real`, so f32 rounding, including that of `1 - v` in the OBJ loader, is not modelled. The viewport, push constants and scissor rectangles of the UI overlay are left out.
- Printing is left out: the debug callbacks' message text, and the uniform update and command recording beyond the events the frame loop logs.
- The order of HashMap and HashSet results is unspecified, so it is left out. `QueueFamily.Merge` returns a set and `Queue.MergeQueueFamilyIndexAndPriority` a map.
- Reference counting (`Rc`, `Weak`, `check_can_be_freed`) and `Instance`'s Drop are left out.
- The macOS portability extensions and flags are left out.
- `color_image_from_file` is modelled by its command sequence and layout replay; decoding the image file is left out.
- The UI overlay's index type (u16) and the u32/u64 range of its offsets are left out. Its map and flush calls are modelled as succeeding.
- Loading with tobj is an input. Its load error keeps only its kind.
- Each file is modelled on its own, with its inputs as parameters. For example, the frame loop records a recreation as an event rather than calling `FixedVulkanStuff.RecreateSwapchain`.
- `DepthStencilImageAndView`'s own Drop is not modelled. `recreate_swapchain` replaces the depth image without logging its destruction.
- Images.TransitionLayout: the `?` on the one-time command that submits the barrier (src/vulkan_objects/image.rs:143-157) is left out, so a supported pair always succeeds. The same holds for the copy command of `color_image_from_file` (src/vulkan_objects/image.rs:232-244), which `Images.UploadCommands` records unconditionally. The one-time command buffers themselves are not logged.
- Buffers.Buffer.New: requires `elementNum * elementSize <= u64::MAX`. The source's `element_num as u64 * size_of::<T>()` (src/vulkan_objects/buffer.rs:28) would panic in a debug build and wrap in a release build past that bound; the model does not cover it.
- Swapchain.MinImageCountAsWritten: requires `minImageCount < u32::MAX`, and so do `CreateSwapchainInfo`, `SwapChainBatch.New`, `SwapChainBatch.Recreate` and `FixedVulkanStuff.RecreateSwapchain`. At `u32::MAX` the source's `+ 1` panics in a debug build and wraps to 0 in a release build; the model does not cover that surface.
- VikingRoom.FrameLoop.WaitForFence: the fence wait is `unwrap()`ed (examples/viking_room/main.rs:54-61) and modelled as always succeeding; a failing wait would panic.
- VikingRoom.FrameLoop.ResetSubmitPresent: the fence reset and the queue submit are `unwrap()`ed (examples/viking_room/main.rs:82-85, 106-113) and modelled as always succeeding.
- VikingRoom.FrameLoop.DrawFrame: the swapchain recreation after an OUT_OF_DATE acquire is `unwrap()`ed (examples/viking_room/main.rs:67-73). It is logged as a RecreateSwapchain event that always succeeds.
- VikingRoom.FrameLoop.AfterPresent: the recreation after a present is `unwrap()`ed the same way (examples/viking_room/main.rs:126-130) and always succeeds in the model.
- UiOverlay.NewSlotBuffer: creating a buffer can fail in the source (memory type or driver error, propagated by `?` in `update`, src/app/ui_overlay.rs:326-335). The model always succeeds.
- UiOverlay.UIOverlay.Update: has no error path. The `?` on the replacement buffers, on `map_memory_all` and on `flush` (src/app/ui_overlay.rs:326-350) never fires in the model.
- VulkanObjectsInstance.AppInfo: `CString::new(..).unwrap()` panics on a name containing a NUL character (src/vulkan_objects/instance.rs:140, 142). The model accepts any name.
- Mesh.LoadObjModel: requires every followed position and texture-coordinate index to be in range, where the source would panic on an out-of-range index.
- Mesh.IndicesWrapPastU32: states the u32 truncation of `len() as u32` for a count above 2^32 that no real model reaches.
- QueueFamily.GraphicsTestAlwaysHolds: the graphics test uses `|` where `&` was evidently meant, so every visited family overwrites the graphics index. The model reproduces this literally.
- QueueFamily.PresentSearch: QueueFamilyNotSupported is not a variant of the crate's error enum in the sources at hand. The model keeps it as the error `QueueInfo::new` returns.
- FixedStuff.FixedVulkanStuff.New: the surface and the device are given (their creation is modelled in their own modules), and every driver creation call succeeds. On the FormatNotSupported path the log is stated by its shape (old calls kept, no attachment created, swapchain destroyed last), not call by call.

## Findings

| source | as written | input that shows it | evidently intended | confidence | as-written member | corrected member |
|---|---|---|---|---|---|---|
| src/vulkan_objects/swapchain.rs:139-144 | The requested image count is `min(maxImageCount, minImageCount + 1)`. | A surface reporting minImageCount 2 and maxImageCount 0, where 0 means "no limit" in Vulkan, gets a request of 0 images, which is below the minimum. | Cap at maxImageCount only when it is non-zero. | not executed | Swapchain.MinImageCountAsWrittenCounterexample | Swapchain.MinImageCount |
