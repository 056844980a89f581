/** Images: the fixed creation parameters of ImageBuffer, the layout
    transition table of transition_layout, the texture upload sequence of
    color_image_from_file, and the supported-format search of format_helper.
    Format properties are the driver's answer, given as a function of the
    format. */
module Images {
  import opened Vk
  import opened Driver
  import Buffers

  /** vk::FormatProperties: the features per tiling. */
  datatype FormatProperties = FormatProperties(linearTilingFeatures: Flags, optimalTilingFeatures: Flags)

  /** The masks of a pipeline barrier: (src access, dst access, src stage, dst stage). */
  datatype BarrierMasks = BarrierMasks(srcAccess: Flags, dstAccess: Flags, srcStage: Flags, dstStage: Flags)

  /** The layout pairs transition_layout supports: upload target, then sampling. */
  predicate SupportedTransition(oldLayout: ImageLayout, newLayout: ImageLayout) {
    || (oldLayout == LAYOUT_UNDEFINED && newLayout == LAYOUT_TRANSFER_DST_OPTIMAL)
    || (oldLayout == LAYOUT_TRANSFER_DST_OPTIMAL && newLayout == LAYOUT_SHADER_READ_ONLY_OPTIMAL)
  }

  /** transition_layout's decision table. Any other pair is rejected before a
      command is recorded. */
  function TransitionMasks(oldLayout: ImageLayout, newLayout: ImageLayout): (r: Result<BarrierMasks>)
    ensures r.Ok? <==> SupportedTransition(oldLayout, newLayout)
    ensures r.Err? ==> r.error == LayoutTransitionNotSupported
    ensures oldLayout == LAYOUT_UNDEFINED && newLayout == LAYOUT_TRANSFER_DST_OPTIMAL ==>
      r == Ok(BarrierMasks(ACCESS_NONE, ACCESS_TRANSFER_WRITE, STAGE_TOP_OF_PIPE, STAGE_TRANSFER))
    ensures oldLayout == LAYOUT_TRANSFER_DST_OPTIMAL && newLayout == LAYOUT_SHADER_READ_ONLY_OPTIMAL ==>
      r == Ok(BarrierMasks(ACCESS_TRANSFER_WRITE, ACCESS_SHADER_READ, STAGE_TRANSFER, STAGE_FRAGMENT_SHADER))
  {
    if oldLayout == LAYOUT_UNDEFINED && newLayout == LAYOUT_TRANSFER_DST_OPTIMAL then
      Ok(BarrierMasks(ACCESS_NONE, ACCESS_TRANSFER_WRITE, STAGE_TOP_OF_PIPE, STAGE_TRANSFER))
    else if oldLayout == LAYOUT_TRANSFER_DST_OPTIMAL && newLayout == LAYOUT_SHADER_READ_ONLY_OPTIMAL then
      Ok(BarrierMasks(ACCESS_TRANSFER_WRITE, ACCESS_SHADER_READ, STAGE_TRANSFER, STAGE_FRAGMENT_SHADER))
    else
      Err(LayoutTransitionNotSupported)
  }

  /** Commands recorded (each in its own one-time command buffer) on an image. */
  datatype Command =
    | Barrier(image: Handle, oldLayout: ImageLayout, newLayout: ImageLayout, masks: BarrierMasks)
    | CopyBufferToImage(buffer: Handle, image: Handle, layout: ImageLayout, width: u32, height: u32)

  /** transition_layout: the barrier command, or the error with nothing recorded. */
  function TransitionLayout(image: Handle, oldLayout: ImageLayout, newLayout: ImageLayout): (r: Result<seq<Command>>)
    ensures r.Ok? <==> SupportedTransition(oldLayout, newLayout)
    ensures r.Err? ==> r.error == LayoutTransitionNotSupported
    ensures r.Ok? ==> r.value == [Barrier(image, oldLayout, newLayout, TransitionMasks(oldLayout, newLayout).value)]
  {
    var masks := TransitionMasks(oldLayout, newLayout);
    if masks.Err? then Err(masks.error)
    else Ok([Barrier(image, oldLayout, newLayout, masks.value)])
  }

  /** Replaying commands against a tracked layout: every barrier must start
      from the current layout and every copy must target it. None when a
      command does not match the layout the image is in. */
  function LayoutAfter(layout: ImageLayout, cmds: seq<Command>): Option<ImageLayout>
    decreases |cmds|
  {
    if cmds == [] then Some(layout)
    else match cmds[0]
      case Barrier(_, o, n, _) => if o == layout then LayoutAfter(n, cmds[1..]) else None
      case CopyBufferToImage(_, _, l, _, _) => if l == layout then LayoutAfter(layout, cmds[1..]) else None
  }

  /** The commands color_image_from_file records: a transition to the upload
      layout, the buffer-to-image copy, a transition for sampling. */
  function UploadCommands(image: Handle, staging: Handle, width: u32, height: u32): seq<Command>
  {
    TransitionLayout(image, LAYOUT_UNDEFINED, LAYOUT_TRANSFER_DST_OPTIMAL).value
    + [CopyBufferToImage(staging, image, LAYOUT_TRANSFER_DST_OPTIMAL, width, height)]
    + TransitionLayout(image, LAYOUT_TRANSFER_DST_OPTIMAL, LAYOUT_SHADER_READ_ONLY_OPTIMAL).value
  }

  /** The upload sequence is consistent with the image's layouts: starting
      from a freshly created (UNDEFINED) image, the copy happens in
      TRANSFER_DST_OPTIMAL and the image ends ready for sampling; the first
      barrier makes the transfer write wait, the second makes the shader read
      wait for that write. */
  lemma UploadLeavesImageReadable(image: Handle, staging: Handle, width: u32, height: u32)
    ensures var cmds := UploadCommands(image, staging, width, height);
      && |cmds| == 3
      && cmds[1] == CopyBufferToImage(staging, image, LAYOUT_TRANSFER_DST_OPTIMAL, width, height)
      && LayoutAfter(LAYOUT_UNDEFINED, cmds) == Some(LAYOUT_SHADER_READ_ONLY_OPTIMAL)
      && cmds[0].masks.dstAccess == cmds[2].masks.srcAccess == ACCESS_TRANSFER_WRITE
      && cmds[0].masks.dstStage == cmds[2].masks.srcStage == STAGE_TRANSFER
  {
    var cmds := UploadCommands(image, staging, width, height);
    assert cmds[1..][1..] == [cmds[2]];
    assert cmds[1..][1..][1..] == [];
    assert LayoutAfter(LAYOUT_SHADER_READ_ONLY_OPTIMAL, cmds[1..][1..][1..]) == Some(LAYOUT_SHADER_READ_ONLY_OPTIMAL);
    assert LayoutAfter(LAYOUT_TRANSFER_DST_OPTIMAL, cmds[1..][1..]) == Some(LAYOUT_SHADER_READ_ONLY_OPTIMAL);
    assert LayoutAfter(LAYOUT_TRANSFER_DST_OPTIMAL, cmds[1..]) == Some(LAYOUT_SHADER_READ_ONLY_OPTIMAL);
  }

  /** Applying the supported transitions in any other order is refused, and
      uploading into an image that is not UNDEFINED does not replay. */
  lemma TransitionsOnlyForward(l: ImageLayout)
    ensures TransitionMasks(LAYOUT_SHADER_READ_ONLY_OPTIMAL, l).Err?
    ensures TransitionMasks(l, LAYOUT_UNDEFINED).Err?
    ensures TransitionMasks(l, l).Err?
  {
  }

  /** The candidate's features for the given tiling contain all requested
      features; any tiling other than LINEAR and OPTIMAL supports nothing. */
  predicate SupportsFeatures(props: FormatProperties, tiling: ImageTiling, features: Flags) {
    || (tiling == TILING_LINEAR && props.linearTilingFeatures & features == features)
    || (tiling == TILING_OPTIMAL && props.optimalTilingFeatures & features == features)
  }

  /** The specification of filter_supported_format: the first candidate, in
      list order, supporting the features with the given tiling;
      FormatNotSupported otherwise. */
  function FirstSupportedFormat(candidates: seq<Format>, tiling: ImageTiling, features: Flags,
                                 properties: Format -> FormatProperties): (r: Result<Format>)
    ensures r.Err? ==> r.error == FormatNotSupported
    ensures r.Err? <==> forall i | 0 <= i < |candidates| :: !SupportsFeatures(properties(candidates[i]), tiling, features)
    ensures r.Ok? ==> exists i | 0 <= i < |candidates| ::
      && candidates[i] == r.value
      && SupportsFeatures(properties(candidates[i]), tiling, features)
      && forall j | 0 <= j < i :: !SupportsFeatures(properties(candidates[j]), tiling, features)
  {
    if candidates == [] then Err(FormatNotSupported)
    else if SupportsFeatures(properties(candidates[0]), tiling, features) then Ok(candidates[0])
    else
      var r := FirstSupportedFormat(candidates[1..], tiling, features, properties);
      assert forall i | 1 <= i <= |candidates[1..]| :: candidates[i] == candidates[1..][i - 1];
      r
  }

  /** filter_supported_format: query the candidates in order and return the
      first that supports the features. */
  method FilterSupportedFormat(candidates: seq<Format>, tiling: ImageTiling, features: Flags,
                               properties: Format -> FormatProperties) returns (r: Result<Format>)
    ensures r == FirstSupportedFormat(candidates, tiling, features, properties)
  {
    var i := 0;
    while i < |candidates|
      invariant 0 <= i <= |candidates|
      invariant FirstSupportedFormat(candidates[i..], tiling, features, properties)
                == FirstSupportedFormat(candidates, tiling, features, properties)
    {
      if SupportsFeatures(properties(candidates[i]), tiling, features) {
        return Ok(candidates[i]);
      }
      assert candidates[i..][1..] == candidates[i + 1..];
      i := i + 1;
    }
    return Err(FormatNotSupported);
  }

  const DEPTH_CANDIDATES: seq<Format> := [FORMAT_D32_SFLOAT, FORMAT_D32_SFLOAT_S8_UINT, FORMAT_D24_UNORM_S8_UINT]

  /** find_depth_format: the depth candidates in order, optimal tiling,
      usable as a depth/stencil attachment. */
  function FindDepthFormat(properties: Format -> FormatProperties): (r: Result<Format>)
    ensures r.Err? ==> r.error == FormatNotSupported
    ensures r.Err? <==> forall i | 0 <= i < |DEPTH_CANDIDATES| ::
      !SupportsFeatures(properties(DEPTH_CANDIDATES[i]), TILING_OPTIMAL, FEATURE_DEPTH_STENCIL_ATTACHMENT)
    ensures r.Ok? ==>
      && r.value in DEPTH_CANDIDATES
      && SupportsFeatures(properties(r.value), TILING_OPTIMAL, FEATURE_DEPTH_STENCIL_ATTACHMENT)
  {
    FirstSupportedFormat(DEPTH_CANDIDATES, TILING_OPTIMAL, FEATURE_DEPTH_STENCIL_ATTACHMENT, properties)
  }

  /** The depth format preference: D32_SFLOAT when it is supported, else
      D32_SFLOAT_S8_UINT, else D24_UNORM_S8_UINT, else FormatNotSupported. */
  lemma DepthFormatPreference(properties: Format -> FormatProperties)
    ensures var ok := (f: Format) => SupportsFeatures(properties(f), TILING_OPTIMAL, FEATURE_DEPTH_STENCIL_ATTACHMENT);
      FindDepthFormat(properties) ==
        if ok(FORMAT_D32_SFLOAT) then Ok(FORMAT_D32_SFLOAT)
        else if ok(FORMAT_D32_SFLOAT_S8_UINT) then Ok(FORMAT_D32_SFLOAT_S8_UINT)
        else if ok(FORMAT_D24_UNORM_S8_UINT) then Ok(FORMAT_D24_UNORM_S8_UINT)
        else Err(FormatNotSupported)
  {
    var c := DEPTH_CANDIDATES;
    var t, f := TILING_OPTIMAL, FEATURE_DEPTH_STENCIL_ATTACHMENT;
    assert c[1..] == [FORMAT_D32_SFLOAT_S8_UINT, FORMAT_D24_UNORM_S8_UINT];
    assert c[1..][1..] == [FORMAT_D24_UNORM_S8_UINT];
    assert c[1..][1..][1..] == [];
    var r3 := FirstSupportedFormat(c[1..][1..][1..], t, f, properties);
    var r2 := FirstSupportedFormat(c[1..][1..], t, f, properties);
    var r1 := FirstSupportedFormat(c[1..], t, f, properties);
    assert r3 == Err(FormatNotSupported);
    assert r2 == if SupportsFeatures(properties(FORMAT_D24_UNORM_S8_UINT), t, f) then Ok(FORMAT_D24_UNORM_S8_UINT) else r3;
    assert r1 == if SupportsFeatures(properties(FORMAT_D32_SFLOAT_S8_UINT), t, f) then Ok(FORMAT_D32_SFLOAT_S8_UINT) else r2;
  }

  /** has_stencil_component */
  function HasStencilComponent(format: Format): bool {
    format == FORMAT_D32_SFLOAT_S8_UINT || format == FORMAT_D24_UNORM_S8_UINT
  }

  /** Of the depth candidates exactly the two combined depth/stencil formats
      have a stencil component, so a found depth format has one unless it is
      D32_SFLOAT. */
  lemma FoundDepthFormatStencil(properties: Format -> FormatProperties)
    requires FindDepthFormat(properties).Ok?
    ensures FindDepthFormat(properties).value in DEPTH_CANDIDATES
    ensures HasStencilComponent(FindDepthFormat(properties).value)
            <==> FindDepthFormat(properties).value != FORMAT_D32_SFLOAT
  {
    DepthFormatPreference(properties);
  }

  /** vk::ImageCreateInfo as ImageBuffer::new fills it in. */
  datatype ImageCreateInfo = ImageCreateInfo(
    width: u32, height: u32, depth: nat,
    mipLevels: nat, arrayLayers: nat,
    format: Format, tiling: ImageTiling,
    initialLayout: ImageLayout, usage: Flags,
    exclusive: bool, samples: nat)

  /** ImageBuffer::new's fixed parameters: a single-sample 2D image with one
      mip level and one layer, exclusively owned, starting UNDEFINED. */
  function NewImageInfo(width: u32, height: u32, format: Format, tiling: ImageTiling, usage: Flags): (ci: ImageCreateInfo)
    ensures ci.width == width && ci.height == height && ci.format == format
    ensures ci.tiling == tiling && ci.usage == usage
    ensures ci.depth == 1 && ci.mipLevels == 1 && ci.arrayLayers == 1 && ci.samples == 1
    ensures ci.exclusive
    ensures TransitionMasks(ci.initialLayout, LAYOUT_TRANSFER_DST_OPTIMAL).Ok?
  {
    ImageCreateInfo(width, height, 1, 1, 1, format, tiling, LAYOUT_UNDEFINED, usage, true, 1)
  }

  /** An image with its bound memory; nothing is changed after creation. */
  class ImageBuffer {
    const device: Device
    const image: Handle
    const deviceMemory: Handle
    const info: ImageCreateInfo
    const sizeInBytes: u64

    constructor Assemble(device: Device, image: Handle, deviceMemory: Handle, info: ImageCreateInfo, sizeInBytes: u64)
      ensures this.device == device && this.image == image && this.deviceMemory == deviceMemory
      ensures this.info == info && this.sizeInBytes == sizeInBytes
    {
      this.device := device;
      this.image := image;
      this.deviceMemory := deviceMemory;
      this.info := info;
      this.sizeInBytes := sizeInBytes;
    }

    /** ImageBuffer::new: create the image, then memory of the first suitable
        type; MemoryTypeNotSupported when none fits. */
    static method New(device: Device, width: u32, height: u32, format: Format, tiling: ImageTiling,
                      usage: Flags, memoryProperty: Flags,
                      req: Buffers.MemoryRequirements, mem: Buffers.MemoryProperties)
      returns (r: Result<ImageBuffer>)
      requires Buffers.WellFormedMemoryProperties(mem)
      modifies device
      ensures r.Err? ==> r.error == MemoryTypeNotSupported
      ensures r.Err? ==> device.calls == old(device.calls) + [Created(ImageObject, old(device.nextHandle))]
      ensures r.Err? <==> forall j | 0 <= j < mem.memoryTypeCount :: !Buffers.Suitable(req, mem, memoryProperty, j)
      ensures r.Ok? ==>
        && fresh(r.value) && r.value.device == device
        && r.value.info == NewImageInfo(width, height, format, tiling, usage)
        && r.value.sizeInBytes == req.size
        && device.calls == old(device.calls) + [Created(ImageObject, r.value.image),
                                                Created(DeviceMemory, r.value.deviceMemory)]
    {
      var img := device.Create(ImageObject);
      var memoryType := Buffers.FindMemoryType(req, mem, memoryProperty);
      if memoryType.Err? {
        return Err(memoryType.error);
      }
      var m := device.Create(DeviceMemory);
      var ib := new ImageBuffer.Assemble(device, img, m, NewImageInfo(width, height, format, tiling, usage), req.size);
      return Ok(ib);
    }

    /** Drop: destroy the image and free its memory. */
    method Drop()
      modifies device
      ensures device.calls == old(device.calls) + [Destroyed(ImageObject, image), Destroyed(DeviceMemory, deviceMemory)]
    {
      device.Destroy(ImageObject, image);
      device.Destroy(DeviceMemory, deviceMemory);
    }
  }

  /** create_depth_buffer: an optimal-tiling depth/stencil attachment of the
      found depth format; FormatNotSupported when no candidate works. */
  function DepthBufferInfo(extent: Extent2D, properties: Format -> FormatProperties): (r: Result<ImageCreateInfo>)
    ensures r.Err? <==> FindDepthFormat(properties).Err?
    ensures r.Ok? ==>
      && r.value.format in DEPTH_CANDIDATES
      && r.value.format == FindDepthFormat(properties).value
      && r.value.width == extent.width && r.value.height == extent.height
      && r.value.tiling == TILING_OPTIMAL && r.value.usage == IMAGE_USAGE_DEPTH_STENCIL_ATTACHMENT
  {
    var f := FindDepthFormat(properties);
    if f.Err? then Err(f.error)
    else
      DepthFormatPreference(properties);
      Ok(NewImageInfo(extent.width, extent.height, f.value, TILING_OPTIMAL, IMAGE_USAGE_DEPTH_STENCIL_ATTACHMENT))
  }
}
