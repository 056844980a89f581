/** The presentation surface: its cached attributes (capabilities, chosen
    format, present mode, extent), the selection rules that compute them from
    the driver's answers, and the extent helpers. The driver queries
    (capabilities, formats, present modes) and the window size are inputs. */
module Surface {
  import opened Vk

  datatype SurfaceCapabilities = SurfaceCapabilities(
    minImageCount: u32,
    maxImageCount: u32,
    currentExtent: Extent2D,
    minImageExtent: Extent2D,
    maxImageExtent: Extent2D,
    currentTransform: Flags)

  datatype SurfaceFormat = SurfaceFormat(format: Format, colorSpace: ColorSpace)

  datatype SurfaceAttributes = SurfaceAttributes(
    capabilities: SurfaceCapabilities,
    format: SurfaceFormat,
    presentMode: PresentMode,
    extent: Extent2D)

  /** The format Surface::new is given by the renderer. */
  const DEFAULT_FORMAT: Format := FORMAT_B8G8R8A8_SRGB

  /** `Ord::clamp`; the Rust version panics unless lo <= hi. */
  function Clamp(v: u32, lo: u32, hi: u32): (r: u32)
    requires lo <= hi
    ensures lo <= r <= hi
    ensures r == v <==> lo <= v <= hi
  {
    if v < lo then lo else if v > hi then hi else v
  }

  /** Clamping picks the value of [lo, hi] nearest to v. */
  lemma ClampIsNearest(v: u32, lo: u32, hi: u32, w: u32)
    requires lo <= hi && lo <= w <= hi
    ensures lo <= Clamp(v, lo, hi) <= hi
    ensures Dist(Clamp(v, lo, hi), v) <= Dist(w, v)
  {
  }

  function Dist(a: int, b: int): nat { if a <= b then b - a else a - b }

  /** `clamp` can be applied to both dimensions of the image-extent range. */
  predicate ClampableExtents(caps: SurfaceCapabilities) {
    && caps.minImageExtent.width <= caps.maxImageExtent.width
    && caps.minImageExtent.height <= caps.maxImageExtent.height
  }

  /** The drawable extent: the surface's current extent unless its width is the
      u32::MAX sentinel, otherwise the window size clamped per dimension into
      the supported range. Only the width is tested for the sentinel. */
  function GetWindowExtent(caps: SurfaceCapabilities, windowSize: Extent2D): (e: Extent2D)
    requires caps.currentExtent.width == U32_MAX ==> ClampableExtents(caps)
    ensures caps.currentExtent.width != U32_MAX ==> e == caps.currentExtent
    ensures caps.currentExtent.width == U32_MAX ==>
      && caps.minImageExtent.width <= e.width <= caps.maxImageExtent.width
      && caps.minImageExtent.height <= e.height <= caps.maxImageExtent.height
      && (caps.minImageExtent.width <= windowSize.width <= caps.maxImageExtent.width
          ==> e.width == windowSize.width)
      && (caps.minImageExtent.height <= windowSize.height <= caps.maxImageExtent.height
          ==> e.height == windowSize.height)
  {
    if caps.currentExtent.width != U32_MAX then
      caps.currentExtent
    else
      Extent2D(
        Clamp(windowSize.width, caps.minImageExtent.width, caps.maxImageExtent.width),
        Clamp(windowSize.height, caps.minImageExtent.height, caps.maxImageExtent.height))
  }

  /** A scissor rectangle covering exactly the extent. */
  function ScissorFromExtent(extent: Extent2D): Rect2D {
    Rect2D(Offset2D(0, 0), extent)
  }

  predicate InRect(r: Rect2D, x: int, y: int) {
    && r.offset.x <= x < r.offset.x + r.extent.width
    && r.offset.y <= y < r.offset.y + r.extent.height
  }

  /** The scissor from an extent lets through exactly the pixels of that extent. */
  lemma ScissorCoversExactlyExtent(extent: Extent2D, x: int, y: int)
    ensures ScissorFromExtent(extent).offset == Offset2D(0, 0)
    ensures ScissorFromExtent(extent).extent == extent
    ensures InRect(ScissorFromExtent(extent), x, y)
      <==> 0 <= x < extent.width && 0 <= y < extent.height
  {
  }

  predicate IsWantedFormat(f: SurfaceFormat, wanted: Format) {
    f.format == wanted && f.colorSpace == COLOR_SPACE_SRGB_NONLINEAR
  }

  /** The position of the first reported format with the wanted format in
      the sRGB non-linear colour space, |formats| if there is none. */
  function FirstWantedIndex(formats: seq<SurfaceFormat>, wanted: Format): (k: nat)
    ensures k <= |formats|
    ensures forall j | 0 <= j < k :: !IsWantedFormat(formats[j], wanted)
    ensures k < |formats| ==> IsWantedFormat(formats[k], wanted)
  {
    if formats == [] then 0
    else if IsWantedFormat(formats[0], wanted) then 0
    else
      var k := FirstWantedIndex(formats[1..], wanted);
      assert forall j | 1 <= j < |formats| :: formats[j] == formats[1..][j - 1];
      k + 1
  }

  /** The first reported surface format with the wanted format in the sRGB
      non-linear colour space; FormatNotSupported if there is none. */
  function FindSurfaceFormat(formats: seq<SurfaceFormat>, wanted: Format): (r: Result<SurfaceFormat>)
    ensures r.Err? ==> r.error == FormatNotSupported
    ensures r.Err? <==> forall i | 0 <= i < |formats| :: !IsWantedFormat(formats[i], wanted)
    ensures r.Ok? ==> exists i | 0 <= i < |formats| ::
      && formats[i] == r.value
      && IsWantedFormat(formats[i], wanted)
      && forall j | 0 <= j < i :: !IsWantedFormat(formats[j], wanted)
  {
    var k := FirstWantedIndex(formats, wanted);
    if k < |formats| then Ok(formats[k]) else Err(FormatNotSupported)
  }

  /** MAILBOX if the surface reports it, FIFO (always available) otherwise. */
  function ChoosePresentMode(modes: seq<PresentMode>): (m: PresentMode)
    ensures PRESENT_MODE_MAILBOX in modes ==> m == PRESENT_MODE_MAILBOX
    ensures PRESENT_MODE_MAILBOX !in modes ==> m == PRESENT_MODE_FIFO
  {
    if modes == [] then PRESENT_MODE_FIFO
    else if modes[0] == PRESENT_MODE_MAILBOX then PRESENT_MODE_MAILBOX
    else ChoosePresentMode(modes[1..])
  }

  predicate QueryExtentUsable(capsQuery: VkResult<SurfaceCapabilities>) {
    (capsQuery.Success? && capsQuery.value.currentExtent.width == U32_MAX)
      ==> ClampableExtents(capsQuery.value)
  }

  /** get_surface_attrs: query the capabilities, derive the extent, pick the
      format, then the present mode. A failing query aborts with its error at
      the point it is made. */
  function GetSurfaceAttrs(
    capsQuery: VkResult<SurfaceCapabilities>,
    formatsQuery: VkResult<seq<SurfaceFormat>>,
    modesQuery: VkResult<seq<PresentMode>>,
    wanted: Format,
    windowSize: Extent2D): (r: Result<SurfaceAttributes>)
    requires QueryExtentUsable(capsQuery)
    ensures capsQuery.Failure? ==> r == Err(VkError(capsQuery.code))
    ensures capsQuery.Success? && formatsQuery.Failure? ==> r == Err(VkError(formatsQuery.code))
    ensures capsQuery.Success? && formatsQuery.Success? ==>
      ((forall i | 0 <= i < |formatsQuery.value| :: !IsWantedFormat(formatsQuery.value[i], wanted))
       <==> r == Err(FormatNotSupported))
    ensures r.Ok? <==>
      && capsQuery.Success? && formatsQuery.Success? && modesQuery.Success?
      && exists i | 0 <= i < |formatsQuery.value| :: IsWantedFormat(formatsQuery.value[i], wanted)
    ensures r.Ok? ==>
      && r.value.capabilities == capsQuery.value
      && r.value.extent == GetWindowExtent(capsQuery.value, windowSize)
      && r.value.format in formatsQuery.value
      && r.value.format.format == wanted
      && r.value.format.colorSpace == COLOR_SPACE_SRGB_NONLINEAR
      && (r.value.presentMode == PRESENT_MODE_MAILBOX <==> PRESENT_MODE_MAILBOX in modesQuery.value)
      && (r.value.presentMode == PRESENT_MODE_MAILBOX || r.value.presentMode == PRESENT_MODE_FIFO)
  {
    if capsQuery.Failure? then Err(VkError(capsQuery.code))
    else
      var capabilities := capsQuery.value;
      var extent := GetWindowExtent(capabilities, windowSize);
      if formatsQuery.Failure? then Err(VkError(formatsQuery.code))
      else
        var format := FindSurfaceFormat(formatsQuery.value, wanted);
        if format.Err? then Err(format.error)
        else if modesQuery.Failure? then Err(VkError(modesQuery.code))
        else
          var presentMode := ChoosePresentMode(modesQuery.value);
          Ok(SurfaceAttributes(capabilities, format.value, presentMode, extent))
  }

  /** The presentation surface. Its attributes sit in a RefCell in the source
      and are overwritten in place by a refit. */
  class Surface {
    const inner: Handle
    const instance: Handle
    const physicalDevice: Handle
    var attributes: SurfaceAttributes

    constructor FromAttributes(inner: Handle, instance: Handle, physicalDevice: Handle, attributes: SurfaceAttributes)
      ensures this.inner == inner && this.instance == instance
      ensures this.physicalDevice == physicalDevice && this.attributes == attributes
    {
      this.inner := inner;
      this.instance := instance;
      this.physicalDevice := physicalDevice;
      this.attributes := attributes;
    }

    /** Surface::new: the attributes are selected for the requested format. */
    static method New(
      inner: Handle, instance: Handle, physicalDevice: Handle,
      capsQuery: VkResult<SurfaceCapabilities>,
      formatsQuery: VkResult<seq<SurfaceFormat>>,
      modesQuery: VkResult<seq<PresentMode>>,
      format: Format,
      windowSize: Extent2D) returns (r: Result<Surface>)
      requires QueryExtentUsable(capsQuery)
      ensures var attrs := GetSurfaceAttrs(capsQuery, formatsQuery, modesQuery, format, windowSize);
        && (attrs.Err? ==> r == Err(attrs.error))
        && (attrs.Ok? ==> r.Ok? && fresh(r.value) && r.value.attributes == attrs.value
                          && r.value.inner == inner && r.value.instance == instance
                          && r.value.physicalDevice == physicalDevice)
    {
      var attrs := GetSurfaceAttrs(capsQuery, formatsQuery, modesQuery, format, windowSize);
      if attrs.Err? {
        return Err(attrs.error);
      }
      var s := new Surface.FromAttributes(inner, instance, physicalDevice, attrs.value);
      return Ok(s);
    }

    function Format(): Format reads this { attributes.format.format }
    function ColorSpace(): ColorSpace reads this { attributes.format.colorSpace }
    function Extent(): Extent2D reads this { attributes.extent }
    function Capabilities(): SurfaceCapabilities reads this { attributes.capabilities }
    function PresentMode(): PresentMode reads this { attributes.presentMode }

    /** refit_surface_attribute: recompute every attribute, re-requesting the
        format currently held. On error nothing changes. */
    method RefitSurfaceAttribute(
      capsQuery: VkResult<SurfaceCapabilities>,
      formatsQuery: VkResult<seq<SurfaceFormat>>,
      modesQuery: VkResult<seq<PresentMode>>,
      windowSize: Extent2D) returns (r: Result<()>)
      requires QueryExtentUsable(capsQuery)
      modifies this
      ensures var attrs := GetSurfaceAttrs(capsQuery, formatsQuery, modesQuery, old(Format()), windowSize);
        && (attrs.Ok? ==> r == Ok(()) && attributes == attrs.value)
        && (attrs.Err? ==> r == Err(attrs.error) && attributes == old(attributes))
      ensures Format() == old(Format())
    {
      var attrs := GetSurfaceAttrs(capsQuery, formatsQuery, modesQuery, Format(), windowSize);
      if attrs.Err? {
        return Err(attrs.error);
      }
      attributes := attrs.value;
      return Ok(());
    }
  }

  /** Refitting keeps the format: whatever attributes the refit selects carry
      the format that was asked for, so repeated refits never drift. */
  lemma RefitKeepsFormat(
    held: SurfaceAttributes,
    capsQuery: VkResult<SurfaceCapabilities>,
    formatsQuery: VkResult<seq<SurfaceFormat>>,
    modesQuery: VkResult<seq<PresentMode>>,
    windowSize: Extent2D)
    requires QueryExtentUsable(capsQuery)
    ensures var attrs := GetSurfaceAttrs(capsQuery, formatsQuery, modesQuery, held.format.format, windowSize);
      attrs.Ok? ==> attrs.value.format.format == held.format.format
  {
  }
}
