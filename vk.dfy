/** Basic Vulkan vocabulary shared by the whole model: fixed-width integers,
    extents, the enumerant values the core compares against, and the
    error/result types of the renderer. Enumerant values are those of the
    Vulkan API registry (vulkan_core.h). */
module Vk {

  const U32_MAX: int := 0xFFFF_FFFF
  const U64_MAX: int := 0xFFFF_FFFF_FFFF_FFFF

  /** Rust `u32` and `u64` (vk::DeviceSize). */
  type u32 = x: int | 0 <= x <= U32_MAX
  type u64 = x: int | 0 <= x <= U64_MAX

  /** Bit-flag types (vk::*Flags) are 32-bit masks. */
  type Flags = bv32

  /** An opaque driver handle (vk::Image, vk::Fence, ...); 0 is VK_NULL_HANDLE. */
  type Handle = nat
  const NULL_HANDLE: Handle := 0

  datatype Extent2D = Extent2D(width: u32, height: u32)
  datatype Offset2D = Offset2D(x: int, y: int)
  datatype Rect2D = Rect2D(offset: Offset2D, extent: Extent2D)

  /** vk::Format values used by the core. */
  type Format = int
  const FORMAT_R8G8B8A8_SRGB: Format := 43
  const FORMAT_B8G8R8A8_SRGB: Format := 50
  const FORMAT_R32G32_SFLOAT: Format := 103
  const FORMAT_R32G32B32_SFLOAT: Format := 106
  const FORMAT_D32_SFLOAT: Format := 126
  const FORMAT_D24_UNORM_S8_UINT: Format := 129
  const FORMAT_D32_SFLOAT_S8_UINT: Format := 130

  /** vk::ColorSpaceKHR */
  type ColorSpace = int
  const COLOR_SPACE_SRGB_NONLINEAR: ColorSpace := 0

  /** vk::PresentModeKHR */
  type PresentMode = int
  const PRESENT_MODE_IMMEDIATE: PresentMode := 0
  const PRESENT_MODE_MAILBOX: PresentMode := 1
  const PRESENT_MODE_FIFO: PresentMode := 2

  /** vk::ImageLayout */
  type ImageLayout = int
  const LAYOUT_UNDEFINED: ImageLayout := 0
  const LAYOUT_SHADER_READ_ONLY_OPTIMAL: ImageLayout := 5
  const LAYOUT_TRANSFER_DST_OPTIMAL: ImageLayout := 7

  /** vk::ImageTiling */
  type ImageTiling = int
  const TILING_OPTIMAL: ImageTiling := 0
  const TILING_LINEAR: ImageTiling := 1

  /** vk::AccessFlags */
  const ACCESS_NONE: Flags := 0
  const ACCESS_SHADER_READ: Flags := 0x20
  const ACCESS_TRANSFER_WRITE: Flags := 0x1000

  /** vk::PipelineStageFlags */
  const STAGE_TOP_OF_PIPE: Flags := 0x1
  const STAGE_FRAGMENT_SHADER: Flags := 0x80
  const STAGE_TRANSFER: Flags := 0x1000

  /** vk::FormatFeatureFlags */
  const FEATURE_DEPTH_STENCIL_ATTACHMENT: Flags := 0x200

  /** vk::QueueFlags */
  const QUEUE_GRAPHICS: Flags := 0x1

  /** vk::MemoryPropertyFlags */
  const MEMORY_DEVICE_LOCAL: Flags := 0x1
  const MEMORY_HOST_VISIBLE: Flags := 0x2
  const MEMORY_HOST_COHERENT: Flags := 0x4

  /** vk::BufferUsageFlags */
  const BUFFER_USAGE_TRANSFER_SRC: Flags := 0x1
  const BUFFER_USAGE_TRANSFER_DST: Flags := 0x2
  const BUFFER_USAGE_INDEX_BUFFER: Flags := 0x40

  /** vk::ImageUsageFlags */
  const IMAGE_USAGE_TRANSFER_DST: Flags := 0x2
  const IMAGE_USAGE_SAMPLED: Flags := 0x4
  const IMAGE_USAGE_COLOR_ATTACHMENT: Flags := 0x10
  const IMAGE_USAGE_DEPTH_STENCIL_ATTACHMENT: Flags := 0x20

  /** vk::DebugUtilsMessageSeverityFlagsEXT */
  const SEVERITY_VERBOSE: Flags := 0x1
  const SEVERITY_INFO: Flags := 0x10
  const SEVERITY_WARNING: Flags := 0x100
  const SEVERITY_ERROR: Flags := 0x1000

  /** vk::FALSE */
  const VK_FALSE: u32 := 0

  /** The renderer's error type (RenderError); a failing driver call carries its
      vk::Result code. The human-readable messages are not modelled. */
  datatype RenderError =
    | VkError(code: int)
    | PhysicalDeviceNotSupported
    | FormatNotSupported
    | MemoryTypeNotSupported
    | LayoutTransitionNotSupported
    | QueueFamilyNotSupported
    | ObjLoadError

  datatype Result<T> = Ok(value: T) | Err(error: RenderError)

  /** ash's VkResult: the answer of a driver call, or the vk::Result error code.
      `?` turns a failure into RenderError::VkResult. */
  datatype VkResult<T> = Success(value: T) | Failure(code: int)

  datatype Option<T> = None | Some(value: T)

  /** `Ord::min` on integers. */
  function Min(a: int, b: int): int { if a <= b then a else b }
}
