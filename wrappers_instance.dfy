/** The Vulkan instance of the vulkan_wrappers layer. It builds the instance
    like the vulkan_objects layer, but validation is selected by a debug
    strategy (Idle, PrintAll or PanicOnErrorsPrintOthers, each non-idle one
    carrying the messenger callback), and the instance records whether it was
    built for a window. Its VulkanApiVersion is the same four-value enum with
    the same mapping, so the one of the objects layer is reused. */
module VulkanWrappersInstance {
  import opened Vk
  import opened PhysicalDevices
  import O = VulkanObjectsInstance

  /** VulkanDebugInfoStrategy; a callback is an optional function pointer. */
  datatype VulkanDebugInfoStrategy =
    | Idle
    | PrintAll(printCallback: Option<O.DebugCallback>)
    | PanicOnErrorsPrintOthers(panicCallback: Option<O.DebugCallback>)

  const DEFAULT_PRINT_ALL: VulkanDebugInfoStrategy := PrintAll(Some(O.PrintAllCallback))
  const DEFAULT_PANIC_ON_ERRORS: VulkanDebugInfoStrategy := PanicOnErrorsPrintOthers(Some(O.PanicOnErrorsPrintOthersCallback))

  /** The callback a non-idle strategy installs in the messenger. */
  function StrategyCallback(s: VulkanDebugInfoStrategy): Option<O.DebugCallback>
    requires !s.Idle?
  {
    match s
    case PrintAll(p) => p
    case PanicOnErrorsPrintOthers(p) => p
  }

  datatype InstanceBuilder = InstanceBuilder(
    window: Option<O.Window>,
    appName: Option<string>,
    engineName: Option<string>,
    appVersion: u32,
    engineVersion: u32,
    vulkanApiVersion: O.VulkanApiVersion,
    debugStrategy: VulkanDebugInfoStrategy)

  /** InstanceBuilder::new / Default: no window, no names, versions 0,
      API 1.0, debug strategy Idle. */
  function NewBuilder(): (b: InstanceBuilder)
    ensures b.window.None? && b.appName.None? && b.engineName.None?
    ensures b.appVersion == 0 && b.engineVersion == 0
    ensures b.vulkanApiVersion == O.V1_0 && b.debugStrategy == Idle
  {
    InstanceBuilder(None, None, None, 0, 0, O.V1_0, Idle)
  }

  // The setters consume the builder and return it with their own field(s)
  // set; restoring those fields gives back the original builder.

  function Window(b: InstanceBuilder, window: O.Window): (r: InstanceBuilder)
    ensures r.window == Some(window)
    ensures r.(window := b.window) == b
  {
    b.(window := Some(window))
  }

  function AppNameAndVersion(b: InstanceBuilder, name: string, version: u32): (r: InstanceBuilder)
    ensures r.appName == Some(name) && r.appVersion == version
    ensures r.(appName := b.appName, appVersion := b.appVersion) == b
  {
    b.(appName := Some(name), appVersion := version)
  }

  function EngineNameAndVersion(b: InstanceBuilder, name: string, version: u32): (r: InstanceBuilder)
    ensures r.engineName == Some(name) && r.engineVersion == version
    ensures r.(engineName := b.engineName, engineVersion := b.engineVersion) == b
  {
    b.(engineName := Some(name), engineVersion := version)
  }

  function VulkanApiVersion(b: InstanceBuilder, version: O.VulkanApiVersion): (r: InstanceBuilder)
    ensures r.vulkanApiVersion == version
    ensures r.(vulkanApiVersion := b.vulkanApiVersion) == b
  {
    b.(vulkanApiVersion := version)
  }

  function DebugStrategy(b: InstanceBuilder, strategy: VulkanDebugInfoStrategy): (r: InstanceBuilder)
    ensures r.debugStrategy == strategy
    ensures r.(debugStrategy := b.debugStrategy) == b
  {
    b.(debugStrategy := strategy)
  }

  datatype Instance = Instance(
    inner: Handle,
    createInfo: O.InstanceCreateInfo,
    physicalDevices: PhysicalDeviceCollection,
    appNameAndVersion: Option<(string, u32)>,
    engineNameAndVersion: Option<(string, u32)>,
    debugWorker: Option<O.DebugWorker>,
    vulkanApiVersion: O.VulkanApiVersion,
    supportWindow: bool)

  /** validation_layer_enabled: whether a debug worker exists. */
  predicate ValidationLayerEnabled(instance: Instance) {
    instance.debugWorker.Some?
  }

  /** The first failure of `build`, in call order: the window's required
      extensions (only with a window), instance creation, the messenger (only
      for a non-idle strategy), device enumeration, no usable device. */
  function BuildFailure(b: InstanceBuilder, answers: O.DriverAnswers): (e: Option<RenderError>)
    ensures e.Some? && e.value != PhysicalDeviceNotSupported ==> e.value.VkError?
    ensures b.window.None? ==> e == O.NewFailure(!b.debugStrategy.Idle?, answers)
    ensures e == Some(PhysicalDeviceNotSupported) ==>
      answers.enumerateDevices.Success? && IsEmpty(Bucketed(answers.enumerateDevices.value))
  {
    if b.window.Some? && answers.requiredExtensions.Failure? then Some(VkError(answers.requiredExtensions.code))
    else O.NewFailure(!b.debugStrategy.Idle?, answers)
  }

  /** InstanceBuilder::build */
  method Build(b: InstanceBuilder, answers: O.DriverAnswers) returns (r: Result<Instance>)
    ensures r.Err? <==> BuildFailure(b, answers).Some?
    ensures r.Err? ==> r.error == BuildFailure(b, answers).value
    ensures r.Ok? ==>
      var required := if b.window.Some? then answers.requiredExtensions.value else [];
      var debugging := !b.debugStrategy.Idle?;
      && (r.value.supportWindow <==> b.window.Some?)
      && r.value.createInfo.enabledExtensions == required + (if debugging then [O.DEBUG_UTILS_EXTENSION_NAME] else [])
      && r.value.createInfo.enabledLayers == (if debugging then [O.VALIDATION_LAYER_NAME] else [])
      && (ValidationLayerEnabled(r.value) <==> debugging)
      && (debugging ==> r.value.debugWorker.value.info.callback == StrategyCallback(b.debugStrategy))
      && r.value.createInfo.applicationInfo == O.AppInfo(b.appName, b.appVersion, b.engineName, b.engineVersion, b.vulkanApiVersion)
      && r.value.physicalDevices == Bucketed(answers.enumerateDevices.value)
      && PickFirst(r.value.physicalDevices).Some?
      && r.value.appNameAndVersion == O.NameAndVersion(b.appName, b.appVersion)
      && r.value.engineNameAndVersion == O.NameAndVersion(b.engineName, b.engineVersion)
      && r.value.vulkanApiVersion == b.vulkanApiVersion
  {
    var extensions: seq<string> := [];
    var supportWindow := false;
    if b.window.Some? {
      if answers.requiredExtensions.Failure? {
        return Err(VkError(answers.requiredExtensions.code));
      }
      extensions, supportWindow := answers.requiredExtensions.value, true;
    }
    match b.debugStrategy {
      case Idle =>
      case _ => extensions := extensions + [O.DEBUG_UTILS_EXTENSION_NAME];
    }
    var appInfo := O.AppInfo(b.appName, b.appVersion, b.engineName, b.engineVersion, b.vulkanApiVersion);
    var layerNames: seq<string> := if b.debugStrategy.Idle? then [] else [O.VALIDATION_LAYER_NAME];
    var createInfo := O.InstanceCreateInfo(appInfo, extensions, layerNames);
    if answers.createInstance.Failure? {
      return Err(VkError(answers.createInstance.code));
    }
    var debugWorker: Option<O.DebugWorker> := None;
    match b.debugStrategy {
      case Idle =>
      case PrintAll(pfn) =>
        if answers.createMessenger.Failure? {
          return Err(VkError(answers.createMessenger.code));
        }
        debugWorker := Some(O.DebugWorker(answers.createMessenger.value,
                                          O.MessengerCreateInfo(O.MESSENGER_SEVERITY, O.MESSENGER_TYPES, pfn)));
      case PanicOnErrorsPrintOthers(pfn) =>
        if answers.createMessenger.Failure? {
          return Err(VkError(answers.createMessenger.code));
        }
        debugWorker := Some(O.DebugWorker(answers.createMessenger.value,
                                          O.MessengerCreateInfo(O.MESSENGER_SEVERITY, O.MESSENGER_TYPES, pfn)));
    }
    if answers.enumerateDevices.Failure? {
      return Err(VkError(answers.enumerateDevices.code));
    }
    var collection := CollectDevices(answers.enumerateDevices.value);
    if IsEmpty(collection) {
      return Err(PhysicalDeviceNotSupported);
    }
    return Ok(Instance(answers.createInstance.value, createInfo, collection,
                       O.NameAndVersion(b.appName, b.appVersion), O.NameAndVersion(b.engineName, b.engineVersion),
                       debugWorker, b.vulkanApiVersion, supportWindow));
  }

  /** What a debug callback does with a message, apart from printing it. */
  datatype CallbackOutcome = Panicked | Returned(value: u32)

  /** vulkan_debug_callback_print_all: prints every message and returns FALSE
      (the call that raised it is not aborted). */
  function PrintAllOutcome(severity: Flags): (r: CallbackOutcome)
    ensures r == Returned(VK_FALSE)
  {
    Returned(VK_FALSE)
  }

  /** vulkan_debug_callback_panic_on_errors_print_others: panics when the
      severity is exactly ERROR, otherwise prints and returns FALSE. */
  function PanicOnErrorsOutcome(severity: Flags): (r: CallbackOutcome)
    ensures r.Panicked? <==> severity == SEVERITY_ERROR
    ensures r.Returned? ==> r.value == VK_FALSE
  {
    if severity == SEVERITY_ERROR then Panicked else Returned(VK_FALSE)
  }

  /** The two default callbacks behave alike on every severity but ERROR;
      a severity word with the ERROR bit and any other bit does not panic. */
  lemma CallbacksDifferOnlyOnError(severity: Flags)
    ensures PanicOnErrorsOutcome(severity) == PrintAllOutcome(severity) <==> severity != SEVERITY_ERROR
    ensures PanicOnErrorsOutcome(SEVERITY_ERROR | SEVERITY_WARNING).Returned?
  {
  }
}
