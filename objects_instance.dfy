/** The Vulkan instance of the vulkan_objects layer: VulkanApiVersion, the
    consuming InstanceBuilder and what `build` / `Instance::new` put into the
    instance create info (application info, extensions, layers), the optional
    debug messenger and the bucketed physical devices. Driver answers (the
    window's required extensions, instance and messenger creation, device
    enumeration) are inputs. */
module VulkanObjectsInstance {
  import opened Vk
  import opened PhysicalDevices

  datatype VulkanApiVersion = V1_0 | V1_1 | V1_2 | V1_3

  /** VK_MAKE_API_VERSION(variant, major, minor, patch): variant in bits
      29-31, major in 22-28, minor in 12-21, patch in 0-11. */
  function MakeApiVersion(variant: nat, major: nat, minor: nat, patch: nat): int {
    variant * 0x2000_0000 + major * 0x40_0000 + minor * 0x1000 + patch
  }

  function MinorVersion(v: VulkanApiVersion): nat {
    match v
    case V1_0 => 0
    case V1_1 => 1
    case V1_2 => 2
    case V1_3 => 3
  }

  /** get_u32_version: the vk::API_VERSION_1_x constants. */
  function GetU32Version(v: VulkanApiVersion): (r: u32)
    ensures r == MakeApiVersion(0, 1, MinorVersion(v), 0)
  {
    match v
    case V1_0 => 4194304
    case V1_1 => 4198400
    case V1_2 => 4202496
    case V1_3 => 4206592
  }

  /** The mapping is one-to-one. */
  lemma GetU32VersionInjective(a: VulkanApiVersion, b: VulkanApiVersion)
    ensures GetU32Version(a) == GetU32Version(b) <==> a == b
  {
    if GetU32Version(a) == GetU32Version(b) {
      assert MinorVersion(a) == MinorVersion(b);
    }
  }

  const VALIDATION_LAYER_NAME: string := "VK_LAYER_KHRONOS_validation"
  const DEBUG_UTILS_EXTENSION_NAME: string := "VK_EXT_debug_utils"

  /** The severities and message types the debug messenger subscribes to. */
  const MESSENGER_SEVERITY: Flags := SEVERITY_ERROR | SEVERITY_WARNING | SEVERITY_INFO
  const MESSAGE_TYPE_GENERAL: Flags := 0x1
  const MESSAGE_TYPE_VALIDATION: Flags := 0x2
  const MESSAGE_TYPE_PERFORMANCE: Flags := 0x4
  const MESSENGER_TYPES: Flags := MESSAGE_TYPE_GENERAL | MESSAGE_TYPE_VALIDATION | MESSAGE_TYPE_PERFORMANCE

  /** The debug callbacks the program defines: vulkan_debug_callback of this
      layer, the two of the wrapper layer, or one supplied by the user. */
  datatype DebugCallback =
    | VulkanDebugCallback
    | PrintAllCallback
    | PanicOnErrorsPrintOthersCallback
    | UserCallback(id: nat)

  datatype ApplicationInfo = ApplicationInfo(
    applicationName: string, applicationVersion: u32,
    engineName: string, engineVersion: u32, apiVersion: u32)

  datatype InstanceCreateInfo = InstanceCreateInfo(
    applicationInfo: ApplicationInfo, enabledExtensions: seq<string>, enabledLayers: seq<string>)

  datatype MessengerCreateInfo = MessengerCreateInfo(severity: Flags, messageType: Flags, callback: Option<DebugCallback>)

  /** The debug utils loader with its messenger. */
  datatype DebugWorker = DebugWorker(messenger: Handle, info: MessengerCreateInfo)

  /** The driver's answers to the calls made while building an instance. */
  datatype DriverAnswers = DriverAnswers(
    requiredExtensions: VkResult<seq<string>>,
    createInstance: VkResult<Handle>,
    createMessenger: VkResult<Handle>,
    enumerateDevices: VkResult<seq<DeviceReport>>)

  /** The window is opaque: only whether one was given matters. */
  type Window = Handle

  datatype InstanceBuilder = InstanceBuilder(
    window: Option<Window>,
    appName: Option<string>,
    engineName: Option<string>,
    appVersion: u32,
    engineVersion: u32,
    vulkanApiVersion: VulkanApiVersion,
    validationLayerEnabled: bool)

  /** Default for InstanceBuilder: no window, no names, versions 0, API 1.0,
      validation off. */
  function DefaultBuilder(): (b: InstanceBuilder)
    ensures b.window.None? && b.appName.None? && b.engineName.None?
    ensures b.appVersion == 0 && b.engineVersion == 0
    ensures b.vulkanApiVersion == V1_0 && !b.validationLayerEnabled
  {
    InstanceBuilder(None, None, None, 0, 0, V1_0, false)
  }

  // The setters consume the builder and return it with their own field(s)
  // set; restoring those fields gives back the original builder.

  function WithWindow(b: InstanceBuilder, window: Window): (r: InstanceBuilder)
    ensures r.window == Some(window)
    ensures r.(window := b.window) == b
  {
    b.(window := Some(window))
  }

  function WithAppNameAndVersion(b: InstanceBuilder, name: string, version: u32): (r: InstanceBuilder)
    ensures r.appName == Some(name) && r.appVersion == version
    ensures r.(appName := b.appName, appVersion := b.appVersion) == b
  {
    b.(appName := Some(name), appVersion := version)
  }

  function WithEngineNameAndVersion(b: InstanceBuilder, name: string, version: u32): (r: InstanceBuilder)
    ensures r.engineName == Some(name) && r.engineVersion == version
    ensures r.(engineName := b.engineName, engineVersion := b.engineVersion) == b
  {
    b.(engineName := Some(name), engineVersion := version)
  }

  function WithVulkanApiVersion(b: InstanceBuilder, version: VulkanApiVersion): (r: InstanceBuilder)
    ensures r.vulkanApiVersion == version
    ensures r.(vulkanApiVersion := b.vulkanApiVersion) == b
  {
    b.(vulkanApiVersion := version)
  }

  function EnableValidationLayer(b: InstanceBuilder): (r: InstanceBuilder)
    ensures r.validationLayerEnabled
    ensures r.(validationLayerEnabled := b.validationLayerEnabled) == b
  {
    b.(validationLayerEnabled := true)
  }

  /** The application info Instance::new fills in: a missing application name
      becomes "", a missing engine name "No Engine". */
  function AppInfo(appName: Option<string>, appVersion: u32, engineName: Option<string>, engineVersion: u32,
                   apiVersion: VulkanApiVersion): (info: ApplicationInfo)
    ensures appName.Some? ==> info.applicationName == appName.value
    ensures appName.None? ==> info.applicationName == ""
    ensures engineName.Some? ==> info.engineName == engineName.value
    ensures engineName.None? ==> info.engineName == "No Engine"
    ensures info.applicationVersion == appVersion && info.engineVersion == engineVersion
    ensures info.apiVersion == MakeApiVersion(0, 1, MinorVersion(apiVersion), 0)
  {
    ApplicationInfo(if appName.Some? then appName.value else "", appVersion,
                    if engineName.Some? then engineName.value else "No Engine", engineVersion,
                    GetU32Version(apiVersion))
  }

  /** A name given to the builder is reported back with its version. */
  function NameAndVersion(name: Option<string>, version: u32): (r: Option<(string, u32)>)
    ensures r.Some? <==> name.Some?
    ensures r.Some? ==> r.value == (name.value, version)
  {
    if name.Some? then Some((name.value, version)) else None
  }

  datatype Instance = Instance(
    inner: Handle,
    createInfo: InstanceCreateInfo,
    physicalDevices: PhysicalDeviceCollection,
    appNameAndVersion: Option<(string, u32)>,
    engineNameAndVersion: Option<(string, u32)>,
    debugWorker: Option<DebugWorker>,
    vulkanApiVersion: VulkanApiVersion)

  /** validation_layer_enabled: whether a debug worker exists. */
  predicate ValidationLayerEnabled(instance: Instance) {
    instance.debugWorker.Some?
  }

  /** The first failure on the way through Instance::new, in call order:
      instance creation, messenger creation (only with validation), device
      enumeration, then no usable device at all. */
  function NewFailure(validationLayerEnabled: bool, answers: DriverAnswers): (e: Option<RenderError>)
    ensures e.Some? && e.value != PhysicalDeviceNotSupported ==> e.value.VkError?
    ensures e == Some(PhysicalDeviceNotSupported) <==>
      && answers.createInstance.Success?
      && (validationLayerEnabled ==> answers.createMessenger.Success?)
      && answers.enumerateDevices.Success?
      && IsEmpty(Bucketed(answers.enumerateDevices.value))
    ensures e.None? ==> answers.createInstance.Success? && answers.enumerateDevices.Success?
  {
    if answers.createInstance.Failure? then Some(VkError(answers.createInstance.code))
    else if validationLayerEnabled && answers.createMessenger.Failure? then Some(VkError(answers.createMessenger.code))
    else if answers.enumerateDevices.Failure? then Some(VkError(answers.enumerateDevices.code))
    else if IsEmpty(Bucketed(answers.enumerateDevices.value)) then Some(PhysicalDeviceNotSupported)
    else None
  }

  /** Instance::new: the layer list, instance creation, the debug messenger
      when validation is on, and the physical devices bucketed by type. */
  method InstanceNew(appName: Option<string>, appVersion: u32, engineName: Option<string>, engineVersion: u32,
                     enabledExtensions: seq<string>, validationLayerEnabled: bool,
                     vulkanApiVersion: VulkanApiVersion, answers: DriverAnswers)
    returns (r: Result<Instance>)
    ensures r.Err? <==> NewFailure(validationLayerEnabled, answers).Some?
    ensures r.Err? ==> r.error == NewFailure(validationLayerEnabled, answers).value
    ensures r.Ok? ==>
      && r.value.createInfo == InstanceCreateInfo(
           AppInfo(appName, appVersion, engineName, engineVersion, vulkanApiVersion),
           enabledExtensions,
           if validationLayerEnabled then [VALIDATION_LAYER_NAME] else [])
      && (ValidationLayerEnabled(r.value) <==> validationLayerEnabled)
      && (r.value.debugWorker.Some? ==>
            r.value.debugWorker.value == DebugWorker(answers.createMessenger.value, MessengerCreateInfo(
              MESSENGER_SEVERITY, MESSENGER_TYPES, Some(VulkanDebugCallback))))
      && r.value.physicalDevices == Bucketed(answers.enumerateDevices.value)
      && PickFirst(r.value.physicalDevices).Some?
      && r.value.appNameAndVersion == NameAndVersion(appName, appVersion)
      && r.value.engineNameAndVersion == NameAndVersion(engineName, engineVersion)
      && r.value.vulkanApiVersion == vulkanApiVersion
  {
    var appInfo := AppInfo(appName, appVersion, engineName, engineVersion, vulkanApiVersion);
    var layerNames: seq<string> := [];
    if validationLayerEnabled {
      layerNames := layerNames + [VALIDATION_LAYER_NAME];
    }
    var createInfo := InstanceCreateInfo(appInfo, enabledExtensions, layerNames);
    if answers.createInstance.Failure? {
      return Err(VkError(answers.createInstance.code));
    }
    var debugWorker: Option<DebugWorker> := None;
    if validationLayerEnabled {
      var info := MessengerCreateInfo(MESSENGER_SEVERITY, MESSENGER_TYPES, Some(VulkanDebugCallback));
      if answers.createMessenger.Failure? {
        return Err(VkError(answers.createMessenger.code));
      }
      debugWorker := Some(DebugWorker(answers.createMessenger.value, info));
    }
    if answers.enumerateDevices.Failure? {
      return Err(VkError(answers.enumerateDevices.code));
    }
    var collection := CollectDevices(answers.enumerateDevices.value);
    if IsEmpty(collection) {
      return Err(PhysicalDeviceNotSupported);
    }
    return Ok(Instance(answers.createInstance.value, createInfo, collection,
                       NameAndVersion(appName, appVersion), NameAndVersion(engineName, engineVersion),
                       debugWorker, vulkanApiVersion));
  }

  /** The first failure of `build`: the window's required extensions are
      queried first (only when there is a window), then Instance::new. */
  function BuildFailure(b: InstanceBuilder, answers: DriverAnswers): (e: Option<RenderError>)
    ensures b.window.None? ==> e == NewFailure(b.validationLayerEnabled, answers)
  {
    if b.window.Some? && answers.requiredExtensions.Failure? then Some(VkError(answers.requiredExtensions.code))
    else NewFailure(b.validationLayerEnabled, answers)
  }

  /** The extensions `build` enables: the window's required ones (none without
      a window), plus the debug utils extension when validation is on. */
  function BuildExtensions(b: InstanceBuilder, required: seq<string>): (exts: seq<string>)
    ensures b.window.None? ==> exts == (if b.validationLayerEnabled then [DEBUG_UTILS_EXTENSION_NAME] else [])
    ensures b.window.Some? ==> |required| <= |exts| && exts[..|required|] == required
    ensures DEBUG_UTILS_EXTENSION_NAME !in required ==>
      (DEBUG_UTILS_EXTENSION_NAME in exts <==> b.validationLayerEnabled)
  {
    var base := if b.window.Some? then required else [];
    var exts := base + (if b.validationLayerEnabled then [DEBUG_UTILS_EXTENSION_NAME] else []);
    assert exts[..|base|] == base;
    exts
  }

  /** InstanceBuilder::build */
  method Build(b: InstanceBuilder, answers: DriverAnswers) returns (r: Result<Instance>)
    ensures r.Err? <==> BuildFailure(b, answers).Some?
    ensures r.Err? ==> r.error == BuildFailure(b, answers).value
    ensures r.Ok? ==>
      var required := if b.window.Some? then answers.requiredExtensions.value else [];
      && r.value.createInfo.enabledExtensions == BuildExtensions(b, required)
      && r.value.createInfo.enabledLayers == (if b.validationLayerEnabled then [VALIDATION_LAYER_NAME] else [])
      && (ValidationLayerEnabled(r.value) <==> b.validationLayerEnabled)
      && r.value.createInfo.applicationInfo == AppInfo(b.appName, b.appVersion, b.engineName, b.engineVersion, b.vulkanApiVersion)
      && r.value.physicalDevices == Bucketed(answers.enumerateDevices.value)
      && PickFirst(r.value.physicalDevices).Some?
      && r.value.appNameAndVersion == NameAndVersion(b.appName, b.appVersion)
      && r.value.engineNameAndVersion == NameAndVersion(b.engineName, b.engineVersion)
      && r.value.vulkanApiVersion == b.vulkanApiVersion
  {
    var extensions: seq<string> := [];
    if b.window.Some? {
      if answers.requiredExtensions.Failure? {
        return Err(VkError(answers.requiredExtensions.code));
      }
      extensions := answers.requiredExtensions.value;
    }
    if b.validationLayerEnabled {
      extensions := extensions + [DEBUG_UTILS_EXTENSION_NAME];
    }
    r := InstanceNew(b.appName, b.appVersion, b.engineName, b.engineVersion, extensions,
                     b.validationLayerEnabled, b.vulkanApiVersion, answers);
  }

  /** Building the default builder asks for no extension and no layer and
      sends "" / "No Engine" as the names with API version 1.0. */
  lemma DefaultBuildIsBare(required: seq<string>)
    ensures BuildExtensions(DefaultBuilder(), required) == []
    ensures AppInfo(DefaultBuilder().appName, DefaultBuilder().appVersion, DefaultBuilder().engineName,
                    DefaultBuilder().engineVersion, DefaultBuilder().vulkanApiVersion)
            == ApplicationInfo("", 0, "No Engine", 0, 4194304)
  {
  }
}
