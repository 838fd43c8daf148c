/**
 * The setup helpers in vk_help: the instance extension list, the choice of physical
 * device and queue family, and the checks around creating the window surface. What
 * GLFW and the driver report is passed in; what they are asked to create is returned.
 */
module VulkanHelper {
  import opened Wrappers

  const U32Max: nat := 0xFFFF_FFFF

  /** uint32_t. */
  type U32 = x: nat | x <= U32Max

  /** vk::Extent2D. */
  datatype Extent2D = Extent2D(width: U32, height: U32)

  /** vk::QueueFlags. */
  type QueueFlags = bv32

  /** VK_EXT_DEBUG_REPORT_EXTENSION_NAME, VK_KHR_SURFACE_EXTENSION_NAME, VK_KHR_WIN32_SURFACE_EXTENSION_NAME. */
  const DebugReportExtension: string := "VK_EXT_debug_report"
  const SurfaceExtension: string := "VK_KHR_surface"
  const Win32SurfaceExtension: string := "VK_KHR_win32_surface"

  /** VK_API_VERSION_1_1 = VK_MAKE_VERSION(1, 1, 0). */
  const ApiVersion11: nat := 0x40_1000

  /** The instance extensions requested: GLFW's required ones in GLFW's order, the debug-report extension
    * when built with DEBUG, the surface and Win32-surface extensions, then the optional ones in order. Every
    * list asks for the two surface extensions (so it is never empty and `&extensions[0]` points into it),
    * for debug report when built with DEBUG, and for every name GLFW or the caller supplies. */
  function InstanceExtensionList(glfwExtensions: seq<string>, debug: bool, optional: Option<seq<string>>)
    : (r: seq<string>)
    ensures |r| == |glfwExtensions| + (if debug then 1 else 0) + 2 + |optional.GetOr([])|
    ensures SurfaceExtension in r && Win32SurfaceExtension in r
    ensures debug ==> DebugReportExtension in r
    ensures forall e | e in glfwExtensions || e in optional.GetOr([]) :: e in r
  {
    var middle := (if debug then [DebugReportExtension] else []) + [SurfaceExtension, Win32SurfaceExtension];
    assert middle[|middle| - 2] == SurfaceExtension && middle[|middle| - 1] == Win32SurfaceExtension;
    assert debug ==> middle[0] == DebugReportExtension;
    glfwExtensions + middle + optional.GetOr([])
  }

  /** The parts of vk::ApplicationInfo and vk::InstanceCreateInfo that create_glfw_instance fills. */
  datatype InstanceCreateInfo = InstanceCreateInfo(
    applicationName: string, applicationVersion: nat, engineName: string, engineVersion: nat, apiVersion: nat,
    enabledLayerCount: nat, enabledExtensionCount: nat, enabledExtensionNames: seq<string>)

  /** vk_help::create_glfw_instance, up to the create info passed to vk::createInstance. The DEBUG macro is
    * the `debug` flag; a null `optional_extensions` pointer is None. */
  method CreateGlfwInstance(appName: string, engineName: string, glfwExtensions: seq<string>, debug: bool,
                            optional: Option<seq<string>>)
    returns (info: InstanceCreateInfo)
    ensures info.enabledExtensionNames == InstanceExtensionList(glfwExtensions, debug, optional)
    ensures info.enabledExtensionCount == |info.enabledExtensionNames|
    ensures info.enabledLayerCount == 0
    ensures info.applicationName == appName && info.engineName == engineName
    ensures info.applicationVersion == 1 && info.engineVersion == 1 && info.apiVersion == ApiVersion11
  {
    var extensions: seq<string> := [];
    var i := 0;
    while i < |glfwExtensions|
      invariant i <= |glfwExtensions|
      invariant extensions == glfwExtensions[..i]
    {
      extensions := extensions + [glfwExtensions[i]];
      i := i + 1;
    }
    assert extensions == glfwExtensions;
    if debug {
      extensions := extensions + [DebugReportExtension];
    }
    extensions := extensions + [SurfaceExtension];
    extensions := extensions + [Win32SurfaceExtension];
    ghost var required := extensions;
    if optional.Some? {
      var extra := optional.value;
      var j := 0;
      while j < |extra|
        invariant j <= |extra|
        invariant extensions == required + extra[..j]
      {
        extensions := extensions + [extra[j]];
        j := j + 1;
      }
      assert extra[..j] == extra;
    }
    info := InstanceCreateInfo(appName, 1, engineName, 1, ApiVersion11, 0, |extensions|, extensions);
  }

  /** The order of the extension list: GLFW's extensions first, then debug report (only with DEBUG), then
    * surface, then Win32 surface, then the optional ones. */
  lemma {:induction false} InstanceExtensionOrder(glfwExtensions: seq<string>, debug: bool, optional: Option<seq<string>>)
    ensures var list := InstanceExtensionList(glfwExtensions, debug, optional);
            var d := if debug then 1 else 0;
            && |list| == |glfwExtensions| + d + 2 + |optional.GetOr([])|
            && list[..|glfwExtensions|] == glfwExtensions
            && (debug ==> list[|glfwExtensions|] == DebugReportExtension)
            && list[|glfwExtensions| + d] == SurfaceExtension
            && list[|glfwExtensions| + d + 1] == Win32SurfaceExtension
            && list[|glfwExtensions| + d + 2..] == optional.GetOr([])
  {
    var list := InstanceExtensionList(glfwExtensions, debug, optional);
    var d := if debug then 1 else 0;
    var middle := (if debug then [DebugReportExtension] else []) + [SurfaceExtension, Win32SurfaceExtension];
    assert list == glfwExtensions + middle + optional.GetOr([]);
    assert list[|glfwExtensions|..|glfwExtensions| + d + 2] == middle;
  }

  /** Without optional extensions the list holds GLFW's extensions plus two (three with DEBUG). */
  lemma NoOptionalExtensionCount(glfwExtensions: seq<string>, debug: bool)
    ensures |InstanceExtensionList(glfwExtensions, debug, None)| == |glfwExtensions| + 2 + (if debug then 1 else 0)
  {
  }

  /** A failed `assert` of the C++ code (the process aborts). */
  datatype AssertionFailure = AssertionFailed

  /** vk_help::pick_first_physical_device: the first device enumerated; the code asserts there is one. */
  function PickFirstPhysicalDevice<Device>(devices: seq<Device>): (r: Result<Device, AssertionFailure>)
    ensures r.Ok? <==> devices != []
    ensures r.Ok? ==> r.value == devices[0]
  {
    if devices == [] then Err(AssertionFailed) else Ok(devices[0])
  }

  /** `qfp.queueFlags & flags` taken as a truth value. */
  predicate Intersects(queueFlags: QueueFlags, flags: QueueFlags) {
    queueFlags & flags != 0
  }

  /** `std::distance(begin, std::find_if(...))`: the index of the first family whose flags intersect the
    * requested ones, or the number of families when there is none. */
  function FirstIntersecting(families: seq<QueueFlags>, flags: QueueFlags): (r: nat)
    ensures r <= |families|
    ensures r < |families| ==> Intersects(families[r], flags)
    ensures forall j | 0 <= j < r :: !Intersects(families[j], flags)
  {
    if families == [] then 0
    else if Intersects(families[0], flags) then 0
    else 1 + FirstIntersecting(families[1..], flags)
  }

  /** vk_help::pick_queue_family: the first queue family able to run any of the requested kinds of work;
    * the code asserts that one exists. */
  function PickQueueFamily(families: seq<QueueFlags>, flags: QueueFlags): (r: Result<nat, AssertionFailure>)
    ensures r.Ok? ==> r.value < |families| && Intersects(families[r.value], flags)
    ensures r.Ok? ==> forall j | 0 <= j < r.value :: !Intersects(families[j], flags)
    ensures r.Err? <==> forall j | 0 <= j < |families| :: !Intersects(families[j], flags)
  {
    var index := FirstIntersecting(families, flags);
    if index < |families| then Ok(index) else Err(AssertionFailed)
  }

  /** vk::QueueFlagBits::eGraphics and vk::QueueFlagBits::eCompute. */
  const QueueGraphics: QueueFlags := 0x1
  const QueueCompute: QueueFlags := 0x2

  /** How create_glfw_surface_khr ends. The exit(-1) calls end the process. */
  datatype SurfaceError = WindowDimensionsNotSet | ProcessExit(code: int)

  /** The window create_glfw_surface_khr asks GLFW for. */
  datatype WindowRequest = WindowRequest(width: U32, height: U32, title: string)

  /** vk_help::create_glfw_surface_khr. `surfaceCreated` is whether glfwCreateWindowSurface returned
    * VK_SUCCESS, `presentSupported` what getSurfaceSupportKHR reports for the queue family. A zero width or
    * height throws std::runtime_error before any window is created. */
  function CreateGlfwSurface(dimensions: Extent2D, windowName: string, surfaceCreated: bool, presentSupported: bool)
    : (r: Result<WindowRequest, SurfaceError>)
    ensures r == Err(WindowDimensionsNotSet) <==> dimensions.width == 0 || dimensions.height == 0
    ensures r.Ok? <==> dimensions.width != 0 && dimensions.height != 0 && surfaceCreated && presentSupported
    ensures r.Ok? ==> r.value == WindowRequest(dimensions.width, dimensions.height, windowName)
    ensures r.Err? && r != Err(WindowDimensionsNotSet) ==> r == Err(ProcessExit(-1))
  {
    if dimensions.width == 0 || dimensions.height == 0 then Err(WindowDimensionsNotSet)
    else if !surfaceCreated then Err(ProcessExit(-1))
    else if !presentSupported then Err(ProcessExit(-1))
    else Ok(WindowRequest(dimensions.width, dimensions.height, windowName))
  }
}
