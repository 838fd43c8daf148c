# vulkan-old: selection and parsing rules of the engine setup, in Dafny

This project models the decision logic of the Vulkan engine in andreaseg/vulkan-old and proves
properties of it. Every Vulkan, GLFW and Win32 query becomes a parameter. Every object the code asks
the driver to create is described by the create info or parameters the code computes for it.

- `memory.dfy` (module `VulkanMemory`) models `vk_mem`:
  - `find_memory`, the first-fit search for a memory type, as a loop proved against a recursive
    first-fit specification;
  - the allocation and binding parameters of `create_buffer`;
  - the single copy region recorded by `copy_buffer`, with its effect on the bytes.
- `int_text.dfy` (module `IntText`) models `std::stoi` and `std::ostream << int`. The configuration
  loader reads and writes its int parameters with these two.
- `config.dfy` (module `ConfigLoader`) models `config_loader.inl`, instantiated with the two int
  parameters `width` (800) and `height` (600) of `config_loader.h`:
  - the key/value extraction of `LOAD_PARAM`;
  - the `load` line loop, as a method of class `Config` over the static parameters;
  - the `SAVE_PARAM` rule of `save`;
  - `auto_parse` for `bool` and `std::string`.
- `vulkan_helper.dfy` (module `VulkanHelper`) models `vk_help`:
  - the instance extension list of `create_glfw_instance`, built by the same `push_back` loops;
  - `pick_first_physical_device` and `pick_queue_family`;
  - the checks of `create_glfw_surface_khr`.
- `graphics_engine.dfy` (module `GraphicsEngine`) models `Graphics::create_swapchain`: the surface
  format, the present mode, the extent clamp and the image count. Class `Graphics` holds the members
  that `create_swapchain` assigns. The module also models the queue-family request of the `Graphics`
  constructor.
- `vulkan_loader.dfy` (module `VulkanLoader`) models three functions of `vulkanLoader.cpp`:
  - `CheckAvailableInstanceExtensions`, including how the vector is resized;
  - `IsExtensionSupported`;
  - the checks and the create info of `CreateInstance`.
- `console_color.dfy` (module `ConsoleColor`) models `get_color` and `set_color` of the Windows
  branch, with class `Console` holding the console attribute.
- `wrappers.dfy` defines `Option` and `Result`. An error path of the C++ code is an `Err`. Such
  paths are a thrown exception, a failed `assert` or an `exit`.

`create_buffer` makes one dedicated allocation per buffer, of exactly the size the driver reports
in the memory requirements, bound at offset 0.

Three places in the code do not do what they evidently mean. Each is modelled as written, and the
stateful members call the as-written definition. Next to each stands a corrected definition with
its intended property proved (see "## Findings").

## Model

| member | source | states |
|---|---|---|
| VulkanMemory.FirstSuitableFrom | src/vulkan_memory.cpp:7-12 | the result, when there is one, is the lowest index at or above the start that is below memoryTypeCount, allowed by the type mask and carrying every required flag; None exactly when no index in range passes both tests |
| VulkanMemory.FindMemory | src/vulkan_memory.cpp:4-14 | a returned index is below memoryTypeCount, has its bit set in memoryTypeBits, and has every required flag (extra flags allowed); no smaller index passes both tests; the error (the throw) happens exactly when no index passes; the loop agrees with the first-fit specification |
| VulkanMemory.NoRequiredFlagsPicksLowestAllowed | src/vulkan_memory.cpp:8-10 | with no required flags, a type is found exactly when some index has its mask bit set, and it is the lowest such index |
| VulkanMemory.CreateBuffer | src/vulkan_memory.cpp:16-35 | the buffer is created with the requested size and usage in exclusive mode; the allocation is exactly the size the driver reports, of the type find_memory chooses (below memoryTypeCount), bound at offset 0; it fails exactly when find_memory throws |
| VulkanMemory.CopyBufferCommand | src/vulkan_memory.cpp:38-58 | one command buffer for a single submission; its copy regions are valid for two buffers exactly when both hold at least `size` bytes |
| VulkanMemory.CopyBufferCopiesPrefix | src/vulkan_memory.cpp:37-67 | one command buffer for one submission, recording the single region (0, 0, size); executing it makes the first size bytes of the destination those of the source and leaves the rest of the destination unchanged |
| IntText.Stoi | src/config_loader.inl:18-20 | a parsed value always fits a 32-bit int; invalid_argument is thrown exactly when no digit follows the leading whitespace and optional sign |
| IntText.IntToDecimal | src/config_loader.inl:59 | `<<` for an int writes a '-' exactly for a negative value, followed by at least one decimal digit and nothing else |
| IntText.StoiInvertsIntToDecimal | src/config_loader.inl:18-20 | for every 32-bit int, stoi of the text `<<` writes for it gives back the same int |
| IntText.IntToDecimalHasNoSpaces | src/config_loader.inl:59 | the text written for an int contains no whitespace and no '=' |
| ConfigLoader.RemoveSpaces | src/config_loader.inl:46 | the result contains no whitespace and is no longer than the input |
| ConfigLoader.Find | src/config_loader.inl:45 | `find("=")`: the index of the first occurrence; npos (None) exactly when the character is absent |
| ConfigLoader.LoadParam | src/config_loader.inl:44-54 | a line is ignored unless its key is the parameter's name; substr throws exactly when the key matches and the line has no '='; a value read always fits an int |
| ConfigLoader.LoadParams | src/config_loader.inl:82 | the PARAMS(LOAD_PARAM) blocks in order, stopping at an exception; parameters that fit their ints keep fitting |
| ConfigLoader.LoadLines | src/config_loader.inl:80-83 | the getline loop over the file, stopping at the first exception; parameters that fit their ints keep fitting, whatever the file holds |
| ConfigLoader.ParamLine | src/config_loader.inl:57-61 | the line SAVE_PARAM writes is never read back as a comment and always holds the '=' that LOAD_PARAM splits at |
| ConfigLoader.SaveLines | src/config_loader.inl:57-61 | the file is empty exactly when every parameter is at its default; at most one line per parameter; no line is a comment |
| ConfigLoader.KeyOfParamLine | src/config_loader.inl:45-47 | the key of a line written for a parameter is that parameter's name, and its first '=' follows the name and one space |
| ConfigLoader.ValueOfParamLine | src/config_loader.inl:48-50 | the value text of a line written for a parameter, with spaces removed and the '=' dropped, is the decimal text of the saved value |
| ConfigLoader.ParamLineLoads | src/config_loader.inl:44-59 | a line SAVE_PARAM writes for p is read back by p's LOAD_PARAM as the saved value and ignored by every other parameter |
| ConfigLoader.Config.constructor | src/config_loader.inl:64-69 | every parameter starts at its default (width 800, height 600) |
| ConfigLoader.Config.LoadParamsOf | src/config_loader.inl:82 | the PARAMS(LOAD_PARAM) expansion on one non-comment line: the parameters and the exception are those of the LOAD_PARAM blocks applied in PARAMS order, stopping at an exception |
| ConfigLoader.Config.Load | src/config_loader.inl:75-89 | an unopenable file changes nothing; otherwise the parameters and the escaping exception, if any, are those of processing the lines in file order, skipping comment lines, stopping at the first exception and keeping the assignments already made; parameters that fit their ints still fit afterwards, so `save` can follow `load` |
| ConfigLoader.Config.Save | src/config_loader.inl:95-105 | the lines written are those of the SAVE_PARAM rule, and loading them into parameters at their defaults restores every parameter with no exception |
| ConfigLoader.SaveLoadRoundTrip | src/config_loader.inl:57-61 | for any int values, loading the saved lines into default parameters restores the saved values and raises nothing |
| ConfigLoader.SaveWritesOnlyChanged | src/config_loader.inl:99 | a line for a parameter is written exactly when its value differs from its default, whatever FULL_SAVE says; the number of lines is the number of changed parameters |
| ConfigLoader.CommentLineIgnored | src/config_loader.inl:81 | inserting a line starting with '#' anywhere in the file changes neither the parameters nor the exception |
| ConfigLoader.LoadParamsKeepsUnnamed | src/config_loader.inl:47 | a line whose key is not a parameter's name leaves that parameter unchanged |
| ConfigLoader.LaterLinesNotNamingKeep | src/config_loader.inl:78-87 | lines that do not name a parameter do not change it, so the last line naming a parameter decides its value and a file that never names it keeps the prior value |
| ConfigLoader.LoadParamOfAssignment | src/config_loader.inl:44-54 | a `name = value` line is ignored by every parameter but the one it names; for that one, the value text after the '=', stripped of whitespace, goes to stoi, and a stoi exception escapes |
| ConfigLoader.SpaceInValueIgnored | src/config_loader.inl:48-50 | inserting whitespace anywhere in the value text changes nothing that LOAD_PARAM reads, so "width = 1 2" reads as "width = 12" |
| ConfigLoader.KeyWithoutEqualsThrows | src/config_loader.inl:45-48 | every non-comment line whose key is a parameter's name but which has no '=' throws out_of_range from substr and changes no parameter |
| ConfigLoader.ParseBool | src/config_loader.inl:22-24 | as written, every value parses as true |
| ConfigLoader.ParseBoolIntended | src/config_loader.inl:22-24 | reads back every bool that `<<` writes ("1"/"0", or "true"/"false" with boolalpha) as that bool; true exactly when the value starts with '1', 'T' or 't' |
| ConfigLoader.ParseBoolAsWrittenAcceptsFalse | src/config_loader.inl:23 | "false" and "0", the texts `<<` writes for false, parse as true as written and as false with the intended test |
| ConfigLoader.ParseString | src/config_loader.inl:26-29 | the first and the last character are removed and the rest is kept in order |
| ConfigLoader.ParseStringUnquotes | src/config_loader.inl:26-29 | a value in double quotes yields exactly the text between them |
| VulkanHelper.CreateGlfwInstance | src/vulkan_helper.cpp:5-39 | the extension names are GLFW's, then debug report (with DEBUG), then surface and Win32 surface, then the optional ones; the extension count is the list length; no layers; application and engine version 1, API version 1.1 |
| VulkanHelper.InstanceExtensionList | src/vulkan_helper.cpp:6-24 | the list has the GLFW count plus the optional count plus two (three with DEBUG) entries; it always holds the surface and Win32-surface extensions, so it is never empty and `&extensions[0]` is valid; debug report is in it with DEBUG; every GLFW and optional name is in it |
| VulkanHelper.InstanceExtensionOrder | src/vulkan_helper.cpp:6-24 | the position of every part of the extension list: GLFW's, then debug report with DEBUG, then surface, then Win32 surface, then the optional ones |
| VulkanHelper.NoOptionalExtensionCount | src/vulkan_helper.cpp:17-20 | without optional extensions the count is the GLFW count plus 2, plus 1 with DEBUG |
| VulkanHelper.PickFirstPhysicalDevice | src/vulkan_helper.cpp:41-46 | the first device enumerated; the assertion fails exactly when there is none |
| VulkanHelper.FirstIntersecting | src/vulkan_helper.cpp:53-56 | the distance to the first family whose flags intersect the request: no earlier family intersects it, and it is the family count when none does |
| VulkanHelper.PickQueueFamily | src/vulkan_helper.cpp:49-61 | the index returned is below the family count, its flags intersect the request, and no earlier family's do; the assertion fails exactly when no family's flags intersect it |
| VulkanHelper.CreateGlfwSurface | src/vulkan_helper.cpp:86-111 | runtime_error exactly when width or height is 0, before any window is requested; otherwise the window has the given dimensions and title, and a failed surface creation or missing present support exits with -1 |
| GraphicsEngine.ChooseSurfaceFormat | src/graphics_engine.cpp:131-143 | a lone Undefined entry, or any (Undefined, sRGB non-linear) entry, gives B8G8R8A8 UNORM in sRGB non-linear; when neither test fires, the first entry's format and colour space |
| GraphicsEngine.ChooseSurfaceFormatIntended | src/graphics_engine.cpp:135-143 | the preferred pair whenever the surface offers it or has no preference (a lone Undefined entry); in every other case the first entry |
| GraphicsEngine.IntendedFormatIsOffered | src/graphics_engine.cpp:135-143 | when every entry names a real format, the intended choice is one the surface offers |
| GraphicsEngine.PreferredFormatMissedAsWritten | src/graphics_engine.cpp:136 | a surface offering R8G8B8A8 first and the preferred pair second gets R8G8B8A8 as written and the preferred pair as intended |
| GraphicsEngine.ChoosePresentMode | src/graphics_engine.cpp:148-155 | Mailbox exactly when offered; Immediate exactly when Mailbox is not offered and Immediate is; Fifo exactly when neither is offered |
| GraphicsEngine.PresentModeIsMostPreferred | src/graphics_engine.cpp:148-155 | no offered mode is preferred over the chosen one, and the chosen one is offered unless it is Fifo |
| GraphicsEngine.ClampDimension | src/graphics_engine.cpp:159-160 | the clamped dimension is at least the minimum, at most the maximum when min ≤ max, unchanged when already in range, and one of the three inputs |
| GraphicsEngine.ClampDimensionIdempotent | src/graphics_engine.cpp:159-160 | clamping again with the same capabilities changes nothing |
| GraphicsEngine.ClampDimensionMonotone | src/graphics_engine.cpp:159-160 | a larger request never gives a smaller dimension |
| GraphicsEngine.MinImageCount | src/graphics_engine.cpp:163 | the count never exceeds a non-zero maximum; it is the minimum plus one without a maximum or when the maximum is larger; it wraps to 0 for a minimum of 2^32-1 |
| GraphicsEngine.DefaultQueueFamilyDoesGraphicsOrCompute | src/graphics_engine.cpp:77-88 | with the constructor's request, the chosen family supports graphics or compute and no earlier one does; the assertion fails exactly when no family supports either |
| GraphicsEngine.Graphics.CreateSwapchain | src/graphics_engine.cpp:127-173 | the create info carries the chosen format, colour space and present mode, the clamped extent, which is also stored in width and height, the image count, one array layer, colour-attachment usage, the current transform, opaque alpha and clipping; the chosen format is stored |
| VulkanLoader.Resize | src/vulkanLoader.cpp:96 | the new size; the old entries are kept up to it and the added entries are value-initialised |
| VulkanLoader.CheckAvailableInstanceExtensions | src/vulkanLoader.cpp:82-109 | true exactly when both enumeration calls succeed with non-zero counts; a failed first call leaves the vector unchanged; otherwise the vector has the first count's size and starts with the entries written |
| VulkanLoader.FilledFromEmpty | src/vulkanLoader.cpp:96-97 | from an empty vector the result has the first count's size, starts with the written entries, and the rest have empty names |
| VulkanLoader.IsExtensionSupported | src/vulkanLoader.cpp:111-119 | as written: true exactly when some available name differs from the desired one; false for an empty list and when every name equals the desired one |
| VulkanLoader.IsExtensionSupportedIntended | src/vulkanLoader.cpp:111-119 | true exactly when some available name equals the desired one |
| VulkanLoader.StrcmpTestInverted | src/vulkanLoader.cpp:113 | an extension listed alone is rejected and an unlisted one is accepted as written, and the reverse with the intended test |
| VulkanLoader.AsWrittenAcceptsEverything | src/vulkanLoader.cpp:112-116 | once two different names are available, every desired name is accepted as written |
| VulkanLoader.InstanceInfo | src/vulkanLoader.cpp:133-152 | the extension count is the number of desired extensions, the names pointer is null exactly when there are none, and there are no layers |
| VulkanLoader.CreateInstance | src/vulkanLoader.cpp:121-197 | fails before any create info exactly when enumeration fails; otherwise stops at the first desired extension reported unsupported; otherwise passes the create info for the desired list and succeeds exactly when vkCreateInstance succeeds with a non-null handle |
| ConsoleColor.Recolor | src/console_color.h:78-80 | the low nibble comes from the colour and every higher bit from the old attribute |
| ConsoleColor.RecolorRestores | src/console_color.h:76-81 | setting back the returned colour restores the attribute exactly |
| ConsoleColor.NamedColorsFitNibble | src/console_color.h:32-47 | there are sixteen named colours and each lies in 0..15, so it fits the nibble set_color replaces |
| ConsoleColor.NamedColorReadsBack | src/console_color.h:78-80 | after setting a named colour, the low nibble is that colour |
| ConsoleColor.Console.GetColor | src/console_color.h:53-65 | the current attribute, unchanged |
| ConsoleColor.Console.SetColor | src/console_color.h:68-86 | returns the previous attribute; the new attribute has the colour's low nibble and keeps every higher bit |
| ConsoleColor.Console.Highlight | src/vulkanLoader.cpp:16-24 | set a colour, then set the returned one: the attribute ends as it started |

## Left out

- Dynamic loading of the Vulkan library and of its function pointers is left out (`load_vulkan` apart from its colour pattern, `LoadFunctionExportedFromVulkanLoaderLibrary`, the instance-level loaders). These are calls into `dlopen`/`LoadLibrary`. ListOfVulkanFunctions.inl is not part of this model.
- Vulkan and GLFW calls are foreign. Creating, destroying and submitting instances, devices, surfaces, swapchains, buffers, memory and command buffers are represented only by the parameters the code computes for them. `create_device_khr` and `Graphics::create_logical_device` compute only constants and are left out.
- `Graphics::create_instance` and `Graphics::pick_physical_device` are not modelled separately. They repeat `create_glfw_instance` without optional extensions, with "App name"/"Engine name", and `pick_first_physical_device`. The corresponding members are `VulkanHelper.CreateGlfwInstance`, `VulkanHelper.NoOptionalExtensionCount` and `VulkanHelper.PickFirstPhysicalDevice`.
- Windowing is left out: the event loop of `Graphics::start`, `check_support` and the `exit` paths of the `Graphics` constructor. The `exit(-1)` paths of `create_glfw_surface_khr` are kept as `ProcessExit(-1)`.
- All console output is left out: the VERBOSE messages, the error messages, device printing and the error-name switch of `CreateInstance`.
- `auto_parse` for `float` and `double` (`stof`/`stod`) is left out, because it is floating-point parsing.
- File streams are replaced by the lines read (None when the file cannot be opened) and the lines written. A file that cannot be written is not modelled.
- The Linux branch of console_color.h has empty bodies and is left out. So are `image_container` and stb image loading.
- A failed `assert` is modelled as an error result. A build with NDEBUG, where the assertions vanish and the code indexes out of range, is not modelled.
- ConsoleColor.Console.GetColor, ConsoleColor.Console.SetColor and ConsoleColor.Console.Highlight assume standard output is a console. The code ignores the result of `GetConsoleScreenBufferInfo` (console_color.h:60 and :75); when standard output is redirected that call fails and `wAttributes` is left uninitialised, so the restoring property holds only with a console attached.
- ConfigLoader.RemoveSpaces, IntText.Stoi and the whitespace they skip use characters with the C-locale whitespace set (space, tab, newline, vertical tab, form feed, carriage return). The code applies `::isspace` to `char` bytes; a non-ASCII byte is negative there, which is undefined behaviour, and the model does not cover it.
- VulkanMemory.CreateBuffer: the buffer created before `find_memory` throws is leaked by the code. The model does not track the buffer handle.
- VulkanMemory.CopyBufferCopiesPrefix: assumes both buffers hold at least `size` bytes, which is the valid usage of vkCmdCopyBuffer. The code checks nothing; an undersized destination is invalid Vulkan usage and is not modelled.
- ConfigLoader.ParseString: requires at least two characters, because on a shorter value `pop_back` acts on an empty string, which is undefined behaviour.
- VulkanLoader.CheckAvailableInstanceExtensions: assumes the driver writes at most as many entries as the count it is given, which the Vulkan API guarantees.
- VulkanLoader.InstanceInfo: the `static_cast<uint32_t>` of the extension count is not modelled. It only matters with 2^32 or more names.
- VulkanLoader.CreateInstance: `headerVersion` stands for VK_HEADER_VERSION, and the returned VkInstance handle is reduced to whether it is null.
- The configuration model covers the parameter list of config_loader.h, two `int` parameters. Other PARAMS lists instantiate the same macros in the same way.
- GraphicsEngine.Graphics.CreateSwapchain: the image handles returned by `getSwapchainImagesKHR` and the swapchain handle are not modelled.

## Findings

| source | as written | input that shows it | evidently intended | confidence | as-written member | corrected member |
|---|---|---|---|---|---|---|
| src/vulkanLoader.cpp:113 | `if (strcmp(e.extensionName, desired_extension))` treats a non-zero result, i.e. DIFFERENT names, as "found" | available = [VK_KHR_surface]: desired VK_KHR_surface is rejected, desired VK_KHR_swapchain is accepted | `strcmp(...) == 0` | high; not executed | VulkanLoader.StrcmpTestInverted | VulkanLoader.IsExtensionSupportedIntended |
| src/config_loader.inl:23 | `value[0] = 1` (followed by the other tests joined with logical or) assigns instead of comparing, so every value reads as true | "false" and "0" parse as true | value[0] compared with '1', 'T' or 't' | high; not executed | ConfigLoader.ParseBoolAsWrittenAcceptsFalse | ConfigLoader.ParseBoolIntended |
| src/graphics_engine.cpp:136 | the `any_of` looks for an entry whose format is Undefined in sRGB non-linear | formats [(R8G8B8A8 UNORM, sRGB), (B8G8R8A8 UNORM, sRGB)]: the first entry is taken although the preferred pair is offered | look for B8G8R8A8 UNORM in sRGB non-linear | medium; not executed | GraphicsEngine.PreferredFormatMissedAsWritten | GraphicsEngine.ChooseSurfaceFormatIntended |
