# Vulkan hello-triangle: a verified model of its decision logic and lifecycle

The program is a Vulkan "hello triangle" tutorial in two snapshots. The first
(`HelloTriangleApplication.cpp`) opens a window and creates a Vulkan instance.
The second (`src/HelloTriangleApplication.cpp`) also creates a debug
messenger, a window surface and a logical device. It picks the GPU and a queue
family. It also defines a surface-format choice, `choose_swap_surface_format`,
that nothing in `src/HelloTriangleApplication.cpp` calls; the model covers it on its own. Every answer of the driver and the window library
is an immutable input here (`Vk.Driver`, `Vk.PhysicalDevice`,
`Vk.QueueFamily`). Every thrown exception is an `Errors.Error` value.
`Errors.Message` gives the exact text of each `runtime_error`. The one exception
that is not a `runtime_error`, `std::bad_optional_access` from an empty
optional's `value()`, has an implementation-defined `what()`; the model uses
the GNU C++ library's text, "bad optional access".

Modules:

- `Wrappers`: the `Option` and `Result` types.
- `Errors`: the exceptions, their texts, the exit statuses and the line written to stderr.
- `Vk`: the driver's and window library's answers, as immutable data.
- `Config`: the header's constants, `QueueFamilyIndex` and `is_index_complete`.
- `InstanceSetup`: layer check, required-extension list, `compare_extensions` and instance create-info. Both snapshots share it; the logic is identical in each.
- `DeviceSelection`: queue-family search, device-extension check, suitability, GPU choice and surface-format choice.
- `LogicalDevice`: the queue-create list and device create-info.
- `Resources`: the owned resources, their dependencies, and which orders respect them.
- `Application`: the later application object (a class with optional handle fields and ghost creation and destruction logs), `run` and `call_HelloTriangleApplication`.
- `FirstSteps`: the same for the first snapshot.

The loops that update flags, sets or lists (the layer check, the extension
comparison, the queue-family search, the extension-set erase, the queue-create
list, the device scan) are methods with loop invariants. Each is proved against a
specification function or a set-membership predicate. The early-return scan of
`choose_swap_surface_format` only computes a value, so it is the recursive
function `DeviceSelection.FirstPreferred`. The lemmas state what
the program promises about those functions.

A reader would expect teardown to be the reverse of creation, every created
object to be released, and the extension comparison to test membership. The
code does something else in three places, and the model follows the code:

- `cleanup` in the later snapshot destroys the debug messenger before the
  surface, although the messenger was created first. So teardown is not the
  exact reverse of creation. The model proves instead that each order respects
  every dependency (`Application.CreationOrderIsSafe`,
  `Application.TeardownOrderIsSafe`).
- An exception thrown during `init_vulkan` skips `cleanup` altogether. Nothing
  is unwound (`Application.FailedRunSkipsCleanup`).
- `compare_extensions` looks only at element `[0]` and counts a name that
  differs as found. The model reproduces this (`InstanceSetup.CompareExtensions`).
  `InstanceSetup.ComparisonIsNotMembership` shows it is not a membership test.

## Model

| member | source | states |
|---|---|---|
| Config.UnresolvedIsIncomplete | src/include/HelloTriangleApplication.hpp:33-41 | a default-constructed index (both optionals empty) is not complete |
| Config.BothRolesIsComplete | src/include/HelloTriangleApplication.hpp:33-41 | setting both families to the same index i makes the index complete, with both fields holding i |
| Config.QueueFamilyIndex.IsIndexComplete | src/include/HelloTriangleApplication.hpp:38-41 | an index is complete iff both families hold a value, that is, iff it is (Some(g), Some(p)) for some g and p |
| Errors.MessagesIdentifyErrors | src/HelloTriangleApplication.cpp:439-452 | two exceptions carry the same what() text iff they are the same exception |
| Errors.ReportedLineIdentifiesError | src/HelloTriangleApplication.cpp:445-449 | the line the catch writes to stderr determines the exception that ended the run, and no line is written iff nothing was thrown |
| InstanceSetup.CheckValidationLayersSupport | HelloTriangleApplication.cpp:86-111 | true iff every name in VALIDATION_LAYERS equals some available layer name; the nested loops with early exits compute exactly that; the later snapshot repeats it at src/HelloTriangleApplication.cpp:276-301 |
| InstanceSetup.CompareExtensions | HelloTriangleApplication.cpp:132-161 | as written: true iff the window-library list is empty or some available extension name differs from element [0]; other elements are never examined; the later snapshot repeats it at src/HelloTriangleApplication.cpp:390-426 |
| InstanceSetup.ComparisonIsNotMembership | HelloTriangleApplication.cpp:142-152 | the comparison disagrees with membership both ways: a single required name that is available fails it, and one that is missing passes it |
| InstanceSetup.GetRequiredExtensions | HelloTriangleApplication.cpp:113-130 | the window library's extensions in their order, plus the debug-utils name at the end when validation is on (length count+1, else count); the comparison only decides whether a mismatch is logged and never changes the list; the later snapshot repeats it at src/HelloTriangleApplication.cpp:337-362 |
| InstanceSetup.PrepareInstance | HelloTriangleApplication.cpp:44-78 | fails with "validation layers requested, but not available!" iff validation is on and a required layer is missing, before any instance exists; otherwise enabledExtensionCount is the length of the required-extension list, which starts with the window extensions and, with validation, ends with the debug-utils name; the layers are VALIDATION_LAYERS with validation and none without, and enabledLayerCount is \|VALIDATION_LAYERS\| with validation, else 0; the later snapshot repeats it at src/HelloTriangleApplication.cpp:237-268 |
| DeviceSelection.FindQueueFamilies | src/HelloTriangleApplication.cpp:86-119 | the loop with its early break returns exactly the family search: an error on a failed surface-support query, the first qualifying index in both roles, or an unresolved index |
| DeviceSelection.QueueFamiliesFindsFirst | src/HelloTriangleApplication.cpp:86-119 | the result is index i in both roles iff family i has a queue, the graphics bit and present support, and every earlier family answered its query and did not qualify |
| DeviceSelection.QueueFamiliesUnresolved | src/HelloTriangleApplication.cpp:86-119 | both fields stay empty iff every family answered its query and none qualified |
| DeviceSelection.QueueFamiliesOutcome | src/HelloTriangleApplication.cpp:86-119 | an error iff some family's query failed and every family before it answered without qualifying; the error is "Failed to check for surface compatability!"; any success has graphics == present, and a complete index names an existing family |
| DeviceSelection.CheckDeviceExtensionsSupport | src/HelloTriangleApplication.cpp:320-335 | true iff every required device extension appears among the available names; erasing from the set of required names in a loop computes this, ignoring duplicates and extra names |
| DeviceSelection.CheckDeviceSuitability | src/HelloTriangleApplication.cpp:303-318 | an error exactly when the family search throws; otherwise true iff the index is complete, the extensions are supported, and (only then queried) the format and present-mode lists are both non-empty |
| DeviceSelection.UnsupportedExtensionsDecide | src/HelloTriangleApplication.cpp:303-318 | a missing device extension alone makes the device unsuitable, whatever the surface lists hold, because they are queried only when the extensions are supported |
| DeviceSelection.SuitableDeviceHasFamily | src/HelloTriangleApplication.cpp:303-318 | a suitable device has an existing family index i serving both roles |
| DeviceSelection.FirstSuitableIsFirst | src/HelloTriangleApplication.cpp:72-82 | if device k is suitable and every earlier device is unsuitable, the scan returns device k |
| DeviceSelection.FirstSuitableOutcome | src/HelloTriangleApplication.cpp:72-82 | a scan result is a suitable device with only unsuitable devices before it; it is "no suitable device" iff every remaining device is unsuitable; its only errors are that and the surface-support query failure |
| DeviceSelection.SelectDeviceMeaning | src/HelloTriangleApplication.cpp:61-84 | "Failed to find physical devices!" iff the list is empty; the chosen device is the first suitable one in enumeration order; "Could not find suitable physical device!" iff the list is non-empty and every device is unsuitable |
| DeviceSelection.FirstPreferred | src/HelloTriangleApplication.cpp:154-159 | the scan finds a format iff (B8G8R8A8_UNORM, SRGB_NONLINEAR) is in the list, and what it finds is that pair |
| DeviceSelection.ChooseSwapSurfaceFormat | src/HelloTriangleApplication.cpp:147-162 | a single UNDEFINED entry yields the preferred pair; otherwise the preferred pair if present, else entry 0; the result is always the preferred pair or a member of the input; requires a non-empty input, which the source does not check |
| LogicalDevice.MakeDeviceCreateInfo | src/HelloTriangleApplication.cpp:164-204 | one queue-create entry per distinct value of {graphics, present}, in increasing family order and each with queueCount 1; queueCreateInfoCount is 1; the device extensions are enabled; the validation layers are enabled only with validation |
| LogicalDevice.QueueCreateListHasOneEntry | src/HelloTriangleApplication.cpp:164-197 | for any complete index the family search produces, {graphics, present} has one element, so the hard-coded count of 1 matches the list |
| Application.HelloTriangleApplication.constructor | src/HelloTriangleApplication.cpp:9-12 | m_gpu starts as VK_NULL_HANDLE (None); nothing has been created or destroyed |
| Application.HelloTriangleApplication.InitWindow | src/HelloTriangleApplication.cpp:22-28 | the window library is initialised and the window created, in that order; the window asked for is WINDOW_WIDTH x WINDOW_HEIGHT, that is 800x600; m_window holds the returned handle |
| Application.HelloTriangleApplication.CreateInstance | src/HelloTriangleApplication.cpp:237-274 | throws the layer error or "Failed to create Instance! Stupid...\n" exactly as InstanceError says; m_instance is set and recorded only on success |
| Application.HelloTriangleApplication.InitSetupCallback | src/HelloTriangleApplication.cpp:42-59 | throws "Failed to create DEBUG layer!" iff messenger creation fails; m_callback is set only on success |
| Application.HelloTriangleApplication.CreateSurface | src/linux/HelloTriangle_platform.hpp:7-33 | throws "Failed to create KHR Surface!" iff surface creation fails; m_surface is set only on success |
| Application.HelloTriangleApplication.PickGraphicCard | src/HelloTriangleApplication.cpp:61-84 | m_gpu becomes the first suitable device; when none is suitable, m_gpu is unchanged and the exception is raised exactly when it is still VK_NULL_HANDLE; an empty list or a query failure throws with m_gpu unchanged |
| Application.HelloTriangleApplication.CreateLogicalDevice | src/HelloTriangleApplication.cpp:164-212 | the family search repeated for m_gpu throws, an incomplete index fails on the optional's value(), and a failed vkCreateDevice throws; the queues are fetched only after the device exists |
| Application.HelloTriangleApplication.InitVulkan | src/HelloTriangleApplication.cpp:30-40 | instance, messenger (validation only), surface, GPU choice, device, stopping at the first exception; the resources recorded and the exception are exactly those of InitVulkanTrace; success leaves m_instance, m_callback (with validation), m_surface, m_device and both queue handles holding what the driver returned, and m_gpu the selected device |
| Application.HelloTriangleApplication.Cleanup | src/HelloTriangleApplication.cpp:223-235 | destroys the device, the messenger (validation only), the surface, the instance, the window, then terminates the window library |
| Application.HelloTriangleApplication.Run | src/HelloTriangleApplication.cpp:14-20 | init_window (an 800x600 window), init_vulkan, then cleanup; an exception skips cleanup; the creation and destruction logs are exactly RunCreations and RunDestructions |
| Application.CallHelloTriangleApplication | src/HelloTriangleApplication.cpp:439-452 | EXIT_SUCCESS iff initialization throws nothing, else EXIT_FAILURE; the stderr line is the caught exception's what(), and there is none on success; what the run created and destroyed |
| Application.TeardownMatchesCreation | src/HelloTriangleApplication.cpp:223-235 | cleanup destroys exactly the multiset of resources that init_window and a complete init_vulkan (lines 22-40) created |
| Application.CreationOrderIsSafe | src/HelloTriangleApplication.cpp:22-40 | creation makes each resource once and never before a resource it depends on |
| Application.TeardownOrderIsSafe | src/HelloTriangleApplication.cpp:223-235 | cleanup never destroys a resource while something made from it still lives |
| Application.SuccessfulRunLifecycle | src/HelloTriangleApplication.cpp:14-40 | a run whose initialization succeeds creates in CreationOrder and destroys in TeardownOrder: each resource created once and destroyed once, with dependencies respected |
| Application.FailedRunSkipsCleanup | src/HelloTriangleApplication.cpp:439-452 | after an exception nothing is destroyed, no logical device exists, and what was created is a proper prefix of the full creation order |
| Application.NoDevicesNoLogicalDevice | src/HelloTriangleApplication.cpp:61-70 | with no physical device the run fails without a logical device, and the exception is "Failed to find physical devices!" unless an earlier step already threw |
| Application.SuccessfulInitUsesSuitableGpu | src/HelloTriangleApplication.cpp:30-40 | a successful initialization chose a suitable device with one queue family in both roles |
| Application.PickedGpuFailsOnlyOnDeviceCreation | src/HelloTriangleApplication.cpp:164-212 | once pick_graphic_card chose a device, create_logical_device throws only when vkCreateDevice fails: for that device the repeated family search neither throws nor leaves an optional empty |
| Application.ReleaseBuildSkipsValidation | src/include/HelloTriangleApplication.hpp:18-22 | ENABLE_VALIDATION_LAYERS is true without NDEBUG and false with it; a build with NDEBUG creates and destroys no debug messenger and never throws either validation exception |
| Resources.RisingLevelsCreateSafely | src/HelloTriangleApplication.cpp:22-40 | an order whose dependency levels never decrease creates nothing before a resource it depends on |
| Resources.FallingLevelsDestroySafely | src/HelloTriangleApplication.cpp:223-235 | an order whose dependency levels never increase destroys nothing after a resource it depends on |
| FirstSteps.HelloTriangleApplication.constructor | HelloTriangleApplication.h:29-30 | the defaulted constructor leaves m_window and m_instance unassigned (None); nothing has been created or destroyed, and no window has been asked for |
| FirstSteps.HelloTriangleApplication.InitWindow | HelloTriangleApplication.cpp:15-21 | the window library is initialised, then an 800x600 window is created; m_window holds the returned handle |
| FirstSteps.HelloTriangleApplication.CreateInstance | HelloTriangleApplication.cpp:44-84 | throws the layer error or the instance-creation error exactly as InstanceError says; m_instance is set only on success |
| FirstSteps.HelloTriangleApplication.Cleanup | HelloTriangleApplication.cpp:36-42 | destroys the instance, then the window, then terminates the window library |
| FirstSteps.HelloTriangleApplication.Run | HelloTriangleApplication.cpp:7-26 | init_window (an 800x600 window), create_VK_instance, then cleanup; an exception skips cleanup |
| FirstSteps.CallHelloTriangleApplication | HelloTriangleApplication.cpp:163-176 | EXIT_SUCCESS iff instance creation throws nothing, else EXIT_FAILURE; the stderr line is the caught exception's what(), and there is none on success; what the run created and destroyed |
| FirstSteps.SuccessfulRunUnwindsInReverse | HelloTriangleApplication.cpp:7-42 | a successful run destroys exactly what it created, in the reverse order, with every dependency respected |
| FirstSteps.FailedRunSkipsCleanup | HelloTriangleApplication.cpp:44-49 | a failed instance creation leaves only the window library and the window created and nothing destroyed; the layer error occurs iff validation is on and a layer is missing |

## Left out

- Window-library I/O: `glfwWindowHint`, `execute_main_loop` and the event polling. `init_window` and `glfwTerminate` appear only as creations and destructions in the ghost logs.
- Platform surface creation is one success/failure input. The Windows variant, which refers to an undeclared `create_info`, is not modelled.
- `GPU_NAME` is never used by the selection logic.
- `read_file` in `src/utils/utils.hpp` is file I/O.
- Debug-messenger plumbing is not modelled:
  - The `vkGetInstanceProcAddr` lookup is left out. A missing create function counts as a failed creation, and the destroy function is taken to be present.
  - `debug_callback`'s logging to stderr is left out.
- The stderr write in `call_HelloTriangleApplication` is modelled as the returned value `printed`, not as I/O. The trailing `endl` is not part of that value.
- Driver-facing struct fields are left out: `sType`, application-info strings, version macros and the `1.0f` queue priority. The source passes them to the driver unchanged.
- `query_swapchain_support` is collapsed into the device's reported lists. The count of each list is its length, so "a list is empty exactly when its count is 0" holds by construction rather than being proved.
- The header's `m_device_queue` is named differently from the `m_graphical_queue` the code uses. Both queue handles are abstract driver answers here.
- Present-mode choice, swap extent, image count, swapchain, render pass, pipeline and framebuffers are left out. The source has no code for them.
- `uint32_t` counts and indices are unbounded `nat`s. No list the driver reports comes near 2^32 entries.
- The driver is taken to be deterministic. `create_logical_device` repeats the family search for the chosen device, and the model assumes it gets the same answers.
- The handles that the constructor leaves uninitialised are modelled as `None`.
- `DEVICE_EXTENCIONS`, the list of required device extensions, has no declaration in `src/include/HelloTriangleApplication.hpp`. It is modelled as the swapchain extension alone (`Config.DEVICE_EXTENSIONS`).
- `ENABLE_VALIDATION_LAYERS` is the constructor argument `enableValidation`. Its value for a build with or without `NDEBUG` is `Config.ValidationEnabled`.
- The window asked for is recorded as a ghost field, `requestedExtent`. The title "Vulcan" and the window hints (no client API, not resizable) are not modelled.
- The log line "Oops! Something wrong with extensions comparation" is an output flag of `InstanceSetup.GetRequiredExtensions`, not a printed line.
