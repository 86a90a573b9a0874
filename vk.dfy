/** What the Vulkan driver and the window library answer, taken as immutable inputs.
    A list the driver reports with the two-call pattern (count, then data) is
    the list itself here: its count is its length. */
module Vk {

  /** An opaque handle returned by a successful create call. */
  type Handle = nat

  /** The outcome of a vkCreate* (or glfwCreateWindowSurface) call. */
  datatype Creation = Succeeded(handle: Handle) | CreationFailed

  /** The answer of vkGetPhysicalDeviceSurfaceSupportKHR for one queue family
      and the bound surface: a failing VkResult, or the presentSupport flag. */
  datatype SurfaceSupport = QueryFailed | Reported(presentSupport: bool)

  /** VK_QUEUE_GRAPHICS_BIT of VkQueueFlagBits. */
  const QUEUE_GRAPHICS_BIT: bv32 := 0x1

  /** One VkQueueFamilyProperties entry, with the surface-support answer for it. */
  datatype QueueFamily = QueueFamily(queueCount: nat, queueFlags: bv32, surfaceSupport: SurfaceSupport)

  /** VkFormat and VkColorSpaceKHR enumerant values. */
  const FORMAT_UNDEFINED: nat := 0
  const FORMAT_B8G8R8A8_UNORM: nat := 44
  const COLOR_SPACE_SRGB_NONLINEAR: nat := 0

  datatype SurfaceFormat = SurfaceFormat(format: nat, colorSpace: nat)

  /** What one physical device reports: its queue families, its device
      extension names, and the surface formats and present modes it offers
      for the bound surface. */
  datatype PhysicalDevice = PhysicalDevice(
    handle: Handle,
    queueFamilies: seq<QueueFamily>,
    extensionNames: seq<string>,
    surfaceFormats: seq<SurfaceFormat>,
    presentModes: seq<nat>)

  /** Every answer one run of the application receives from the outside. */
  datatype Driver = Driver(
    window: Handle,                     // glfwCreateWindow
    windowExtensions: seq<string>,      // glfwGetRequiredInstanceExtensions
    instanceLayers: seq<string>,        // vkEnumerateInstanceLayerProperties
    instanceExtensions: seq<string>,    // vkEnumerateInstanceExtensionProperties
    instance: Creation,                 // vkCreateInstance
    messenger: Creation,                // vkCreateDebugUtilsMessengerEXT (or its absence)
    surface: Creation,                  // platform surface creation
    physicalDevices: seq<PhysicalDevice>, // vkEnumeratePhysicalDevices
    device: Creation,                   // vkCreateDevice
    graphicsQueue: Handle,              // vkGetDeviceQueue for the graphics family
    presentQueue: Handle)               // vkGetDeviceQueue for the present family

  /** Every required name is among the available ones; order, duplicates and
      extra available names do not matter. */
  predicate AllAvailable(required: seq<string>, available: seq<string>)
  {
    forall name :: name in required ==> name in available
  }
}
