/** The exceptions the application throws. Each one ends initialization and is
    caught by call_HelloTriangleApplication, which prints its message. */
module Errors {
  import opened Wrappers

  /** The exit statuses call_HelloTriangleApplication returns. */
  const EXIT_SUCCESS: int := 0
  const EXIT_FAILURE: int := 1

  datatype Error =
    | ValidationLayersUnavailable   // create_VK_instance: requested layers missing
    | InstanceCreationFailed        // vkCreateInstance did not return VK_SUCCESS
    | DebugLayerCreationFailed      // the debug messenger could not be created
    | SurfaceCreationFailed         // the window surface could not be created
    | NoPhysicalDevices             // the driver enumerates zero devices
    | NoSuitableDevice              // no enumerated device passes the suitability check
    | SurfaceSupportQueryFailed     // vkGetPhysicalDeviceSurfaceSupportKHR failed
    | BadOptionalAccess             // .value() on an empty queue-family optional
    | DeviceCreationFailed          // vkCreateDevice did not return VK_SUCCESS

  /** The text the exception carries: what() of the runtime_error, or, for
      std::bad_optional_access, the text of the GNU C++ library (what() is
      implementation-defined there). */
  function Message(e: Error): string
  {
    match e
    case ValidationLayersUnavailable => "validation layers requested, but not available!"
    case InstanceCreationFailed => "Failed to create Instance! Stupid...\n"
    case DebugLayerCreationFailed => "Failed to create DEBUG layer!"
    case SurfaceCreationFailed => "Failed to create KHR Surface!"
    case NoPhysicalDevices => "Failed to find physical devices!"
    case NoSuitableDevice => "Could not find suitable physical device!"
    case SurfaceSupportQueryFailed => "Failed to check for surface compatability!"
    case BadOptionalAccess => "bad optional access"
    case DeviceCreationFailed => "Failed to create logical device!"
  }

  /** Each exception carries its own text. */
  lemma MessagesIdentifyErrors(e1: Error, e2: Error)
    ensures Message(e1) == Message(e2) <==> e1 == e2
  {
  }

  /** What call_HelloTriangleApplication writes to stderr: the caught
      exception's what(), or nothing when run returned normally. The line's
      end is not modelled. */
  function ReportedLine(err: Option<Error>): Option<string>
  {
    match err
    case None => None
    case Some(e) => Some(Message(e))
  }

  /** The stderr line tells which exception ended the run, and a silent run
      is one that threw nothing. */
  lemma {:induction false} ReportedLineIdentifiesError(a: Option<Error>, b: Option<Error>)
    ensures ReportedLine(a) == ReportedLine(b) <==> a == b
    ensures ReportedLine(a).None? <==> a.None?
  {
    if a.Some? && b.Some? {
      MessagesIdentifyErrors(a.value, b.value);
    }
  }
}
