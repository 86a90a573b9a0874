/** Configuration constants and the queue-family index record declared in the
    application header. */
module Config {
  import opened Wrappers

  const WINDOW_WIDTH: nat := 800
  const WINDOW_HEIGHT: nat := 600

  /** Instance layers requested when validation is on. */
  const VALIDATION_LAYERS: seq<string> := ["VK_LAYER_LUNARG_standard_validation"]

  /** Device extensions every selected GPU must offer (the swapchain extension). */
  const DEVICE_EXTENSIONS: seq<string> := ["VK_KHR_swapchain"]

  /** The instance extension appended when validation is on. */
  const DEBUG_UTILS_EXTENSION_NAME: string := "VK_EXT_debug_utils"

  /** Validation is compiled in exactly when NDEBUG is not defined. */
  function ValidationEnabled(ndebugDefined: bool): bool
  {
    !ndebugDefined
  }

  /** Graphics and present queue families, each unresolved until found. */
  datatype QueueFamilyIndex = QueueFamilyIndex(graphicsFamily: Option<nat>, presentFamily: Option<nat>)
  {
    /** Both families hold a value. */
    predicate IsIndexComplete(): (complete: bool)
      ensures complete <==> exists g: nat, p: nat :: this == QueueFamilyIndex(Some(g), Some(p))
    {
      graphicsFamily.Some? && presentFamily.Some?
    }
  }

  /** A default-constructed index: both optionals empty. */
  const UNRESOLVED: QueueFamilyIndex := QueueFamilyIndex(None, None)

  /** The index assigned when family i can both draw and present. */
  function BothRoles(i: nat): QueueFamilyIndex
  {
    QueueFamilyIndex(Some(i), Some(i))
  }

  lemma UnresolvedIsIncomplete()
    ensures !UNRESOLVED.IsIndexComplete()
  {
  }

  lemma BothRolesIsComplete(i: nat)
    ensures BothRoles(i).IsIndexComplete()
    ensures BothRoles(i).graphicsFamily == BothRoles(i).presentFamily == Some(i)
  {
  }
}
