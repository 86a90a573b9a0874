/** Choosing the GPU: the queue-family search, the device-extension check, the
    suitability predicate, the first-suitable-device rule and the surface
    format choice. */
module DeviceSelection {
  import opened Wrappers
  import opened Errors
  import opened Config
  import opened Vk

  // ----- find_queue_families -----

  /** Family f has queues, has the graphics bit and can present to the surface. */
  predicate CanDrawAndPresent(f: QueueFamily)
  {
    f.queueCount > 0 && (f.queueFlags & QUEUE_GRAPHICS_BIT) != 0 && f.surfaceSupport == Reported(true)
  }

  /** The search moves on past family f: its surface query succeeded and it does
      not qualify. */
  predicate Skipped(f: QueueFamily)
  {
    f.surfaceSupport.Reported? && !CanDrawAndPresent(f)
  }

  /** The search from family i onward: a failing surface query throws, the first
      qualifying family takes both roles and ends the search. */
  function FamilySearch(families: seq<QueueFamily>, i: nat): Result<QueueFamilyIndex, Error>
    requires i <= |families|
    decreases |families| - i
  {
    if i == |families| then Ok(UNRESOLVED)
    else if families[i].surfaceSupport.QueryFailed? then Err(SurfaceSupportQueryFailed)
    else if CanDrawAndPresent(families[i]) then Ok(BothRoles(i))
    else FamilySearch(families, i + 1)
  }

  /** What find_queue_families returns (or throws) for a device's families. */
  function QueueFamilies(families: seq<QueueFamily>): Result<QueueFamilyIndex, Error>
  {
    FamilySearch(families, 0)
  }

  /** find_queue_families: the loop over the families, querying surface support
      for each and stopping once the index is complete. */
  method FindQueueFamilies(families: seq<QueueFamily>) returns (r: Result<QueueFamilyIndex, Error>)
    ensures r == QueueFamilies(families)
  {
    var indices := UNRESOLVED;
    var i := 0;
    while i < |families|
      invariant 0 <= i <= |families|
      invariant indices == UNRESOLVED
      invariant QueueFamilies(families) == FamilySearch(families, i)
    {
      var presentSupport := false;
      match families[i].surfaceSupport {
        case QueryFailed =>
          return Err(SurfaceSupportQueryFailed);
        case Reported(p) =>
          presentSupport := p;
      }
      if families[i].queueCount > 0 && (families[i].queueFlags & QUEUE_GRAPHICS_BIT) != 0 && presentSupport {
        indices := QueueFamilyIndex(Some(i), Some(i));
      }
      if indices.IsIndexComplete() {
        break;
      }
      i := i + 1;
    }
    return Ok(indices);
  }

  lemma {:induction false} FamilySearchFinds(families: seq<QueueFamily>, i: nat, k: nat)
    requires i <= |families|
    ensures FamilySearch(families, i) == Ok(BothRoles(k)) <==>
              i <= k < |families| && CanDrawAndPresent(families[k]) &&
              forall j :: i <= j < k ==> Skipped(families[j])
    decreases |families| - i
  {
    if i < |families| && Skipped(families[i]) {
      FamilySearchFinds(families, i + 1, k);
    }
  }

  lemma {:induction false} FamilySearchUnresolved(families: seq<QueueFamily>, i: nat)
    requires i <= |families|
    ensures FamilySearch(families, i) == Ok(UNRESOLVED) <==>
              forall j :: i <= j < |families| ==> Skipped(families[j])
    decreases |families| - i
  {
    if i < |families| && Skipped(families[i]) {
      FamilySearchUnresolved(families, i + 1);
    }
  }

  lemma {:induction false} FamilySearchFails(families: seq<QueueFamily>, i: nat)
    requires i <= |families|
    ensures FamilySearch(families, i).Err? <==>
              exists k :: i <= k < |families| && families[k].surfaceSupport.QueryFailed? &&
                          forall j :: i <= j < k ==> Skipped(families[j])
    ensures FamilySearch(families, i).Err? ==> FamilySearch(families, i).error == SurfaceSupportQueryFailed
    ensures FamilySearch(families, i).Ok? ==>
              FamilySearch(families, i).value == UNRESOLVED ||
              exists k :: i <= k < |families| && FamilySearch(families, i).value == BothRoles(k)
    decreases |families| - i
  {
    if i < |families| && Skipped(families[i]) {
      FamilySearchFails(families, i + 1);
      if FamilySearch(families, i + 1).Err? {
        var k :| i + 1 <= k < |families| && families[k].surfaceSupport.QueryFailed? &&
                 forall j :: i + 1 <= j < k ==> Skipped(families[j]);
        assert forall j :: i <= j < k ==> Skipped(families[j]);
      }
    }
  }

  /** find_queue_families returns family i in both roles exactly when i is the
      first family that can draw and present, and every earlier family's
      surface query succeeded. */
  lemma QueueFamiliesFindsFirst(families: seq<QueueFamily>, i: nat)
    ensures QueueFamilies(families) == Ok(BothRoles(i)) <==>
              i < |families| && CanDrawAndPresent(families[i]) &&
              forall j :: 0 <= j < i ==> Skipped(families[j])
  {
    FamilySearchFinds(families, 0, i);
  }

  /** Both roles stay empty exactly when every query succeeds and no family
      qualifies. */
  lemma QueueFamiliesUnresolved(families: seq<QueueFamily>)
    ensures QueueFamilies(families) == Ok(UNRESOLVED) <==>
              forall j :: 0 <= j < |families| ==> Skipped(families[j])
  {
    FamilySearchUnresolved(families, 0);
  }

  /** The search throws exactly when a surface query fails at or before the
      first qualifying family; otherwise the index it returns is empty or holds
      one family in both roles. */
  lemma QueueFamiliesOutcome(families: seq<QueueFamily>)
    ensures QueueFamilies(families).Err? <==>
              exists k :: 0 <= k < |families| && families[k].surfaceSupport.QueryFailed? &&
                          forall j :: 0 <= j < k ==> Skipped(families[j])
    ensures QueueFamilies(families).Err? ==> QueueFamilies(families).error == SurfaceSupportQueryFailed
    ensures QueueFamilies(families).Ok? ==>
              QueueFamilies(families).value.graphicsFamily == QueueFamilies(families).value.presentFamily
    ensures QueueFamilies(families).Ok? && QueueFamilies(families).value.IsIndexComplete() ==>
              QueueFamilies(families).value.graphicsFamily.value < |families|
  {
    FamilySearchFails(families, 0);
  }

  // ----- check_device_extensions_support -----

  /** check_device_extensions_support: start from the set of required names and
      erase every available name; supported when nothing is left. */
  method CheckDeviceExtensionsSupport(availableExtensions: seq<string>) returns (supported: bool)
    ensures supported <==> AllAvailable(DEVICE_EXTENSIONS, availableExtensions)
  {
    var requiredExtensions := set name | name in DEVICE_EXTENSIONS;
    for k := 0 to |availableExtensions|
      invariant requiredExtensions == set name | name in DEVICE_EXTENSIONS && name !in availableExtensions[..k]
    {
      assert availableExtensions[..k + 1] == availableExtensions[..k] + [availableExtensions[k]];
      requiredExtensions := requiredExtensions - {availableExtensions[k]};
    }
    assert availableExtensions[..|availableExtensions|] == availableExtensions;
    supported := requiredExtensions == {};
    if !supported {
      ghost var missing :| missing in requiredExtensions;
    }
  }

  // ----- check_device_suitability -----

  /** check_device_suitability: the queue-family search always runs (and may
      throw); the surface lists are consulted only when the extensions are
      supported. */
  function Suitability(device: PhysicalDevice): Result<bool, Error>
  {
    match QueueFamilies(device.queueFamilies)
    case Err(e) => Err(e)
    case Ok(indices) =>
      var extensionSupported := AllAvailable(DEVICE_EXTENSIONS, device.extensionNames);
      var swapChainGood := if extensionSupported then device.surfaceFormats != [] && device.presentModes != [] else false;
      Ok(indices.IsIndexComplete() && extensionSupported && swapChainGood)
  }

  method CheckDeviceSuitability(device: PhysicalDevice) returns (r: Result<bool, Error>)
    ensures r == Suitability(device)
    ensures r.Err? <==> QueueFamilies(device.queueFamilies).Err?
    ensures r.Ok? ==> (r.value <==> QueueFamilies(device.queueFamilies).value.IsIndexComplete() &&
                                     AllAvailable(DEVICE_EXTENSIONS, device.extensionNames) &&
                                     device.surfaceFormats != [] && device.presentModes != [])
  {
    var indices := FindQueueFamilies(device.queueFamilies);
    if indices.Err? {
      return Err(indices.error);
    }
    var extensionSupported := CheckDeviceExtensionsSupport(device.extensionNames);
    var swapChainGood := false;
    if extensionSupported {
      swapChainGood := device.surfaceFormats != [] && device.presentModes != [];
    }
    return Ok(indices.value.IsIndexComplete() && extensionSupported && swapChainGood);
  }

  /** Without the required extensions a device is never suitable, and its
      surface lists do not affect the verdict (they are not queried). */
  lemma UnsupportedExtensionsDecide(device: PhysicalDevice, formats: seq<SurfaceFormat>, modes: seq<nat>)
    requires !AllAvailable(DEVICE_EXTENSIONS, device.extensionNames)
    ensures Suitability(device) != Ok(true)
    ensures Suitability(device) == Suitability(device.(surfaceFormats := formats, presentModes := modes))
  {
  }

  /** A suitable device has one family holding both roles. */
  lemma SuitableDeviceHasFamily(device: PhysicalDevice)
    requires Suitability(device) == Ok(true)
    ensures exists i: nat :: i < |device.queueFamilies| && QueueFamilies(device.queueFamilies) == Ok(BothRoles(i))
  {
    QueueFamiliesOutcome(device.queueFamilies);
    var i := QueueFamilies(device.queueFamilies).value.graphicsFamily.value;
    assert QueueFamilies(device.queueFamilies) == Ok(BothRoles(i));
  }

  // ----- pick_graphic_card -----

  /** The scan of pick_graphic_card from device i onward: the first suitable
      device is taken; a throwing suitability check ends the scan. */
  function FirstSuitable(devices: seq<PhysicalDevice>, i: nat): Result<PhysicalDevice, Error>
    requires i <= |devices|
    decreases |devices| - i
  {
    if i == |devices| then Err(NoSuitableDevice)
    else match Suitability(devices[i])
      case Err(e) => Err(e)
      case Ok(suitable) => if suitable then Ok(devices[i]) else FirstSuitable(devices, i + 1)
  }

  /** The device pick_graphic_card settles on, or the exception it throws. */
  function SelectDevice(devices: seq<PhysicalDevice>): Result<PhysicalDevice, Error>
  {
    if |devices| == 0 then Err(NoPhysicalDevices) else FirstSuitable(devices, 0)
  }

  lemma {:induction false} FirstSuitableIsFirst(devices: seq<PhysicalDevice>, i: nat, k: nat)
    requires i <= k < |devices|
    requires Suitability(devices[k]) == Ok(true)
    requires forall j :: i <= j < k ==> Suitability(devices[j]) == Ok(false)
    ensures FirstSuitable(devices, i) == Ok(devices[k])
    decreases k - i
  {
    if i < k {
      FirstSuitableIsFirst(devices, i + 1, k);
    }
  }

  lemma {:induction false} FirstSuitableOutcome(devices: seq<PhysicalDevice>, i: nat)
    requires i <= |devices|
    ensures FirstSuitable(devices, i).Ok? ==>
              exists k :: i <= k < |devices| && FirstSuitable(devices, i).value == devices[k] &&
                          Suitability(devices[k]) == Ok(true) &&
                          forall j :: i <= j < k ==> Suitability(devices[j]) == Ok(false)
    ensures FirstSuitable(devices, i) == Err(NoSuitableDevice) <==>
              forall j :: i <= j < |devices| ==> Suitability(devices[j]) == Ok(false)
    ensures FirstSuitable(devices, i).Err? ==>
              FirstSuitable(devices, i).error in {NoSuitableDevice, SurfaceSupportQueryFailed}
    decreases |devices| - i
  {
    if i < |devices| {
      QueueFamiliesOutcome(devices[i].queueFamilies);
      if Suitability(devices[i]) == Ok(false) {
        FirstSuitableOutcome(devices, i + 1);
        if FirstSuitable(devices, i + 1).Ok? {
          var k :| i + 1 <= k < |devices| && FirstSuitable(devices, i + 1).value == devices[k] &&
                   Suitability(devices[k]) == Ok(true) &&
                   forall j :: i + 1 <= j < k ==> Suitability(devices[j]) == Ok(false);
          assert forall j :: i <= j < k ==> Suitability(devices[j]) == Ok(false);
        }
      }
    }
  }

  /** pick_graphic_card: with no devices it throws "Failed to find physical
      devices!"; otherwise the device chosen is the first, in enumeration
      order, whose suitability check answers true, and when every check answers
      false it throws "Could not find suitable physical device!". */
  lemma SelectDeviceMeaning(devices: seq<PhysicalDevice>, k: nat)
    ensures SelectDevice(devices) == Err(NoPhysicalDevices) <==> |devices| == 0
    ensures k < |devices| && Suitability(devices[k]) == Ok(true) &&
            (forall j :: 0 <= j < k ==> Suitability(devices[j]) == Ok(false)) ==>
              SelectDevice(devices) == Ok(devices[k])
    ensures SelectDevice(devices).Ok? ==>
              exists i :: 0 <= i < |devices| && SelectDevice(devices).value == devices[i] &&
                          Suitability(devices[i]) == Ok(true) &&
                          forall j :: 0 <= j < i ==> Suitability(devices[j]) == Ok(false)
    ensures SelectDevice(devices) == Err(NoSuitableDevice) <==>
              |devices| > 0 && forall j :: 0 <= j < |devices| ==> Suitability(devices[j]) == Ok(false)
  {
    if |devices| > 0 {
      FirstSuitableOutcome(devices, 0);
      if k < |devices| && Suitability(devices[k]) == Ok(true) &&
         (forall j :: 0 <= j < k ==> Suitability(devices[j]) == Ok(false)) {
        FirstSuitableIsFirst(devices, 0, k);
      }
    }
  }

  // ----- choose_swap_surface_format -----

  /** The preferred pair: B8G8R8A8_UNORM in the sRGB non-linear colour space. */
  const PREFERRED_FORMAT: SurfaceFormat := SurfaceFormat(FORMAT_B8G8R8A8_UNORM, COLOR_SPACE_SRGB_NONLINEAR)

  /** The scan for an entry equal to the preferred pair; the first one found is
      returned, and any such entry is the preferred pair itself. */
  function FirstPreferred(formats: seq<SurfaceFormat>): (found: Option<SurfaceFormat>)
    ensures found.Some? <==> PREFERRED_FORMAT in formats
    ensures found.Some? ==> found.value == PREFERRED_FORMAT
  {
    if formats == [] then None
    else if formats[0].format == FORMAT_B8G8R8A8_UNORM && formats[0].colorSpace == COLOR_SPACE_SRGB_NONLINEAR
    then Some(formats[0])
    else FirstPreferred(formats[1..])
  }

  /** choose_swap_surface_format. It reads entry 0 unguarded, so an empty list
      is outside its domain. */
  function ChooseSwapSurfaceFormat(available: seq<SurfaceFormat>): (chosen: SurfaceFormat)
    requires |available| > 0
    ensures |available| == 1 && available[0].format == FORMAT_UNDEFINED ==> chosen == PREFERRED_FORMAT
    ensures PREFERRED_FORMAT in available ==> chosen == PREFERRED_FORMAT
    ensures !(|available| == 1 && available[0].format == FORMAT_UNDEFINED) && PREFERRED_FORMAT !in available ==>
              chosen == available[0]
    ensures chosen == PREFERRED_FORMAT || chosen in available
  {
    if |available| == 1 && available[0].format == FORMAT_UNDEFINED then PREFERRED_FORMAT
    else match FirstPreferred(available)
      case Some(format) => format
      case None => available[0]
  }
}
