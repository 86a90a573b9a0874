/** Instance creation: the validation-layer check, the required instance
    extensions, the window-library extension comparison and the create-info
    handed to vkCreateInstance. Both snapshots of the application share it. */
module InstanceSetup {
  import opened Wrappers
  import opened Errors
  import opened Config
  import opened Vk

  /** The parts of VkInstanceCreateInfo the application fills from its lists. */
  datatype InstanceCreateInfo = InstanceCreateInfo(
    enabledExtensionNames: seq<string>,
    enabledExtensionCount: nat,
    enabledLayerNames: seq<string>,
    enabledLayerCount: nat)

  /** check_validation_layers_support: every requested layer name equals some
      available layer name; the scan gives up at the first missing one. */
  method CheckValidationLayersSupport(availableLayers: seq<string>) returns (supported: bool)
    ensures supported <==> AllAvailable(VALIDATION_LAYERS, availableLayers)
  {
    var n := 0;
    while n < |VALIDATION_LAYERS|
      invariant 0 <= n <= |VALIDATION_LAYERS|
      invariant forall m :: 0 <= m < n ==> VALIDATION_LAYERS[m] in availableLayers
    {
      var layerName := VALIDATION_LAYERS[n];
      var layerFound := false;
      var k := 0;
      while k < |availableLayers|
        invariant 0 <= k <= |availableLayers|
        invariant !layerFound
        invariant layerName !in availableLayers[..k]
      {
        if layerName == availableLayers[k] {
          layerFound := true;
          break;
        }
        k := k + 1;
      }
      if !layerFound {
        assert availableLayers[..k] == availableLayers;
        return false;
      }
      n := n + 1;
    }
    return true;
  }

  /** What compare_extensions decides: true when the window library asks for
      nothing, or when some available instance extension differs from the
      library's FIRST name. No other name of the library's list is looked at. */
  predicate FirstNameHasDifferentExtension(windowExtensions: seq<string>, available: seq<string>)
  {
    |windowExtensions| == 0 || exists name :: name in available && name != windowExtensions[0]
  }

  /** compare_extensions as written: the inner scan compares element [0] (not
      element i) and counts a mismatch (strcmp != 0) as "found". */
  method CompareExtensions(windowExtensions: seq<string>, availableExtensions: seq<string>)
    returns (result: bool)
    ensures result <==> FirstNameHasDifferentExtension(windowExtensions, availableExtensions)
  {
    result := true;
    var i := 0;
    while i < |windowExtensions|
      invariant 0 <= i <= |windowExtensions|
      invariant result
      invariant i > 0 ==> FirstNameHasDifferentExtension(windowExtensions, availableExtensions)
    {
      var extensionFound := false;
      var k := 0;
      while k < |availableExtensions|
        invariant 0 <= k <= |availableExtensions|
        invariant !extensionFound
        invariant forall m :: 0 <= m < k ==> availableExtensions[m] == windowExtensions[0]
      {
        if windowExtensions[0] != availableExtensions[k] {
          assert availableExtensions[k] in availableExtensions;
          extensionFound := true;
          break;
        }
        k := k + 1;
      }
      result := result && extensionFound;
      if !result {
        break;
      }
      i := i + 1;
    }
  }

  /** get_required_extensions: the window library's list in its own order, then
      the debug-utils extension when validation is on. The comparison only
      decides whether a warning line is printed. */
  method GetRequiredExtensions(enableValidation: bool, windowExtensions: seq<string>, availableExtensions: seq<string>)
    returns (extensions: seq<string>, mismatchReported: bool)
    ensures |extensions| == |windowExtensions| + (if enableValidation then 1 else 0)
    ensures extensions[..|windowExtensions|] == windowExtensions
    ensures enableValidation ==> extensions[|windowExtensions|] == DEBUG_UTILS_EXTENSION_NAME
    ensures mismatchReported <==> !FirstNameHasDifferentExtension(windowExtensions, availableExtensions)
  {
    extensions := windowExtensions;
    if enableValidation {
      extensions := extensions + [DEBUG_UTILS_EXTENSION_NAME];
    }
    var same := CompareExtensions(windowExtensions, availableExtensions);
    mismatchReported := !same;
  }

  /** The exception create_VK_instance throws, if any. */
  function InstanceError(enableValidation: bool, d: Driver): Option<Error>
  {
    if enableValidation && !AllAvailable(VALIDATION_LAYERS, d.instanceLayers) then Some(ValidationLayersUnavailable)
    else if d.instance.CreationFailed? then Some(InstanceCreationFailed)
    else None
  }

  /** create_VK_instance up to the vkCreateInstance call: the layer check (which
      throws before anything is created), then the create-info. */
  method PrepareInstance(enableValidation: bool, d: Driver) returns (r: Result<InstanceCreateInfo, Error>)
    ensures r.Err? <==> enableValidation && !AllAvailable(VALIDATION_LAYERS, d.instanceLayers)
    ensures r.Err? ==> r.error == ValidationLayersUnavailable
    ensures r.Ok? ==> r.value.enabledExtensionCount == |r.value.enabledExtensionNames|
                        == |d.windowExtensions| + (if enableValidation then 1 else 0)
    ensures r.Ok? ==> r.value.enabledExtensionNames[..|d.windowExtensions|] == d.windowExtensions
    ensures r.Ok? && enableValidation ==> r.value.enabledExtensionNames[|d.windowExtensions|] == DEBUG_UTILS_EXTENSION_NAME
    ensures r.Ok? && enableValidation ==> r.value.enabledLayerNames == VALIDATION_LAYERS
    ensures r.Ok? && !enableValidation ==> r.value.enabledLayerNames == []
    ensures r.Ok? ==> r.value.enabledLayerCount == (if enableValidation then |VALIDATION_LAYERS| else 0)
  {
    if enableValidation {
      var supported := CheckValidationLayersSupport(d.instanceLayers);
      if !supported {
        return Err(ValidationLayersUnavailable);
      }
    }
    var extensions, _ := GetRequiredExtensions(enableValidation, d.windowExtensions, d.instanceExtensions);
    var info := InstanceCreateInfo(extensions, |extensions|, [], 0);
    if enableValidation {
      info := info.(enabledLayerNames := VALIDATION_LAYERS, enabledLayerCount := |VALIDATION_LAYERS|);
    }
    return Ok(info);
  }

  /** The verdict of compare_extensions is not "every window-library extension is
      available": a list naming an available extension is reported as a
      mismatch, and one naming an unavailable extension passes. */
  lemma ComparisonIsNotMembership(x: string, y: string)
    requires x != y
    ensures AllAvailable([x], [x]) && !FirstNameHasDifferentExtension([x], [x])
    ensures !AllAvailable([x], [y]) && FirstNameHasDifferentExtension([x], [y])
  {
    assert y in [y];
    assert x in [x] && x !in [y];
  }
}
