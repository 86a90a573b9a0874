/** The application object of the later snapshot: its handle fields, filled by
    init_vulkan in a fixed order and destroyed by cleanup, and the process
    entry point that turns an exception into a failure exit code. */
module Application {
  import opened Wrappers
  import opened Errors
  import Config
  import opened Vk
  import opened InstanceSetup
  import opened DeviceSelection
  import opened LogicalDevice
  import opened Resources

  /** The resources a sequence of steps creates and the exception it ends with. */
  datatype Trace = Trace(created: seq<Resource>, error: Option<Error>)

  /** The exception create_logical_device throws for the chosen device, if any. */
  function DeviceError(gpu: PhysicalDevice, d: Driver): Option<Error>
  {
    match QueueFamilies(gpu.queueFamilies)
    case Err(e) => Some(e)
    case Ok(indices) =>
      if !indices.IsIndexComplete() then Some(BadOptionalAccess)
      else if d.device.CreationFailed? then Some(DeviceCreationFailed)
      else None
  }

  function MessengerIfValidating(enableValidation: bool): seq<Resource>
  {
    if enableValidation then [Messenger] else []
  }

  /** init_vulkan: instance, messenger (validation only), surface, GPU choice,
      device; the first exception ends the sequence. */
  function InitVulkanTrace(enableValidation: bool, d: Driver): Trace
  {
    if InstanceError(enableValidation, d).Some? then Trace([], InstanceError(enableValidation, d))
    else if enableValidation && d.messenger.CreationFailed? then Trace([Instance], Some(DebugLayerCreationFailed))
    else
      var setup := [Instance] + MessengerIfValidating(enableValidation);
      if d.surface.CreationFailed? then Trace(setup, Some(SurfaceCreationFailed))
      else
        match SelectDevice(d.physicalDevices)
        case Err(e) => Trace(setup + [Surface], Some(e))
        case Ok(gpu) =>
          if DeviceError(gpu, d).Some? then Trace(setup + [Surface], DeviceError(gpu, d))
          else Trace(setup + [Surface, Device], None)
  }

  /** The order in which a complete run creates the resources it owns. */
  function CreationOrder(enableValidation: bool): seq<Resource>
  {
    [WindowLibrary, Window, Instance] + MessengerIfValidating(enableValidation) + [Surface, Device]
  }

  /** cleanup: device, messenger (validation only), surface, instance, window,
      then the window library is terminated. */
  function TeardownOrder(enableValidation: bool): seq<Resource>
  {
    [Device] + MessengerIfValidating(enableValidation) + [Surface, Instance, Window, WindowLibrary]
  }

  /** What run creates: init_window, then init_vulkan until it throws. */
  function RunCreations(enableValidation: bool, d: Driver): seq<Resource>
  {
    [WindowLibrary, Window] + InitVulkanTrace(enableValidation, d).created
  }

  /** What run destroys: an exception from init_vulkan skips the main loop and
      cleanup altogether. */
  function RunDestructions(enableValidation: bool, d: Driver): seq<Resource>
  {
    if InitVulkanTrace(enableValidation, d).error.None? then TeardownOrder(enableValidation) else []
  }

  class HelloTriangleApplication {
    const enableValidation: bool
    var window: Option<Handle>
    var instance: Option<Handle>
    var callback: Option<Handle>
    var surface: Option<Handle>
    var gpu: Option<PhysicalDevice>     // None is VK_NULL_HANDLE
    var device: Option<Handle>
    var graphicsQueue: Option<Handle>
    var presentQueue: Option<Handle>
    ghost var created: seq<Resource>
    ghost var destroyed: seq<Resource>
    /** The width and height glfwCreateWindow was asked for, once asked. */
    ghost var requestedExtent: Option<(nat, nat)>

    /** Only m_gpu is initialised (to VK_NULL_HANDLE); the other handles are
        unassigned, modelled here as None. */
    constructor(enableValidation: bool)
      ensures this.enableValidation == enableValidation
      ensures gpu == None && created == [] && destroyed == [] && requestedExtent == None
      ensures window == instance == callback == surface == device == graphicsQueue == presentQueue == None
    {
      this.enableValidation := enableValidation;
      window, instance, callback, surface := None, None, None, None;
      gpu, device, graphicsQueue, presentQueue := None, None, None, None;
      created, destroyed := [], [];
      requestedExtent := None;
    }

    /** Every handle cleanup destroys has been assigned. */
    predicate Initialized()
      reads this
    {
      window.Some? && instance.Some? && surface.Some? && gpu.Some? && device.Some? &&
      (enableValidation ==> callback.Some?)
    }

    /** init_window: the window library is initialised, then a non-resizable
        800x600 window without a client API is created. */
    method InitWindow(d: Driver)
      modifies this`window, this`requestedExtent, this`created
      ensures window == Some(d.window)
      ensures requestedExtent == Some((Config.WINDOW_WIDTH, Config.WINDOW_HEIGHT))
      ensures requestedExtent == Some((800, 600))
      ensures created == old(created) + [WindowLibrary, Window]
    {
      requestedExtent := Some((Config.WINDOW_WIDTH, Config.WINDOW_HEIGHT));
      window := Some(d.window);
      created := created + [WindowLibrary, Window];
    }

    method CreateInstance(d: Driver) returns (err: Option<Error>)
      modifies this`instance, this`created
      ensures err == InstanceError(enableValidation, d)
      ensures err.None? ==> instance == Some(d.instance.handle) && created == old(created) + [Instance]
      ensures err.Some? ==> instance == old(instance) && created == old(created)
    {
      var info := PrepareInstance(enableValidation, d);
      if info.Err? {
        return Some(info.error);
      }
      match d.instance {
        case CreationFailed =>
          return Some(InstanceCreationFailed);
        case Succeeded(h) =>
          instance := Some(h);
          created := created + [Instance];
          return None;
      }
    }

    method InitSetupCallback(d: Driver) returns (err: Option<Error>)
      modifies this`callback, this`created
      ensures err == (if d.messenger.CreationFailed? then Some(DebugLayerCreationFailed) else None)
      ensures err.None? ==> callback == Some(d.messenger.handle) && created == old(created) + [Messenger]
      ensures err.Some? ==> callback == old(callback) && created == old(created)
    {
      match d.messenger {
        case CreationFailed =>
          return Some(DebugLayerCreationFailed);
        case Succeeded(h) =>
          callback := Some(h);
          created := created + [Messenger];
          return None;
      }
    }

    method CreateSurface(d: Driver) returns (err: Option<Error>)
      modifies this`surface, this`created
      ensures err == (if d.surface.CreationFailed? then Some(SurfaceCreationFailed) else None)
      ensures err.None? ==> surface == Some(d.surface.handle) && created == old(created) + [Surface]
      ensures err.Some? ==> surface == old(surface) && created == old(created)
    {
      match d.surface {
        case CreationFailed =>
          return Some(SurfaceCreationFailed);
        case Succeeded(h) =>
          surface := Some(h);
          created := created + [Surface];
          return None;
      }
    }

    /** pick_graphic_card: the first suitable device in enumeration order is
        stored in m_gpu; the "no suitable device" exception is decided by
        whether m_gpu is still VK_NULL_HANDLE after the scan. */
    method PickGraphicCard(d: Driver) returns (err: Option<Error>)
      modifies this`gpu
      ensures SelectDevice(d.physicalDevices).Ok? ==>
                gpu == Some(SelectDevice(d.physicalDevices).value) && err.None?
      ensures SelectDevice(d.physicalDevices) == Err(NoSuitableDevice) ==>
                gpu == old(gpu) && err == (if old(gpu).None? then Some(NoSuitableDevice) else None)
      ensures SelectDevice(d.physicalDevices).Err? && SelectDevice(d.physicalDevices).error != NoSuitableDevice ==>
                gpu == old(gpu) && err == Some(SelectDevice(d.physicalDevices).error)
    {
      var devices := d.physicalDevices;
      if |devices| == 0 {
        return Some(NoPhysicalDevices);
      }
      var i := 0;
      while i < |devices|
        invariant 0 <= i <= |devices|
        invariant gpu == old(gpu)
        invariant SelectDevice(devices) == FirstSuitable(devices, i)
      {
        var suitable := CheckDeviceSuitability(devices[i]);
        if suitable.Err? {
          QueueFamiliesOutcome(devices[i].queueFamilies);
          return Some(suitable.error);
        }
        if suitable.value {
          gpu := Some(devices[i]);
          break;
        }
        i := i + 1;
      }
      if gpu.None? {
        return Some(NoSuitableDevice);
      }
      return None;
    }

    /** create_logical_device: the family search runs again for m_gpu, the
        queue-create list is built, and the queues are fetched only after the
        device was created. */
    method CreateLogicalDevice(d: Driver) returns (err: Option<Error>)
      requires gpu.Some?
      modifies this`device, this`graphicsQueue, this`presentQueue, this`created
      ensures err == DeviceError(gpu.value, d)
      ensures err.None? ==> device == Some(d.device.handle) && graphicsQueue == Some(d.graphicsQueue) &&
                            presentQueue == Some(d.presentQueue) && created == old(created) + [Device]
      ensures err.Some? ==> device == old(device) && graphicsQueue == old(graphicsQueue) &&
                            presentQueue == old(presentQueue) && created == old(created)
    {
      var familyIndices := FindQueueFamilies(gpu.value.queueFamilies);
      if familyIndices.Err? {
        return Some(familyIndices.error);
      }
      var indices := familyIndices.value;
      if !indices.IsIndexComplete() {
        return Some(BadOptionalAccess);
      }
      var info := MakeDeviceCreateInfo(enableValidation, indices.graphicsFamily.value, indices.presentFamily.value);
      match d.device {
        case CreationFailed =>
          return Some(DeviceCreationFailed);
        case Succeeded(h) =>
          device := Some(h);
          created := created + [Device];
      }
      graphicsQueue := Some(d.graphicsQueue);
      presentQueue := Some(d.presentQueue);
      return None;
    }

    method InitVulkan(d: Driver) returns (err: Option<Error>)
      requires gpu.None?
      modifies this`instance, this`callback, this`surface, this`gpu, this`device
      modifies this`graphicsQueue, this`presentQueue, this`created
      ensures err == InitVulkanTrace(enableValidation, d).error
      ensures created == old(created) + InitVulkanTrace(enableValidation, d).created
      ensures err.None? ==> instance == Some(d.instance.handle) && surface == Some(d.surface.handle) &&
                            (enableValidation ==> callback == Some(d.messenger.handle)) &&
                            gpu == Some(SelectDevice(d.physicalDevices).value) &&
                            device == Some(d.device.handle) && graphicsQueue == Some(d.graphicsQueue) &&
                            presentQueue == Some(d.presentQueue)
    {
      err := CreateInstance(d);
      if err.Some? {
        return;
      }
      if enableValidation {
        err := InitSetupCallback(d);
        if err.Some? {
          return;
        }
      }
      err := CreateSurface(d);
      if err.Some? {
        return;
      }
      err := PickGraphicCard(d);
      if err.Some? {
        return;
      }
      err := CreateLogicalDevice(d);
    }

    method Cleanup()
      requires Initialized()
      modifies this`destroyed
      ensures destroyed == old(destroyed) + TeardownOrder(enableValidation)
    {
      destroyed := destroyed + [Device];
      if enableValidation {
        destroyed := destroyed + [Messenger];
      }
      destroyed := destroyed + [Surface, Instance];
      destroyed := destroyed + [Window, WindowLibrary];
    }

    /** run: init_window, init_vulkan, the main loop (window-event polling,
        not modelled) and cleanup. */
    method Run(d: Driver) returns (err: Option<Error>)
      requires gpu.None?
      modifies this`window, this`requestedExtent, this`instance, this`callback, this`surface, this`gpu, this`device
      modifies this`graphicsQueue, this`presentQueue, this`created, this`destroyed
      ensures err == InitVulkanTrace(enableValidation, d).error
      ensures requestedExtent == Some((800, 600))
      ensures created == old(created) + RunCreations(enableValidation, d)
      ensures destroyed == old(destroyed) + RunDestructions(enableValidation, d)
    {
      InitWindow(d);
      err := InitVulkan(d);
      if err.Some? {
        return;
      }
      Cleanup();
    }
  }

  /** call_HelloTriangleApplication: a fresh application is run; any exception
      is caught, its what() is written to stderr, and the status is
      EXIT_FAILURE; otherwise EXIT_SUCCESS. */
  method CallHelloTriangleApplication(enableValidation: bool, d: Driver)
    returns (exitCode: int, printed: Option<string>, ghost created: seq<Resource>, ghost destroyed: seq<Resource>)
    ensures exitCode == (if InitVulkanTrace(enableValidation, d).error.None? then EXIT_SUCCESS else EXIT_FAILURE)
    ensures printed == ReportedLine(InitVulkanTrace(enableValidation, d).error)
    ensures created == RunCreations(enableValidation, d)
    ensures destroyed == RunDestructions(enableValidation, d)
  {
    var app := new HelloTriangleApplication(enableValidation);
    var err := app.Run(d);
    created, destroyed := app.created, app.destroyed;
    exitCode := if err.None? then EXIT_SUCCESS else EXIT_FAILURE;
    printed := if err.Some? then Some(Message(err.value)) else None;
  }

  // The order lemmas below treat the application's two concrete orders as
  // instances of the general facts in Resources: creation levels never fall
  // and teardown levels never rise. The verifier can also check the listed
  // orders pair by pair; the level argument is the reason they are safe.

  /** Teardown destroys exactly the resources creation made. */
  lemma TeardownMatchesCreation(enableValidation: bool)
    ensures multiset(TeardownOrder(enableValidation)) == multiset(CreationOrder(enableValidation))
  {
    var m := MessengerIfValidating(enableValidation);
    calc {
      multiset(TeardownOrder(enableValidation));
      multiset([Device]) + multiset(m) + multiset([Surface, Instance, Window, WindowLibrary]);
      multiset([WindowLibrary, Window, Instance]) + multiset(m) + multiset([Surface, Device]);
      multiset(CreationOrder(enableValidation));
    }
  }

  /** Creation makes each resource once, never before what it depends on. */
  lemma CreationOrderIsSafe(enableValidation: bool)
    ensures Distinct(CreationOrder(enableValidation))
    ensures CreatedAfterDependencies(CreationOrder(enableValidation))
  {
    if enableValidation {
      assert CreationOrder(enableValidation) == [WindowLibrary, Window, Instance, Messenger, Surface, Device];
    } else {
      assert CreationOrder(enableValidation) == [WindowLibrary, Window, Instance, Surface, Device];
    }
    RisingLevelsCreateSafely(CreationOrder(enableValidation));
  }

  /** Teardown never destroys a resource while something made from it lives. */
  lemma TeardownOrderIsSafe(enableValidation: bool)
    ensures DestroyedBeforeDependencies(TeardownOrder(enableValidation))
  {
    if enableValidation {
      assert TeardownOrder(enableValidation) == [Device, Messenger, Surface, Instance, Window, WindowLibrary];
    } else {
      assert TeardownOrder(enableValidation) == [Device, Surface, Instance, Window, WindowLibrary];
    }
    FallingLevelsDestroySafely(TeardownOrder(enableValidation));
  }

  /** After a run whose initialization succeeded, creation followed
      CreationOrder and cleanup followed TeardownOrder: every owned resource
      was created once and destroyed once, with dependencies respected. */
  lemma SuccessfulRunLifecycle(enableValidation: bool, d: Driver)
    requires InitVulkanTrace(enableValidation, d).error.None?
    ensures RunCreations(enableValidation, d) == CreationOrder(enableValidation)
    ensures RunDestructions(enableValidation, d) == TeardownOrder(enableValidation)
    ensures Distinct(RunCreations(enableValidation, d))
    ensures multiset(RunDestructions(enableValidation, d)) == multiset(RunCreations(enableValidation, d))
    ensures CreatedAfterDependencies(RunCreations(enableValidation, d))
    ensures DestroyedBeforeDependencies(RunDestructions(enableValidation, d))
  {
    CreationOrderIsSafe(enableValidation);
    TeardownOrderIsSafe(enableValidation);
    TeardownMatchesCreation(enableValidation);
  }

  /** When initialization throws, the run stops there: cleanup never runs, so
      nothing is destroyed; the logical device is never created; and the
      resources created are a proper prefix of CreationOrder. */
  lemma FailedRunSkipsCleanup(enableValidation: bool, d: Driver)
    requires InitVulkanTrace(enableValidation, d).error.Some?
    ensures RunDestructions(enableValidation, d) == []
    ensures Device !in RunCreations(enableValidation, d)
    ensures RunCreations(enableValidation, d) < CreationOrder(enableValidation)
  {
    var full := CreationOrder(enableValidation);
    var m := |MessengerIfValidating(enableValidation)|;
    var made := RunCreations(enableValidation, d);
    assert made == full[..2] || made == full[..3] || made == full[..3 + m] || made == full[..4 + m];
    assert full[|full| - 1] == Device;
  }

  /** When the driver reports no physical device, no logical device is
      created, the run ends in EXIT_FAILURE, and the exception is "Failed to
      find physical devices!" unless an earlier step already threw. */
  lemma NoDevicesNoLogicalDevice(enableValidation: bool, d: Driver)
    requires d.physicalDevices == []
    ensures InitVulkanTrace(enableValidation, d).error.Some?
    ensures Device !in RunCreations(enableValidation, d)
    ensures InstanceError(enableValidation, d).None? && !(enableValidation && d.messenger.CreationFailed?) &&
            !d.surface.CreationFailed? ==>
              InitVulkanTrace(enableValidation, d).error == Some(NoPhysicalDevices)
  {
    FailedRunSkipsCleanup(enableValidation, d);
  }

  /** Once a device was picked, create_logical_device can fail only in
      vkCreateDevice: the repeated family search neither throws nor leaves an
      optional empty for a suitable device. */
  lemma PickedGpuFailsOnlyOnDeviceCreation(d: Driver)
    requires SelectDevice(d.physicalDevices).Ok?
    ensures DeviceError(SelectDevice(d.physicalDevices).value, d) ==
              (if d.device.CreationFailed? then Some(DeviceCreationFailed) else None)
  {
    SelectDeviceMeaning(d.physicalDevices, 0);
    SuitableDeviceHasFamily(SelectDevice(d.physicalDevices).value);
  }

  /** A build with NDEBUG defined has validation off: it never checks the
      layers, never creates the debug messenger, and so never throws either
      validation exception. */
  lemma ReleaseBuildSkipsValidation(d: Driver)
    ensures Config.ValidationEnabled(false) && !Config.ValidationEnabled(true)
    ensures Messenger !in RunCreations(Config.ValidationEnabled(true), d)
    ensures Messenger !in RunDestructions(Config.ValidationEnabled(true), d)
    ensures InitVulkanTrace(Config.ValidationEnabled(true), d).error != Some(ValidationLayersUnavailable)
    ensures InitVulkanTrace(Config.ValidationEnabled(true), d).error != Some(DebugLayerCreationFailed)
  {
    var devices := d.physicalDevices;
    if SelectDevice(devices).Ok? {
      QueueFamiliesOutcome(SelectDevice(devices).value.queueFamilies);
    } else if |devices| > 0 {
      FirstSuitableOutcome(devices, 0);
    }
  }

  /** A successful initialization chose the first suitable device, and that
      device has one queue family in both roles. */
  lemma SuccessfulInitUsesSuitableGpu(enableValidation: bool, d: Driver)
    requires InitVulkanTrace(enableValidation, d).error.None?
    ensures SelectDevice(d.physicalDevices).Ok?
    ensures Suitability(SelectDevice(d.physicalDevices).value) == Ok(true)
    ensures exists i: nat :: QueueFamilies(SelectDevice(d.physicalDevices).value.queueFamilies) == Ok(Config.BothRoles(i))
  {
    SelectDeviceMeaning(d.physicalDevices, 0);
    SuitableDeviceHasFamily(SelectDevice(d.physicalDevices).value);
  }
}
