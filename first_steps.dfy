/** The application object of the first snapshot: a window and a Vulkan
    instance, created by run in that order and destroyed by cleanup in the
    reverse order. */
module FirstSteps {
  import opened Wrappers
  import opened Errors
  import Config
  import opened Vk
  import opened InstanceSetup
  import opened Resources

  /** What run creates: the window library and the window, then the instance
      unless create_VK_instance threw. */
  function RunCreations(enableValidation: bool, d: Driver): seq<Resource>
  {
    [WindowLibrary, Window] + (if InstanceError(enableValidation, d).None? then [Instance] else [])
  }

  /** What run destroys: cleanup, unless init_vulkan threw before it. */
  function RunDestructions(enableValidation: bool, d: Driver): seq<Resource>
  {
    if InstanceError(enableValidation, d).None? then [Instance, Window, WindowLibrary] else []
  }

  class HelloTriangleApplication {
    const enableValidation: bool
    var window: Option<Handle>
    var instance: Option<Handle>
    ghost var created: seq<Resource>
    ghost var destroyed: seq<Resource>
    /** The width and height glfwCreateWindow was asked for, once asked. */
    ghost var requestedExtent: Option<(nat, nat)>

    /** The defaulted constructor leaves both handles unassigned (None). */
    constructor(enableValidation: bool)
      ensures this.enableValidation == enableValidation
      ensures window == None && instance == None && requestedExtent == None
      ensures created == [] && destroyed == []
    {
      this.enableValidation := enableValidation;
      window, instance := None, None;
      created, destroyed := [], [];
      requestedExtent := None;
    }

    /** init_window: the window library is initialised, then a non-resizable
        800x600 window without a client API is created. */
    method InitWindow(d: Driver)
      modifies this`window, this`requestedExtent, this`created
      ensures window == Some(d.window)
      ensures requestedExtent == Some((Config.WINDOW_WIDTH, Config.WINDOW_HEIGHT))
      ensures requestedExtent == Some((800, 600))
      ensures created == old(created) + [WindowLibrary, Window]
    {
      requestedExtent := Some((Config.WINDOW_WIDTH, Config.WINDOW_HEIGHT));
      window := Some(d.window);
      created := created + [WindowLibrary, Window];
    }

    /** create_VK_instance, the whole of init_vulkan in this snapshot. */
    method CreateInstance(d: Driver) returns (err: Option<Error>)
      modifies this`instance, this`created
      ensures err == InstanceError(enableValidation, d)
      ensures err.None? ==> instance == Some(d.instance.handle) && created == old(created) + [Instance]
      ensures err.Some? ==> instance == old(instance) && created == old(created)
    {
      var info := PrepareInstance(enableValidation, d);
      if info.Err? {
        return Some(info.error);
      }
      match d.instance {
        case CreationFailed =>
          return Some(InstanceCreationFailed);
        case Succeeded(h) =>
          instance := Some(h);
          created := created + [Instance];
          return None;
      }
    }

    /** cleanup: the instance, then the window, then the window library. */
    method Cleanup()
      requires instance.Some? && window.Some?
      modifies this`destroyed
      ensures destroyed == old(destroyed) + [Instance, Window, WindowLibrary]
    {
      destroyed := destroyed + [Instance];
      destroyed := destroyed + [Window, WindowLibrary];
    }

    /** run: init_window, init_vulkan, the main loop (window-event polling,
        not modelled) and cleanup; an exception skips the rest. */
    method Run(d: Driver) returns (err: Option<Error>)
      modifies this`window, this`requestedExtent, this`instance, this`created, this`destroyed
      ensures err == InstanceError(enableValidation, d)
      ensures requestedExtent == Some((800, 600))
      ensures created == old(created) + RunCreations(enableValidation, d)
      ensures destroyed == old(destroyed) + RunDestructions(enableValidation, d)
    {
      InitWindow(d);
      err := CreateInstance(d);
      if err.Some? {
        return;
      }
      Cleanup();
    }
  }

  /** call_HelloTriangleApplication: any exception is caught, its what() is
      written to stderr, and the exit status is EXIT_FAILURE. */
  method CallHelloTriangleApplication(enableValidation: bool, d: Driver)
    returns (exitCode: int, printed: Option<string>, ghost created: seq<Resource>, ghost destroyed: seq<Resource>)
    ensures exitCode == (if InstanceError(enableValidation, d).None? then EXIT_SUCCESS else EXIT_FAILURE)
    ensures printed == ReportedLine(InstanceError(enableValidation, d))
    ensures created == RunCreations(enableValidation, d)
    ensures destroyed == RunDestructions(enableValidation, d)
  {
    var app := new HelloTriangleApplication(enableValidation);
    var err := app.Run(d);
    created, destroyed := app.created, app.destroyed;
    exitCode := if err.None? then EXIT_SUCCESS else EXIT_FAILURE;
    printed := if err.Some? then Some(Message(err.value)) else None;
  }

  /** A run that succeeds destroys what it created, in exactly the reverse
      order, and both orders respect every dependency; the dependency part is
      an instance of the level facts in Resources. */
  lemma SuccessfulRunUnwindsInReverse(enableValidation: bool, d: Driver)
    requires InstanceError(enableValidation, d).None?
    ensures |RunDestructions(enableValidation, d)| == |RunCreations(enableValidation, d)|
    ensures forall i :: 0 <= i < |RunCreations(enableValidation, d)| ==>
              RunDestructions(enableValidation, d)[i] ==
              RunCreations(enableValidation, d)[|RunCreations(enableValidation, d)| - 1 - i]
    ensures Distinct(RunCreations(enableValidation, d))
    ensures CreatedAfterDependencies(RunCreations(enableValidation, d))
    ensures DestroyedBeforeDependencies(RunDestructions(enableValidation, d))
  {
    assert RunCreations(enableValidation, d) == [WindowLibrary, Window, Instance];
    RisingLevelsCreateSafely(RunCreations(enableValidation, d));
    FallingLevelsDestroySafely(RunDestructions(enableValidation, d));
  }

  /** When instance creation throws, nothing is destroyed (cleanup is
      skipped) and the run exits with EXIT_FAILURE. */
  lemma FailedRunSkipsCleanup(enableValidation: bool, d: Driver)
    requires InstanceError(enableValidation, d).Some?
    ensures RunCreations(enableValidation, d) == [WindowLibrary, Window]
    ensures RunDestructions(enableValidation, d) == []
    ensures InstanceError(enableValidation, d) == Some(ValidationLayersUnavailable) <==>
              enableValidation && !AllAvailable(Config.VALIDATION_LAYERS, d.instanceLayers)
  {
  }
}
