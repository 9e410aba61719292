/**
 The Vulkan bring-up of vulkanTest/Core/Graphics.cpp: the Impl object whose
 steps create the instance, choose the physical device, create the surface,
 the logical device, the command pool and the fence, and Graphics::Initialize,
 which runs those steps in order and stops at the first one that fails.

 The Vulkan loader and driver are represented by a `Driver` value that holds
 their answers. Each creation step only `assert`s the API's result and then
 returns true; the model follows the build without assertions, so such a
 step always reports success and records whether the object was really
 created.
 */
module Graphics {
  import opened Common
  import opened VulkanSelect
  import WindowSystem

  /** One physical device as the driver reports it. */
  datatype PhysicalDevice = PhysicalDevice(id: nat, queueFamilies: seq<QueueFlags>, extensions: seq<Name>)

  /** The answers of the Vulkan loader and driver to the calls the bring-up makes. */
  datatype Driver = Driver(
    instanceOk: bool,                 // vkCreateInstance
    devices: seq<PhysicalDevice>,     // vkEnumeratePhysicalDevices
    surfaceOk: bool,                  // vkCreateWin32SurfaceKHR
    deviceOk: bool,                   // vkCreateDevice
    commandPoolOk: bool,              // vkCreateCommandPool
    fenceOk: bool)                    // vkCreateFence
  {
    /** Every count the API reports is a uint32_t. */
    predicate WellFormed()
    {
      && |devices| <= Uint32Max
      && forall d :: d in devices ==> |d.queueFamilies| <= Uint32Max && |d.extensions| <= Uint32Max
    }
  }

  /** The bring-up steps, in the order Initialize runs them. */
  datatype Step = CreateInstance | EnumeratePhysicalDevice | CreateSurface | CreateDevice | CreateCommandPool | CreateFence

  const InitOrder: seq<Step> :=
    [CreateInstance, EnumeratePhysicalDevice, CreateSurface, CreateDevice, CreateCommandPool, CreateFence]

  /** One step that ran and the value it returned. */
  datatype StepRecord = StepRecord(step: Step, ok: bool)

  /** The steps run so far, built up one step at a time. */
  datatype Trace = Start | Then(earlier: Trace, latest: StepRecord)

  /** The records of a trace, oldest first. */
  function Records(t: Trace): (r: seq<StepRecord>)
    ensures t.Then? ==> |r| > 0 && r[|r| - 1] == t.latest
  {
    match t
    case Start => []
    case Then(earlier, latest) => Records(earlier) + [latest]
  }

  /** The errors the bring-up logs. */
  datatype LoggedError = SwapchainExtensionMissing | NoPhysicalDevices

  /** What the extension check logs about the chosen device. */
  function ExtensionErrors(device: PhysicalDevice): (r: seq<LoggedError>)
    ensures r == [] <==> Occurs(SwapchainExtensionName, device.extensions)
    ensures r != [] ==> r == [SwapchainExtensionMissing]
  {
    if Occurs(SwapchainExtensionName, device.extensions) then [] else [SwapchainExtensionMissing]
  }

  /**
   `ran` is what one short-circuiting run of InitOrder leaves behind: a
   non-empty prefix of InitOrder in which every step but the last succeeded;
   the run ends early only at a failing step, and it succeeds exactly when all
   steps ran and the last succeeded too.
   */
  ghost predicate ShortCircuitRun(ran: seq<StepRecord>, ok: bool)
  {
    && 0 < |ran| <= |InitOrder|
    && (forall i :: 0 <= i < |ran| ==> ran[i].step == InitOrder[i])
    && (forall i :: 0 <= i < |ran| - 1 ==> ran[i].ok)
    && (|ran| < |InitOrder| ==> !ran[|ran| - 1].ok)
    && (ok <==> |ran| == |InitOrder| && ran[|ran| - 1].ok)
  }

  /** The trace of a run that stops at a failing physical-device step. */
  const NoDeviceRun: Trace :=
    Then(Then(Start, StepRecord(CreateInstance, true)), StepRecord(EnumeratePhysicalDevice, false))

  /** The trace of a run in which every step succeeds. */
  const CompleteRun: Trace :=
    Then(Then(Then(Then(Then(Then(Start,
      StepRecord(CreateInstance, true)), StepRecord(EnumeratePhysicalDevice, true)),
      StepRecord(CreateSurface, true)), StepRecord(CreateDevice, true)),
      StepRecord(CreateCommandPool, true)), StepRecord(CreateFence, true))

  /** The only two runs Initialize can make are both short-circuiting runs of InitOrder. */
  lemma PossibleRunsShortCircuit()
    ensures ShortCircuitRun(Records(NoDeviceRun), false)
    ensures ShortCircuitRun(Records(CompleteRun), true)
  {
  }

  /**
   The state of a Graphics::Impl object as one value: which Vulkan objects
   exist, the device and family choices, the errors logged so far and the
   steps run so far.
   */
  datatype ImplState = ImplState(
    instanceCreated: bool,
    gpu: Option<PhysicalDevice>,
    queueProps: seq<QueueFlags>,
    queueFamilyCount: nat,
    graphicsQueueFamilyIndex: nat,
    surfaceCreated: bool,
    surfaceInstance: Handle,
    surfaceWindow: Handle,
    deviceCreated: bool,
    deviceQueueFamily: nat,
    deviceExtensions: seq<Name>,
    commandPoolCreated: bool,
    commandPoolFamily: nat,
    fenceCreated: bool,
    errors: seq<LoggedError>,
    trace: Trace)

  /** Graphics::Impl: the Vulkan objects and the choices the bring-up makes. */
  class Impl {
    const window: WindowSystem.Window
    const driver: Driver

    var instanceCreated: bool
    var gpu: Option<PhysicalDevice>
    var queueProps: seq<QueueFlags>
    var queueFamilyCount: nat
    var graphicsQueueFamilyIndex: nat
    var surfaceCreated: bool
    var surfaceInstance: Handle
    var surfaceWindow: Handle
    var deviceCreated: bool
    var deviceQueueFamily: nat
    var deviceExtensions: seq<Name>
    var commandPoolCreated: bool
    var commandPoolFamily: nat
    var fenceCreated: bool
    var errors: seq<LoggedError>

    /** The steps run by the current bring-up, with what each returned. */
    ghost var trace: Trace

    ghost function State(): ImplState
      reads this
    {
      ImplState(instanceCreated, gpu, queueProps, queueFamilyCount, graphicsQueueFamilyIndex,
        surfaceCreated, surfaceInstance, surfaceWindow, deviceCreated, deviceQueueFamily,
        deviceExtensions, commandPoolCreated, commandPoolFamily, fenceCreated, errors, trace)
    }

    ghost predicate Valid()
      reads this`queueProps, this`queueFamilyCount
    {
      && driver.WellFormed()
      && queueFamilyCount == |queueProps|
      && |queueProps| <= Uint32Max
    }

    /** No Vulkan object exists yet; the object only remembers the window. */
    constructor(window: WindowSystem.Window, driver: Driver)
      requires driver.WellFormed()
      ensures Valid() && this.window == window && this.driver == driver
      ensures !instanceCreated && gpu == None && queueProps == []
      ensures !surfaceCreated && !deviceCreated && !commandPoolCreated && !fenceCreated
      ensures errors == [] && trace == Start
    {
      this.window := window;
      this.driver := driver;
      instanceCreated, gpu := false, None;
      queueProps, queueFamilyCount, graphicsQueueFamilyIndex := [], 0, 0;
      surfaceCreated, surfaceInstance, surfaceWindow := false, NullHandle, NullHandle;
      deviceCreated, deviceQueueFamily, deviceExtensions := false, 0, [];
      commandPoolCreated, commandPoolFamily, fenceCreated := false, 0, false;
      errors, trace := [], Start;
    }

    /**
     Creates the instance with the standard validation layer and the surface,
     Win32 surface and debug-report extensions.
     */
    method CreateInstance() returns (ok: bool)
      modifies this`instanceCreated, this`trace
      ensures ok
      ensures State() == old(State()).(
        instanceCreated := driver.instanceOk,
        trace := Then(old(trace), StepRecord(Step.CreateInstance, ok)))
    {
      instanceCreated := driver.instanceOk;
      ok := true;
      trace := Then(trace, StepRecord(Step.CreateInstance, ok));
    }

    /**
     Fails, logging an error, when there is no physical device. Otherwise it
     visits every device (for diagnostics), then takes device 0 whatever was
     visited last, logs an error if device 0 lacks the swapchain extension
     without failing because of it, and copies device 0's queue families.
     */
    method EnumeratePhysicalDevice() returns (ok: bool)
      requires Valid()
      modifies this`gpu, this`queueProps, this`queueFamilyCount, this`errors, this`trace
      ensures Valid()
      ensures ok <==> |driver.devices| > 0
      ensures ok ==>
        && gpu == Some(driver.devices[0])
        && queueProps == driver.devices[0].queueFamilies
        && errors == old(errors) + ExtensionErrors(driver.devices[0])
      ensures !ok ==>
        && gpu == old(gpu) && queueProps == old(queueProps) && queueFamilyCount == old(queueFamilyCount)
        && errors == old(errors) + [NoPhysicalDevices]
      ensures trace == Then(old(trace), StepRecord(Step.EnumeratePhysicalDevice, ok))
    {
      var physicalDevices := driver.devices;
      var gpuCount := |physicalDevices|;
      if gpuCount > 0 {
        // The diagnostic pass makes each device current in turn.
        var i := 0;
        while i < gpuCount
          invariant 0 <= i <= gpuCount
          invariant queueProps == old(queueProps) && queueFamilyCount == old(queueFamilyCount)
          invariant errors == old(errors) && trace == old(trace)
        {
          gpu := Some(physicalDevices[i]);
          i := i + 1;
        }

        gpu := Some(physicalDevices[0]);
        var swapchainExtFound := FindSwapchainExtension(physicalDevices[0].extensions);
        if !swapchainExtFound {
          errors := errors + [SwapchainExtensionMissing];
        }
        assert errors == old(errors) + ExtensionErrors(physicalDevices[0]);

        queueFamilyCount := |physicalDevices[0].queueFamilies|;
        queueProps := physicalDevices[0].queueFamilies;
        ok := true;
      } else {
        errors := errors + [NoPhysicalDevices];
        ok := false;
      }
      trace := Then(trace, StepRecord(Step.EnumeratePhysicalDevice, ok));
    }

    /** Creates the Win32 surface for the window's current instance and handle. */
    method CreateSurface() returns (ok: bool)
      modifies this`surfaceCreated, this`surfaceInstance, this`surfaceWindow, this`trace
      ensures ok
      ensures State() == old(State()).(
        surfaceCreated := driver.surfaceOk,
        surfaceInstance := window.GetWindowInstance(),
        surfaceWindow := window.GetWindowHandle(),
        trace := Then(old(trace), StepRecord(Step.CreateSurface, ok)))
    {
      surfaceInstance := window.GetWindowInstance();
      surfaceWindow := window.GetWindowHandle();
      surfaceCreated := driver.surfaceOk;
      ok := true;
      trace := Then(trace, StepRecord(Step.CreateSurface, ok));
    }

    /**
     Chooses the graphics queue family (the last family with the graphics
     bit, or UINT32_MAX when none has it), then creates the device with one
     queue of that family and the swapchain extension enabled.
     */
    method CreateDevice() returns (ok: bool)
      requires Valid()
      modifies this`graphicsQueueFamilyIndex, this`deviceCreated, this`deviceQueueFamily,
               this`deviceExtensions, this`trace
      ensures ok
      ensures State() == old(State()).(
        graphicsQueueFamilyIndex := LastGraphicsFamily(queueProps),
        deviceQueueFamily := LastGraphicsFamily(queueProps),
        deviceExtensions := [SwapchainExtensionName],
        deviceCreated := driver.deviceOk,
        trace := Then(old(trace), StepRecord(Step.CreateDevice, ok)))
    {
      assert queueProps[..queueFamilyCount] == queueProps;
      graphicsQueueFamilyIndex := ChooseGraphicsFamily(queueProps[..queueFamilyCount]);
      deviceQueueFamily := graphicsQueueFamilyIndex;
      deviceExtensions := [SwapchainExtensionName];
      deviceCreated := driver.deviceOk;
      ok := true;
      trace := Then(trace, StepRecord(Step.CreateDevice, ok));
    }

    /** Creates a resettable command pool on the graphics queue family. */
    method CreateCommandPool() returns (ok: bool)
      modifies this`commandPoolCreated, this`commandPoolFamily, this`trace
      ensures ok
      ensures State() == old(State()).(
        commandPoolFamily := graphicsQueueFamilyIndex,
        commandPoolCreated := driver.commandPoolOk,
        trace := Then(old(trace), StepRecord(Step.CreateCommandPool, ok)))
    {
      commandPoolFamily := graphicsQueueFamilyIndex;
      commandPoolCreated := driver.commandPoolOk;
      ok := true;
      trace := Then(trace, StepRecord(Step.CreateCommandPool, ok));
    }

    method CreateFence() returns (ok: bool)
      modifies this`fenceCreated, this`trace
      ensures ok
      ensures State() == old(State()).(
        fenceCreated := driver.fenceOk,
        trace := Then(old(trace), StepRecord(Step.CreateFence, ok)))
    {
      fenceCreated := driver.fenceOk;
      ok := true;
      trace := Then(trace, StepRecord(Step.CreateFence, ok));
    }
  }

  /** The public Graphics object; it owns its Impl. */
  class Graphics {
    const impl: Impl

    constructor(window: WindowSystem.Window, driver: Driver)
      requires driver.WellFormed()
      ensures fresh(impl) && impl.Valid()
      ensures impl.window == window && impl.driver == driver
      ensures !impl.instanceCreated && impl.gpu == None && impl.queueProps == []
      ensures !impl.surfaceCreated && !impl.deviceCreated && !impl.commandPoolCreated && !impl.fenceCreated
      ensures impl.trace == Start && impl.errors == []
    {
      impl := new Impl(window, driver);
    }

    /**
     Runs the six bring-up steps in order and returns false at the first one
     that fails, without running the rest. Since only the physical-device step
     can fail, the bring-up fails exactly when the driver reports no device;
     on success the device, command pool and chosen family agree.
     */
    method Initialize() returns (ok: bool)
      requires impl.Valid()
      modifies impl
      ensures impl.Valid()
      ensures ok <==> |impl.driver.devices| > 0
      ensures ShortCircuitRun(Records(impl.trace), ok)
      ensures !ok ==> impl.State() == old(impl.State()).(
        instanceCreated := impl.driver.instanceOk,
        errors := old(impl.errors) + [NoPhysicalDevices],
        trace := NoDeviceRun)
      ensures ok ==> impl.State() == old(impl.State()).(
        instanceCreated := impl.driver.instanceOk,
        gpu := Some(impl.driver.devices[0]),
        queueProps := impl.driver.devices[0].queueFamilies,
        queueFamilyCount := |impl.driver.devices[0].queueFamilies|,
        errors := old(impl.errors) + ExtensionErrors(impl.driver.devices[0]),
        surfaceCreated := impl.driver.surfaceOk,
        surfaceInstance := impl.window.GetWindowInstance(),
        surfaceWindow := impl.window.GetWindowHandle(),
        graphicsQueueFamilyIndex := LastGraphicsFamily(impl.driver.devices[0].queueFamilies),
        deviceQueueFamily := LastGraphicsFamily(impl.driver.devices[0].queueFamilies),
        deviceExtensions := [SwapchainExtensionName],
        deviceCreated := impl.driver.deviceOk,
        commandPoolFamily := LastGraphicsFamily(impl.driver.devices[0].queueFamilies),
        commandPoolCreated := impl.driver.commandPoolOk,
        fenceCreated := impl.driver.fenceOk,
        trace := CompleteRun)
    {
      impl.trace := Start;
      ok := impl.CreateInstance();
      if !ok { return; }
      ok := impl.EnumeratePhysicalDevice();
      if !ok {
        PossibleRunsShortCircuit();
        return;
      }
      ok := impl.CreateSurface();
      if !ok { return; }
      ok := impl.CreateDevice();
      if !ok { return; }
      ok := impl.CreateCommandPool();
      if !ok { return; }
      ok := impl.CreateFence();
      if !ok { return; }
      PossibleRunsShortCircuit();
      return true;
    }
  }
}
