/** The set-up half of the renderer: choosing queue families and a physical device,
    checking instance extensions, and the error contract of `init`. The lists the driver
    enumerates are passed in as sequences; instance and logical-device creation are
    reduced to the result codes that decide whether they throw. */
module Renderer {
  import opened Wrappers
  import opened Utilities

  /** VK_QUEUE_GRAPHICS_BIT */
  const QUEUE_GRAPHICS: bv32 := 0x1

  /** EXIT_FAILURE from <cstdlib>. */
  const EXIT_FAILURE: int := 1

  /** One entry of vkGetPhysicalDeviceQueueFamilyProperties. */
  datatype QueueFamilyProperties = QueueFamilyProperties(queueFlags: bv32, queueCount: nat)

  /** A physical device, together with the queue families the driver reports for it. */
  datatype PhysicalDevice = PhysicalDevice(handle: Handle, queueFamilies: seq<QueueFamilyProperties>)

  /** An extension name (the fixed char array of VkExtensionProperties, up to its NUL). */
  type ExtensionName = string

  // ---------------------------------------------------------------------------
  // Queue families and device suitability
  // ---------------------------------------------------------------------------

  /** A family that has at least one queue and supports graphics. */
  predicate IsGraphicsFamily(f: QueueFamilyProperties) {
    f.queueCount > 0 && f.queueFlags & QUEUE_GRAPHICS != 0
  }

  /** The index of the last graphics family in the list, or -1 when there is none. */
  function LastGraphicsFamily(families: seq<QueueFamilyProperties>): (r: int)
    ensures -1 <= r < |families|
    ensures r == -1 <==> forall k :: 0 <= k < |families| ==> !IsGraphicsFamily(families[k])
    ensures r >= 0 ==> IsGraphicsFamily(families[r])
    ensures forall k :: r < k < |families| ==> !IsGraphicsFamily(families[k])
  {
    if |families| == 0 then -1
    else if IsGraphicsFamily(families[|families| - 1]) then |families| - 1
    else LastGraphicsFamily(families[..|families| - 1])
  }

  /** What getQueueFamiles returns for a device with these families: nothing ever assigns
      presentationFamily, so it keeps its default -1 and the early exit never fires. */
  function QueueFamiliesOf(families: seq<QueueFamilyProperties>): QueueFamilyIndices {
    QueueFamilyIndices(LastGraphicsFamily(families), -1)
  }

  /** What checkDeviceSuitable decides for a device. */
  predicate DeviceSuitable(device: PhysicalDevice) {
    QueueFamiliesOf(device.queueFamilies).IsValid()
  }

  /** As written, no device is ever suitable, whatever families it reports. */
  lemma NoDeviceIsSuitable(device: PhysicalDevice)
    ensures !DeviceSuitable(device)
    ensures QueueFamiliesOf(device.queueFamilies).presentationFamily == -1
  {
  }

  /** A graphics family, if the device has one, is found; and what is found is one. */
  lemma GraphicsFamilyFoundIffPresent(families: seq<QueueFamilyProperties>)
    ensures QueueFamiliesOf(families).graphicsFamily >= 0
            <==> exists k :: 0 <= k < |families| && IsGraphicsFamily(families[k])
  {
    var g := QueueFamiliesOf(families).graphicsFamily;
    if g >= 0 {
      assert IsGraphicsFamily(families[g]);
    }
  }

  /** getQueueFamiles: scan the families with a running index, record each graphics family,
      and stop early once both families are known. */
  method GetQueueFamilies(device: PhysicalDevice) returns (indices: QueueFamilyIndices)
    ensures indices.presentationFamily == -1
    ensures indices.graphicsFamily == LastGraphicsFamily(device.queueFamilies)
    ensures !indices.IsValid()
  {
    indices := DefaultQueueFamilyIndices;
    var families := device.queueFamilies;
    var i := 0;
    while i < |families|
      invariant 0 <= i <= |families|
      invariant indices.presentationFamily == -1
      invariant indices.graphicsFamily == LastGraphicsFamily(families[..i])
    {
      assert families[..i + 1][..i] == families[..i];
      if IsGraphicsFamily(families[i]) {
        indices := indices.(graphicsFamily := i);
      }
      if indices.IsValid() {
        break;
      }
      i := i + 1;
    }
    assert families[..|families|] == families;
  }

  /** checkDeviceSuitable: a device is suitable when its queue families are valid. */
  method CheckDeviceSuitable(device: PhysicalDevice) returns (suitable: bool)
    ensures suitable == DeviceSuitable(device)
    ensures !suitable
  {
    var indices := GetQueueFamilies(device);
    suitable := indices.IsValid();
  }

  // ---------------------------------------------------------------------------
  // Instance extensions
  // ---------------------------------------------------------------------------

  /** The test of checkInstanceExtensionSupport as written: the required name counts as
      present when some available name DIFFERS from it (strcmp's non-zero result). */
  predicate MatchedAsWritten(name: ExtensionName, available: seq<ExtensionName>) {
    exists k :: 0 <= k < |available| && available[k] != name
  }

  /** The evidently intended test: the required name is among the available ones. */
  predicate Available(name: ExtensionName, available: seq<ExtensionName>) {
    exists k :: 0 <= k < |available| && available[k] == name
  }

  /** checkInstanceExtensionSupport as written: nested scans with a flag and an early
      `return false` at the first required name that has no "match". */
  method CheckInstanceExtensionSupport(required: seq<ExtensionName>, available: seq<ExtensionName>)
    returns (supported: bool)
    ensures supported <==> forall i :: 0 <= i < |required| ==> MatchedAsWritten(required[i], available)
    ensures required == [] ==> supported
  {
    for i := 0 to |required|
      invariant forall j :: 0 <= j < i ==> MatchedAsWritten(required[j], available)
    {
      var hasExtension := false;
      for k := 0 to |available|
        invariant !hasExtension ==> forall m :: 0 <= m < k ==> available[m] == required[i]
        invariant hasExtension ==> MatchedAsWritten(required[i], available)
      {
        if available[k] != required[i] {
          hasExtension := true;
          break;
        }
      }
      if !hasExtension {
        assert !MatchedAsWritten(required[i], available);
        return false;
      }
    }
    return true;
  }

  /** checkInstanceExtensionSupport with the comparison its flag name `hasExtension` and the
      early `return false` evidently intend: a match is `strcmp == 0`. */
  method CheckInstanceExtensionSupportCorrected(required: seq<ExtensionName>, available: seq<ExtensionName>)
    returns (supported: bool)
    ensures supported <==> forall i :: 0 <= i < |required| ==> Available(required[i], available)
    ensures required == [] ==> supported
  {
    for i := 0 to |required|
      invariant forall j :: 0 <= j < i ==> Available(required[j], available)
    {
      var hasExtension := false;
      for k := 0 to |available|
        invariant !hasExtension ==> forall m :: 0 <= m < k ==> available[m] != required[i]
        invariant hasExtension ==> Available(required[i], available)
      {
        if available[k] == required[i] {
          hasExtension := true;
          break;
        }
      }
      if !hasExtension {
        assert !Available(required[i], available);
        return false;
      }
    }
    return true;
  }

  /** The inverted test rejects a required extension that the instance does offer, and
      accepts one that it does not. */
  lemma InvertedTestCounterexample()
    ensures Available("VK_KHR_surface", ["VK_KHR_surface"])
    ensures !MatchedAsWritten("VK_KHR_surface", ["VK_KHR_surface"])
    ensures !Available("VK_KHR_surface", ["VK_EXT_debug_utils"])
    ensures MatchedAsWritten("VK_KHR_surface", ["VK_EXT_debug_utils"])
  {
    assert ["VK_KHR_surface"][0] == "VK_KHR_surface";
    assert ["VK_EXT_debug_utils"][0] != "VK_KHR_surface" by {
      assert ["VK_EXT_debug_utils"][0][3] != "VK_KHR_surface"[3];
    }
  }

  /** What the inverted test actually decides: a name "matches" unless every available
      name equals it, so with two distinct available names every requirement passes. */
  lemma AsWrittenMatchesUnlessAllEqual(name: ExtensionName, available: seq<ExtensionName>)
    ensures MatchedAsWritten(name, available) <==> !(forall k :: 0 <= k < |available| ==> available[k] == name)
    ensures (exists a, b :: a in available && b in available && a != b) ==> MatchedAsWritten(name, available)
  {
    if exists a, b :: a in available && b in available && a != b {
      var a, b :| a in available && b in available && a != b;
      var ia :| 0 <= ia < |available| && available[ia] == a;
      var ib :| 0 <= ib < |available| && available[ib] == b;
      if a == name {
        assert available[ib] != name;
      } else {
        assert available[ia] != name;
      }
    }
  }

  // ---------------------------------------------------------------------------
  // The renderer object
  // ---------------------------------------------------------------------------

  /** What the driver answers during `init`: the instance extensions GLFW requires and the
      instance offers, the vkCreateInstance result of each createInstance call, the
      enumerated physical devices, and the vkCreateDevice result. */
  datatype InitDriver = InitDriver(
    requiredExtensions: seq<ExtensionName>,
    availableExtensions: seq<ExtensionName>,
    instanceResults: seq<VkResult>,
    devices: seq<PhysicalDevice>,
    logicalDeviceResult: VkResult)

  /** How a call to `init` ends: it returns a code, or an exception escapes it. */
  datatype InitResult = Returned(code: int) | Escaped(error: Error)

  const UNSUPPORTED_EXTENSIONS := "VkInstance does not support required extensions!"
  const CREATE_INSTANCE_FAILED := "Fail to create a Vulkan instance"
  const NO_GPU := "Can't find GPUs that support Vulkan instance!"
  const CREATE_DEVICE_FAILED := "Failed to create a Logical Device!"

  /** How the n-th createInstance call (counting from 0) ends, as the driver answers it. */
  function InstanceOutcome(driver: InitDriver, n: nat): Outcome {
    if !(forall i :: 0 <= i < |driver.requiredExtensions| ==>
           MatchedAsWritten(driver.requiredExtensions[i], driver.availableExtensions))
    then Fail(RuntimeError(UNSUPPORTED_EXTENSIONS))
    else if n >= |driver.instanceResults| || driver.instanceResults[n] != VK_SUCCESS
    then Fail(RuntimeError(CREATE_INSTANCE_FAILED))
    else Pass
  }

  class VulkanRenderer {
    var window: Handle
    /** Number of Vulkan instances created so far; each success overwrites `instance`. */
    var instanceCount: nat
    /** mainDevice.physicalDevice; None while nothing has been stored in it. */
    var physicalDevice: Option<PhysicalDevice>
    var hasLogicalDevice: bool

    constructor ()
      ensures instanceCount == 0 && physicalDevice == None && !hasLogicalDevice
    {
      instanceCount := 0;
      physicalDevice := None;
      hasLogicalDevice := false;
    }

    /** createInstance, reduced to when it throws: unsupported extensions, then a failed
        vkCreateInstance (the `n`-th answer in the driver's list). */
    method CreateInstance(driver: InitDriver, n: nat) returns (o: Outcome)
      modifies this`instanceCount
      ensures o == InstanceOutcome(driver, n)
      ensures instanceCount == if o.Pass? then old(instanceCount) + 1 else old(instanceCount)
    {
      var supported := CheckInstanceExtensionSupport(driver.requiredExtensions, driver.availableExtensions);
      if !supported {
        return Fail(RuntimeError(UNSUPPORTED_EXTENSIONS));
      }
      if n >= |driver.instanceResults| || driver.instanceResults[n] != VK_SUCCESS {
        return Fail(RuntimeError(CREATE_INSTANCE_FAILED));
      }
      instanceCount := instanceCount + 1;
      o := Pass;
    }

    /** getPysicalDevice: throw when there is no device; otherwise store the first device
        in enumeration order that passes `isSuitable`, and leave the field alone when none
        does. `init` passes DeviceSuitable, the decision of checkDeviceSuitable. */
    method GetPhysicalDevice(devices: seq<PhysicalDevice>, isSuitable: PhysicalDevice -> bool) returns (o: Outcome)
      modifies this`physicalDevice
      ensures devices == [] ==> o == Fail(RuntimeError(NO_GPU)) && physicalDevice == old(physicalDevice)
      ensures devices != [] ==> o == Pass
      ensures (forall k :: 0 <= k < |devices| ==> !isSuitable(devices[k])) ==>
                physicalDevice == old(physicalDevice)
      ensures (exists k :: 0 <= k < |devices| && isSuitable(devices[k])) ==>
                exists k :: && 0 <= k < |devices| && isSuitable(devices[k])
                            && physicalDevice == Some(devices[k])
                            && forall j :: 0 <= j < k ==> !isSuitable(devices[j])
    {
      if |devices| == 0 {
        return Fail(RuntimeError(NO_GPU));
      }
      var i := 0;
      while i < |devices|
        invariant 0 <= i <= |devices|
        invariant forall j :: 0 <= j < i ==> !isSuitable(devices[j])
        invariant physicalDevice == old(physicalDevice)
      {
        if isSuitable(devices[i]) {
          physicalDevice := Some(devices[i]);
          break;
        }
        i := i + 1;
      }
      o := Pass;
    }

    /** createLogicalDevice, reduced to when it throws. */
    method CreateLogicalDevice(result: VkResult) returns (o: Outcome)
      modifies this`hasLogicalDevice
      ensures result != VK_SUCCESS ==> o == Fail(RuntimeError(CREATE_DEVICE_FAILED)) && hasLogicalDevice == old(hasLogicalDevice)
      ensures result == VK_SUCCESS ==> o == Pass && hasLogicalDevice
    {
      if result != VK_SUCCESS {
        return Fail(RuntimeError(CREATE_DEVICE_FAILED));
      }
      hasLogicalDevice := true;
      o := Pass;
    }

    /** init as written: one createInstance outside the `try`, whose exception escapes,
        then createInstance, getPysicalDevice and createLogicalDevice inside it, where the
        first exception is caught and turned into EXIT_FAILURE. */
    method Init(newWindow: Handle, driver: InitDriver) returns (r: InitResult)
      modifies this
      ensures window == newWindow
      ensures InstanceOutcome(driver, 0).Fail? ==> r == Escaped(InstanceOutcome(driver, 0).error)
      ensures InstanceOutcome(driver, 0).Pass? ==>
                r == (if InstanceOutcome(driver, 1).Fail? || driver.devices == []
                         || driver.logicalDeviceResult != VK_SUCCESS
                      then Returned(EXIT_FAILURE) else Returned(0))
      ensures r == Returned(0) ==> instanceCount == old(instanceCount) + 2 && hasLogicalDevice
      ensures r.Escaped? ==>
                instanceCount == old(instanceCount) && hasLogicalDevice == old(hasLogicalDevice)
      ensures r == Returned(EXIT_FAILURE) ==>
                && hasLogicalDevice == old(hasLogicalDevice)
                && instanceCount == old(instanceCount) + (if InstanceOutcome(driver, 1).Pass? then 2 else 1)
      ensures physicalDevice == old(physicalDevice)
    {
      window := newWindow;
      var o := CreateInstance(driver, 0);
      if o.Fail? {
        return Escaped(o.error);
      }
      o := CreateInstance(driver, 1);
      if o.Fail? {
        return Returned(EXIT_FAILURE);
      }
      forall k | 0 <= k < |driver.devices| ensures !DeviceSuitable(driver.devices[k]) {
        NoDeviceIsSuitable(driver.devices[k]);
      }
      o := GetPhysicalDevice(driver.devices, DeviceSuitable);
      if o.Fail? {
        return Returned(EXIT_FAILURE);
      }
      o := CreateLogicalDevice(driver.logicalDeviceResult);
      if o.Fail? {
        return Returned(EXIT_FAILURE);
      }
      r := Returned(0);
    }

    /** init with createInstance called only inside the `try`: every set-up failure is
        reported as EXIT_FAILURE and exactly one instance is created on success. */
    method InitCorrected(newWindow: Handle, driver: InitDriver) returns (r: InitResult)
      modifies this
      ensures window == newWindow
      ensures r.Returned?
      ensures r == (if InstanceOutcome(driver, 0).Fail? || driver.devices == []
                       || driver.logicalDeviceResult != VK_SUCCESS
                    then Returned(EXIT_FAILURE) else Returned(0))
      ensures r == Returned(0) ==> instanceCount == old(instanceCount) + 1 && hasLogicalDevice
      ensures r == Returned(EXIT_FAILURE) ==>
                && hasLogicalDevice == old(hasLogicalDevice)
                && instanceCount == old(instanceCount) + (if InstanceOutcome(driver, 0).Pass? then 1 else 0)
      ensures physicalDevice == old(physicalDevice)
    {
      window := newWindow;
      var o := CreateInstance(driver, 0);
      if o.Fail? {
        return Returned(EXIT_FAILURE);
      }
      forall k | 0 <= k < |driver.devices| ensures !DeviceSuitable(driver.devices[k]) {
        NoDeviceIsSuitable(driver.devices[k]);
      }
      o := GetPhysicalDevice(driver.devices, DeviceSuitable);
      if o.Fail? {
        return Returned(EXIT_FAILURE);
      }
      o := CreateLogicalDevice(driver.logicalDeviceResult);
      if o.Fail? {
        return Returned(EXIT_FAILURE);
      }
      r := Returned(0);
    }
  }

  /** A driver whose instance creation fails: as written the exception escapes `init`
      instead of becoming EXIT_FAILURE. */
  method InstanceFailureEscapes() returns (asWritten: InitResult, corrected: InitResult)
    ensures asWritten == Escaped(RuntimeError(CREATE_INSTANCE_FAILED))
    ensures corrected == Returned(EXIT_FAILURE)
  {
    var driver := InitDriver([], [], [-3], [], VK_SUCCESS);
    var renderer := new VulkanRenderer();
    asWritten := renderer.Init(7, driver);
    var other := new VulkanRenderer();
    corrected := other.InitCorrected(7, driver);
  }
}
