/** src/windowed/hardware.rs: choosing the physical device, its queue
    families, surface format and present mode for windowed rendering.

    Every Vulkan query becomes part of the input: a `PhysicalDevice` carries
    the answers the driver gives about it for the one target surface. */
module Hardware {
  import opened Vk
  import opened Iter
  import Windowed

  /** One entry of `get_physical_device_queue_family_properties`, with the
      answer of `get_physical_device_surface_support_khr` for its index. */
  datatype QueueFamily = QueueFamily(flags: QueueFlags, surfaceSupport: Result<bool>)

  /** The `PhysicalDeviceProperties` field the scoring reads. */
  datatype PhysicalDeviceProperties = PhysicalDeviceProperties(deviceType: DeviceType)

  /** A physical device, as its queries answer. */
  datatype PhysicalDevice = PhysicalDevice(
    handle: Handle,
    queueFamilies: seq<QueueFamily>,
    surfaceFormats: Result<seq<SurfaceFormat>>,   // get_physical_device_surface_formats_khr
    presentModes: Result<seq<PresentMode>>,       // get_physical_device_surface_present_modes_khr
    extensions: Result<seq<string>>,              // enumerate_device_extension_properties, by name
    properties: PhysicalDeviceProperties)         // get_physical_device_properties

  /** `HardwareSelection` as this revision builds it. */
  datatype HardwareSelection = HardwareSelection(
    physicalDevice: Handle,
    physicalDeviceProperties: PhysicalDeviceProperties,
    graphicsQueueFamily: nat,
    utilityQueueFamily: nat)

  datatype SurfaceInfo = SurfaceInfo(format: SurfaceFormat, presentMode: PresentMode)

  const NO_GRAPHICS_QUEUE_FAMILY: string := "No suitable graphics queue family found"
  const NO_UTILITY_QUEUE_FAMILY: string := "No suitable utility queue family found"
  const NO_SURFACE_FORMAT: string := "No suitable surface format found."
  const NO_PHYSICAL_DEVICES: string := "No physical devices found"

  const PREFERRED_FORMAT: SurfaceFormat := SurfaceFormat(Windowed.COLOR_FORMAT, Windowed.COLOR_SPACE)

  // ---------------------------------------------------------------------
  // Graphics (surface) queue family

  /** A family the graphics search accepts. */
  predicate IsSurfaceFamily(q: QueueFamily) {
    Contains(q.flags, QUEUE_GRAPHICS) && q.surfaceSupport == Ok(true)
  }

  /** A family the graphics search looks at and moves past. */
  predicate PassedOver(q: QueueFamily) {
    q.surfaceSupport.Ok? && !IsSurfaceFamily(q)
  }

  /** The graphics search from index `i` on. The surface-support query runs
      for every family visited, whatever its flags, and its error ends the
      search. */
  function SurfaceQueueFamilyFrom(families: seq<QueueFamily>, i: nat): Result<nat>
    requires i <= |families|
    decreases |families| - i
  {
    if i == |families| then Err(Message(NO_GRAPHICS_QUEUE_FAMILY))
    else
      var supportsSurface :- families[i].surfaceSupport;
      if Contains(families[i].flags, QUEUE_GRAPHICS) && supportsSurface then Ok(i)
      else SurfaceQueueFamilyFrom(families, i + 1)
  }

  function SurfaceQueueFamily(families: seq<QueueFamily>): Result<nat> {
    SurfaceQueueFamilyFrom(families, 0)
  }

  /** `find_surface_queue_family`. */
  method FindSurfaceQueueFamily(families: seq<QueueFamily>) returns (r: Result<nat>)
    ensures r == SurfaceQueueFamily(families)
  {
    for i := 0 to |families|
      invariant SurfaceQueueFamilyFrom(families, i) == SurfaceQueueFamily(families)
    {
      var hasGraphics := Contains(families[i].flags, QUEUE_GRAPHICS);
      var supportsSurface :- families[i].surfaceSupport;
      if hasGraphics && supportsSurface {
        return Ok(i);
      }
    }
    return Err(Message(NO_GRAPHICS_QUEUE_FAMILY));
  }

  lemma {:induction false} SurfaceSearchSkips(families: seq<QueueFamily>, i: nat, k: nat)
    requires i <= k <= |families|
    requires forall j :: i <= j < k ==> PassedOver(families[j])
    ensures SurfaceQueueFamilyFrom(families, i) == SurfaceQueueFamilyFrom(families, k)
    decreases k - i
  {
    if i < k {
      SurfaceSearchSkips(families, i + 1, k);
    }
  }

  /** The search ends at the first family it does not pass over: it is the
      answer if it qualifies, its query error otherwise; with none, the
      search fails with its own message. */
  lemma SurfaceQueueFamilyStops(families: seq<QueueFamily>, k: nat)
    requires k <= |families|
    requires forall j :: 0 <= j < k ==> PassedOver(families[j])
    requires k < |families| ==> !PassedOver(families[k])
    ensures SurfaceQueueFamily(families) ==
      if k == |families| then Err(Message(NO_GRAPHICS_QUEUE_FAMILY))
      else if families[k].surfaceSupport.Err? then Err(families[k].surfaceSupport.error)
      else Ok(k)
  {
    SurfaceSearchSkips(families, 0, k);
  }

  lemma {:induction false} SurfaceSearchFound(families: seq<QueueFamily>, i: nat)
    requires i <= |families|
    ensures var r := SurfaceQueueFamilyFrom(families, i);
      r.Ok? ==> i <= r.value < |families| && IsSurfaceFamily(families[r.value])
                && forall j :: i <= j < r.value ==> PassedOver(families[j])
    decreases |families| - i
  {
    if i < |families| {
      SurfaceSearchFound(families, i + 1);
    }
  }

  /** A graphics family found is the lowest index with GRAPHICS whose
      surface-support answer is true, and every earlier query succeeded. */
  lemma SurfaceQueueFamilyIsFirst(families: seq<QueueFamily>)
    ensures var r := SurfaceQueueFamily(families);
      r.Ok? ==> r.value < |families| && IsSurfaceFamily(families[r.value])
                && forall j :: 0 <= j < r.value ==> PassedOver(families[j])
  {
    SurfaceSearchFound(families, 0);
  }

  // ---------------------------------------------------------------------
  // Utility (compute + transfer) queue family

  predicate IsUtilityFamily(flags: QueueFlags) {
    Contains(flags, QUEUE_COMPUTE) && Contains(flags, QUEUE_TRANSFER)
  }

  predicate IsUtilityQueue(q: QueueFamily) {
    IsUtilityFamily(q.flags)
  }

  /** First fit over queue families from index `i`: the lowest index whose
      family qualifies, or the error `message` when none does. */
  function FirstFamilyFrom(families: seq<QueueFamily>, qualifies: QueueFamily -> bool, i: nat, message: string): Result<nat>
    requires i <= |families|
  {
    match FindIndexFrom(families, qualifies, i)
    case Some(k) => Ok(k)
    case None => Err(Message(message))
  }

  /** The utility family is the lowest index with both COMPUTE and TRANSFER;
      it is an error exactly when there is none. */
  function UtilityQueueFamily(families: seq<QueueFamily>): (r: Result<nat>)
    ensures r.Ok? ==> r.value < |families| && IsUtilityFamily(families[r.value].flags)
                      && forall j :: 0 <= j < r.value ==> !IsUtilityFamily(families[j].flags)
    ensures r.Err? <==> forall j :: 0 <= j < |families| ==> !IsUtilityFamily(families[j].flags)
    ensures r.Err? ==> r.error == Message(NO_UTILITY_QUEUE_FAMILY)
  {
    FirstFamilyFrom(families, IsUtilityQueue, 0, NO_UTILITY_QUEUE_FAMILY)
  }

  /** `find_utility_queue_family`. */
  method FindUtilityQueueFamily(families: seq<QueueFamily>) returns (r: Result<nat>)
    ensures r == UtilityQueueFamily(families)
  {
    for i := 0 to |families|
      invariant FirstFamilyFrom(families, IsUtilityQueue, i, NO_UTILITY_QUEUE_FAMILY) == UtilityQueueFamily(families)
    {
      var hasCompute := Contains(families[i].flags, QUEUE_COMPUTE);
      var hasTransfer := Contains(families[i].flags, QUEUE_TRANSFER);
      if hasCompute && hasTransfer {
        return Ok(i);
      }
    }
    return Err(Message(NO_UTILITY_QUEUE_FAMILY));
  }

  /** Nothing keeps the two searches apart: one family with GRAPHICS,
      COMPUTE and TRANSFER that can present is both. */
  lemma SameFamilyForBoth(flags: QueueFlags)
    requires Contains(flags, QUEUE_GRAPHICS) && IsUtilityFamily(flags)
    ensures SurfaceQueueFamily([QueueFamily(flags, Ok(true))]) == Ok(0)
    ensures UtilityQueueFamily([QueueFamily(flags, Ok(true))]) == Ok(0)
  {
  }

  // ---------------------------------------------------------------------
  // Surface format and present mode

  predicate IsPreferredFormat(f: SurfaceFormat) {
    f.format == Windowed.COLOR_FORMAT && f.colorSpace == Windowed.COLOR_SPACE
  }

  /** `select_surface_format`: the exact preferred pair or an error; there is
      no fallback to another listed format. */
  function SelectSurfaceFormat(formats: Result<seq<SurfaceFormat>>): (r: Result<SurfaceFormat>)
    ensures formats.Err? ==> r == Err(formats.error)
    ensures formats.Ok? ==> (r.Ok? <==> PREFERRED_FORMAT in formats.value)
    ensures r.Ok? ==> r.value == PREFERRED_FORMAT
    ensures formats.Ok? && r.Err? ==> r.error == Message(NO_SURFACE_FORMAT)
  {
    var fs :- formats;
    match Find(fs, IsPreferredFormat)
    case Some(f) => Ok(f)
    case None => Err(Message(NO_SURFACE_FORMAT))
  }

  /** `select_present_mode`: MAILBOX when offered, FIFO otherwise (every
      implementation offers FIFO). Only the query itself can fail. */
  function SelectPresentMode(modes: Result<seq<PresentMode>>): (r: Result<PresentMode>)
    ensures r.Ok? <==> modes.Ok?
    ensures modes.Err? ==> r == Err(modes.error)
    ensures r.Ok? ==> r.value == PRESENT_MODE_MAILBOX_KHR || r.value == PRESENT_MODE_FIFO_KHR
    ensures r.Ok? ==> (r.value == PRESENT_MODE_MAILBOX_KHR <==> PRESENT_MODE_MAILBOX_KHR in modes.value)
  {
    var ms :- modes;
    Ok(Find(ms, m => m == PRESENT_MODE_MAILBOX_KHR).UnwrapOr(PRESENT_MODE_FIFO_KHR))
  }

  // ---------------------------------------------------------------------
  // Device extensions

  /** The requested names the device does not support, in request order. */
  function Unsupported(requested: seq<string>, supported: seq<string>): seq<string> {
    if |requested| == 0 then []
    else
      var last := requested[|requested| - 1];
      Unsupported(requested[..|requested| - 1], supported) + (if last in supported then [] else [last])
  }

  /** `check_supported_extensions`, as a value. */
  function ExtensionCheck(supported: Result<seq<string>>, requested: seq<string>): Result<seq<string>> {
    var s :- supported;
    var missing := Unsupported(requested, s);
    if missing == [] then Ok(s) else Err(UnsupportedExtensions(missing))
  }

  /** `check_supported_extensions`: collect the unsupported names in a loop. */
  method CheckSupportedExtensions(supported: Result<seq<string>>, requested: seq<string>)
    returns (r: Result<seq<string>>)
    ensures r == ExtensionCheck(supported, requested)
  {
    var s :- supported;
    var unsupported := [];
    for i := 0 to |requested|
      invariant unsupported == Unsupported(requested[..i], s)
    {
      assert requested[..i + 1][..i] == requested[..i];
      var isSupported := requested[i] in s;
      if !isSupported {
        unsupported := unsupported + [requested[i]];
      }
    }
    assert requested[..|requested|] == requested;
    if unsupported == [] {
      r := Ok(s);
    } else {
      r := Err(UnsupportedExtensions(unsupported));
    }
  }

  /** A name is listed exactly when it was requested and is not supported. */
  lemma {:induction false} UnsupportedMembers(requested: seq<string>, supported: seq<string>)
    ensures forall x :: x in Unsupported(requested, supported) <==> x in requested && x !in supported
    decreases |requested|
  {
    if |requested| > 0 {
      var init := requested[..|requested| - 1];
      UnsupportedMembers(init, supported);
      assert requested == init + [requested[|requested| - 1]];
    }
  }

  /** The list keeps request order: it splits along any split of the request. */
  lemma {:induction false} UnsupportedAppend(a: seq<string>, b: seq<string>, supported: seq<string>)
    ensures Unsupported(a + b, supported) == Unsupported(a, supported) + Unsupported(b, supported)
    decreases |b|
  {
    if |b| == 0 {
      assert a + b == a;
    } else {
      var b' := b[..|b| - 1];
      assert (a + b)[..|a + b| - 1] == a + b';
      UnsupportedAppend(a, b', supported);
    }
  }

  /** The check passes, returning the whole supported list, exactly when
      every requested name is supported; otherwise it names what is missing. */
  lemma ExtensionCheckSpec(supported: Result<seq<string>>, requested: seq<string>)
    ensures supported.Err? ==> ExtensionCheck(supported, requested) == Err(supported.error)
    ensures supported.Ok? ==>
      var r := ExtensionCheck(supported, requested);
      && (r.Ok? <==> forall i :: 0 <= i < |requested| ==> requested[i] in supported.value)
      && (r.Ok? ==> r.value == supported.value)
      && (r.Err? ==> r.error == UnsupportedExtensions(Unsupported(requested, supported.value))
                     && |r.error.names| > 0)
  {
    if supported.Ok? {
      UnsupportedMembers(requested, supported.value);
      var missing := Unsupported(requested, supported.value);
      if missing != [] {
        assert missing[0] in missing;
      }
    }
  }

  // ---------------------------------------------------------------------
  // Per-device selection, scoring, and the query over all devices

  /** `score_hardware_config`. */
  function ScoreHardwareConfig(hardware: HardwareSelection): (s: i32)
    ensures 0 <= s <= 2
    ensures s == 2 <==> hardware.physicalDeviceProperties.deviceType == DEVICE_TYPE_DISCRETE_GPU
    ensures s == 1 <==> hardware.physicalDeviceProperties.deviceType == DEVICE_TYPE_INTEGRATED_GPU
  {
    var t := hardware.physicalDeviceProperties.deviceType;
    if t == DEVICE_TYPE_DISCRETE_GPU then 2
    else if t == DEVICE_TYPE_INTEGRATED_GPU then 1
    else 0
  }

  /** `select_hardware_physical_device`: graphics family first, then
      utility; the first failure is the result. */
  function SelectHardwarePhysicalDevice(device: PhysicalDevice): (r: Result<HardwareSelection>)
    ensures
      var graphics := SurfaceQueueFamily(device.queueFamilies);
      var utility := UtilityQueueFamily(device.queueFamilies);
      && (r.Ok? <==> graphics.Ok? && utility.Ok?)
      && (r.Ok? ==> r.value == HardwareSelection(device.handle, device.properties, graphics.value, utility.value))
      && (graphics.Err? ==> r == Err(graphics.error))
      && (graphics.Ok? && utility.Err? ==> r == Err(utility.error))
  {
    var graphics :- SurfaceQueueFamily(device.queueFamilies);
    var utility :- UtilityQueueFamily(device.queueFamilies);
    Ok(HardwareSelection(device.handle, device.properties, graphics, utility))
  }

  /** `select_surface_info`: format first, then present mode; the first
      failure is the result. */
  function SelectSurfaceInfo(device: PhysicalDevice): (r: Result<SurfaceInfo>)
    ensures
      var format := SelectSurfaceFormat(device.surfaceFormats);
      var mode := SelectPresentMode(device.presentModes);
      && (r.Ok? <==> format.Ok? && mode.Ok?)
      && (r.Ok? ==> r.value == SurfaceInfo(PREFERRED_FORMAT, mode.value))
      && (format.Err? ==> r == Err(format.error))
      && (format.Ok? && mode.Err? ==> r == Err(mode.error))
  {
    var format :- SelectSurfaceFormat(device.surfaceFormats);
    var presentMode :- SelectPresentMode(device.presentModes);
    Ok(SurfaceInfo(format, presentMode))
  }

  /** The closure `query` maps over each device. A device is a candidate only
      when all five steps succeed, and then the candidate holds their
      results; otherwise the earliest failure is its result. */
  function Candidate(device: PhysicalDevice, requested: seq<string>): (c: Result<(HardwareSelection, SurfaceInfo)>)
    ensures
      var graphics := SurfaceQueueFamily(device.queueFamilies);
      var utility := UtilityQueueFamily(device.queueFamilies);
      var format := SelectSurfaceFormat(device.surfaceFormats);
      var mode := SelectPresentMode(device.presentModes);
      var extensions := ExtensionCheck(device.extensions, requested);
      && (c.Ok? <==> graphics.Ok? && utility.Ok? && format.Ok? && mode.Ok? && extensions.Ok?)
      && (c.Ok? ==> c.value.0 == HardwareSelection(device.handle, device.properties, graphics.value, utility.value)
                    && c.value.1 == SurfaceInfo(PREFERRED_FORMAT, mode.value))
      && (graphics.Err? ==> c == Err(graphics.error))
      && (graphics.Ok? && utility.Err? ==> c == Err(utility.error))
      && (graphics.Ok? && utility.Ok? && format.Err? ==> c == Err(format.error))
      && (graphics.Ok? && utility.Ok? && format.Ok? && mode.Err? ==> c == Err(mode.error))
      && (graphics.Ok? && utility.Ok? && format.Ok? && mode.Ok? && extensions.Err? ==> c == Err(extensions.error))
  {
    var hardware :- SelectHardwarePhysicalDevice(device);
    var surface :- SelectSurfaceInfo(device);
    var _ :- ExtensionCheck(device.extensions, requested);
    Ok((hardware, surface))
  }

  /** The key `max_by_key` ranks by: the score, or `i32::MIN` for a failure. */
  function Key(c: Result<(HardwareSelection, SurfaceInfo)>): (k: int)
    ensures c.Err? ==> k == I32_MIN
    ensures c.Ok? ==> 0 <= k <= 2 && k == ScoreHardwareConfig(c.value.0)
  {
    match c
    case Ok((hardware, _)) => ScoreHardwareConfig(hardware)
    case Err(_) => I32_MIN
  }

  function Candidates(devices: seq<PhysicalDevice>, requested: seq<string>): (cs: seq<Result<(HardwareSelection, SurfaceInfo)>>)
    ensures |cs| == |devices|
    ensures forall i :: 0 <= i < |devices| ==> cs[i] == Candidate(devices[i], requested)
  {
    seq(|devices|, i requires 0 <= i < |devices| => Candidate(devices[i], requested))
  }

  /** `query`: enumerate the devices (its error is returned), evaluate each,
      and keep the best by `max_by_key`. */
  function Query(devices: Result<seq<PhysicalDevice>>, requested: seq<string>): (r: Result<(HardwareSelection, SurfaceInfo)>)
    ensures devices.Err? ==> r == Err(devices.error)
    ensures devices == Ok([]) ==> r == Err(Message(NO_PHYSICAL_DEVICES))
  {
    var ds :- devices;
    match MaxByKey(Candidates(ds, requested), Key)
    case None => Err(Message(NO_PHYSICAL_DEVICES))
    case Some(best) => best
  }

  /** The result is the candidate of some device whose key no device beats,
      and every later device's key is strictly lower: ties go to the last. */
  lemma QueryPicksLastBest(devices: seq<PhysicalDevice>, requested: seq<string>)
    requires |devices| > 0
    ensures exists k ::
      && 0 <= k < |devices|
      && Query(Ok(devices), requested) == Candidate(devices[k], requested)
      && (forall j :: 0 <= j < |devices| ==> Key(Candidate(devices[j], requested)) <= Key(Candidate(devices[k], requested)))
      && (forall j :: k < j < |devices| ==> Key(Candidate(devices[j], requested)) < Key(Candidate(devices[k], requested)))
  {
    var cs := Candidates(devices, requested);
    var k := MaxByKeyIndex(cs, Key);
    assert Query(Ok(devices), requested) == cs[k];
  }

  /** Any device that passes beats every device that fails; a result that
      passes has the highest score among the devices that pass. */
  lemma QueryBestScore(devices: seq<PhysicalDevice>, requested: seq<string>)
    ensures (exists i :: 0 <= i < |devices| && Candidate(devices[i], requested).Ok?) ==> Query(Ok(devices), requested).Ok?
    ensures var r := Query(Ok(devices), requested);
      r.Ok? ==> forall i :: 0 <= i < |devices| && Candidate(devices[i], requested).Ok? ==>
                  ScoreHardwareConfig(Candidate(devices[i], requested).value.0) <= ScoreHardwareConfig(r.value.0)
  {
    if |devices| > 0 {
      QueryPicksLastBest(devices, requested);
    }
  }

  /** When every device fails, the query fails with the LAST device's error
      (all keys tie at `i32::MIN`). */
  lemma QueryAllFail(devices: seq<PhysicalDevice>, requested: seq<string>)
    requires |devices| > 0
    requires forall i :: 0 <= i < |devices| ==> Candidate(devices[i], requested).Err?
    ensures Query(Ok(devices), requested) == Candidate(devices[|devices| - 1], requested)
    ensures Query(Ok(devices), requested).Err?
  {
    QueryPicksLastBest(devices, requested);
  }

  /** A discrete GPU that passes is always chosen over every other type,
      wherever it is enumerated. */
  lemma QueryPrefersDiscrete(devices: seq<PhysicalDevice>, requested: seq<string>, i: nat)
    requires i < |devices|
    requires Candidate(devices[i], requested).Ok?
    requires devices[i].properties.deviceType == DEVICE_TYPE_DISCRETE_GPU
    ensures Query(Ok(devices), requested).Ok?
    ensures Query(Ok(devices), requested).value.0.physicalDeviceProperties.deviceType == DEVICE_TYPE_DISCRETE_GPU
  {
    QueryBestScore(devices, requested);
  }

  /** One discrete GPU whose single family has GRAPHICS, COMPUTE and TRANSFER
      and can present: it is selected, with the same family for both roles. */
  lemma QuerySingleDiscreteDevice(handle: Handle, extension: string)
    ensures
      var family := QueueFamily(QUEUE_GRAPHICS | QUEUE_COMPUTE | QUEUE_TRANSFER, Ok(true));
      var device := PhysicalDevice(handle, [family], Ok([PREFERRED_FORMAT]), Ok([PRESENT_MODE_FIFO_KHR]),
                                   Ok([extension]), PhysicalDeviceProperties(DEVICE_TYPE_DISCRETE_GPU));
      var r := Query(Ok([device]), [extension]);
      && r.Ok?
      && r.value.0.graphicsQueueFamily == r.value.0.utilityQueueFamily == 0
      && ScoreHardwareConfig(r.value.0) == 2
      && r.value.1 == SurfaceInfo(PREFERRED_FORMAT, PRESENT_MODE_FIFO_KHR)
  {
    var family := QueueFamily(QUEUE_GRAPHICS | QUEUE_COMPUTE | QUEUE_TRANSFER, Ok(true));
    var device := PhysicalDevice(handle, [family], Ok([PREFERRED_FORMAT]), Ok([PRESENT_MODE_FIFO_KHR]),
                                 Ok([extension]), PhysicalDeviceProperties(DEVICE_TYPE_DISCRETE_GPU));
    ExtensionCheckSpec(Ok([extension]), [extension]);
    QueryPrefersDiscrete([device], [extension], 0);
  }
}
