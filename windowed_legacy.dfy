/** src/windowed.rs: an earlier revision of the hardware selector. No module
    of the crate declares it, and its `HardwareSelection` also carries the
    surface format and present mode. Its rules differ from the current ones
    (src/windowed/hardware.rs) in the ways the lemmas below state.

    `find_surface_queue_family` and `select_present_mode` are the same code
    in both revisions; this module uses the current module's definitions
    of them. */
module WindowedLegacy {
  import opened Vk
  import opened Iter
  import Hardware

  type PhysicalDevice = Hardware.PhysicalDevice
  type QueueFamily = Hardware.QueueFamily

  /** `HardwareSelection` as this revision builds it. */
  datatype HardwareSelection = HardwareSelection(
    physicalDevice: Handle,
    physicalDeviceProperties: Hardware.PhysicalDeviceProperties,
    graphicsQueueFamily: nat,
    utilityQueueFamily: nat,
    format: SurfaceFormat,
    presentMode: PresentMode)

  /** The utility search reuses the graphics search's message. */
  const NO_UTILITY_QUEUE_FAMILY: string := Hardware.NO_GRAPHICS_QUEUE_FAMILY
  const NO_SURFACE_FORMAT: string := "No suitable surface format found."
  const UNSUPPORTED_EXTENSION: string := "Extension "
  const NO_SUITABLE_HARDWARE: string := "No suitable hardware found for this configuration"

  // ---------------------------------------------------------------------
  // Utility queue family: GRAPHICS stands where COMPUTE should

  predicate IsUtilityFamily(flags: QueueFlags) {
    Contains(flags, QUEUE_GRAPHICS) && Contains(flags, QUEUE_TRANSFER)
  }

  predicate IsUtilityQueue(q: QueueFamily) {
    IsUtilityFamily(q.flags)
  }

  /** The utility family is the lowest index with GRAPHICS and TRANSFER; it
      is an error, with the graphics search's text, exactly when there is
      none. */
  function UtilityQueueFamily(families: seq<QueueFamily>): (r: Result<nat>)
    ensures r.Ok? ==> && r.value < |families|
                      && Contains(families[r.value].flags, QUEUE_GRAPHICS)
                      && Contains(families[r.value].flags, QUEUE_TRANSFER)
                      && forall j :: 0 <= j < r.value ==> !IsUtilityFamily(families[j].flags)
    ensures r.Err? <==> forall j :: 0 <= j < |families| ==> !IsUtilityFamily(families[j].flags)
    ensures r.Err? ==> r.error == Message(Hardware.NO_GRAPHICS_QUEUE_FAMILY)
  {
    Hardware.FirstFamilyFrom(families, IsUtilityQueue, 0, NO_UTILITY_QUEUE_FAMILY)
  }

  /** `find_utility_queue_family` of this revision. */
  method FindUtilityQueueFamily(families: seq<QueueFamily>) returns (r: Result<nat>)
    ensures r == UtilityQueueFamily(families)
  {
    for i := 0 to |families|
      invariant Hardware.FirstFamilyFrom(families, IsUtilityQueue, i, NO_UTILITY_QUEUE_FAMILY) == UtilityQueueFamily(families)
    {
      var hasCompute := Contains(families[i].flags, QUEUE_GRAPHICS);
      var hasTransfer := Contains(families[i].flags, QUEUE_TRANSFER);
      if hasCompute && hasTransfer {
        return Ok(i);
      }
    }
    return Err(Message(NO_UTILITY_QUEUE_FAMILY));
  }

  /** The COMPUTE bit plays no part: setting or clearing it never changes
      whether a family qualifies. */
  lemma ComputeNotConsulted(flags: QueueFlags)
    ensures IsUtilityFamily(flags | QUEUE_COMPUTE) == IsUtilityFamily(flags & !QUEUE_COMPUTE)
  {
  }

  /** Where the revisions part: a transfer-capable graphics family without
      COMPUTE qualifies only here, a compute+transfer family without GRAPHICS
      only in the current revision. */
  lemma UtilityRevisionsDiffer()
    ensures UtilityQueueFamily([Hardware.QueueFamily(QUEUE_GRAPHICS | QUEUE_TRANSFER, Ok(true))]) == Ok(0)
    ensures Hardware.UtilityQueueFamily([Hardware.QueueFamily(QUEUE_GRAPHICS | QUEUE_TRANSFER, Ok(true))]).Err?
    ensures UtilityQueueFamily([Hardware.QueueFamily(QUEUE_COMPUTE | QUEUE_TRANSFER, Ok(true))]).Err?
    ensures Hardware.UtilityQueueFamily([Hardware.QueueFamily(QUEUE_COMPUTE | QUEUE_TRANSFER, Ok(true))]) == Ok(0)
  {
    assert !Hardware.IsUtilityFamily(QUEUE_GRAPHICS | QUEUE_TRANSFER);
    assert !IsUtilityFamily(QUEUE_COMPUTE | QUEUE_TRANSFER);
  }

  // ---------------------------------------------------------------------
  // Surface format with a fallback

  /** `select_surface_format` of this revision: the preferred pair when
      listed, otherwise the first listed format; an error only for an empty
      list. */
  function SelectSurfaceFormat(formats: Result<seq<SurfaceFormat>>): (r: Result<SurfaceFormat>)
    ensures formats.Err? ==> r == Err(formats.error)
    ensures formats.Ok? ==> (r.Ok? <==> |formats.value| > 0)
    ensures r.Ok? ==> r.value in formats.value
    ensures r.Ok? ==> (r.value == Hardware.PREFERRED_FORMAT || Hardware.PREFERRED_FORMAT !in formats.value)
    ensures r.Ok? && Hardware.PREFERRED_FORMAT !in formats.value ==> r.value == formats.value[0]
    ensures formats.Ok? && r.Err? ==> r.error == Message(NO_SURFACE_FORMAT)
  {
    var fs :- formats;
    match Find(fs, Hardware.IsPreferredFormat)
    case Some(f) => Ok(f)
    case None => if |fs| > 0 then Ok(fs[0]) else Err(Message(NO_SURFACE_FORMAT))
  }

  /** Wherever the current revision finds a format, this one finds the same;
      it also succeeds on every non-empty list the current one rejects. */
  lemma SurfaceFormatRevisionsAgree(formats: Result<seq<SurfaceFormat>>)
    ensures Hardware.SelectSurfaceFormat(formats).Ok? ==> SelectSurfaceFormat(formats) == Hardware.SelectSurfaceFormat(formats)
    ensures formats.Ok? && |formats.value| > 0 ==> SelectSurfaceFormat(formats).Ok?
  {
  }

  // ---------------------------------------------------------------------
  // Extension check without names

  /** `check_supported_extensions` of this revision: `all` over the requests
      of `any` over the supported names; the error does not say which. */
  function CheckSupportedExtensions(supported: Result<seq<string>>, requested: seq<string>): (r: Result<seq<string>>)
    ensures supported.Err? ==> r == Err(supported.error)
    ensures supported.Ok? ==> (r.Ok? <==> forall i :: 0 <= i < |requested| ==> requested[i] in supported.value)
    ensures r.Ok? ==> r.value == supported.value
    ensures supported.Ok? && r.Err? ==> r.error == Message(UNSUPPORTED_EXTENSION)
  {
    var s :- supported;
    if forall i :: 0 <= i < |requested| ==> requested[i] in s then Ok(s)
    else Err(Message(UNSUPPORTED_EXTENSION))
  }

  /** Both revisions accept the same devices and return the same list; only
      the error differs. */
  lemma ExtensionRevisionsAgree(supported: Result<seq<string>>, requested: seq<string>)
    ensures CheckSupportedExtensions(supported, requested).Ok? <==> Hardware.ExtensionCheck(supported, requested).Ok?
    ensures CheckSupportedExtensions(supported, requested).Ok? ==>
      CheckSupportedExtensions(supported, requested) == Hardware.ExtensionCheck(supported, requested)
  {
    Hardware.ExtensionCheckSpec(supported, requested);
  }

  // ---------------------------------------------------------------------
  // Per-device selection, scoring, query

  /** `select_hardware_physical_device` of this revision: graphics family,
      utility family, surface format, present mode, in that order, the first
      failure being the result. The requested extensions are accepted and
      never looked at. */
  function SelectHardwarePhysicalDevice(device: PhysicalDevice, deviceExtensions: seq<string>): (s: Result<HardwareSelection>)
    ensures
      var graphics := Hardware.SurfaceQueueFamily(device.queueFamilies);
      var utility := UtilityQueueFamily(device.queueFamilies);
      var format := SelectSurfaceFormat(device.surfaceFormats);
      var mode := Hardware.SelectPresentMode(device.presentModes);
      && (s.Ok? <==> graphics.Ok? && utility.Ok? && format.Ok? && mode.Ok?)
      && (s.Ok? ==> s.value == HardwareSelection(device.handle, device.properties, graphics.value,
                                                 utility.value, format.value, mode.value))
      && (graphics.Err? ==> s == Err(graphics.error))
      && (graphics.Ok? && utility.Err? ==> s == Err(utility.error))
      && (graphics.Ok? && utility.Ok? && format.Err? ==> s == Err(format.error))
      && (graphics.Ok? && utility.Ok? && format.Ok? && mode.Err? ==> s == Err(mode.error))
  {
    var graphics :- Hardware.SurfaceQueueFamily(device.queueFamilies);
    var utility :- UtilityQueueFamily(device.queueFamilies);
    var format :- SelectSurfaceFormat(device.surfaceFormats);
    var presentMode :- Hardware.SelectPresentMode(device.presentModes);
    Ok(HardwareSelection(device.handle, device.properties, graphics, utility, format, presentMode))
  }

  /** `score_hardware_config` of this revision (a `u32`). */
  function ScoreHardwareConfig(hardware: HardwareSelection): (s: u32)
    ensures s <= 2
    ensures s == 2 <==> hardware.physicalDeviceProperties.deviceType == DEVICE_TYPE_DISCRETE_GPU
    ensures s == 1 <==> hardware.physicalDeviceProperties.deviceType == DEVICE_TYPE_INTEGRATED_GPU
  {
    var t := hardware.physicalDeviceProperties.deviceType;
    if t == DEVICE_TYPE_DISCRETE_GPU then 2
    else if t == DEVICE_TYPE_INTEGRATED_GPU then 1
    else 0
  }

  /** The score as the key `max_by_key` compares. */
  function Key(hardware: HardwareSelection): int
  {
    ScoreHardwareConfig(hardware) as int
  }

  function Selections(devices: seq<PhysicalDevice>, deviceExtensions: seq<string>): (ss: seq<Result<HardwareSelection>>)
    ensures |ss| == |devices|
    ensures forall i :: 0 <= i < |devices| ==> ss[i] == SelectHardwarePhysicalDevice(devices[i], deviceExtensions)
  {
    seq(|devices|, i requires 0 <= i < |devices| => SelectHardwarePhysicalDevice(devices[i], deviceExtensions))
  }

  /** The devices that survive `filter_map`, in enumeration order. */
  function Survivors(devices: seq<PhysicalDevice>, deviceExtensions: seq<string>): seq<HardwareSelection> {
    Successes(Selections(devices, deviceExtensions))
  }

  /** `query` of this revision: a failed enumeration panics in `unwrap`;
      devices whose selection fails are dropped; the best score wins. */
  function Query(devices: Result<seq<PhysicalDevice>>, deviceExtensions: seq<string>): (r: Panicking<Result<HardwareSelection>>)
    ensures r.Panicked? <==> devices.Err?
    ensures devices.Err? ==> r.message == UNWRAP_PANIC
  {
    if devices.Err? then Panicked(UNWRAP_PANIC)
    else
      match MaxByKey(Survivors(devices.value, deviceExtensions), Key)
      case None => Returned(Err(Message(NO_SUITABLE_HARDWARE)))
      case Some(best) => Returned(Ok(best))
  }

  /** The query fails exactly when no device's selection succeeds. */
  lemma QueryFailsWithoutSurvivors(devices: seq<PhysicalDevice>, deviceExtensions: seq<string>)
    ensures var r := Query(Ok(devices), deviceExtensions).value;
      && (r.Err? <==> forall i :: 0 <= i < |devices| ==> SelectHardwarePhysicalDevice(devices[i], deviceExtensions).Err?)
      && (r.Err? ==> r.error == Message(NO_SUITABLE_HARDWARE))
  {
    var ss := Selections(devices, deviceExtensions);
    var surv := Survivors(devices, deviceExtensions);
    if surv != [] {
      assert surv[0] in surv;
    }
  }

  /** A result is a successful selection of some device, with the best score
      among the survivors, and no later survivor ties it. */
  lemma QueryPicksLastBest(devices: seq<PhysicalDevice>, deviceExtensions: seq<string>)
    ensures var r := Query(Ok(devices), deviceExtensions).value;
      var surv := Survivors(devices, deviceExtensions);
      r.Ok? ==>
        && Ok(r.value) in Selections(devices, deviceExtensions)
        && exists k ::
          && 0 <= k < |surv| && surv[k] == r.value
          && (forall j :: 0 <= j < |surv| ==> ScoreHardwareConfig(surv[j]) <= ScoreHardwareConfig(surv[k]))
          && (forall j :: k < j < |surv| ==> ScoreHardwareConfig(surv[j]) < ScoreHardwareConfig(surv[k]))
  {
    var surv := Survivors(devices, deviceExtensions);
    if |surv| > 0 {
      var k := MaxByKeyIndex(surv, Key);
      assert MaxByKey(surv, Key) == Some(surv[k]);
      assert Ok(surv[k]) in Selections(devices, deviceExtensions);
    }
  }

  /** A discrete GPU whose selection succeeds is always chosen over every
      other type. */
  lemma QueryPrefersDiscrete(devices: seq<PhysicalDevice>, deviceExtensions: seq<string>, i: nat)
    requires i < |devices|
    requires SelectHardwarePhysicalDevice(devices[i], deviceExtensions).Ok?
    requires devices[i].properties.deviceType == DEVICE_TYPE_DISCRETE_GPU
    ensures Query(Ok(devices), deviceExtensions).value.Ok?
    ensures Query(Ok(devices), deviceExtensions).value.value.physicalDeviceProperties.deviceType == DEVICE_TYPE_DISCRETE_GPU
  {
    var ss := Selections(devices, deviceExtensions);
    var surv := Survivors(devices, deviceExtensions);
    assert ss[i].Ok?;
    var s := ss[i].value;
    assert s in surv;
    assert ScoreHardwareConfig(s) == 2;
    QueryFailsWithoutSurvivors(devices, deviceExtensions);
  }

  /** The extension list has no effect on what this revision selects. */
  lemma QueryIgnoresExtensions(devices: Result<seq<PhysicalDevice>>, a: seq<string>, b: seq<string>)
    ensures Query(devices, a) == Query(devices, b)
  {
    if devices.Ok? {
      assert Selections(devices.value, a) == Selections(devices.value, b);
    }
  }
}
