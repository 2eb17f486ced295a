# klystron2 — hardware selection, memory objects and setup, modelled in Dafny

klystron2 is a small Vulkan renderer written in Rust on top of `erupt` and
`gpu_alloc`. Around its Vulkan calls it has a handful of decision rules and
one resource lifecycle. This project models them and proves what they do:

- **Hardware selection** (`src/windowed/hardware.rs`, module `Hardware`):
  - a first-fit search for a queue family with GRAPHICS that can present to
    the surface, and one for a family with COMPUTE and TRANSFER;
  - the exact-match surface format;
  - MAILBOX-else-FIFO present mode;
  - the device-extension check, which names the unsupported extensions;
  - device-type scoring;
  - the `max_by_key` pick over all enumerated devices.
- **The earlier selector** (`src/windowed.rs`, module `WindowedLegacy`).
  No module of the crate declares it. Its rules differ from the current
  ones:
  - GRAPHICS stands in for COMPUTE in the utility search;
  - the surface format falls back to the first one listed;
  - devices that fail are dropped;
  - the requested extensions are never checked;
  - a failed enumeration panics.

  Lemmas relate it to the current selector.
- **Swapchain image count and window extensions** (`src/windowed/mod.rs`,
  module `Windowed`). `Extensions` changes a `VulkanSetup` object in place.
- **Memory objects** (`src/mem_objects.rs`, module `MemObjects`). A class
  holds the resource, its view, the bound memory block and a drop bomb.
  `New` and `Free` run against an abstract `Core` (module `GpuCore`) that
  logs device calls and keeps a ghost set of live allocator blocks.
- **Memory requests** (`src/memory.rs`, module `Memory`) and **setup
  lists** (`src/default_engine.rs`, module `DefaultEngine`).

Shared modules:

- `Vk` holds the Vulkan constants and handles, plus the `Result`, `Option`
  and `Panicking` outcome types.
- `Iter` models the three Rust iterator adaptors the selectors use:
  - `find` returns the first match;
  - `max_by_key` returns the **last** of equal maxima;
  - `filter_map(.ok())` keeps the successes in order.

Every Vulkan query and FFI call is an input of the model: queue-family
flag sets, per-family surface-support answers (each a `Result`), format,
present-mode and extension lists, device types, and the success or failure
of each create, bind and allocate call. Handles are natural numbers. An
`anyhow` error with a fixed text is `Message(text)`, and a Vulkan error
code is `Native(code)`. A Rust panic is the outcome value
`Panicked(message)`.

The model follows the code as written, including where it may surprise a reader:

- `max_by_key` gives ties to the last device, not the first.
- The current `select_surface_format` has no fallback format.
- `MemObject::new` leaks what earlier steps created when a later step
  fails.
- `vk_setup(true)` enables nothing, and `vk_setup(false)` enables the
  validation layer.
- `request_from_usage_requirements` copies `alignment` into `align_mask`
  verbatim, with no `- 1`.
- The earlier selector's utility search fails with the graphics search's
  text.

`find_surface_queue_family` and `select_present_mode` are the same code in
both selector revisions (`src/windowed.rs:31-54` and `:101-114`). So
`WindowedLegacy` uses `Hardware.SurfaceQueueFamily` and
`Hardware.SelectPresentMode`. `Core::deallocate` is called by `free` but is
not defined in `src/core.rs`. It is modelled like `Core::allocate`: a
poisoned allocator lock is an error.

## Model

| member | source | states |
|---|---|---|
| Vk.MakeVersion | src/default_engine.rs:29 | the packed version decodes back to its major, minor and patch fields |
| Iter.Find | src/windowed/hardware.rs:74-79 | a found element satisfies the predicate and no earlier element does; nothing is found exactly when no element satisfies it |
| Iter.MaxByKeyIndex | src/windowed/hardware.rs:186-189 | the chosen index has the greatest key and every later element's key is strictly smaller, so ties go to the last |
| Iter.MaxByKey | src/windowed/hardware.rs:186-190 | empty input gives None; otherwise the result is an element whose key no element exceeds |
| Iter.Successes | src/windowed.rs:175-178 | exactly the successful values survive: every survivor was an `Ok` of the input and every `Ok` value survives |
| Iter.SuccessesAppend | src/windowed.rs:175-178 | dropping failures distributes over concatenation, so survivors keep enumeration order |
| Memory.RequestFromUsageRequirements | src/memory.rs:28-38 | size, align mask, usage and memory types are copied field for field, with the alignment unadjusted |
| Memory.RequestRoundTrip | src/memory.rs:28-38 | the requirements can be read back unchanged from the request, along with the usage |
| Memory.RequestInjective | src/memory.rs:28-38 | different requirements or usages never produce the same request |
| Memory.ImageMemoryReq | src/memory.rs:5-14 | the request carries the queried requirements of that image and the caller's usage |
| Memory.BufferMemoryReq | src/memory.rs:17-26 | the request carries the queried requirements of that buffer and the caller's usage |
| GpuCore.Core.constructor | src/windowed/mod.rs:103-116 | a fresh core has an unpoisoned lock, an empty call log and no live blocks |
| GpuCore.Core.Allocate | src/core.rs:27-33 | a poisoned lock gives the "mutex poisoned" error and a refused request gives the allocator's error, both with no change; otherwise a new block not live before becomes live and is logged |
| GpuCore.Core.Deallocate | src/mem_objects.rs:58-59 | a poisoned lock is an error with no change; otherwise the block stops being live and the call is logged |
| GpuCore.Core.CreateResource | src/mem_objects.rs:36 | a failing create returns its code with no change; otherwise a new handle is returned and logged |
| GpuCore.Core.BindMemory | src/mem_objects.rs:38-42 | a failing bind returns its code with no change; otherwise the bind of that resource at the block's memory and offset is logged |
| GpuCore.Core.CreateView | src/mem_objects.rs:43-45 | a failing view creation returns its code with no change; otherwise a new view of that resource is returned and logged |
| GpuCore.Core.DestroyResource | src/mem_objects.rs:56 | the destroy call is logged and the allocator is untouched |
| GpuCore.Core.DestroyView | src/mem_objects.rs:57 | the view destroy call is logged and the allocator is untouched |
| MemObjects.MemObject.constructor | src/mem_objects.rs:46-51 | a new object holds its block with the bomb armed |
| MemObjects.MemObject.New | src/mem_objects.rs:30-52 | steps run create, allocate for that resource's own request, bind at the block's offset, view; the first failure's error is returned, and what earlier steps made stays behind; success yields an armed object holding a newly live block; the handle counter advances once per handle made (none, one, two or three) |
| MemObjects.MemObject.Free | src/mem_objects.rs:54-62 | resource then view are destroyed; a second free panics with the double-free text and deallocates nothing; a failed deallocation panics through unwrap; a completed free gives the block back, empties `memory` and defuses the bomb; no path makes a new handle |
| MemObjects.MemObject.Drop | src/mem_objects.rs:16 | dropping panics with the "dropped without calling free()" text exactly when the bomb is armed and the thread is not already panicking |
| MemObjects.Lifecycle | src/mem_objects.rs:54-62 | new then free leaves the allocator's live blocks as they were and has made three handles; a second free panics; dropping afterwards is quiet |
| DefaultEngine.Engine.Slots | src/default_engine.rs:7-19 | there are two frames in flight, each with one command buffer and one sync slot |
| DefaultEngine.VulkanSetup.constructor | src/default_engine.rs:31-37 | the setup keeps the given lists and API version |
| DefaultEngine.VkSetup | src/default_engine.rs:26-47 | API version is 1.0.0; `true` gives four empty lists; `false` gives the validation layer on instance and device and debug-utils on the instance; the layer is present exactly when the flag is false |
| Windowed.ImageCount | src/windowed/mod.rs:37-43 | no maximum gives one more than the minimum; with a maximum, the smaller of the two; never below the minimum when the minimum is within the maximum |
| Windowed.Extensions | src/windowed/mod.rs:24-34 | on a failed enumeration the error is returned and the setup is untouched; otherwise the required names follow the existing instance extensions, swapchain is appended to the device extensions, and the rest is unchanged |
| Hardware.FindSurfaceQueueFamily | src/windowed/hardware.rs:17-40 | the loop returns what the first-fit search over the families defines |
| Hardware.SurfaceSearchSkips | src/windowed/hardware.rs:27-38 | families whose query succeeded but that do not qualify are stepped over without changing the outcome |
| Hardware.SurfaceQueueFamilyStops | src/windowed/hardware.rs:27-39 | the search ends at the first family it does not pass over: its index if it qualifies, its query error if the query failed, the "no graphics queue family" error past the end |
| Hardware.SurfaceSearchFound | src/windowed/hardware.rs:27-38 | from any start, a found family has GRAPHICS and answers true, and every family before it was passed over |
| Hardware.SurfaceQueueFamilyIsFirst | src/windowed/hardware.rs:27-39 | the graphics family is the lowest index with GRAPHICS that can present, and every earlier query succeeded |
| Hardware.UtilityQueueFamily | src/windowed/hardware.rs:52-60 | the utility family is the lowest index with COMPUTE and TRANSFER; the "no utility queue family" error exactly when none has both |
| Hardware.FindUtilityQueueFamily | src/windowed/hardware.rs:43-61 | the loop returns what the first-fit search defines |
| Hardware.SameFamilyForBoth | src/windowed/hardware.rs:17-61 | a family with GRAPHICS, COMPUTE and TRANSFER that can present serves as both the graphics and the utility family |
| Hardware.SelectSurfaceFormat | src/windowed/hardware.rs:64-84 | a query error is passed on; the result is the preferred B8G8R8A8_SRGB / SRGB_NONLINEAR pair exactly when it is listed, otherwise the "no suitable surface format" error |
| Hardware.SelectPresentMode | src/windowed/hardware.rs:87-100 | it fails only when the query fails; the mode is MAILBOX exactly when listed, otherwise FIFO |
| Hardware.CheckSupportedExtensions | src/windowed/hardware.rs:103-132 | the loop that collects unsupported names returns what the check defines |
| Hardware.UnsupportedMembers | src/windowed/hardware.rs:113-123 | a name is collected exactly when it was requested and is not supported |
| Hardware.UnsupportedAppend | src/windowed/hardware.rs:113-123 | the collected names keep request order |
| Hardware.ExtensionCheckSpec | src/windowed/hardware.rs:103-132 | a query error is passed on; Ok with the whole supported list exactly when every requested name is supported; otherwise the error lists the unsupported names, at least one |
| Hardware.ScoreHardwareConfig | src/windowed/hardware.rs:163-169 | the score lies in 0..2; it is 2 exactly for a discrete GPU and 1 exactly for an integrated one |
| Hardware.SelectHardwarePhysicalDevice | src/windowed/hardware.rs:135-148 | selection succeeds exactly when the graphics and then the utility search do, holding both families; otherwise the first failure is the result |
| Hardware.SelectSurfaceInfo | src/windowed/hardware.rs:151-160 | succeeds exactly when the format and then the present-mode step do, giving the preferred format and the chosen mode; otherwise the first failure is the result |
| Hardware.Candidate | src/windowed/hardware.rs:180-185 | a device is a candidate exactly when the graphics, utility, format, present-mode and extension steps all succeed, and then it holds their results; otherwise the earliest failure is its result |
| Hardware.Key | src/windowed/hardware.rs:186-189 | a failed candidate ranks at `i32::MIN`, a successful one at its score in 0..2 |
| Hardware.Candidates | src/windowed/hardware.rs:177-185 | there is one candidate per enumerated device, in order |
| Hardware.Query | src/windowed/hardware.rs:172-191 | an enumeration error is returned; no devices gives "No physical devices found" |
| Hardware.QueryPicksLastBest | src/windowed/hardware.rs:177-190 | the result is some device's candidate whose key no device beats, and every later device's key is strictly lower |
| Hardware.QueryBestScore | src/windowed/hardware.rs:186-190 | any passing device beats every failing one, and a passing result has the highest score among passing devices |
| Hardware.QueryAllFail | src/windowed/hardware.rs:186-190 | when every device fails, the query fails with the last device's error |
| Hardware.QueryPrefersDiscrete | src/windowed/hardware.rs:163-190 | a passing discrete GPU means a discrete GPU is selected, wherever it is enumerated |
| Hardware.QuerySingleDiscreteDevice | src/windowed/hardware.rs:172-191 | a lone discrete GPU with one all-purpose family, the preferred format, FIFO and the requested extension is selected, with family 0 for both roles |
| WindowedLegacy.UtilityQueueFamily | src/windowed.rs:66-74 | the utility family is the lowest index with GRAPHICS and TRANSFER; an error with the graphics search's text exactly when none has both |
| WindowedLegacy.FindUtilityQueueFamily | src/windowed.rs:57-75 | the loop returns what the first-fit search defines |
| WindowedLegacy.ComputeNotConsulted | src/windowed.rs:67-70 | setting or clearing COMPUTE never changes whether a family qualifies |
| WindowedLegacy.UtilityRevisionsDiffer | src/windowed.rs:67-70 | a GRAPHICS+TRANSFER family qualifies only in this revision, and a COMPUTE+TRANSFER family only in the current one |
| WindowedLegacy.SelectSurfaceFormat | src/windowed.rs:78-99 | a query error is passed on; the result is the preferred pair when listed, otherwise the first listed format; an error only for an empty list |
| WindowedLegacy.SurfaceFormatRevisionsAgree | src/windowed.rs:88-98 | wherever the current revision finds a format this one finds the same, and this one succeeds on every non-empty list |
| WindowedLegacy.CheckSupportedExtensions | src/windowed.rs:116-138 | Ok with the supported list exactly when every requested name is supported; otherwise the "Extension " error without names |
| WindowedLegacy.ExtensionRevisionsAgree | src/windowed.rs:126-137 | both revisions' checks pass on the same inputs and then return the same list |
| WindowedLegacy.SelectHardwarePhysicalDevice | src/windowed.rs:140-156 | selection succeeds exactly when the graphics, utility, format and present-mode steps do, in that order, and then holds their results; otherwise the first failure is the result |
| WindowedLegacy.ScoreHardwareConfig | src/windowed.rs:158-164 | the unsigned score is at most 2; it is 2 exactly for a discrete GPU and 1 exactly for an integrated one |
| WindowedLegacy.Selections | src/windowed.rs:172-178 | there is one selection per enumerated device, in order |
| WindowedLegacy.Query | src/windowed.rs:167-181 | it panics through unwrap exactly when enumeration fails |
| WindowedLegacy.QueryFailsWithoutSurvivors | src/windowed.rs:175-180 | the query fails, with "No suitable hardware found for this configuration", exactly when every device's selection fails |
| WindowedLegacy.QueryPicksLastBest | src/windowed.rs:175-179 | a result is a successful selection of some device, with the greatest score among survivors, and no later survivor ties it |
| WindowedLegacy.QueryPrefersDiscrete | src/windowed.rs:175-180 | a discrete GPU whose selection succeeds means a discrete GPU is selected |
| WindowedLegacy.QueryIgnoresExtensions | src/windowed.rs:140-156 | the requested extension list has no effect on the query's outcome |

## Left out

- Vulkan itself. The model never represents instance, device, surface,
  image, buffer or view creation, binding, destruction, or the
  property/format/extension queries. Their results are inputs, and their
  handles are numbers.
- `basics` (src/windowed/mod.rs:46-119) is instance and device construction
  plumbing with no decision rule.
- The `gpu_alloc` allocator internals and the concurrency of its mutex.
  `Core` keeps only a poisoned flag, a counter for new handles, a call log
  and the ghost set of live blocks. A refused allocation is a parameter.
- `FrameSync`, `MeshBundle` and `Material` (src/lib.rs) are struct
  declarations with no operations. `Engine`'s fields other than its two
  per-frame arrays and the frame index have no operations either.
- Frame advancing and swapchain acquire, present or recreate: no such code
  exists in these files. `src/main.rs` is process startup and is not part
  of this model.
- C string and pointer handling in the extension checks. Extension names
  are strings.
- The contents of the create-info builders passed to `MemObject::new`.
- The Rust `Debug` formatting of error payloads. The unsupported-extension
  error carries the list of names rather than its formatted text. The
  unwrap panic carries only the fixed prefix of the standard library's
  message, not the error it wraps.
- Windowed.ImageCount: requires `minImageCount < 0xFFFF_FFFF`. At the `u32`
  maximum, `min_image_count + 1` overflows, which panics in debug builds
  and wraps to 0 in release builds. That behaviour is not modelled.
- MemObjects.MemObject.Drop: whether the thread is already unwinding is a
  parameter. The `drop_bomb` crate itself is not part of this model.
- The `Image` and `Buffer` impls of `MemObject` are one class with a `Kind`
  constant. They differ only in which device calls they make and in their
  message texts, both of which the model keeps per kind.
