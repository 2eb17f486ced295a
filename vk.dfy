/** Vulkan-side vocabulary shared by the whole model: the few enumerations and
    flag bits the selection rules compare against, opaque handles, and the
    error and panic outcomes of the crate's functions.

    Enumerations are the Vulkan 1.0 numeric values; `erupt` wraps each of them
    in a transparent `i32` newtype, so they are kept open (any `i32`) rather
    than closed datatypes: a driver may report values this model never names. */
module Vk {

  type i32 = x: int | -0x8000_0000 <= x < 0x8000_0000
  type u32 = x: int | 0 <= x < 0x1_0000_0000

  const I32_MIN: i32 := -0x8000_0000

  /** An opaque Vulkan handle (image, buffer, view, device memory, ...). */
  type Handle = nat

  /** `VkFormat` and the two values the crate names. */
  type Format = i32
  const FORMAT_B8G8R8A8_SRGB: Format := 50

  /** `VkColorSpaceKHR`. */
  type ColorSpace = i32
  const COLOR_SPACE_SRGB_NONLINEAR_KHR: ColorSpace := 0

  /** `VkPresentModeKHR`. */
  type PresentMode = i32
  const PRESENT_MODE_IMMEDIATE_KHR: PresentMode := 0
  const PRESENT_MODE_MAILBOX_KHR: PresentMode := 1
  const PRESENT_MODE_FIFO_KHR: PresentMode := 2

  /** `VkPhysicalDeviceType`. */
  type DeviceType = i32
  const DEVICE_TYPE_OTHER: DeviceType := 0
  const DEVICE_TYPE_INTEGRATED_GPU: DeviceType := 1
  const DEVICE_TYPE_DISCRETE_GPU: DeviceType := 2
  const DEVICE_TYPE_VIRTUAL_GPU: DeviceType := 3
  const DEVICE_TYPE_CPU: DeviceType := 4

  /** `VkQueueFlags`, a 32-bit mask. */
  type QueueFlags = bv32
  const QUEUE_GRAPHICS: QueueFlags := 0x1
  const QUEUE_COMPUTE: QueueFlags := 0x2
  const QUEUE_TRANSFER: QueueFlags := 0x4

  /** `QueueFlags::contains`: every bit of `bits` is set in `flags`. */
  predicate Contains(flags: QueueFlags, bits: QueueFlags) {
    flags & bits == bits
  }

  /** `VK_MAKE_VERSION` of Vulkan 1.0. */
  function MakeVersion(major: nat, minor: nat, patch: nat): (v: nat)
    requires minor < 0x400 && patch < 0x1000
    ensures v / 0x40_0000 == major && (v / 0x1000) % 0x400 == minor && v % 0x1000 == patch
  {
    major * 0x40_0000 + minor * 0x1000 + patch
  }

  datatype SurfaceFormat = SurfaceFormat(format: Format, colorSpace: ColorSpace)

  /** Everything that can come back as the `Err` of an `anyhow::Result`. */
  datatype Error =
    | Native(code: int)                        // a failed Vulkan call, carrying its `VkResult`
    | Message(text: string)                    // `format_err!` with a fixed text
    | UnsupportedExtensions(names: seq<string>) // "Unsupported extensions requested: {:?}"
    | Allocation(reason: nat)                  // a `gpu_alloc::AllocationError`

  /** `anyhow::Result<T>`; `:-` plays the part of Rust's `?`. */
  datatype Result<T> = Ok(value: T) | Err(error: Error) {
    predicate IsFailure() {
      Err?
    }

    function PropagateFailure<U>(): Result<U>
      requires Err?
    {
      Err(error)
    }

    function Extract(): T
      requires Ok?
    {
      value
    }
  }

  datatype Option<T> = None | Some(value: T) {
    function UnwrapOr(default: T): (r: T)
      ensures Some? ==> r == value
      ensures None? ==> r == default
    {
      if Some? then value else default
    }
  }

  /** A call either returns normally or panics with a message. Unwinding is
      not modelled further: after `Panicked` the caller's thread is gone. */
  datatype Panicking<T> = Returned(value: T) | Panicked(message: string)

  /** The text `Result::unwrap` panics with (the `Debug` rendering of the
      error that follows it is not modelled). */
  const UNWRAP_PANIC: string := "called `Result::unwrap()` on an `Err` value"
}
