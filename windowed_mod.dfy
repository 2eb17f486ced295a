/** src/windowed/mod.rs: the preferred surface format, the swapchain image
    count, and the extensions a window adds to a setup. */
module Windowed {
  import opened Vk
  import opened DefaultEngine

  /** The surface format and color space the windowed backend wants. */
  const COLOR_FORMAT: Format := FORMAT_B8G8R8A8_SRGB
  const COLOR_SPACE: ColorSpace := COLOR_SPACE_SRGB_NONLINEAR_KHR

  const KHR_SWAPCHAIN_EXTENSION_NAME: string := "VK_KHR_swapchain"

  /** The two fields of `SurfaceCapabilitiesKHR` the image count reads;
      a `maxImageCount` of 0 means there is no maximum. */
  datatype SurfaceCapabilities = SurfaceCapabilities(minImageCount: u32, maxImageCount: u32)

  /** `image_count`: one image more than the minimum, capped by the maximum
      when there is one. `min_image_count + 1` must not overflow a `u32`. */
  function ImageCount(caps: SurfaceCapabilities): (n: u32)
    requires caps.minImageCount < 0xFFFF_FFFF
    ensures caps.maxImageCount == 0 ==> n == caps.minImageCount + 1
    ensures caps.maxImageCount > 0 ==> n <= caps.maxImageCount
    ensures caps.maxImageCount > 0 ==>
      n == if caps.minImageCount + 1 <= caps.maxImageCount then caps.minImageCount + 1 else caps.maxImageCount
    ensures caps.minImageCount <= caps.maxImageCount || caps.maxImageCount == 0 ==> n >= caps.minImageCount
    ensures n <= caps.minImageCount + 1
  {
    var count := caps.minImageCount + 1;
    if caps.maxImageCount > 0 && count > caps.maxImageCount then caps.maxImageCount else count
  }

  /** `extensions`: append the instance extensions the window requires (as
      reported by `enumerate_required_extensions`, given here as `required`)
      to the setup, then the swapchain extension to its device extensions.
      If the enumeration failed, its error is returned and the setup is left
      as it was. */
  method Extensions(setup: VulkanSetup, required: Result<seq<string>>) returns (r: Result<()>)
    modifies setup
    ensures r.Ok? <==> required.Ok?
    ensures required.Err? ==> r == Err(required.error) && unchanged(setup)
    ensures required.Ok? ==>
      && setup.instanceExtensions == old(setup.instanceExtensions) + required.value
      && setup.deviceExtensions == old(setup.deviceExtensions) + [KHR_SWAPCHAIN_EXTENSION_NAME]
      && setup.instanceLayers == old(setup.instanceLayers)
      && setup.deviceLayers == old(setup.deviceLayers)
      && setup.apiVersion == old(setup.apiVersion)
  {
    var names :- required;
    setup.instanceExtensions := setup.instanceExtensions + names;
    setup.deviceExtensions := setup.deviceExtensions + [KHR_SWAPCHAIN_EXTENSION_NAME];
    r := Ok(());
  }
}
