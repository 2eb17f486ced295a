/** src/default_engine.rs: the frame count, the engine's per-frame arrays,
    and the layer and extension lists `vk_setup` starts from. */
module DefaultEngine {
  import opened Vk

  /** Number of frames in flight; more than one lets the CPU record a frame
      while the GPU still executes the previous one. */
  const N_FRAMES: nat := 2

  const LAYER_KHRONOS_VALIDATION: string := "VK_LAYER_KHRONOS_validation"
  const EXT_DEBUG_UTILS_EXTENSION_NAME: string := "VK_EXT_debug_utils"

  /** `FrameSync` (src/lib.rs): what one frame in flight signals when done. */
  datatype FrameSync = FrameSync(semaphore: Handle, fence: Handle)

  /** `[vk::CommandBuffer; N_FRAMES]` and `[FrameSync; N_FRAMES]`: one slot per frame. */
  type CommandBuffers = s: seq<Handle> | |s| == N_FRAMES witness [0, 0]
  type FrameSyncs = s: seq<FrameSync> | |s| == N_FRAMES witness [FrameSync(0, 0), FrameSync(0, 0)]

  /** The fields of `Engine` that the frame count sizes. The engine's other
      fields (swapchain images, depth image, pools, render pass, materials,
      meshes) have no operations in this part of the crate. `frameIdx` is
      the frame that is currently writable, i.e. not in use by the GPU. */
  datatype Engine = Engine(commandBuffers: CommandBuffers, frameSync: FrameSyncs, frameIdx: nat)
  {
    /** Every frame in flight has both a command buffer and a sync slot. */
    function Slots(): (n: nat)
      ensures n == N_FRAMES && n > 1
      ensures n == |commandBuffers| && n == |frameSync|
    {
      |commandBuffers|
    }
  }

  /** `VulkanSetup`: the layers and extensions to enable, lists the caller
      may still extend before the instance and device are created. */
  class VulkanSetup {
    var instanceLayers: seq<string>
    var instanceExtensions: seq<string>
    var deviceLayers: seq<string>
    var deviceExtensions: seq<string>
    var apiVersion: nat

    constructor (instanceLayers: seq<string>, instanceExtensions: seq<string>,
                 deviceLayers: seq<string>, deviceExtensions: seq<string>, apiVersion: nat)
      ensures this.instanceLayers == instanceLayers && this.instanceExtensions == instanceExtensions
      ensures this.deviceLayers == deviceLayers && this.deviceExtensions == deviceExtensions
      ensures this.apiVersion == apiVersion
    {
      this.instanceLayers := instanceLayers;
      this.instanceExtensions := instanceExtensions;
      this.deviceLayers := deviceLayers;
      this.deviceExtensions := deviceExtensions;
      this.apiVersion := apiVersion;
    }
  }

  /** `vk_setup`. As written, `validation == true` enables nothing and
      `validation == false` enables the Khronos validation layer (instance and
      device) and the debug-utils instance extension. The API version is 1.0.0
      either way. */
  method VkSetup(validation: bool) returns (setup: VulkanSetup)
    ensures fresh(setup)
    ensures setup.apiVersion == MakeVersion(1, 0, 0) == 0x40_0000
    ensures validation ==>
      setup.instanceLayers == [] && setup.instanceExtensions == []
      && setup.deviceLayers == [] && setup.deviceExtensions == []
    ensures !validation ==>
      && setup.instanceLayers == [LAYER_KHRONOS_VALIDATION]
      && setup.instanceExtensions == [EXT_DEBUG_UTILS_EXTENSION_NAME]
      && setup.deviceLayers == [LAYER_KHRONOS_VALIDATION]
      && setup.deviceExtensions == []
    ensures LAYER_KHRONOS_VALIDATION in setup.instanceLayers <==> !validation
  {
    var apiVersion := MakeVersion(1, 0, 0);
    if validation {
      setup := new VulkanSetup([], [], [], [], apiVersion);
    } else {
      setup := new VulkanSetup([LAYER_KHRONOS_VALIDATION], [EXT_DEBUG_UTILS_EXTENSION_NAME],
                               [LAYER_KHRONOS_VALIDATION], [], apiVersion);
    }
  }
}
