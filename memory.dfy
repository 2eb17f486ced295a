/** Translation of a resource's Vulkan memory requirements into a
    `gpu_alloc::Request` (src/memory.rs). */
module Memory {
  import opened Vk

  type u64 = x: int | 0 <= x < 0x1_0000_0000_0000_0000

  /** `gpu_alloc::UsageFlags`, an 8-bit set of intents (device-local,
      host-visible, upload, download, ...). */
  type UsageFlags = bv8

  /** `VkMemoryRequirements` as reported by the driver. */
  datatype MemoryRequirements = MemoryRequirements(size: u64, alignment: u64, memoryTypeBits: u32)

  /** `gpu_alloc::Request`. */
  datatype Request = Request(size: u64, alignMask: u64, usage: UsageFlags, memoryTypes: u32)

  /** Which kind of resource a requirement was queried for. */
  datatype Kind = Image | Buffer

  /** The driver's answers to `get_image_memory_requirements` and
      `get_buffer_memory_requirements`, for every resource handle. */
  type RequirementsQuery = (Kind, Handle) -> MemoryRequirements

  /** `request_from_usage_requirements`. The alignment goes into `align_mask`
      unchanged: no `alignment - 1` is taken. */
  function RequestFromUsageRequirements(requirements: MemoryRequirements, usage: UsageFlags): (r: Request)
    ensures r.size == requirements.size
    ensures r.alignMask == requirements.alignment
    ensures r.usage == usage
    ensures r.memoryTypes == requirements.memoryTypeBits
  {
    Request(requirements.size, requirements.alignment, usage, requirements.memoryTypeBits)
  }

  /** What a request still says about the requirements it was built from. */
  function RequirementsOf(r: Request): MemoryRequirements {
    MemoryRequirements(r.size, r.alignMask, r.memoryTypes)
  }

  /** The translation loses nothing: the requirements and the usage can be read
      back from the request, so distinct inputs give distinct requests. */
  lemma RequestRoundTrip(requirements: MemoryRequirements, usage: UsageFlags)
    ensures RequirementsOf(RequestFromUsageRequirements(requirements, usage)) == requirements
    ensures RequestFromUsageRequirements(requirements, usage).usage == usage
  {
  }

  lemma RequestInjective(a: MemoryRequirements, ua: UsageFlags, b: MemoryRequirements, ub: UsageFlags)
    requires RequestFromUsageRequirements(a, ua) == RequestFromUsageRequirements(b, ub)
    ensures a == b && ua == ub
  {
    RequestRoundTrip(a, ua);
    RequestRoundTrip(b, ub);
  }

  /** `image_memory_req`: the mapping applied to the image's queried requirements. */
  function ImageMemoryReq(query: RequirementsQuery, image: Handle, usage: UsageFlags): (r: Request)
    ensures RequirementsOf(r) == query(Image, image) && r.usage == usage
  {
    RequestFromUsageRequirements(query(Image, image), usage)
  }

  /** `buffer_memory_req`: the mapping applied to the buffer's queried requirements. */
  function BufferMemoryReq(query: RequirementsQuery, buffer: Handle, usage: UsageFlags): (r: Request)
    ensures RequirementsOf(r) == query(Buffer, buffer) && r.usage == usage
  {
    RequestFromUsageRequirements(query(Buffer, buffer), usage)
  }

  /** The request `MemObject::<kind>::new` asks for. */
  function MemoryReq(kind: Kind, query: RequirementsQuery, resource: Handle, usage: UsageFlags): Request {
    if kind == Image then ImageMemoryReq(query, resource, usage) else BufferMemoryReq(query, resource, usage)
  }
}
