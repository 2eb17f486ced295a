/** The shared `Core` as the memory objects see it: a logical device whose
    calls are recorded in order, and a `gpu_alloc` allocator behind a mutex.

    The device and the allocator are abstract. What a driver or the
    allocator decides (a status code, where a block is placed) is an input
    to the call; what the model keeps is the order of the calls, the handles
    they hand out, and a ghost set of the blocks currently allocated. */
module GpuCore {
  import opened Vk
  import opened Memory

  /** A `gpu_alloc::MemoryBlock`: the device memory it lives in, its offset
      there and its size. `id` tells apart blocks that the allocator
      places identically at different times. */
  datatype Block = Block(id: nat, memory: Handle, offset: u64, size: u64)

  /** The outcome of a Vulkan call that returns a `VkResult`. */
  datatype Status = Success | Failure(code: int)

  /** What the allocator decides for one request. */
  datatype Placement = Placed(memory: Handle, offset: u64) | Refused(reason: nat)

  /** One call made through the core, as it appears in the call log. */
  datatype Call =
    | Created(kind: Kind, resource: Handle)
    | Allocated(request: Request, block: Block)
    | Bound(kind: Kind, resource: Handle, memory: Handle, offset: u64)
    | ViewCreated(kind: Kind, resource: Handle, view: Handle)
    | Destroyed(kind: Kind, resource: Handle)
    | ViewDestroyed(kind: Kind, view: Handle)
    | Deallocated(block: Block)

  /** The error `Core::allocator` reports for a poisoned lock (src/core.rs). */
  const POISONED: string := "GpuAllocator mutex poisoned"

  class Core {
    /** The driver's memory requirements for each resource. */
    const requirements: RequirementsQuery
    /** Whether the allocator's mutex is poisoned. */
    var poisoned: bool
    /** Source of fresh handles and block identities. */
    var nextId: nat
    /** Every call that took effect, oldest first. */
    var log: seq<Call>
    /** The blocks allocated and not yet given back. */
    ghost var live: set<Block>

    ghost predicate Valid()
      reads this
    {
      forall b :: b in live ==> b.id < nextId
    }

    constructor (requirements: RequirementsQuery)
      ensures Valid()
      ensures this.requirements == requirements
      ensures !poisoned && log == [] && live == {}
    {
      this.requirements := requirements;
      poisoned := false;
      nextId := 0;
      log := [];
      live := {};
    }

    /** `Core::allocate`: lock the allocator (an error if poisoned), then ask
        it for a block. A block it hands out was not live before. */
    method Allocate(request: Request, placement: Placement) returns (r: Result<Block>)
      requires Valid()
      modifies this
      ensures Valid()
      ensures old(poisoned) ==> r == Err(Message(POISONED)) && unchanged(this)
      ensures !old(poisoned) && placement.Refused? ==> r == Err(Allocation(placement.reason)) && unchanged(this)
      ensures !old(poisoned) && placement.Placed? ==>
        && r == Ok(Block(old(nextId), placement.memory, placement.offset, request.size))
        && r.value !in old(live)
        && live == old(live) + {r.value}
        && log == old(log) + [Allocated(request, r.value)]
        && poisoned == old(poisoned) && nextId == old(nextId) + 1
    {
      if poisoned {
        return Err(Message(POISONED));
      }
      match placement
      case Refused(reason) =>
        r := Err(Allocation(reason));
      case Placed(memory, offset) =>
        var block := Block(nextId, memory, offset, request.size);
        nextId := nextId + 1;
        live := live + {block};
        log := log + [Allocated(request, block)];
        r := Ok(block);
    }

    /** `Core::deallocate`: lock the allocator (an error if poisoned), then
        give the block back. */
    method Deallocate(block: Block) returns (r: Result<()>)
      requires Valid()
      modifies this
      ensures Valid()
      ensures old(poisoned) ==> r == Err(Message(POISONED)) && unchanged(this)
      ensures !old(poisoned) ==>
        && r == Ok(())
        && live == old(live) - {block}
        && log == old(log) + [Deallocated(block)]
        && poisoned == old(poisoned) && nextId == old(nextId)
    {
      if poisoned {
        return Err(Message(POISONED));
      }
      live := live - {block};
      log := log + [Deallocated(block)];
      r := Ok(());
    }

    /** `create_image` / `create_buffer`. */
    method CreateResource(kind: Kind, status: Status) returns (r: Result<Handle>)
      requires Valid()
      modifies this
      ensures Valid() && live == old(live) && poisoned == old(poisoned)
      ensures status.Failure? ==> r == Err(Native(status.code)) && unchanged(this)
      ensures status.Success? ==>
        r == Ok(old(nextId)) && nextId == old(nextId) + 1 && log == old(log) + [Created(kind, r.value)]
    {
      if status.Failure? {
        return Err(Native(status.code));
      }
      r := Ok(nextId);
      nextId := nextId + 1;
      log := log + [Created(kind, r.value)];
    }

    /** `bind_image_memory` / `bind_buffer_memory` at the block's memory and offset. */
    method BindMemory(kind: Kind, resource: Handle, block: Block, status: Status) returns (r: Result<()>)
      modifies this
      ensures live == old(live) && poisoned == old(poisoned) && nextId == old(nextId)
      ensures status.Failure? ==> r == Err(Native(status.code)) && unchanged(this)
      ensures status.Success? ==> r == Ok(()) && log == old(log) + [Bound(kind, resource, block.memory, block.offset)]
    {
      if status.Failure? {
        return Err(Native(status.code));
      }
      log := log + [Bound(kind, resource, block.memory, block.offset)];
      r := Ok(());
    }

    /** `create_image_view` / `create_buffer_view` for `resource`. */
    method CreateView(kind: Kind, resource: Handle, status: Status) returns (r: Result<Handle>)
      requires Valid()
      modifies this
      ensures Valid() && live == old(live) && poisoned == old(poisoned)
      ensures status.Failure? ==> r == Err(Native(status.code)) && unchanged(this)
      ensures status.Success? ==>
        r == Ok(old(nextId)) && nextId == old(nextId) + 1 && log == old(log) + [ViewCreated(kind, resource, r.value)]
    {
      if status.Failure? {
        return Err(Native(status.code));
      }
      r := Ok(nextId);
      nextId := nextId + 1;
      log := log + [ViewCreated(kind, resource, r.value)];
    }

    /** `destroy_image` / `destroy_buffer`. */
    method DestroyResource(kind: Kind, resource: Handle)
      modifies this
      ensures live == old(live) && poisoned == old(poisoned) && nextId == old(nextId)
      ensures log == old(log) + [Destroyed(kind, resource)]
    {
      log := log + [Destroyed(kind, resource)];
    }

    /** `destroy_image_view` / `destroy_buffer_view`. */
    method DestroyView(kind: Kind, view: Handle)
      modifies this
      ensures live == old(live) && poisoned == old(poisoned) && nextId == old(nextId)
      ensures log == old(log) + [ViewDestroyed(kind, view)]
    {
      log := log + [ViewDestroyed(kind, view)];
    }
  }
}
