/** `MemObject<Image>` and `MemObject<Buffer>` (src/mem_objects.rs): a
    resource, the one view onto it, the memory block bound to it, and a drop
    bomb that goes off if the object is dropped before `free`.

    The two Rust impls differ only in which device calls they make and in
    their panic texts, so one class carries the kind as a constant. */
module MemObjects {
  import opened Vk
  import opened Memory
  import opened GpuCore

  /** The drop bomb's message. */
  function DropMessage(kind: Kind): string {
    if kind == Image then "Image memory object dropped without calling free()!"
    else "Buffer memory object dropped without calling free()!"
  }

  /** The `expect` message of a second `free`. */
  function DoubleFreeMessage(kind: Kind): string {
    if kind == Image then "Double free of image memory" else "Double free of buffer memory"
  }

  class MemObject {
    const kind: Kind
    /** The image or buffer. */
    const instance: Handle
    /** The bound block; `None` once `free` has taken it. */
    var memory: Option<Block>
    /** The image view or buffer view. */
    const view: Handle
    /** Whether the drop bomb is still armed. */
    var armed: bool

    /** A block is only ever held with the bomb armed. */
    ghost predicate Valid()
      reads this
    {
      memory.Some? ==> armed
    }

    constructor (kind: Kind, instance: Handle, block: Block, view: Handle)
      ensures Valid()
      ensures this.kind == kind && this.instance == instance && this.view == view
      ensures memory == Some(block) && armed
    {
      this.kind := kind;
      this.instance := instance;
      this.memory := Some(block);
      this.view := view;
      this.armed := true;
    }

    /** `MemObject::<kind>::new`: create the resource, allocate for the request
        derived from it, bind the block at its offset, create a view of the
        resource. The first failing step's error is returned at once, and
        nothing made by the earlier steps is destroyed or given back. */
    static method New(core: Core, kind: Kind, usage: UsageFlags,
                      create: Status, placement: Placement, bind: Status, makeView: Status)
      returns (r: Result<MemObject>)
      requires core.Valid()
      modifies core
      ensures core.Valid() && core.poisoned == old(core.poisoned)
      ensures r.Ok? <==> create.Success? && !old(core.poisoned) && placement.Placed? && bind.Success? && makeView.Success?
      // step 1 fails
      ensures create.Failure? ==>
        && r == Err(Native(create.code))
        && core.log == old(core.log) && core.live == old(core.live) && core.nextId == old(core.nextId)
      // step 2 fails: the resource is left behind
      ensures create.Success? && (old(core.poisoned) || placement.Refused?) ==>
        && r == (if old(core.poisoned) then Err(Message(POISONED)) else Err(Allocation(placement.reason)))
        && core.log == old(core.log) + [Created(kind, old(core.nextId))]
        && core.live == old(core.live)
        && core.nextId == old(core.nextId) + 1
      // steps 3 and 4: the block is allocated for the resource's own request
      ensures create.Success? && !old(core.poisoned) && placement.Placed? ==>
        var res := old(core.nextId);
        var block := Block(res + 1, placement.memory, placement.offset, MemoryReq(kind, core.requirements, res, usage).size);
        var made := [Created(kind, res), Allocated(MemoryReq(kind, core.requirements, res, usage), block)];
        && block !in old(core.live)
        && core.live == old(core.live) + {block}
        && core.nextId == old(core.nextId) + (if r.Ok? then 3 else 2)
        && (bind.Failure? ==> r == Err(Native(bind.code)) && core.log == old(core.log) + made)
        && (bind.Success? && makeView.Failure? ==>
              r == Err(Native(makeView.code))
              && core.log == old(core.log) + made + [Bound(kind, res, block.memory, block.offset)])
        && (r.Ok? ==>
              && fresh(r.value) && r.value.Valid()
              && r.value.kind == kind && r.value.instance == res && r.value.view == res + 2
              && r.value.memory == Some(block) && r.value.armed
              && core.log == old(core.log) + made
                   + [Bound(kind, res, block.memory, block.offset), ViewCreated(kind, res, res + 2)])
    {
      var instance :- core.CreateResource(kind, create);
      var request := MemoryReq(kind, core.requirements, instance, usage);
      var block :- core.Allocate(request, placement);
      var _ :- core.BindMemory(kind, instance, block, bind);
      var view :- core.CreateView(kind, instance, makeView);
      var obj := new MemObject(kind, instance, block, view);
      r := Ok(obj);
    }

    /** `MemObject::<kind>::free`: destroy the resource, then the view, then
        take the block and give it back. Without a block (a second `free`)
        the `expect` panics after the two destroy calls; a failing
        deallocation panics through `unwrap` with the block already taken.
        Only a completed `free` defuses the bomb. */
    method Free(core: Core) returns (o: Panicking<()>)
      requires core.Valid() && Valid()
      modifies this, core
      ensures core.Valid() && Valid() && memory.None?
      ensures core.poisoned == old(core.poisoned) && core.nextId == old(core.nextId)
      ensures old(memory).None? ==>
        && o == Panicked(DoubleFreeMessage(kind))
        && core.log == old(core.log) + [Destroyed(kind, instance), ViewDestroyed(kind, view)]
        && core.live == old(core.live) && armed == old(armed)
      ensures old(memory).Some? && old(core.poisoned) ==>
        && o == Panicked(UNWRAP_PANIC)
        && core.log == old(core.log) + [Destroyed(kind, instance), ViewDestroyed(kind, view)]
        && core.live == old(core.live) && armed
      ensures old(memory).Some? && !old(core.poisoned) ==>
        && o == Returned(())
        && core.log == old(core.log) + [Destroyed(kind, instance), ViewDestroyed(kind, view), Deallocated(old(memory).value)]
        && core.live == old(core.live) - {old(memory).value}
        && !armed
    {
      core.DestroyResource(kind, instance);
      core.DestroyView(kind, view);
      if memory.None? {
        return Panicked(DoubleFreeMessage(kind));
      }
      var block := memory.value;
      memory := None;
      var d := core.Deallocate(block);
      if d.Err? {
        return Panicked(UNWRAP_PANIC);
      }
      armed := false;
      o := Returned(());
    }

    /** Dropping the object: the armed bomb panics, unless the thread is
        already unwinding from another panic (then `drop_bomb` stays quiet). */
    method Drop(unwinding: bool) returns (o: Panicking<()>)
      ensures o.Panicked? <==> armed && !unwinding
      ensures o.Panicked? ==> o.message == DropMessage(kind)
    {
      if armed && !unwinding {
        o := Panicked(DropMessage(kind));
      } else {
        o := Returned(());
      }
    }
  }

  /** The intended life of a memory object: `new` succeeds, `free` succeeds,
      and the allocator's live blocks are what they were before; a second
      `free` panics without touching the allocator; dropping is then quiet. */
  method Lifecycle(core: Core, kind: Kind, usage: UsageFlags, placement: Placement)
    returns (first: Panicking<()>, second: Panicking<()>, dropped: Panicking<()>)
    requires core.Valid() && !core.poisoned && placement.Placed?
    modifies core
    ensures first.Returned? && dropped.Returned?
    ensures second == Panicked(DoubleFreeMessage(kind))
    ensures core.live == old(core.live) && core.nextId == old(core.nextId) + 3
  {
    var r := MemObject.New(core, kind, usage, Success, placement, Success, Success);
    var obj := r.value;
    first := obj.Free(core);
    second := obj.Free(core);
    dropped := obj.Drop(false);
  }
}
