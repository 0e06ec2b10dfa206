/** The memory owner and the executor that the tests give to the GPU allocator, as
    objects. Each method is tied to the operation on values that it carries out. */
module GpuDevices {
  import opened Wrappers
  import opened GpuWorld
  import opened GpuBytes

  class GpuMemory {
    var arenas: seq<seq<Byte>>
    var classes: seq<nat>
    var active: int

    ghost function Value(): Memory
      reads this
    {
      Memory(arenas, classes, active)
    }

    constructor ()
      ensures Value() == Memory([], [], 0)
    {
      arenas, classes, active := [], [], 0;
    }

    /** A zeroed buffer for an arena; both tables grow to reach it. */
    method Add(arena: nat, size: nat, memoryClass: nat)
      requires |classes| == |arenas|
      modifies this
      ensures Value() == AddArena(old(Value()), arena, size, memoryClass)
      ensures arena < |arenas| == |classes| && classes[arena] == memoryClass && active == old(active) + 1
      ensures |arenas[arena]| == size && forall i :: 0 <= i < size ==> arenas[arena][i] == 0
      ensures forall a :: 0 <= a < |arenas| && a != arena ==>
                arenas[a] == if a < |old(arenas)| then old(arenas)[a] else []
    {
      if |arenas| <= arena {
        arenas := arenas + seq(arena + 1 - |arenas|, _ => []);
        classes := classes + seq(arena + 1 - |classes|, _ => 0);
      }
      arenas := arenas[arena := seq(size, _ => 0)];
      classes := classes[arena := memoryClass];
      active := active + 1;
    }

    /** Clear the buffer, which must be there. */
    method Remove(arena: nat)
      requires arena < |arenas| && arenas[arena] != []
      modifies this
      ensures Value() == RemoveArena(old(Value()), arena)
      ensures arenas == old(arenas)[arena := []] && classes == old(classes) && active == old(active) - 1
    {
      arenas := arenas[arena := []];
      active := active - 1;
    }

    /** Copy the bytes of a relocation one by one. */
    method Copy(r: Relocation)
      requires CopyFits(Value(), r)
      modifies this`arenas
      ensures Value() == CopyBlock(old(Value()), r)
      ensures |arenas| == |old(arenas)| && |arenas[r.destinationArena]| == |old(arenas)[r.destinationArena]|
      ensures forall a :: 0 <= a < |arenas| && a != r.destinationArena ==> arenas[a] == old(arenas)[a]
      ensures forall k :: 0 <= k < |arenas[r.destinationArena]| ==>
                arenas[r.destinationArena][k] ==
                if r.destinationOffset <= k < r.destinationOffset + r.size then
                  old(arenas)[r.sourceArena][k - r.destinationOffset + r.sourceOffset]
                else old(arenas)[r.destinationArena][k]
    {
      ghost var to := arenas[r.destinationArena];
      var bytes := arenas[r.destinationArena];
      for i := 0 to r.size
        invariant |bytes| == |to| && arenas == old(arenas)
        invariant forall k :: 0 <= k < r.destinationOffset || r.destinationOffset + i <= k < |to| ==> bytes[k] == to[k]
        invariant forall k :: r.destinationOffset <= k < r.destinationOffset + i ==>
                    bytes[k] == arenas[r.sourceArena][k - r.destinationOffset + r.sourceOffset]
      {
        bytes := bytes[r.destinationOffset + i := arenas[r.sourceArena][r.sourceOffset + i]];
      }
      assert bytes == CopyBlock(old(Value()), r).arenas[r.destinationArena];
      arenas := arenas[r.destinationArena := bytes];
    }
  }

  /** The executor copies when it accepts a relocation. Which ones it refuses is up
      to the environment. */
  class GpuExecutor {
    const memory: GpuMemory
    var completed: nat
    var next: nat
    var refuseCopy: set<nat>
    var refuseSwitch: set<nat>
    var copies: seq<Relocation>
    var switches: seq<Relocation>

    ghost function Value(): Executor
      reads this
    {
      Executor(completed, next, refuseCopy, refuseSwitch, copies, switches)
    }

    constructor (memory: GpuMemory)
      ensures this.memory == memory && Value() == Executor(0, 1, {}, {}, [], [])
    {
      this.memory := memory;
      completed, next, refuseCopy, refuseSwitch, copies, switches := 0, 1, {}, {}, [], [];
    }

    method ScheduleCopy(r: Relocation) returns (timeline: Option<nat>)
      requires r.move in refuseCopy || CopyFits(memory.Value(), r)
      modifies this, memory`arenas
      ensures r.move in old(refuseCopy) ==>
                timeline == None && Value() == old(Value()) && memory.Value() == old(memory.Value())
      ensures r.move !in old(refuseCopy) ==>
                && timeline == Some(old(next))
                && Value() == old(Value()).(next := old(next) + 1, copies := old(copies) + [r])
                && CopyFits(old(memory.Value()), r) && memory.Value() == CopyBlock(old(memory.Value()), r)
    {
      if r.move in refuseCopy {
        return None;
      }
      memory.Copy(r);
      copies := copies + [r];
      timeline := Some(next);
      next := next + 1;
    }

    method SwitchReferences(r: Relocation) returns (timeline: Option<nat>)
      modifies this
      ensures r.move in old(refuseSwitch) ==> timeline == None && Value() == old(Value())
      ensures r.move !in old(refuseSwitch) ==>
                && timeline == Some(old(next))
                && Value() == old(Value()).(next := old(next) + 1, switches := old(switches) + [r])
    {
      if r.move in refuseSwitch {
        return None;
      }
      switches := switches + [r];
      timeline := Some(next);
      next := next + 1;
    }

    predicate IsComplete(timeline: nat)
      reads this
    {
      timeline <= completed
    }
  }

  // ---- The tests' way of telling bytes apart ----

  function Pattern(id: nat, index: nat): Byte {
    (id * 37 + index * 11 + 3) % 256
  }

  function PatternBytes(id: nat, size: nat): seq<Byte> {
    seq(size, i requires 0 <= i => Pattern(id, i))
  }

  /** Fill an allocation with its pattern; no other byte changes. */
  method Fill(memory: GpuMemory, id: nat, arena: nat, offset: nat, size: nat)
    requires arena < |memory.arenas| && offset + size <= |memory.arenas[arena]|
    modifies memory`arenas
    ensures memory.Value() == old(memory.Value()).(arenas := memory.arenas)
    ensures BytesAt(memory.Value(), arena, offset, size) == PatternBytes(id, size)
    ensures |memory.arenas| == |old(memory.arenas)| && |memory.arenas[arena]| == |old(memory.arenas)[arena]|
    ensures forall a :: 0 <= a < |memory.arenas| && a != arena ==> memory.arenas[a] == old(memory.arenas)[a]
    ensures forall k :: 0 <= k < offset || offset + size <= k < |memory.arenas[arena]| ==>
              memory.arenas[arena][k] == old(memory.arenas)[arena][k]
  {
    ghost var was := memory.arenas[arena];
    var bytes := memory.arenas[arena];
    for index := 0 to size
      invariant |bytes| == |was| && memory.arenas == old(memory.arenas)
      invariant forall k :: 0 <= k < offset || offset + index <= k < |was| ==> bytes[k] == was[k]
      invariant forall k :: offset <= k < offset + index ==> bytes[k] == Pattern(id, k - offset)
    {
      bytes := bytes[offset + index := Pattern(id, index)];
    }
    assert bytes[offset..offset + size] == PatternBytes(id, size);
    memory.arenas := memory.arenas[arena := bytes];
  }

  /** Whether an allocation's bytes are within its buffer and are its pattern. */
  method Verify(memory: GpuMemory, id: nat, arena: nat, offset: nat, size: nat) returns (ok: bool)
    requires arena < |memory.arenas|
    ensures ok <==> offset + size <= |memory.arenas[arena]| && BytesAt(memory.Value(), arena, offset, size) == PatternBytes(id, size)
  {
    if offset + size > |memory.arenas[arena]| {
      return false;
    }
    var bytes := memory.arenas[arena];
    ok := true;
    for index := 0 to size
      invariant ok <==> forall k :: 0 <= k < index ==> bytes[offset + k] == Pattern(id, k)
    {
      ok := ok && bytes[offset + index] == Pattern(id, index);
    }
    ghost var slice := bytes[offset..offset + size];
    assert forall k :: 0 <= k < size ==> slice[k] == bytes[offset + k] && PatternBytes(id, size)[k] == Pattern(id, k);
  }
}
