/** The GPU allocator as an object. Each method does what the operation on values of
    the same meaning does; what that operation achieves is proved there. */
module GpuAllocator {
  import opened Wrappers
  import opened FreeList
  import opened GpuCore
  import opened GpuState
  import opened GpuInvariant
  import opened GpuMoves
  import opened GpuAllocate
  import opened GpuPlan
  import opened GpuWorld
  import opened GpuSchedule
  import opened GpuAccounts
  import opened GpuPlanner
  import opened GpuRollback
  import opened GpuDevices
  import opened GpuOwners
  import opened GpuRuns

  class Allocator {
    var arenas: seq<Arena>
    var order: seq<nat>
    var freeArenas: seq<nat>
    var entries: seq<Entry>
    var freeEntry: nat
    var target: Option<Target>
    var statistics: Statistics
    var arenaSize: nat
    var nextMoveId: nat

    ghost function Value(): State
      reads this
    {
      State(arenas, order, freeArenas, entries, freeEntry, target, statistics, arenaSize, nextMoveId)
    }

    ghost function WorldWith(memory: GpuMemory, executor: GpuExecutor): World
      reads this, memory, executor
    {
      World(Value(), memory.Value(), executor.Value())
    }

    constructor (size: nat)
      ensures Value() == Initial(size).gpu
    {
      arenas, order, freeArenas := [NO_ARENA], [], [];
      entries, freeEntry := [EMPTY_ENTRY], 0;
      target, statistics, arenaSize, nextMoveId := None, Statistics(0, 0, 0, 0, 0, 0), size, 0;
    }

    /** The size of arenas to come is at least the one asked for, and never shrinks. */
    method SetArenaSize(size: nat)
      modifies this`arenaSize
      ensures arenaSize >= old(arenaSize) && arenaSize >= size && (arenaSize == old(arenaSize) || arenaSize == size)
      ensures Value() == old(Value()).(arenaSize := arenaSize)
    {
      arenaSize := if arenaSize < size then size else arenaSize;
    }

    /** Whether a move of the allocation is neither retired nor cancelled. */
    method IsRelocating(id: nat) returns (relocating: bool)
      ensures relocating <==>
              exists i :: 0 <= i < |Value().Moves()| && Value().Moves()[i].allocation == id
                          && Value().Moves()[i].state != SourceRetired && Value().Moves()[i].state != Cancelled
      ensures relocating <==> GpuState.IsRelocating(Value(), id)
    {
      if target.None? {
        return false;
      }
      var moves := target.value.moves;
      for i := 0 to |moves|
        invariant forall k :: 0 <= k < i ==>
                    !(moves[k].allocation == id && moves[k].state != SourceRetired && moves[k].state != Cancelled)
      {
        if moves[i].allocation == id && moves[i].state != SourceRetired && moves[i].state != Cancelled {
          assert Value().Moves()[i].allocation == id;
          return true;
        }
      }
      return false;
    }

    method SetMovable(id: nat, movable: bool)
      requires MaySetMovable(Value(), id, movable)
      modifies this`entries
      ensures entries == old(entries)[id := old(entries)[id].(movable := movable)]
      ensures Value() == old(Value()).(entries := entries) == GpuState.SetMovable(old(Value()), id, movable)
    {
      entries := entries[id := entries[id].(movable := movable)];
    }

    // ---- Ranges of an arena ----

    /** Take the block out of the first free range that contains it. */
    method ReserveRange(a: nat, offset: nat, size: nat) returns (ok: bool)
      requires a < |arenas|
      modifies this`arenas
      ensures ok <==> Available(old(arenas)[a], offset, size)
      ensures !ok ==> arenas == old(arenas)
      ensures ok ==>
                var x := old(arenas)[a];
                arenas == old(arenas)[a := Occupy(x, offset, size).(reservations := x.reservations + 1)]
    {
      var ranges := arenas[a].ranges;
      for index := 0 to |ranges|
        invariant arenas == old(arenas)
        invariant FindRange(ranges, 0, offset, size) == FindRange(ranges, index, offset, size)
      {
        var range := ranges[index];
        if range.offset <= offset && offset - range.offset <= range.size && size <= range.size - (offset - range.offset) {
          var before := if offset > range.offset then [Range(range.offset, offset - range.offset)] else [];
          var end := offset + size;
          var after := if end < range.offset + range.size then [Range(end, range.offset + range.size - end)] else [];
          ranges := ranges[..index] + (before + after) + ranges[index + 1..];
          arenas := arenas[a := arenas[a].(ranges := ranges, free := arenas[a].free - size,
                                           reservations := arenas[a].reservations + 1)];
          return true;
        }
      }
      return false;
    }

    /** Give the block back, merging it with its neighbours. */
    method FreeRangeInArena(a: nat, offset: nat, size: nat)
      requires a < |arenas|
      modifies this`arenas
      ensures arenas == old(arenas)[a := Vacate(old(arenas)[a], offset, size)]
    {
      var ranges := arenas[a].ranges;
      var index := LowerBound(ranges, offset);
      var mergeLeft := index != 0 && ranges[index - 1].offset + ranges[index - 1].size == offset;
      var mergeRight := index != |ranges| && offset + size == ranges[index].offset;
      if mergeLeft && mergeRight {
        ranges := ranges[index - 1 := Range(ranges[index - 1].offset, ranges[index - 1].size + size + ranges[index].size)];
        ranges := ranges[..index] + ranges[index + 1..];
      } else if mergeLeft {
        ranges := ranges[index - 1 := Range(ranges[index - 1].offset, ranges[index - 1].size + size)];
      } else if mergeRight {
        ranges := ranges[index := Range(offset, size + ranges[index].size)];
      } else {
        ranges := ranges[..index] + [Range(offset, size)] + ranges[index..];
      }
      assert ranges == Release(old(arenas)[a].ranges, offset, size);
      arenas := arenas[a := arenas[a].(ranges := ranges, free := arenas[a].free + size)];
    }

    method ReleaseReservedRange(a: nat, offset: nat, size: nat)
      requires a < |arenas|
      modifies this`arenas
      ensures var x := old(arenas)[a];
              arenas == old(arenas)[a := Vacate(x, offset, size).(reservations := x.reservations - 1)]
    {
      arenas := arenas[a := arenas[a].(reservations := arenas[a].reservations - 1)];
      FreeRangeInArena(a, offset, size);
    }

    // ---- Allocating ----

    method PushAllocation(a: nat, offset: nat, size: nat, options: Options) returns (id: nat)
      requires freeEntry < |entries|
      modifies this`entries, this`freeEntry
      ensures (Value(), id) == PushEntry(old(Value()), NewEntry(a, offset, size, options))
    {
      if freeEntry != 0 {
        id := freeEntry;
        freeEntry := entries[id].offset;
      } else {
        id := |entries|;
        entries := entries + [Entry(0, 0, 0, 0, 0, 0, false, false)];
      }
      entries := entries[id := NewEntry(a, offset, size, options)];
      assert entries == if id < |old(entries)| then old(entries)[id := NewEntry(a, offset, size, options)]
                        else old(entries) + [NewEntry(a, offset, size, options)];
    }

    /** The first free range of the arena with room for an aligned block. */
    method TryAllocateInArena(a: nat, size: nat, options: Options) returns (id: Option<nat>)
      requires a < |arenas| && freeEntry < |entries|
      modifies this
      ensures (Value(), id) == GpuState.TryAllocateInArena(old(Value()), a, size, options)
    {
      var ranges := arenas[a].ranges;
      for index := 0 to |ranges|
        invariant Value() == old(Value())
        invariant FirstAlignedFit(ranges, 0, size, options.alignment) == FirstAlignedFit(ranges, index, size, options.alignment)
      {
        var aligned := AlignedFit(ranges[index], size, options.alignment);
        if aligned.Some? {
          FitIsAvailable(arenas[a], index, size, options.alignment);
          ghost var x := arenas[a];
          var reserved := ReserveRange(a, aligned.value, size);
          arenas := arenas[a := arenas[a].(reservations := arenas[a].reservations - 1,
                                           allocations := arenas[a].allocations + 1)];
          assert arenas == old(arenas)[a := Occupy(x, aligned.value, size).(allocations := x.allocations + 1)];
          var slot := PushAllocation(a, aligned.value, size, options);
          return Some(slot);
        }
      }
      return None;
    }

    /** The arenas in order, those that admit the block. */
    method TryAllocate(size: nat, options: Options) returns (id: Option<nat>)
      requires freeEntry < |entries| && forall k :: 0 <= k < |order| ==> order[k] < |arenas|
      modifies this
      ensures (Value(), id) == GpuState.TryAllocate(old(Value()), 0, size, options)
    {
      for i := 0 to |order|
        invariant Value() == old(Value())
        invariant GpuState.TryAllocate(Value(), 0, size, options) == GpuState.TryAllocate(Value(), i, size, options)
      {
        if Admits(arenas[order[i]], size, options) {
          id := TryAllocateInArena(order[i], size, options);
          if id.Some? {
            return;
          }
          assert Value() == old(Value());
        }
      }
      return None;
    }

    /** A slot given back keeps nothing of its former arena. */
    method CreateArena(capacity: nat, memoryClass: nat, dedicated: bool) returns (a: nat)
      requires freeArenas != [] ==>
                 freeArenas[|freeArenas| - 1] < |arenas| && arenas[freeArenas[|freeArenas| - 1]] == NO_ARENA
      modifies this
      ensures (Value(), a) == GpuState.CreateArena(old(Value()), capacity, memoryClass, dedicated)
    {
      if freeArenas != [] {
        a := freeArenas[|freeArenas| - 1];
        freeArenas := freeArenas[..|freeArenas| - 1];
      } else {
        a := |arenas|;
        arenas := arenas + [NO_ARENA];
      }
      arenas := arenas[a := arenas[a].(capacity := capacity, free := capacity, memoryClass := memoryClass,
                                       active := true, dedicated := dedicated, ranges := [Range(0, capacity)])];
      order := order + [a];
      assert arenas[a] == NewArena(capacity, memoryClass, dedicated);
      assert arenas == if a < |old(arenas)| then old(arenas)[a := arenas[a]] else old(arenas) + [arenas[a]];
    }

    /** The state and the memory after making an arena and allocating in it. */
    ghost predicate InNewArena(s: State, m: Memory, size: nat, options: Options, s': State, m': Memory, id: nat) {
      && (s.freeArenas != [] ==> s.freeArenas[|s.freeArenas| - 1] < |s.arenas|)
      && var capacity, dedicated := Capacity(s, size, options), Dedicated(s, size, options);
         var (s1, a) := GpuState.CreateArena(s, capacity, options.memoryClass, dedicated);
         && a < |s1.arenas| && s1.freeEntry < |s1.entries| && |m.classes| == |m.arenas|
         && (s', Some(id)) == GpuState.TryAllocateInArena(s1, a, size, ForNewArena(s, size, options))
         && m' == AddArena(m, a, capacity, options.memoryClass)
    }

    /** An allocation in an arena of its own making. */
    method AllocateInNewArena(size: nat, memory: GpuMemory, options: Options) returns (id: nat)
      requires Sound(Value()) && |memory.classes| == |memory.arenas|
      requires OptionsOk(size, options) && options.alignment > 0
      modifies this, memory
      ensures InNewArena(old(Value()), old(memory.Value()), size, options, Value(), memory.Value(), id)
    {
      hide Sound, GpuState.CreateArena, GpuState.TryAllocateInArena, AddArena, Created, PlacedIn, OptionsOk;
      ghost var s := Value();
      FreshSound(s, size, options);
      FreeSlots(s);
      var dedicated := options.dedicated || size >= arenaSize;
      var capacity := if dedicated then size else arenaSize;
      var a := CreateArena(capacity, options.memoryClass, dedicated);
      InPool(s, Value(), a, NewArena(capacity, options.memoryClass, dedicated));
      memory.Add(a, capacity, options.memoryClass);
      var placed := TryAllocateInArena(a, size, options.(dedicated := dedicated, movable := options.movable && !dedicated));
      id := placed.value;
    }

    lemma InPool(s: State, s': State, a: nat, x: Arena)
      requires Created(s, s', a, x)
      ensures a < |s'.arenas|
    {
    }

    lemma FreeSlots(s: State)
      requires Sound(s)
      ensures s.freeArenas != [] ==>
                var a := s.freeArenas[|s.freeArenas| - 1];
                a < |s.arenas| && s.arenas[a] == NO_ARENA
    {
      if s.freeArenas != [] {
        var a := s.freeArenas[|s.freeArenas| - 1];
        assert a in s.freeArenas;
        assert ArenaOk(s.arenas[a]);
      }
    }

    method Allocate(size: nat, memory: GpuMemory, options: Options, ghost executor: GpuExecutor) returns (id: nat)
      requires Ready(WorldWith(memory, executor)) && OptionsOk(size, options)
      modifies this, memory
      ensures (WorldWith(memory, executor), id) == GpuWorld.Allocate(old(WorldWith(memory, executor)), size, options)
    {
      hide Sound, MemoryOk, GpuState.TryAllocate, GpuState.CreateArena, GpuState.TryAllocateInArena, AddArena;
      hide Entered, Created, PlacedIn;
      ghost var w := WorldWith(memory, executor);
      var o := options.(alignment := if options.alignment < 1 then 1 else options.alignment);
      TryAllocateSound(w.gpu, 0, size, o);
      FreshSound(w.gpu, size, o);
      Classes(w);
      var found: Option<nat> := None;
      if !options.dedicated && size < arenaSize {
        found := TryAllocate(size, o);
        NotEntered(w.gpu, size, o, Value(), found);
      }
      if found.Some? {
        id := found.value;
      } else {
        id := AllocateInNewArena(size, memory, o);
      }
    }

    lemma NotEntered(s: State, size: nat, options: Options, s': State, id: Option<nat>)
      requires Entered(s, 0, size, options, s', id)
      ensures id.None? ==> s' == s
    {
    }

    lemma Classes(w: World)
      requires Ready(w)
      ensures |w.memory.classes| == |w.memory.arenas|
    {
    }

    // ---- Releasing ----

    method ReleaseAllocation(id: nat) returns (a: nat)
      requires Value().Live(id) && entries[id].arena < |arenas|
      modifies this`arenas, this`entries, this`freeEntry
      ensures Value() == Remove(old(Value()), id) && a == old(entries)[id].arena
    {
      a := entries[id].arena;
      var offset, size := entries[id].offset, entries[id].size;
      arenas := arenas[a := arenas[a].(allocations := arenas[a].allocations - 1)];
      FreeRangeInArena(a, offset, size);
      assert arenas == Remove(old(Value()), id).arenas;
      entries := entries[id := entries[id].(live := false, offset := freeEntry)];
      freeEntry := id;
    }

    /** A pending move gives its destination back. */
    method CancelMove(i: nat)
      requires HasMove(Value(), i)
      modifies this`arenas, this`target
      ensures Value() == GpuState.CancelMove(old(Value()), i)
    {
      var m := target.value.moves[i];
      if m.state == Reserved || m.state == CopyScheduled {
        ReleaseReservedRange(m.destination, m.destinationOffset, m.size);
      }
      target := Some(target.value.(moves := target.value.moves[i := m.(state := Cancelled)]));
    }

    /** False while the allocation is being copied; a move only reserved is cancelled. */
    method PrepareDeallocate(id: nat) returns (ok: bool)
      requires Sound(Value()) && Value().Live(id)
      modifies this`arenas, this`target
      ensures ok == !Copied(old(Value()), id)
      ensures Value() == if ok then Withdraw(old(Value()), id) else old(Value())
    {
      hide Sound, GpuState.CancelMove;
      if target.None? {
        return true;
      }
      var moves := target.value.moves;
      SoundMoves(Value());
      for i := 0 to |moves|
        invariant Value() == old(Value())
        invariant FindMove(moves, 0, id) == FindMove(moves, i, id)
      {
        if moves[i].allocation == id {
          if moves[i].state == CopyScheduled {
            return false;
          }
          if moves[i].state == Reserved {
            CancelMove(i);
          }
          return true;
        }
      }
      return true;
    }

    predicate CanReleaseArena(a: nat)
      requires a < |arenas|
      reads this
    {
      CanRelease(arenas[a])
    }

    method DropArena(a: nat) returns (capacity: nat)
      requires a < |arenas| && a in order
      modifies this`arenas, this`order, this`freeArenas
      ensures Value() == GpuState.DropArena(old(Value()), a) && capacity == old(arenas)[a].capacity
    {
      capacity := arenas[a].capacity;
      var position := 0;
      while order[position] != a
        invariant 0 <= position < |order| && Value() == old(Value())
        invariant IndexOf(order, 0, a) == IndexOf(order, position, a)
        decreases |order| - position
      {
        position := position + 1;
      }
      order := order[..position] + order[position + 1..];
      arenas := arenas[a := NO_ARENA];
      freeArenas := freeArenas + [a];
    }

    method TryReleaseArena(memory: GpuMemory, a: nat, ghost executor: GpuExecutor)
      requires Ready(WorldWith(memory, executor)) && a < |arenas|
      modifies this, memory
      ensures WorldWith(memory, executor) == ReleaseArena(old(WorldWith(memory, executor)), a)
    {
      ghost var w := WorldWith(memory, executor);
      hide Sound, GpuState.DropArena;
      if CanReleaseArena(a) {
        DropSound(w.gpu, a);
        HasBuffer(w, a);
        var _ := DropArena(a);
        memory.Remove(a);
      }
    }

    lemma HasBuffer(w: World, a: nat)
      requires Ready(w) && a < |w.gpu.arenas| && w.gpu.arenas[a].active
      ensures a < |w.memory.arenas| && w.memory.arenas[a] != []
    {
      SoundCore(w.gpu);
      assert ArenaOk(w.gpu.arenas[a]);
    }

    method TargetFinished() returns (finished: bool)
      requires target.Some?
      ensures finished <==> forall i :: 0 <= i < |target.value.moves| ==>
                target.value.moves[i].state == SourceRetired || target.value.moves[i].state == Cancelled
      ensures finished <==> Finished(target.value.moves)
    {
      var moves := target.value.moves;
      for i := 0 to |moves|
        invariant forall k :: 0 <= k < i ==> moves[k].state == SourceRetired || moves[k].state == Cancelled
      {
        if moves[i].state != SourceRetired && moves[i].state != Cancelled {
          return false;
        }
      }
      return true;
    }

    /** Unfreeze the source once every move is done, and remove it if it is empty. */
    method FinishTargetIfPossible(memory: GpuMemory, ghost executor: GpuExecutor) returns (released: Option<nat>)
      requires Ready(WorldWith(memory, executor))
      modifies this, memory
      ensures (WorldWith(memory, executor), released) == Finish(old(WorldWith(memory, executor)))
    {
      hide Sound, MemoryOk, GpuState.DropArena, Finished;
      ghost var w := WorldWith(memory, executor);
      if target.None? {
        return None;
      }
      var finished := TargetFinished();
      if !finished {
        return None;
      }
      EndReady(w);
      var source := target.value.source;
      arenas := arenas[source := arenas[source].(role := Normal)];
      target := None;
      if CanReleaseArena(source) {
        DropSound(Value(), source);
        HasBuffer(w.(gpu := Value()), source);
        var capacity := DropArena(source);
        memory.Remove(source);
        statistics := statistics.(bytesReleased := statistics.bytesReleased + capacity,
                                  blocksReleased := statistics.blocksReleased + 1);
        released := Some(capacity);
      } else {
        released := None;
      }
    }

    method TryDeallocate(id: nat, memory: GpuMemory, ghost executor: GpuExecutor) returns (ok: bool)
      requires Ready(WorldWith(memory, executor)) && Value().Live(id)
      modifies this, memory
      ensures (WorldWith(memory, executor), ok) == GpuWorld.TryDeallocate(old(WorldWith(memory, executor)), id)
    {
      hide Sound, MemoryOk, Copied, Withdraw, Remove, ReleaseArena, Finish;
      ghost var w := WorldWith(memory, executor);
      ok := PrepareDeallocate(id);
      if !ok {
        return;
      }
      WithdrawReady(w, id);
      RemoveReady(w.(gpu := Value()), id);
      var a := ReleaseAllocation(id);
      assert WorldWith(memory, executor) == TakenOut(w, id);
      TakenOutReady(w, id);
      TryReleaseArena(memory, a, executor);
      ReleaseReady(TakenOut(w, id), a);
      var _ := FinishTargetIfPossible(memory, executor);
    }

    // ---- The moves of an evacuation ----

    /** Abort the evacuation: what is only reserved is cancelled. */
    method AbortEvacuation()
      requires target.Some? && HasMoves(Value())
      modifies this`arenas, this`target
      ensures Value() == Abort(old(Value()))
    {
      target := Some(target.value.(aborted := true));
      assert Value() == MarkAborted(old(Value()));
      assert forall k :: 0 <= k < |Value().Moves()| ==> HasMove(old(Value()), k) ==> HasMove(Value(), k);
      for i := 0 to |target.value.moves|
        invariant target.Some? && |target.value.moves| == |old(target.value.moves)|
        invariant HasMoves(Value())
        invariant Abort(old(Value())) == CancelReserved(Value(), i)
        invariant Value() == old(Value()).(arenas := arenas, target := target)
      {
        if target.value.moves[i].state == Reserved {
          CancelKeepsMoves(Value(), i);
          CancelMove(i);
        }
      }
    }

    /** The executor refused: the move and the evacuation are cancelled. */
    method GiveUpAt(i: nat)
      requires Sound(Value()) && i < |Value().Moves()| && Value().Moves()[i].Pending()
      modifies this`arenas, this`target
      ensures Value() == GiveUp(old(Value()), i)
    {
      hide Sound, GpuState.CancelMove, Abort;
      CancelSound(Value(), i);
      CancelMove(i);
      AbortSound(Value());
      AbortEvacuation();
    }

    method FindSchedulableMove(bytes: nat) returns (k: nat)
      requires target.Some?
      ensures k <= |target.value.moves|
      ensures k < |target.value.moves| ==> target.value.moves[k].state == Reserved && target.value.moves[k].size <= bytes
      ensures forall j :: 0 <= j < k ==> target.value.moves[j].state != Reserved || target.value.moves[j].size > bytes
      ensures k == FindSchedulable(target.value.moves, 0, bytes)
    {
      var moves := target.value.moves;
      for i := 0 to |moves|
        invariant FindSchedulable(moves, 0, bytes) == FindSchedulable(moves, i, bytes)
      {
        if moves[i].state == Reserved && moves[i].size <= bytes {
          return i;
        }
      }
      return |moves|;
    }

    method HasReservedMoves() returns (found: bool)
      ensures found <==> target.Some? && exists i :: 0 <= i < |target.value.moves| && target.value.moves[i].state == Reserved
      ensures found <==> target.Some? && HasReserved(target.value.moves)
    {
      if target.None? {
        return false;
      }
      var moves := target.value.moves;
      for i := 0 to |moves|
        invariant forall k :: 0 <= k < i ==> moves[k].state != Reserved
      {
        if moves[i].state == Reserved {
          return true;
        }
      }
      return false;
    }

    /** The allocation takes over the destination, the source starts retiring. */
    method SwitchAllocation(i: nat)
      requires HasMove(Value(), i) && target.value.moves[i].source != target.value.moves[i].destination
      requires target.value.moves[i].allocation < |entries|
      modifies this`arenas, this`entries
      ensures forall timeline: nat ::
                var s := SwitchMove(old(Value()), i, timeline);
                arenas == s.arenas && entries == s.entries
    {
      var m := target.value.moves[i];
      arenas := arenas[m.source := arenas[m.source].(allocations := arenas[m.source].allocations - 1,
                                                     retiring := arenas[m.source].retiring + 1)];
      arenas := arenas[m.destination := arenas[m.destination].(reservations := arenas[m.destination].reservations - 1,
                                                               allocations := arenas[m.destination].allocations + 1)];
      entries := entries[m.allocation := entries[m.allocation].(arena := m.destination, offset := m.destinationOffset)];
    }

    /** The source block is free again. */
    method RetireSource(i: nat)
      requires HasMove(Value(), i)
      modifies this`arenas
      ensures arenas == RetireMove(old(Value()), i).arenas
    {
      var m := target.value.moves[i];
      arenas := arenas[m.source := arenas[m.source].(retiring := arenas[m.source].retiring - 1)];
      FreeRangeInArena(m.source, m.sourceOffset, m.size);
    }

    // ---- Completing ----

    method CompleteOne(i: nat, memory: GpuMemory, executor: GpuExecutor, result: Result) returns (result': Result)
      requires Ready(WorldWith(memory, executor)) && target.Some? && i < |target.value.moves|
      modifies this, executor
      ensures (WorldWith(memory, executor), result') ==
              CompleteMove(old(WorldWith(memory, executor)), i, result)
    {
      ghost var w := WorldWith(memory, executor);
      hide Sound, MemoryOk, GiveUp, Abort, GpuState.CancelMove, SwitchMove, RetireMove;
      CopyRoundReady(w, i, result);
      result' := result;
      if target.value.moves[i].state == CopyScheduled && executor.IsComplete(target.value.moves[i].copyCompletion) {
        result' := CompleteCopyAt(i, memory, executor, result);
      }
      assert (WorldWith(memory, executor), result') == CopyRound(w, i, result);
      if target.value.moves[i].state == ReferencesSwitched && executor.IsComplete(target.value.moves[i].sourceRetirement) {
        RetireSound(Value(), i);
        RetireAt(i);
        result' := result'.(movesCompleted := result'.movesCompleted + 1);
      }
    }

    method RetireAt(i: nat)
      requires HasMove(Value(), i)
      modifies this
      ensures Value() == RetireMove(old(Value()), i)
    {
      RetireSource(i);
      target := Some(target.value.(moves := target.value.moves[i := target.value.moves[i].(state := SourceRetired)]));
      statistics := statistics.(movesCompleted := statistics.movesCompleted + 1);
    }

    method CompleteCopyAt(i: nat, memory: GpuMemory, executor: GpuExecutor, result: Result) returns (result': Result)
      requires Ready(WorldWith(memory, executor)) && i < |Value().Moves()| && Value().Moves()[i].state == CopyScheduled
      modifies this, executor
      ensures WorldWith(memory, executor) == CompleteCopy(old(WorldWith(memory, executor)), i)
      ensures result' == result.(bytesCopied := result.bytesCopied + old(Value()).Moves()[i].size)
    {
      hide Sound, MemoryOk, GiveUp, MovedOn, Rebound;
      ghost var w := WorldWith(memory, executor);
      var m := target.value.moves[i];
      result' := result.(bytesCopied := result.bytesCopied + m.size);
      statistics := statistics.(bytesCopied := statistics.bytesCopied + m.size);
      StatisticsAside(w.gpu, statistics);
      ghost var s := Value();
      SwitchSound(s, i, executor.next);
      var command := RelocationFor(m);
      var retirement := executor.SwitchReferences(command);
      if retirement.None? {
        GiveUpAt(i);
      } else {
        SwitchAllocation(i);
        target := Some(target.value.(moves :=
          target.value.moves[i := m.(state := ReferencesSwitched, sourceRetirement := retirement.value)]));
      }
    }

    function RelocationFor(m: Move): Relocation
      requires m.allocation < |entries|
      reads this
    {
      Relocation(m.id, m.allocation, m.source, m.destination, m.sourceOffset, m.destinationOffset, m.size,
                 entries[m.allocation].memoryClass, entries[m.allocation].resourceClass)
    }

    method FinishAndReport(memory: GpuMemory, result: Result, ghost executor: GpuExecutor) returns (result': Result)
      requires Ready(WorldWith(memory, executor))
      modifies this, memory
      ensures (WorldWith(memory, executor), result') == FinishWith(old(WorldWith(memory, executor)), result)
    {
      result' := result;
      var released := FinishTargetIfPossible(memory, executor);
      if released.Some? {
        result' := result'.(bytesReleased := result'.bytesReleased + released.value,
                            arenasRemoved := result'.arenasRemoved + 1);
      }
      result' := result'.(evacuationActive := target.Some?, completed := target.None?);
    }

    method ProcessCompletions(memory: GpuMemory, executor: GpuExecutor) returns (result: Result)
      requires Ready(WorldWith(memory, executor))
      modifies this, memory, executor
      ensures (WorldWith(memory, executor), result) == Process(old(WorldWith(memory, executor)))
      ensures Ready(WorldWith(memory, executor))
    {
      hide Ready, CompleteMove, FinishWith;
      ghost var w := WorldWith(memory, executor);
      result := NOTHING;
      ProcessReady(w);
      if target.None? {
        return;
      }
      CompleteFromReady(w, 0, NOTHING);
      var count := |target.value.moves|;
      for i := 0 to count
        invariant target.Some? && |target.value.moves| == count
        invariant Ready(WorldWith(memory, executor))
        invariant CompleteFrom(w, 0, NOTHING) == CompleteFrom(WorldWith(memory, executor), i, result)
      {
        ghost var before := WorldWith(memory, executor);
        CompleteMoveReady(before, i, result);
        result := CompleteOne(i, memory, executor, result);
        SamePlanLength(before, WorldWith(memory, executor));
      }
      result := FinishAndReport(memory, result, executor);
    }

    lemma SamePlanLength(w: World, w': World)
      requires Onward(w, w')
      ensures w'.gpu.target.Some? && |w'.gpu.Moves()| == |w.gpu.Moves()|
    {
    }

    // ---- Scheduling ----

    /** One copy: it is put on the timeline, or the evacuation is given up. */
    method ScheduleAt(i: nat, memory: GpuMemory, executor: GpuExecutor) returns (accepted: bool)
      requires Ready(WorldWith(memory, executor)) && executor.memory == memory
      requires i < |Value().Moves()| && Value().Moves()[i].state == Reserved
      modifies this, memory, executor
      ensures var w := old(WorldWith(memory, executor));
              && accepted == (w.gpu.Moves()[i].id !in w.executor.refuseCopy)
              && WorldWith(memory, executor) == if accepted then ScheduleOne(w, i) else RefuseOne(w, i)
    {
      hide Sound, MemoryOk, GiveUp, CopyFits, CopyBlock;
      ghost var w := WorldWith(memory, executor);
      PendingFits(w, i);
      var m := target.value.moves[i];
      var timeline := executor.ScheduleCopy(RelocationFor(m));
      accepted := timeline.Some?;
      if timeline.None? {
        GiveUpAt(i);
      } else {
        target := Some(target.value.(moves :=
          target.value.moves[i := m.(state := CopyScheduled, copyCompletion := timeline.value)]));
        statistics := statistics.(bytesScheduled := statistics.bytesScheduled + m.size,
                                  movesScheduled := statistics.movesScheduled + 1);
      }
    }

    /** The loop of defragment: copies are scheduled as long as the budget lasts. */
    method ScheduleWithin(memory: GpuMemory, executor: GpuExecutor, budget: Budget, result: Result)
      returns (bytes: nat, moves: nat, result': Result)
      requires Ready(WorldWith(memory, executor)) && executor.memory == memory
      modifies this, memory, executor
      ensures Progress(WorldWith(memory, executor), bytes, moves, result') ==
              Schedule(Progress(old(WorldWith(memory, executor)), budget.copyBytes, budget.moveCount, result))
      ensures Ready(WorldWith(memory, executor))
    {
      hide Ready, ScheduleOne, RefuseOne;
      ghost var p := Progress(WorldWith(memory, executor), budget.copyBytes, budget.moveCount, result);
      ScheduleReady(p);
      bytes, moves, result' := budget.copyBytes, budget.moveCount, result;
      while target.Some? && bytes != 0 && moves != 0
        invariant Ready(WorldWith(memory, executor))
        invariant Schedule(p) == Schedule(Progress(WorldWith(memory, executor), bytes, moves, result'))
        decreases moves
      {
        var i := FindSchedulableMove(bytes);
        if i == |target.value.moves| {
          break;
        }
        ghost var q := Progress(WorldWith(memory, executor), bytes, moves, result');
        assert MaySchedule(q) && NextMove(q) == i;
        ScheduleOneReady(q.world, i);
        RefuseOneReady(q.world, i);
        var size := target.value.moves[i].size;
        var accepted := ScheduleAt(i, memory, executor);
        if !accepted {
          assert Schedule(q) == q.(world := WorldWith(memory, executor));
          return;
        }
        bytes, moves := bytes - size, moves - 1;
        result' := result'.(bytesScheduled := result'.bytesScheduled + size, movesScheduled := result'.movesScheduled + 1);
        assert Progress(WorldWith(memory, executor), bytes, moves, result') == ScheduleRound(q);
      }
    }

    // ---- Planning ----

    /** Reserve every destination and number the moves, or leave all as it was. */
    method ReservePlan(moves: seq<Move>) returns (ok: bool, numbered: seq<Move>)
      requires AllOk(arenas)
      requires forall i :: 0 <= i < |moves| ==> moves[i].destination < |arenas| && moves[i].size > 0
      modifies this`arenas, this`nextMoveId
      ensures ok <==> ReserveAll(old(arenas), moves).Some?
      ensures ok ==>
                && arenas == ReserveAll(old(arenas), moves).value
                && numbered == Numbered(moves, old(nextMoveId)) && nextMoveId == old(nextMoveId) + |moves|
      ensures !ok ==> arenas == old(arenas) && nextMoveId >= old(nextMoveId)
    {
      hide ReserveAll, Held, AllOk;
      ghost var before := arenas;
      numbered := [];
      var reserved := 0;
      ok := true;
      HeldNone(arenas, moves);
      while reserved < |moves|
        invariant 0 <= reserved <= |moves| && ok
        invariant |arenas| == |before| && ReserveAll(before, moves[..reserved]) == Some(arenas)
        invariant Held(before, arenas, moves, 0, reserved)
        invariant numbered == Numbered(moves[..reserved], old(nextMoveId)) && nextMoveId == old(nextMoveId) + reserved
      {
        var m := moves[reserved];
        ghost var was := arenas;
        assert moves[..reserved + 1] == moves[..reserved] + [m];
        ok := ReserveRange(m.destination, m.destinationOffset, m.size);
        if !ok {
          StopsHere(before, moves, reserved);
          break;
        }
        assert arenas == Booked(was, m);
        ReserveOneMore(before, moves[..reserved], m);
        HeldOneMore(before, was, moves, reserved);
        numbered := numbered + [m.(id := nextMoveId)];
        nextMoveId := nextMoveId + 1;
        reserved := reserved + 1;
      }
      assert moves[..|moves|] == moves;
      if reserved == |moves| {
        return;
      }
      for index := 0 to reserved
        invariant |arenas| == |before| && Held(before, arenas, moves, index, reserved)
        invariant nextMoveId >= old(nextMoveId)
      {
        HeldOneLess(before, arenas, moves, index, reserved);
        ReleaseReservedRange(moves[index].destination, moves[index].destinationOffset, moves[index].size);
      }
      HeldNoMore(before, arenas, moves, reserved);
    }

    lemma HeldNone(arenas: seq<Arena>, moves: seq<Move>)
      requires AllOk(arenas)
      ensures Held(arenas, arenas, moves, 0, 0) && ReserveAll(arenas, moves[..0]) == Some(arenas)
    {
      HeldNothing(arenas, moves);
    }

    /** What cannot be reserved cannot be reserved later in the list either. */
    lemma StopsHere(before: seq<Arena>, moves: seq<Move>, k: nat)
      requires k < |moves| && ReserveAll(before, moves[..k]).Some?
      requires var arenas := ReserveAll(before, moves[..k]).value;
               !(moves[k].destination < |arenas| && Available(arenas[moves[k].destination], moves[k].destinationOffset, moves[k].size))
      ensures ReserveAll(before, moves).None?
    {
      assert moves[..k + 1][..k] == moves[..k];
      StaysNone(before, moves, k + 1);
    }

    lemma {:induction false} StaysNone(before: seq<Arena>, moves: seq<Move>, k: nat)
      requires k <= |moves| && ReserveAll(before, moves[..k]).None?
      ensures ReserveAll(before, moves).None?
    {
      if k == |moves| {
        assert moves[..k] == moves;
      } else {
        assert moves[..|moves| - 1][..k] == moves[..k];
        StaysNone(before, moves[..|moves| - 1], k);
      }
    }

    lemma PlanReserves(s: State, plan: Plan)
      requires Sound(s) && PlanOk(s, plan)
      ensures AllOk(s.arenas) && ReserveAll(s.arenas, plan.moves).Some?
      ensures forall i :: 0 <= i < |plan.moves| ==> plan.moves[i].destination < |s.arenas| && plan.moves[i].size > 0
    {
      SoundCore(s);
      forall i | 0 <= i < |plan.moves|
        ensures plan.moves[i].destination < |s.arenas| && plan.moves[i].size > 0
      {
        assert MovePlanned(s, plan.source, plan.moves[i]);
        LiveArena(s, plan.moves[i].allocation);
      }
    }

    /** Look at the best-ranked arenas, no more than allowed, and begin evacuating the
        first for which a plan is found. Its plan can always be reserved. */
    method BeginEvacuation(maxBlocksScanned: nat) returns (ghost plan: Option<Plan>)
      requires Sound(Value()) && target.None?
      modifies this
      ensures plan.Some? ==> PlanOk(old(Value()), plan.value)
      ensures Value() == if plan.Some? then Begin(old(Value()), plan.value) else old(Value())
      ensures MayPlan(old(Value()), maxBlocksScanned, plan)
    {
      hide Sound, Ranking, PlanOk, Plannable, Stuck, ReserveAll, Numbered, Begun, BestSoFar;
      ghost var s := Value();
      var ranked := RankArenas(ReadValue());
      var scanned := 0;
      while scanned < |ranked| && scanned < maxBlocksScanned
        invariant 0 <= scanned <= |ranked| && scanned <= maxBlocksScanned && Value() == s
        invariant forall k :: 0 <= k < scanned ==> Unplannable(s, ranked[k].arena)
      {
        RankedPlannable(s, ranked, scanned);
        var found := SimulateEvacuation(ReadValue(), ranked[scanned].arena);
        if found.Some? {
          PlanReserves(s, found.value);
          var ok, numbered := ReservePlan(found.value.moves);
          BeginsWith(s, found.value, arenas, numbered);
          arenas := arenas[found.value.source := arenas[found.value.source].(role := EvacuationSource)];
          target := Some(Target(found.value.source, numbered, false));
          plan := found;
          assert Chosen(s, ranked, scanned, plan);
          return;
        }
        assert Unplannable(s, ranked[scanned].arena);
        scanned := scanned + 1;
      }
      plan := None;
      assert Chosen(s, ranked, scanned, plan);
    }

    lemma BeginsWith(s: State, plan: Plan, reserved: seq<Arena>, numbered: seq<Move>)
      requires PlanOk(s, plan) && ReserveAll(s.arenas, plan.moves) == Some(reserved)
      requires numbered == Numbered(plan.moves, s.nextMoveId)
      ensures plan.source < |reserved|
      ensures Begin(s, plan) ==
              s.(arenas := reserved[plan.source := reserved[plan.source].(role := EvacuationSource)],
                 target := Some(Target(plan.source, numbered, false)), nextMoveId := s.nextMoveId + |plan.moves|)
    {
      ReserveAllLength(s.arenas, plan.moves);
    }

    function ReadValue(): (s: State)
      reads this
      ensures s == Value()
    {
      State(arenas, order, freeArenas, entries, freeEntry, target, statistics, arenaSize, nextMoveId)
    }

    lemma RankedPlannable(s: State, ranked: seq<Candidate>, k: nat)
      requires Ranking(s, ranked) && k < |ranked|
      ensures Plannable(s, ranked[k].arena) && ranked[k].arena < |s.arenas|
    {
      assert CandidateOf(s, ranked[k]);
    }

    // ---- defragment ----

    method Defragment(memory: GpuMemory, executor: GpuExecutor, budget: Budget, maxBlocksScanned: nat)
      returns (result: Result, ghost plan: Option<Plan>)
      requires Ready(WorldWith(memory, executor)) && executor.memory == memory
      modifies this, memory, executor
      ensures (WorldWith(memory, executor), result) ==
              GpuSchedule.Defragment(old(WorldWith(memory, executor)), budget, plan)
      ensures var w1 := Process(old(WorldWith(memory, executor))).0;
              if w1.gpu.target.None? && budget.copyBytes != 0 && budget.moveCount != 0 then
                MayPlan(w1.gpu, maxBlocksScanned, plan)
              else plan.None?
      ensures Ready(WorldWith(memory, executor))
    {
      ghost var w := WorldWith(memory, executor);
      result := ProcessCompletions(memory, executor);
      plan := None;
      ghost var w1 := WorldWith(memory, executor);
      if target.None? && budget.copyBytes != 0 && budget.moveCount != 0 {
        plan := BeginEvacuation(maxBlocksScanned);
      }
      BeginReady(w1, budget, plan);
      assert WorldWith(memory, executor) == BeginWith(w1, budget, plan);
      hide Ready, Process, BeginWith, Schedule, FinishWith, MayPlan;
      ScheduledReady(w, budget, plan);
      var bytes, moves;
      bytes, moves, result := ScheduleWithin(memory, executor, budget, result);
      ghost var p := Progress(WorldWith(memory, executor), bytes, moves, result);
      assert p == Scheduled(w, budget, plan);
      var reserved := HasReservedMoves();
      if reserved {
        var k := FindSchedulableMove(bytes);
        result := result.(budgetExhausted := bytes == 0 || moves == 0 || k == |target.value.moves|);
        NotYetExhausted(w, budget, plan);
      }
      result := FinishAndReport(memory, result, executor);
      DefragmentReady(w, budget, plan);
    }
  }
}
