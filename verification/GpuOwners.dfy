/** Allocating, releasing and writing: what they do to the other allocations and to
    the copies under way. */
module GpuOwners {
  import opened Wrappers
  import opened GpuCore
  import opened GpuState
  import opened GpuInvariant
  import opened GpuMoves
  import opened GpuAllocate
  import opened GpuWorld
  import opened GpuSchedule
  import opened GpuBytes
  import opened GpuTally
  import opened GpuCalls
  import opened GpuContents

  /** All other allocations keep their place, their properties and their bytes. */
  ghost predicate OthersKept(w: World, w': World, id: nat) {
    && |w'.gpu.entries| >= |w.gpu.entries|
    && (forall other :: 0 <= other < |w.gpu.entries| && other != id && w.gpu.Live(other) ==>
          w'.gpu.entries[other] == w.gpu.entries[other] && Contents(w', other) == Contents(w, other))
    && (forall other :: 0 <= other < |w'.gpu.entries| && other != id && w'.gpu.Live(other) ==> w.gpu.Live(other))
  }

  // ---- Releasing ----

  lemma WithdrawQuiet(s: State, id: nat)
    requires Sound(s) && !Copied(s, id)
    ensures NoNewCopy(s, Withdraw(s, id)) && Withdraw(s, id).entries == s.entries
  {
    hide Sound, GaveUp, Withdraw, NoPending, Copied;
    WithdrawSound(s, id);
    if Withdraw(s, id) != s {
      GaveUpQuiet(s, Withdraw(s, id));
    }
  }

  lemma TakenOutKeeps(w: World, id: nat)
    requires WorldOk(w) && w.gpu.Live(id) && !Copied(w.gpu, id)
    ensures var w' := TakenOut(w, id);
            && WorldOk(w') && OthersKept(w, w', id) && |w'.gpu.entries| == |w.gpu.entries| && !w'.gpu.Live(id)
            && w'.memory == w.memory && NoNewCopy(w.gpu, w'.gpu)
  {
    hide Sound, MemoryOk, Copied, Tallied, Withdraw, Remove, BytesAt, SameKinds, SameRoles, NoPending;
    TakenOutTallied(w, id);
    WithdrawReady(w, id);
    WithdrawQuiet(w.gpu, id);
    var w1 := w.(gpu := Withdraw(w.gpu, id));
    RemoveReady(w1, id);
    RemoveShape(w1.gpu, id);
    assert TakenOut(w, id).gpu.Moves() == w1.gpu.Moves();
  }

  /** What follows changes no entry and no byte of one. */
  lemma ReleasedRest(w: World, a: nat)
    requires WorldOk(w) && a < |w.gpu.arenas|
    ensures Ready(ReleaseArena(w, a))
    ensures var w' := Finish(ReleaseArena(w, a)).0;
            && w'.gpu.entries == w.gpu.entries && WorldOk(w') && SameContents(w, w') && SameCopies(w, w')
  {
    hide Ready, Tallied, ReleaseArena, Finish, Contents, CopyAt;
    ReleaseReady(w, a);
    ReleaseTallied(w, a);
    var w1 := ReleaseArena(w, a);
    ReleaseEntries(w, a);
    FinishEntries(w1);
    FinishOk(w1);
    ReleaseContents(w, a);
    ReleaseCopies(w, a);
    FinishContents(w1);
    SameCopiesThen(w, w1, Finish(w1).0);
    forall id | 0 <= id < |w.gpu.entries| && w.gpu.Live(id) ensures Contents(Finish(w1).0, id) == Contents(w, id) {
      assert Contents(w1, id) == Contents(w, id);
    }
  }

  lemma OthersThen(w: World, w1: World, w2: World, id: nat)
    requires OthersKept(w, w1, id) && w2.gpu.entries == w1.gpu.entries && SameContents(w1, w2)
    ensures OthersKept(w, w2, id)
  {
  }

  /** Some move has been scheduled for the allocation and not yet switched. */
  ghost predicate BeingCopied(s: State, id: nat) {
    exists i :: 0 <= i < |s.Moves()| && s.Moves()[i].allocation == id && s.Moves()[i].state == CopyScheduled
  }

  lemma CopiedIsBeingCopied(s: State, id: nat)
    requires Sound(s)
    ensures Copied(s, id) <==> BeingCopied(s, id)
  {
    OnlyMove(s, id, FindMove(s.Moves(), 0, id));
    hide Sound, FindMove;
  }

  /** try_deallocate refuses exactly while a copy is under way, and then changes
      nothing; otherwise it releases the allocation, whose id is the next to be given
      out, and no other loses anything. The arenas stand in the same sequence. */
  lemma DeallocateKeeps(w: World, id: nat)
    requires WorldOk(w) && w.gpu.Live(id)
    ensures var (w', ok) := TryDeallocate(w, id);
            && WorldOk(w')
            && (ok <==> !Copied(w.gpu, id)) && (ok <==> !BeingCopied(w.gpu, id))
            && (!ok ==> w' == w)
            && (ok ==> OthersKept(w, w', id) && |w'.gpu.entries| == |w.gpu.entries| && !w'.gpu.Live(id)
                       && w'.gpu.freeEntry == id)
            && CopiesKept(w, w') && SameSequence(w.gpu.order, w'.gpu.order)
  {
    DeallocateOrder(w, id);
    CopiedIsBeingCopied(w.gpu, id);
    hide SameSequence, BeingCopied;
    if Copied(w.gpu, id) {
      assert TryDeallocate(w, id) == (w, false);
    } else {
      hide Sound, MemoryOk, Copied, Tallied, TakenOut, ReleaseArena, Finish, BytesAt, CopiesKept, SameCopies, NoNewCopy;
      TakenOutReady(w, id);
      TakenOutKeeps(w, id);
      var w1 := TakenOut(w, id);
      ReleasedRest(w1, w.gpu.entries[id].arena);
      OthersThen(w, w1, TryDeallocate(w, id).0, id);
      QuietCopies(w, w1);
      SameCopiesThen(w, w1, TryDeallocate(w, id).0);
      SameCopiesKept(w, TryDeallocate(w, id).0);
    }
  }

  // ---- Allocating ----

  lemma AddElsewhere(m: Memory, added: nat, size: nat, memoryClass: nat, a: nat, offset: nat, count: nat)
    requires |m.classes| == |m.arenas| && a < |m.arenas| && a != added
    ensures BytesAt(AddArena(m, added, size, memoryClass), a, offset, count) == BytesAt(m, a, offset, count)
  {
  }

  /** In the first arena of the order that has room, as low as there is room in it. */
  ghost predicate InFirstRoom(w: World, w': World, id: nat, size: nat, options: Options) {
    && w' == w.(gpu := w'.gpu) && w'.gpu.order == w.gpu.order && id < |w'.gpu.entries|
    && exists k :: 0 <= k < |w.gpu.order| && RoomAtFirst(w, w', id, k, size, options)
  }

  ghost predicate RoomAtFirst(w: World, w': World, id: nat, k: nat, size: nat, options: Options)
    requires id < |w'.gpu.entries|
  {
    && HasRoom(w.gpu, k, size, options) && NoRoomBefore(w.gpu, 0, k, size, options)
    && w'.gpu.entries[id].arena == w.gpu.order[k]
    && LowestRoom(w.gpu.arenas[w.gpu.order[k]].ranges, w'.gpu.entries[id].offset, size, options.alignment)
  }

  /** At the front of a new arena, last in the order, with a buffer of its capacity. */
  ghost predicate InNewArena(w: World, w': World, id: nat, capacity: nat, memoryClass: nat) {
    && id < |w'.gpu.entries|
    && var e := w'.gpu.entries[id];
       && e.offset == 0 && e.arena == NextArena(w.gpu) && w'.gpu.order == w.gpu.order + [e.arena]
       && e.arena < |w'.gpu.arenas| && w'.gpu.arenas[e.arena].capacity == capacity
       && |w.memory.classes| == |w.memory.arenas| && w'.memory == AddArena(w.memory, e.arena, capacity, memoryClass)
  }

  /** What was asked for has been served: an alignment of one if none is given, an arena
      of its own size, pinned, for what is to be dedicated or is no smaller than an
      arena, and otherwise the first arena with room, or a new one if none has. */
  ghost predicate Served(w: World, w': World, id: nat, size: nat, options: Options) {
    var alone := options.dedicated || size >= w.gpu.arenaSize;
    var asked := options.(alignment := if options.alignment == 0 then 1 else options.alignment,
                          movable := options.movable && !alone);
    && id > 0 && !w.gpu.Live(id) && w'.gpu.Live(id)
    && w'.gpu.target == w.gpu.target && w'.executor == w.executor
    && var e := w'.gpu.entries[id];
       && EntryAsAsked(e, e.arena, size, asked) && e.offset % asked.alignment == 0
       && (w.gpu.target.Some? ==> e.arena != w.gpu.target.value.source)
       && e.arena < |w'.gpu.arenas| && (w'.gpu.arenas[e.arena].dedicated <==> alone)
       && if alone || NoRoomBefore(w.gpu, 0, |w.gpu.order|, size, asked) then
            InNewArena(w, w', id, if alone then size else w.gpu.arenaSize, options.memoryClass)
          else InFirstRoom(w, w', id, size, asked)
  }

  lemma PlacedOthers(s: State, s': State, id: nat, a: nat, size: nat, options: Options)
    requires PlacedIn(s, s', id, a, size, options)
    ensures Gains(s.entries, s'.entries, id, s'.entries[id]) && id > 0 && !s.Live(id) && s'.Live(id)
    ensures s'.target == s.target && s'.statistics == s.statistics && s'.order == s.order
    ensures a < |s.arenas| == |s'.arenas| && s'.arenas[a].dedicated == s.arenas[a].dedicated
    ensures s'.arenas[a].capacity == s.arenas[a].capacity
    ensures var e := s'.entries[id];
            && EntryAsAsked(e, a, size, options) && options.alignment > 0 && e.offset % options.alignment == 0
            && LowestRoom(s.arenas[a].ranges, e.offset, size, options.alignment)
  {
    GainsElsewhere(s.entries, s'.entries, id, s'.entries[id]);
  }

  lemma SameMemoryOthers(w: World, w': World, id: nat)
    requires w'.memory == w.memory && id < |w'.gpu.entries| && Gains(w.gpu.entries, w'.gpu.entries, id, w'.gpu.entries[id])
    ensures OthersKept(w, w', id)
  {
    GainsElsewhere(w.gpu.entries, w'.gpu.entries, id, w'.gpu.entries[id]);
  }

  lemma GainTallied(w: World, w': World, id: nat)
    requires Tallied(w) && id < |w'.gpu.entries| && Gains(w.gpu.entries, w'.gpu.entries, id, w'.gpu.entries[id])
    requires w'.gpu.target == w.gpu.target && w'.gpu.statistics == w.gpu.statistics && w'.executor == w.executor
    requires w.gpu.target.Some? ==> w'.gpu.entries[id].arena != w.gpu.target.value.source
    ensures Tallied(w')
  {
    GainAccounted(w.gpu.entries, w'.gpu.entries, id, w'.gpu.entries[id], w.gpu.target);
  }

  lemma ExistingKeeps(w: World, w': World, id: nat, size: nat, options: Options)
    requires WorldOk(w) && InExisting(w, w', id, size, options) && Ready(w')
    requires !Dedicated(w.gpu, size, Normalised(options))
    ensures WorldOk(w') && OthersKept(w, w', id) && SameCopies(w, w')
  {
    hide Sound, MemoryOk, Tallied, PlacedIn, Gains, OthersKept, InNew;
    var k :| 0 <= k < |w.gpu.order| && EnteredAt(w.gpu, 0, k, size, Normalised(options), w'.gpu, id);
    NotFrozen(w.gpu, w.gpu.order[k]);
    PlacedOthers(w.gpu, w'.gpu, id, w.gpu.order[k], size, Normalised(options));
    SameMemoryOthers(w, w', id);
    GainTallied(w, w', id);
    assert w'.gpu.Moves() == w.gpu.Moves();
  }

  lemma ExistingServed(w: World, w': World, id: nat, size: nat, options: Options)
    requires Ready(w) && InExisting(w, w', id, size, options)
    requires !Dedicated(w.gpu, size, Normalised(options))
    ensures Served(w, w', id, size, options)
  {
    hide Sound, MemoryOk, PlacedIn, Gains, LowestRoom, RoomAt;
    var o := Normalised(options);
    var k :| 0 <= k < |w.gpu.order| && EnteredAt(w.gpu, 0, k, size, o, w'.gpu, id);
    NotFrozen(w.gpu, w.gpu.order[k]);
    PlacedOthers(w.gpu, w'.gpu, id, w.gpu.order[k], size, o);
    assert RoomAtFirst(w, w', id, k, size, o);
  }

  lemma NotFrozen(s: State, a: nat)
    requires Sound(s) && a < |s.arenas| && s.arenas[a].role == Normal
    ensures s.target.Some? ==> s.target.value.source != a
  {
  }

  lemma CreatedElsewhere(s: State, s1: State, a: nat, x: Arena)
    requires Sound(s) && Created(s, s1, a, x)
    ensures s1.entries == s.entries && s1.target == s.target && s1.statistics == s.statistics
    ensures s.target.Some? ==> s.target.value.source != a
    ensures forall id :: 0 <= id < |s.entries| && s.Live(id) ==> s.entries[id].arena != a
    ensures forall i :: 0 <= i < |s.Moves()| && s.Moves()[i].Pending() ==>
              s.Moves()[i].destination != a && s.Moves()[i].source != a
  {
    forall id | 0 <= id < |s.entries| && s.Live(id) ensures s.entries[id].arena != a {
      LiveArena(s, id);
    }
    if s.target.Some? {
      SoundMoves(s);
    }
  }

  lemma NewCopies(w: World, w': World, a: nat, size: nat, memoryClass: nat)
    requires Ready(w) && w'.gpu.target == w.gpu.target
    requires |w.memory.classes| == |w.memory.arenas| && w'.memory == AddArena(w.memory, a, size, memoryClass)
    requires forall i :: 0 <= i < |w.gpu.Moves()| && w.gpu.Moves()[i].Pending() ==> w.gpu.Moves()[i].destination != a
    ensures SameCopies(w, w')
  {
    forall k | 0 <= k < |w'.gpu.Moves()| && w'.gpu.Moves()[k].state == CopyScheduled
      ensures CopyAt(w'.memory, w'.gpu.Moves()[k]) == CopyAt(w.memory, w.gpu.Moves()[k])
    {
      var m := w.gpu.Moves()[k];
      PendingFits(w, k);
      hide Ready, BytesAt, AddArena;
      AddElsewhere(w.memory, a, size, memoryClass, m.destination, m.destinationOffset, m.size);
    }
  }

  lemma NewContents(w: World, w': World, a: nat, size: nat, memoryClass: nat, id: nat)
    requires Ready(w) && w.gpu.Live(id) && w.gpu.entries[id].arena != a
    requires |w.memory.classes| == |w.memory.arenas| && w'.memory == AddArena(w.memory, a, size, memoryClass)
    requires id < |w'.gpu.entries| && w'.gpu.entries[id] == w.gpu.entries[id]
    ensures Contents(w', id) == Contents(w, id)
  {
    var e := w.gpu.entries[id];
    LiveArena(w.gpu, id);
    assert e.arena < |w.memory.arenas|;
    hide Ready, BytesAt, AddArena;
    AddElsewhere(w.memory, a, size, memoryClass, e.arena, e.offset, e.size);
  }

  lemma NewOthers(w: World, w': World, id: nat, size: nat, options: Options, s1: State, a: nat)
    requires WorldOk(w) && NewAt(w, w', id, size, options, s1, a)
    ensures SameCopies(w, w') && OthersKept(w, w', id) && Tallied(w')
  {
    hide Sound, MemoryOk, Tallied, Created, PlacedIn, Gains, Contents, SameCopies, AddArena;
    var o := Normalised(options);
    var capacity := Capacity(w.gpu, size, o);
    CreatedElsewhere(w.gpu, s1, a, NewArena(capacity, o.memoryClass, Dedicated(w.gpu, size, o)));
    PlacedOthers(s1, w'.gpu, id, a, size, ForNewArena(w.gpu, size, o));
    GainsElsewhere(s1.entries, w'.gpu.entries, id, w'.gpu.entries[id]);
    GainTallied(w, w', id);
    NewCopies(w, w', a, capacity, o.memoryClass);
    forall other | 0 <= other < |w.gpu.entries| && w.gpu.Live(other)
      ensures Contents(w', other) == Contents(w, other)
    {
      NewContents(w, w', a, capacity, o.memoryClass, other);
    }
  }

  lemma NewServed(w: World, w': World, id: nat, size: nat, options: Options, s1: State, a: nat)
    requires Ready(w) && NewAt(w, w', id, size, options, s1, a)
    requires var o := Normalised(options);
             Dedicated(w.gpu, size, o) || NoRoomBefore(w.gpu, 0, |w.gpu.order|, size, o)
    ensures Served(w, w', id, size, options)
  {
    hide Sound, MemoryOk, PlacedIn, Gains, AddArena, LowestRoom, RoomAt, HasRoom;
    var o := Normalised(options);
    CreatedElsewhere(w.gpu, s1, a, NewArena(Capacity(w.gpu, size, o), o.memoryClass, Dedicated(w.gpu, size, o)));
    PlacedOthers(s1, w'.gpu, id, a, size, ForNewArena(w.gpu, size, o));
  }

  lemma NewKeeps(w: World, w': World, id: nat, size: nat, options: Options)
    requires WorldOk(w) && InNew(w, w', id, size, options) && Ready(w')
    requires var o := Normalised(options);
             Dedicated(w.gpu, size, o) || NoRoomBefore(w.gpu, 0, |w.gpu.order|, size, o)
    ensures WorldOk(w') && OthersKept(w, w', id) && Served(w, w', id, size, options) && SameCopies(w, w')
  {
    hide Ready, Tallied, SameCopies, NewAt, OthersKept, Served, NoRoomBefore;
    var s1: State, a: nat :| NewAt(w, w', id, size, options, s1, a);
    NewOthers(w, w', id, size, options, s1, a);
    NewServed(w, w', id, size, options, s1, a);
  }

  /** Allocating always succeeds and disturbs nobody, nor any copy under way. */
  lemma AllocateKeeps(w: World, size: nat, options: Options)
    requires WorldOk(w) && OptionsOk(size, options)
    ensures var (w', id) := Allocate(w, size, options);
            WorldOk(w') && OthersKept(w, w', id) && Served(w, w', id, size, options) && CopiesKept(w, w')
  {
    hide Sound, MemoryOk, Tallied, SameCopies, CopiesKept, Allocate, InNew, InExisting, OthersKept, Served, OptionsOk, NoRoomBefore;
    AllocateIs(w, size, options);
    var (w', id) := Allocate(w, size, options);
    if !Dedicated(w.gpu, size, Normalised(options)) && InExisting(w, w', id, size, options) {
      ExistingKeeps(w, w', id, size, options);
      ExistingServed(w, w', id, size, options);
    } else {
      NewKeeps(w, w', id, size, options);
    }
    SameCopiesKept(w, w');
  }

  // ---- Writing ----

  /** The owner overwrites one byte of its allocation. */
  function WriteAt(w: World, id: nat, j: nat, value: Byte): World
    requires w.gpu.Live(id) && w.gpu.entries[id].arena < |w.memory.arenas|
    requires w.gpu.entries[id].offset + j < |w.memory.arenas[w.gpu.entries[id].arena]|
  {
    var e := w.gpu.entries[id];
    w.(memory := Poke(w.memory, e.arena, e.offset + j, value))
  }

  function Poke(m: Memory, a: nat, p: nat, value: Byte): Memory
    requires a < |m.arenas| && p < |m.arenas[a]|
  {
    var bytes: seq<Byte> := m.arenas[a][p := value];
    m.(arenas := m.arenas[a := bytes])
  }

  lemma PokeElsewhere(m: Memory, a: nat, p: nat, value: Byte, b: nat, offset: nat, size: nat)
    requires a < |m.arenas| && p < |m.arenas[a]| && (b != a || !InBlock(p, offset, size))
    ensures BytesAt(Poke(m, a, p, value), b, offset, size) == BytesAt(m, b, offset, size)
  {
  }

  lemma PokeThere(m: Memory, a: nat, offset: nat, size: nat, j: nat, value: Byte)
    requires a < |m.arenas| && offset + size <= |m.arenas[a]| && j < size
    ensures |BytesAt(m, a, offset, size)| == size
    ensures BytesAt(Poke(m, a, offset + j, value), a, offset, size) == BytesAt(m, a, offset, size)[j := value]
  {
  }

  lemma InItsBuffer(w: World, id: nat)
    requires Ready(w) && w.gpu.Live(id)
    ensures var e := w.gpu.entries[id];
            && e.arena < |w.memory.arenas| && e.offset + e.size <= |w.memory.arenas[e.arena]|
            && |Contents(w, id)| == e.size
  {
    LiveArena(w.gpu, id);
    SoundCore(w.gpu);
    hide Sound, CoreOk;
    LiveBlockFits(w.gpu.Tables(), id);
  }

  lemma WriteReady(w: World, id: nat, j: nat, value: Byte)
    requires Ready(w) && w.gpu.Live(id) && j < w.gpu.entries[id].size
    ensures w.gpu.entries[id].arena < |w.memory.arenas|
    ensures w.gpu.entries[id].offset + j < |w.memory.arenas[w.gpu.entries[id].arena]|
    ensures Ready(WriteAt(w, id, j, value))
  {
    InItsBuffer(w, id);
    hide Sound;
  }

  /** Nobody else's block, nor any block that a move holds, has the byte. */
  lemma ByteIsOwn(w: World, id: nat, j: nat)
    requires Ready(w) && w.gpu.Live(id) && j < w.gpu.entries[id].size
    ensures var e := w.gpu.entries[id];
            && (forall other :: 0 <= other < |w.gpu.entries| && other != id && w.gpu.Live(other) ==>
                  w.gpu.entries[other].arena != e.arena
                  || !InBlock(e.offset + j, w.gpu.entries[other].offset, w.gpu.entries[other].size))
            && (forall k :: 0 <= k < |w.gpu.Moves()| && w.gpu.Moves()[k].Pending() ==>
                  w.gpu.Moves()[k].destination != e.arena
                  || !InBlock(e.offset + j, w.gpu.Moves()[k].destinationOffset, w.gpu.Moves()[k].size))
  {
    SoundCore(w.gpu);
    LiveArena(w.gpu, id);
    var e, c := w.gpu.entries[id], w.gpu.Tables();
    hide Ready, CoreOk;
    forall other | 0 <= other < |w.gpu.entries| && other != id && w.gpu.Live(other) && w.gpu.entries[other].arena == e.arena
      ensures !InBlock(e.offset + j, w.gpu.entries[other].offset, w.gpu.entries[other].size)
    {
      LiveBlocksApart(c, id, other, e.offset + j);
    }
    forall k | 0 <= k < |w.gpu.Moves()| && w.gpu.Moves()[k].Pending() && w.gpu.Moves()[k].destination == e.arena
      ensures !InBlock(e.offset + j, w.gpu.Moves()[k].destinationOffset, w.gpu.Moves()[k].size)
    {
      LiveAndHeldApart(c, id, k, e.offset + j);
    }
  }

  /** A write changes the owner's byte; nobody else's bytes, and no copy under way,
      not even one of the same allocation, is touched. */
  lemma WriteKeeps(w: World, id: nat, j: nat, value: Byte)
    requires WorldOk(w) && w.gpu.Live(id) && j < w.gpu.entries[id].size
    ensures w.gpu.entries[id].arena < |w.memory.arenas|
    ensures w.gpu.entries[id].offset + j < |w.memory.arenas[w.gpu.entries[id].arena]|
    ensures var w' := WriteAt(w, id, j, value);
            && WorldOk(w') && OthersKept(w, w', id) && CopiesKept(w, w')
            && w'.gpu == w.gpu && w'.executor == w.executor
            && |Contents(w, id)| == w.gpu.entries[id].size
            && Contents(w', id) == Contents(w, id)[j := value]
  {
    InItsBuffer(w, id);
    WriteReady(w, id, j, value);
    ByteIsOwn(w, id, j);
    var e, w' := w.gpu.entries[id], WriteAt(w, id, j, value);
    hide Sound, MemoryOk, BytesAt, Tallied, Poke, CopiesKept, SameCopies;
    PokeThere(w.memory, e.arena, e.offset, e.size, j, value);
    forall other | 0 <= other < |w.gpu.entries| && other != id && w.gpu.Live(other)
      ensures Contents(w', other) == Contents(w, other)
    {
      PokeElsewhere(w.memory, e.arena, e.offset + j, value, w.gpu.entries[other].arena,
                    w.gpu.entries[other].offset, w.gpu.entries[other].size);
    }
    WriteCopies(w, id, j, value);
    SameCopiesKept(w, w');
    TalliedMemory(w, w');
  }

  lemma WriteCopies(w: World, id: nat, j: nat, value: Byte)
    requires Ready(w) && w.gpu.Live(id) && j < w.gpu.entries[id].size
    requires w.gpu.entries[id].arena < |w.memory.arenas|
    requires w.gpu.entries[id].offset + j < |w.memory.arenas[w.gpu.entries[id].arena]|
    ensures SameCopies(w, WriteAt(w, id, j, value))
  {
    ByteIsOwn(w, id, j);
    var e, w' := w.gpu.entries[id], WriteAt(w, id, j, value);
    hide Ready, BytesAt, Poke;
    forall k | 0 <= k < |w.gpu.Moves()| && w.gpu.Moves()[k].state == CopyScheduled
      ensures CopyAt(w'.memory, w.gpu.Moves()[k]) == CopyAt(w.memory, w.gpu.Moves()[k])
    {
      var m := w.gpu.Moves()[k];
      PokeElsewhere(w.memory, e.arena, e.offset + j, value, m.destination, m.destinationOffset, m.size);
    }
  }

  lemma TalliedMemory(w: World, w': World)
    requires Tallied(w) && w' == w.(memory := w'.memory)
    ensures Tallied(w')
  {
  }

  // ---- Pinning ----

  /** What set_movable asserts. */
  predicate MaySetMovable(s: State, id: nat, movable: bool) {
    && s.Live(id) && !IsRelocating(s, id)
    && s.entries[id].arena < |s.arenas| && (s.arenas[s.entries[id].arena].dedicated ==> !movable)
  }

  lemma SetMovableKeeps(w: World, id: nat, movable: bool)
    requires WorldOk(w) && MaySetMovable(w.gpu, id, movable)
    ensures var w' := w.(gpu := SetMovable(w.gpu, id, movable));
            && WorldOk(w') && |w'.gpu.entries| == |w.gpu.entries| && w'.gpu.target == w.gpu.target
            && (forall k :: 0 <= k < |w.gpu.entries| ==>
                  && w'.gpu.entries[k] == w.gpu.entries[k].(movable := w'.gpu.entries[k].movable)
                  && Contents(w', k) == Contents(w, k))
  {
    hide Sound, MemoryOk, Balanced, BytesAt, NoPending, IsRelocating;
    var w' := w.(gpu := SetMovable(w.gpu, id, movable));
    assert w'.gpu.Moves() == w.gpu.Moves();
    NotRelocating(w.gpu, id);
    SetMovableSound(w.gpu, id, movable);
    MemoryKinds(w.gpu, w'.gpu, w.memory);
  }

  lemma NotRelocating(s: State, id: nat)
    requires !IsRelocating(s, id)
    ensures NoPending(s.Moves(), id)
  {
  }

  // ---- Copies ----

  /** What is being copied is live, and its copy as long as itself. */
  lemma CopiedIsLive(w: World, id: nat)
    requires Ready(w) && Copied(w.gpu, id)
    ensures w.gpu.Live(id) && |CopyOf(w, id)| == w.gpu.entries[id].size
  {
    var k := FindMove(w.gpu.Moves(), 0, id);
    SoundMoves(w.gpu);
    PendingFits(w, k);
  }
}
