/** The allocator together with the memory it manages and the executor that
    carries out its relocations.

    The memory keeps a byte buffer for each arena. The executor copies the bytes
    of a relocation when it accepts it, and answers with the value its timeline
    will have when the copy, or later the switch, is done. Which relocations it
    refuses is not known beforehand. */
module GpuWorld {
  import opened Wrappers
  import opened GpuCore
  import opened GpuState
  import opened GpuInvariant
  import opened GpuMoves
  import opened GpuAllocate

  // ---- Memory ----

  datatype Memory = Memory(arenas: seq<seq<Byte>>, classes: seq<nat>, active: int)

  function AddArena(m: Memory, a: nat, size: nat, memoryClass: nat): Memory
    requires |m.classes| == |m.arenas|
  {
    var arenas := if |m.arenas| <= a then m.arenas + seq(a + 1 - |m.arenas|, _ => []) else m.arenas;
    var classes := if |m.arenas| <= a then m.classes + seq(a + 1 - |m.classes|, _ => 0) else m.classes;
    Memory(arenas[a := seq(size, _ => 0)], classes[a := memoryClass], m.active + 1)
  }

  function RemoveArena(m: Memory, a: nat): Memory
    requires a < |m.arenas|
  {
    m.(arenas := m.arenas[a := []], active := m.active - 1)
  }

  // ---- The executor ----

  datatype Relocation = Relocation(move: nat, allocation: nat, sourceArena: nat, destinationArena: nat,
                                   sourceOffset: nat, destinationOffset: nat, size: nat,
                                   memoryClass: nat, resourceClass: nat)

  function MakeRelocation(s: State, m: Move): Relocation
    requires m.allocation < |s.entries|
  {
    Relocation(m.id, m.allocation, m.source, m.destination, m.sourceOffset, m.destinationOffset, m.size,
               s.entries[m.allocation].memoryClass, s.entries[m.allocation].resourceClass)
  }

  datatype Executor = Executor(completed: nat, next: nat, refuseCopy: set<nat>, refuseSwitch: set<nat>,
                               copies: seq<Relocation>, switches: seq<Relocation>)

  /** What the executor requires of a copy. */
  predicate CopyFits(m: Memory, r: Relocation) {
    && r.sourceArena != r.destinationArena && r.sourceArena < |m.arenas| && r.destinationArena < |m.arenas|
    && r.sourceOffset + r.size <= |m.arenas[r.sourceArena]|
    && r.destinationOffset + r.size <= |m.arenas[r.destinationArena]|
  }

  function CopyBlock(m: Memory, r: Relocation): Memory
    requires CopyFits(m, r)
  {
    var from, to := m.arenas[r.sourceArena], m.arenas[r.destinationArena];
    m.(arenas := m.arenas[r.destinationArena :=
         to[..r.destinationOffset] + from[r.sourceOffset..r.sourceOffset + r.size] + to[r.destinationOffset + r.size..]])
  }

  // ---- The world ----

  datatype World = World(gpu: State, memory: Memory, executor: Executor)

  /** Every active arena, and no other, has a buffer, of its capacity. */
  ghost predicate MemoryOk(s: State, m: Memory) {
    && |m.classes| == |m.arenas| <= |s.arenas| && m.active == |s.order|
    && forall a :: 0 <= a < |s.arenas| ==>
         if s.arenas[a].active then
           a < |m.arenas| && |m.arenas[a]| == s.arenas[a].capacity && m.classes[a] == s.arenas[a].memoryClass
         else a < |m.arenas| ==> m.arenas[a] == []
  }

  ghost predicate Ready(w: World) {
    Sound(w.gpu) && MemoryOk(w.gpu, w.memory)
  }

  lemma MemoryKinds(s: State, s': State, m: Memory)
    requires MemoryOk(s, m) && SameKinds(s.arenas, s'.arenas) && |s'.order| == |s.order|
    ensures MemoryOk(s', m)
  {
  }

  lemma MemoryAdded(s: State, s': State, m: Memory, a: nat, x: Arena)
    requires MemoryOk(s, m) && Created(s, s', a, x) && x.active
    ensures MemoryOk(s', AddArena(m, a, x.capacity, x.memoryClass))
  {
  }

  lemma MemoryRemoved(s: State, s': State, m: Memory, a: nat)
    requires MemoryOk(s, m) && Dropped(s, s', a) && s.arenas[a].active
    ensures a < |m.arenas| && MemoryOk(s', RemoveArena(m, a))
  {
  }

  lemma MemoryCopied(s: State, m: Memory, r: Relocation)
    requires MemoryOk(s, m) && CopyFits(m, r)
    ensures MemoryOk(s, CopyBlock(m, r))
  {
  }

  lemma CopyKeepsActive(m: Memory, r: Relocation)
    requires CopyFits(m, r)
    ensures CopyBlock(m, r).active == m.active
  {
  }

  // ---- Allocating ----

  /** Where an allocation may end up: in the first arena that has room for it,
      without any change to the memory, or in a new one. */
  ghost predicate InExisting(w: World, w': World, id: nat, size: nat, options: Options) {
    && w' == w.(gpu := w'.gpu)
    && exists k :: 0 <= k < |w.gpu.order| && EnteredAt(w.gpu, 0, k, size, Normalised(options), w'.gpu, id)
  }

  ghost predicate NewAt(w: World, w': World, id: nat, size: nat, options: Options, s1: State, a: nat) {
    var o := Normalised(options);
    var x := NewArena(Capacity(w.gpu, size, o), o.memoryClass, Dedicated(w.gpu, size, o));
    && Created(w.gpu, s1, a, x)
    && PlacedIn(s1, w'.gpu, id, a, size, ForNewArena(w.gpu, size, o)) && w'.gpu.entries[id].offset == 0
    && |w.memory.classes| == |w.memory.arenas|
    && w'.memory == AddArena(w.memory, a, Capacity(w.gpu, size, o), o.memoryClass) && w'.executor == w.executor
  }

  ghost predicate InNew(w: World, w': World, id: nat, size: nat, options: Options) {
    exists s1: State, a: nat :: NewAt(w, w', id, size, options, s1, a)
  }

  function Allocate(w: World, size: nat, options: Options): (World, nat)
    requires Ready(w) && OptionsOk(size, options)
  {
    var o := Normalised(options);
    TryAllocateSound(w.gpu, 0, size, o);
    FreshSound(w.gpu, size, o);
    var (s, id) := if Dedicated(w.gpu, size, o) then (w.gpu, None) else TryAllocate(w.gpu, 0, size, o);
    if id.Some? then (w.(gpu := s), id.value)
    else
      var capacity := Capacity(w.gpu, size, o);
      var (s1, a) := CreateArena(w.gpu, capacity, o.memoryClass, Dedicated(w.gpu, size, o));
      var (s2, id2) := TryAllocateInArena(s1, a, size, ForNewArena(w.gpu, size, o));
      (World(s2, AddArena(w.memory, a, capacity, o.memoryClass), w.executor), id2.value)
  }

  lemma ExistingReady(w: World, s: State, id: nat, size: nat, options: Options)
    requires MemoryOk(w.gpu, w.memory) && Entered(w.gpu, 0, size, Normalised(options), s, Some(id))
    ensures InExisting(w, w.(gpu := s), id, size, options) && MemoryOk(s, w.memory) && s.Live(id)
  {
    hide MemoryOk, PlacedIn;
    var k :| 0 <= k < |w.gpu.order| && EnteredAt(w.gpu, 0, k, size, Normalised(options), s, id);
    PlacedKinds(w.gpu, s, id, w.gpu.order[k], size, Normalised(options));
    MemoryKinds(w.gpu, s, w.memory);
  }

  lemma NewReady(w: World, s1: State, a: nat, s2: State, id: nat, size: nat, options: Options)
    requires MemoryOk(w.gpu, w.memory)
    requires var o := Normalised(options);
             var x := NewArena(Capacity(w.gpu, size, o), o.memoryClass, Dedicated(w.gpu, size, o));
             && Created(w.gpu, s1, a, x)
             && PlacedIn(s1, s2, id, a, size, ForNewArena(w.gpu, size, o)) && s2.entries[id].offset == 0
    ensures var o := Normalised(options);
            var memory := AddArena(w.memory, a, Capacity(w.gpu, size, o), o.memoryClass);
            && InNew(w, World(s2, memory, w.executor), id, size, options) && MemoryOk(s2, memory) && s2.Live(id)
  {
    var o := Normalised(options);
    var x := NewArena(Capacity(w.gpu, size, o), o.memoryClass, Dedicated(w.gpu, size, o));
    var memory := AddArena(w.memory, a, Capacity(w.gpu, size, o), o.memoryClass);
    NewArenaIs(Capacity(w.gpu, size, o), o.memoryClass, Dedicated(w.gpu, size, o));
    assert |w.memory.classes| == |w.memory.arenas|;
    hide PlacedIn, Created, AddArena, MemoryOk;
    MemoryAdded(w.gpu, s1, w.memory, a, x);
    PlacedKinds(s1, s2, id, a, size, ForNewArena(w.gpu, size, o));
    MemoryKinds(s1, s2, memory);
    assert NewAt(w, World(s2, memory, w.executor), id, size, options, s1, a);
  }

  lemma AllocateIs(w: World, size: nat, options: Options)
    requires Ready(w) && OptionsOk(size, options)
    ensures var (w', id) := Allocate(w, size, options);
            && Ready(w') && w'.gpu.Live(id)
            && ((!Dedicated(w.gpu, size, Normalised(options)) && InExisting(w, w', id, size, options))
                || ((Dedicated(w.gpu, size, Normalised(options))
                     || NoRoomBefore(w.gpu, 0, |w.gpu.order|, size, Normalised(options)))
                    && InNew(w, w', id, size, options)))
  {
    var o := Normalised(options);
    TryAllocateSound(w.gpu, 0, size, o);
    FreshSound(w.gpu, size, o);
    var (s, id) := if Dedicated(w.gpu, size, o) then (w.gpu, None) else TryAllocate(w.gpu, 0, size, o);
    if id.Some? {
      hide Sound, MemoryOk, TryAllocate, Entered, InExisting, CreateArena, TryAllocateInArena, Created, PlacedIn, NewArena;
      ExistingReady(w, s, id.value, size, options);
    } else {
      hide Sound, MemoryOk, TryAllocate, InNew, CreateArena, TryAllocateInArena, Created, PlacedIn, NewArena;
      var (s1, a) := CreateArena(w.gpu, Capacity(w.gpu, size, o), o.memoryClass, Dedicated(w.gpu, size, o));
      var (s2, id2) := TryAllocateInArena(s1, a, size, ForNewArena(w.gpu, size, o));
      NewReady(w, s1, a, s2, id2.value, size, options);
    }
  }

  lemma PlacedKinds(s: State, s': State, id: nat, a: nat, size: nat, options: Options)
    requires PlacedIn(s, s', id, a, size, options)
    ensures SameKinds(s.arenas, s'.arenas) && s'.order == s.order && s'.Live(id)
  {
  }

  // ---- Releasing ----

  /** try_release_arena */
  function ReleaseArena(w: World, a: nat): World
    requires Ready(w) && a < |w.gpu.arenas|
  {
    if CanRelease(w.gpu.arenas[a]) then
      DropSound(w.gpu, a);
      w.(gpu := DropArena(w.gpu, a), memory := RemoveArena(w.memory, a))
    else w
  }

  lemma ReleaseReady(w: World, a: nat)
    requires Ready(w) && a < |w.gpu.arenas|
    ensures Ready(ReleaseArena(w, a))
  {
    if CanRelease(w.gpu.arenas[a]) {
      DropSound(w.gpu, a);
      hide Sound, DropArena, Dropped, MemoryOk;
      MemoryRemoved(w.gpu, DropArena(w.gpu, a), w.memory, a);
    }
  }

  // ---- Ending an evacuation ----

  /** finish_target_if_possible: when no move is under way any more the source is
      unfrozen and, if nothing is left in it, its arena removed. */
  function Finish(w: World): (World, Option<nat>)
    requires Ready(w)
  {
    if w.gpu.target.None? || !Finished(w.gpu.Moves()) then (w, None)
    else
      EndReady(w);
      var a, w1 := w.gpu.target.value.source, w.(gpu := EndTarget(w.gpu));
      if CanRelease(w1.gpu.arenas[a]) then
        (CountReleased(ReleaseArena(w1, a), w1.gpu.arenas[a].capacity), Some(w1.gpu.arenas[a].capacity))
      else (w1, None)
  }

  function CountReleased(w: World, capacity: nat): World {
    w.(gpu := w.gpu.(statistics := w.gpu.statistics.(bytesReleased := w.gpu.statistics.bytesReleased + capacity,
                                                     blocksReleased := w.gpu.statistics.blocksReleased + 1)))
  }

  lemma EndReady(w: World)
    requires Ready(w) && w.gpu.target.Some? && Finished(w.gpu.Moves())
    ensures w.gpu.target.value.source < |w.gpu.arenas| && Ready(w.(gpu := EndTarget(w.gpu)))
  {
    EndSound(w.gpu);
    hide Sound, MemoryOk, SameKinds;
    MemoryKinds(w.gpu, EndTarget(w.gpu), w.memory);
  }

  /** Statistics are not part of what must hold. */
  lemma StatisticsAside(s: State, statistics: Statistics)
    requires Sound(s)
    ensures Sound(s.(statistics := statistics))
  {
    hide CoreOk, OrderOk, ChainOk, EntriesOk, RolesOk, TargetOk;
    assert s.(statistics := statistics).Tables() == s.Tables();
  }

  lemma CountedReady(w: World, s: State)
    requires Ready(w) && s == w.gpu.(statistics := s.statistics)
    ensures Ready(w.(gpu := s))
  {
    StatisticsAside(w.gpu, s.statistics);
    hide Sound;
  }

  lemma FinishReady(w: World)
    requires Ready(w)
    ensures Ready(Finish(w).0)
  {
    if w.gpu.target.Some? && Finished(w.gpu.Moves()) {
      EndReady(w);
      var a, w1 := w.gpu.target.value.source, w.(gpu := EndTarget(w.gpu));
      hide Ready, EndTarget;
      ReleaseReady(w1, a);
      var w2 := ReleaseArena(w1, a);
      CountedReady(w2, CountReleased(w2, w1.gpu.arenas[a].capacity).gpu);
    }
  }

  // ---- Deallocating ----

  /** A copy of the allocation is under way: it cannot be released. */
  predicate Copied(s: State, id: nat) {
    var k := FindMove(s.Moves(), 0, id);
    k < |s.Moves()| && s.Moves()[k].state == CopyScheduled
  }

  /** The allocation's move, if it is only reserved, is cancelled. */
  function Withdraw(s: State, id: nat): State
    requires Sound(s)
  {
    var k := FindMove(s.Moves(), 0, id);
    if k < |s.Moves()| && s.Moves()[k].state == Reserved then
      SoundMoves(s);
      CancelMove(s, k)
    else s
  }

  lemma WithdrawSound(s: State, id: nat)
    requires Sound(s) && !Copied(s, id)
    ensures var s' := Withdraw(s, id);
            && Sound(s') && NoPending(s'.Moves(), id) && (s' == s || GaveUp(s, s'))
  {
    var k := FindMove(s.Moves(), 0, id);
    OnlyMove(s, id, k);
    hide Sound, GaveUp, CancelMove, MovedOn, FindMove;
    if k < |s.Moves()| && s.Moves()[k].state == Reserved {
      CancelGivesUp(s, k);
      CancelSound(s, k);
      NoneElse(s, CancelMove(s, k), k);
    }
  }

  lemma OnlyMove(s: State, id: nat, k: nat)
    requires Sound(s) && k == FindMove(s.Moves(), 0, id)
    ensures forall i :: 0 <= i < |s.Moves()| && i != k ==> s.Moves()[i].allocation != id
  {
    if s.target.Some? && k < |s.Moves()| {
      SwitchedRest(s, k);
    }
  }

  lemma SwitchedRest(s: State, i: nat)
    requires Sound(s) && i < |s.Moves()|
    ensures forall k :: 0 <= k < |s.Moves()| && k != i ==> s.Moves()[k].allocation != s.Moves()[i].allocation
  {
  }

  lemma WithdrawReady(w: World, id: nat)
    requires Ready(w) && w.gpu.Live(id) && !Copied(w.gpu, id)
    ensures Ready(w.(gpu := Withdraw(w.gpu, id))) && NoPending(Withdraw(w.gpu, id).Moves(), id)
    ensures Withdraw(w.gpu, id).entries == w.gpu.entries && |Withdraw(w.gpu, id).arenas| == |w.gpu.arenas|
  {
    WithdrawSound(w.gpu, id);
    hide Sound, Withdraw, MemoryOk;
    if Withdraw(w.gpu, id) != w.gpu {
      MemoryKinds(w.gpu, Withdraw(w.gpu, id), w.memory);
    }
  }

  lemma RemoveReady(w: World, id: nat)
    requires Ready(w) && w.gpu.Live(id) && NoPending(w.gpu.Moves(), id)
    ensures w.gpu.entries[id].arena < |w.gpu.arenas| && Ready(w.(gpu := Remove(w.gpu, id)))
    ensures |Remove(w.gpu, id).arenas| == |w.gpu.arenas|
  {
    RemoveSound(w.gpu, id);
    hide Sound, MemoryOk, SameKinds, Remove;
    MemoryKinds(w.gpu, Remove(w.gpu, id), w.memory);
  }

  /** The state after the allocation has been taken out of the tables. */
  function TakenOut(w: World, id: nat): World
    requires Ready(w) && w.gpu.Live(id) && !Copied(w.gpu, id)
  {
    WithdrawReady(w, id);
    RemoveReady(w.(gpu := Withdraw(w.gpu, id)), id);
    w.(gpu := Remove(Withdraw(w.gpu, id), id))
  }

  lemma TakenOutReady(w: World, id: nat)
    requires Ready(w) && w.gpu.Live(id) && !Copied(w.gpu, id)
    ensures Ready(TakenOut(w, id)) && w.gpu.entries[id].arena < |w.gpu.arenas| == |TakenOut(w, id).gpu.arenas|
  {
    hide Sound, MemoryOk, Withdraw, Remove, Copied;
    WithdrawReady(w, id);
    RemoveReady(w.(gpu := Withdraw(w.gpu, id)), id);
  }

  function TryDeallocate(w: World, id: nat): (World, bool)
    requires Ready(w) && w.gpu.Live(id)
  {
    if Copied(w.gpu, id) then (w, false)
    else
      TakenOutReady(w, id);
      var w1 := TakenOut(w, id);
      ReleaseReady(w1, w.gpu.entries[id].arena);
      (Finish(ReleaseArena(w1, w.gpu.entries[id].arena)).0, true)
  }

  // ---- Completing moves ----

  datatype Result = Result(bytesScheduled: nat, bytesCopied: nat, bytesReleased: nat, movesScheduled: nat,
                           movesCompleted: nat, arenasRemoved: nat,
                           budgetExhausted: bool, evacuationActive: bool, completed: bool)

  const NOTHING := Result(0, 0, 0, 0, 0, 0, false, false, true)

  predicate CopyDone(w: World, m: Move) {
    m.state == CopyScheduled && m.copyCompletion <= w.executor.completed
  }

  predicate RetirementDone(w: World, m: Move) {
    m.state == ReferencesSwitched && m.sourceRetirement <= w.executor.completed
  }

  /** The move and the rest of the evacuation are given up. */
  function GiveUp(s: State, i: nat): State
    requires Sound(s) && i < |s.Moves()| && s.Moves()[i].Pending()
  {
    CancelSound(s, i);
    AbortSound(CancelMove(s, i));
    Abort(CancelMove(s, i))
  }

  lemma GiveUpSound(s: State, i: nat)
    requires Sound(s) && i < |s.Moves()| && s.Moves()[i].Pending()
    ensures var s' := GiveUp(s, i);
            && Sound(s') && GaveUp(s, s') && s'.target.value.aborted
            && s'.Moves()[i].state == Cancelled
            && (forall k :: 0 <= k < |s'.Moves()| ==> s'.Moves()[k].state != Reserved)
  {
    CancelGivesUp(s, i);
    CancelSound(s, i);
    var t := CancelMove(s, i);
    AbortSound(t);
    hide Sound, CancelMove, Abort;
    GaveUpThen(s, t, Abort(t));
  }

  function CompleteCopy(w: World, i: nat): World
    requires Ready(w) && i < |w.gpu.Moves()| && w.gpu.Moves()[i].state == CopyScheduled
  {
    StatisticsAside(w.gpu, CountCopied(w.gpu, i).statistics);
    SwitchSound(w.gpu, i, w.executor.next);
    var m, s := w.gpu.Moves()[i], CountCopied(w.gpu, i);
    if m.id in w.executor.refuseSwitch then w.(gpu := GiveUp(s, i))
    else w.(gpu := SwitchMove(s, i, w.executor.next),
            executor := w.executor.(next := w.executor.next + 1,
                                    switches := w.executor.switches + [MakeRelocation(w.gpu, m)]))
  }

  function CompleteRetirement(w: World, i: nat): World
    requires Ready(w) && i < |w.gpu.Moves()| && w.gpu.Moves()[i].state == ReferencesSwitched
  {
    RetireSound(w.gpu, i);
    w.(gpu := RetireMove(w.gpu, i))
  }

  /** What a step leaves as it was: the entries but for placements, the plan, and
      the arenas but for their free space and counters. */
  ghost predicate Onward(w: World, w': World) {
    && w.gpu.target.Some? && w'.gpu.target.Some? && w'.gpu.target.value.source == w.gpu.target.value.source
    && SamePlans(w.gpu.Moves(), w'.gpu.Moves())
    && SameKinds(w.gpu.arenas, w'.gpu.arenas) && SameRoles(w.gpu.arenas, w'.gpu.arenas)
    && w'.gpu == w.gpu.(arenas := w'.gpu.arenas, entries := w'.gpu.entries, target := w'.gpu.target,
                        statistics := w'.gpu.statistics)
  }

  lemma GaveUpOnward(w: World, s: State)
    requires Ready(w) && GaveUp(w.gpu.(statistics := s.statistics), s) && Sound(s)
    ensures Ready(w.(gpu := s)) && Onward(w, w.(gpu := s))
  {
    hide Sound, SamePlans, SameRoles;
    MemoryKinds(w.gpu, s, w.memory);
  }

  lemma MovedOnOnward(w: World, s: State, executor: Executor, i: nat)
    requires Ready(w) && MovedOn(w.gpu.(statistics := s.statistics), s, i) && Sound(s)
    ensures var w' := w.(gpu := s, executor := executor); Ready(w') && Onward(w, w')
  {
    OneMoveOn(w.gpu.Moves(), i, s.Moves()[i]);
    hide Sound, SamePlan, SameRoles;
    MemoryKinds(w.gpu, s, w.memory);
  }

  lemma CompleteCopyReady(w: World, i: nat)
    requires Ready(w) && i < |w.gpu.Moves()| && w.gpu.Moves()[i].state == CopyScheduled
    ensures Ready(CompleteCopy(w, i)) && Onward(w, CompleteCopy(w, i))
  {
    var m, s := w.gpu.Moves()[i], CountCopied(w.gpu, i);
    StatisticsAside(w.gpu, s.statistics);
    hide Sound, MemoryOk;
    if m.id in w.executor.refuseSwitch {
      hide GaveUp, Onward;
      GiveUpSound(s, i);
      GiveUpStatistics(s, i);
      GaveUpOnward(w, GiveUp(s, i));
    } else {
      hide MovedOn, Onward;
      SwitchSound(w.gpu, i, w.executor.next);
      SwitchSound(s, i, w.executor.next);
      SwitchShape(s, i, w.executor.next);
      MovedOnOnward(w, SwitchMove(s, i, w.executor.next), CompleteCopy(w, i).executor, i);
    }
  }

  lemma GiveUpStatistics(s: State, i: nat)
    requires Sound(s) && i < |s.Moves()| && s.Moves()[i].Pending()
    ensures GiveUp(s, i).statistics == s.statistics
  {
    GiveUpSound(s, i);
  }

  lemma CompleteRetirementReady(w: World, i: nat)
    requires Ready(w) && i < |w.gpu.Moves()| && w.gpu.Moves()[i].state == ReferencesSwitched
    ensures Ready(CompleteRetirement(w, i)) && Onward(w, CompleteRetirement(w, i))
  {
    hide Sound, MemoryOk;
    RetireSound(w.gpu, i);
    RetireShape(w.gpu, i);
    MovedOnAside(w.gpu, RetireMove(w.gpu, i), i);
    hide MovedOn, Onward;
    MovedOnOnward(w, RetireMove(w.gpu, i), w.executor, i);
  }

  lemma MovedOnAside(s: State, s': State, i: nat)
    requires MovedOn(s, s', i)
    ensures MovedOn(s.(statistics := s'.statistics), s', i)
  {
  }

  /** One round of process_completions. */
  function CompleteMove(w: World, i: nat, r: Result): (World, Result)
    requires Ready(w) && w.gpu.target.Some? && i < |w.gpu.Moves()|
  {
    var (w1, r1) := CopyRound(w, i, r);
    CopyRoundReady(w, i, r);
    if RetirementDone(w1, w1.gpu.Moves()[i]) then
      (CompleteRetirement(w1, i), r1.(movesCompleted := r1.movesCompleted + 1))
    else (w1, r1)
  }

  function CopyRound(w: World, i: nat, r: Result): (World, Result)
    requires Ready(w) && w.gpu.target.Some? && i < |w.gpu.Moves()|
  {
    if CopyDone(w, w.gpu.Moves()[i]) then
      (CompleteCopy(w, i), r.(bytesCopied := r.bytesCopied + w.gpu.Moves()[i].size))
    else (w, r)
  }

  lemma CopyRoundReady(w: World, i: nat, r: Result)
    requires Ready(w) && w.gpu.target.Some? && i < |w.gpu.Moves()|
    ensures Ready(CopyRound(w, i, r).0) && Onward(w, CopyRound(w, i, r).0)
  {
    hide Ready;
    if CopyDone(w, w.gpu.Moves()[i]) {
      CompleteCopyReady(w, i);
    } else {
      NotOnward(w);
    }
  }

  lemma NotOnward(w: World)
    requires w.gpu.target.Some?
    ensures Onward(w, w)
  {
  }

  lemma OnwardSize(w: World, w': World)
    requires Onward(w, w')
    ensures w'.gpu.target.Some? && |w'.gpu.Moves()| == |w.gpu.Moves()|
  {
  }

  lemma OnwardThen(w: World, w1: World, w2: World)
    requires Onward(w, w1) && Onward(w1, w2)
    ensures Onward(w, w2)
  {
    forall k | 0 <= k < |w.gpu.Moves()| ensures SamePlan(w.gpu.Moves()[k], w2.gpu.Moves()[k]) {
      assert SamePlan(w.gpu.Moves()[k], w1.gpu.Moves()[k]) && SamePlan(w1.gpu.Moves()[k], w2.gpu.Moves()[k]);
    }
  }

  lemma CompleteMoveReady(w: World, i: nat, r: Result)
    requires Ready(w) && w.gpu.target.Some? && i < |w.gpu.Moves()|
    ensures var w' := CompleteMove(w, i, r).0; Ready(w') && Onward(w, w')
  {
    CopyRoundReady(w, i, r);
    var w1 := CopyRound(w, i, r).0;
    hide Ready, CopyRound;
    if RetirementDone(w1, w1.gpu.Moves()[i]) {
      CompleteRetirementReady(w1, i);
      hide Onward, CompleteRetirement;
      OnwardThen(w, w1, CompleteRetirement(w1, i));
    }
  }

  function CompleteFrom(w: World, i: nat, r: Result): (World, Result)
    requires Ready(w) && w.gpu.target.Some? && i <= |w.gpu.Moves()|
    decreases |w.gpu.Moves()| - i
  {
    if i == |w.gpu.Moves()| then (w, r)
    else
      CompleteMoveReady(w, i, r);
      var (w1, r1) := CompleteMove(w, i, r);
      CompleteFrom(w1, i + 1, r1)
  }

  lemma {:induction false} CompleteFromReady(w: World, i: nat, r: Result)
    requires Ready(w) && w.gpu.target.Some? && i <= |w.gpu.Moves()|
    ensures var w' := CompleteFrom(w, i, r).0; Ready(w') && Onward(w, w')
    decreases |w.gpu.Moves()| - i
  {
    hide Ready, CompleteMove, Onward;
    if i == |w.gpu.Moves()| {
      NotOnward(w);
    } else {
      CompleteMoveReady(w, i, r);
      var (w1, r1) := CompleteMove(w, i, r);
      OnwardSize(w, w1);
      CompleteFromReady(w1, i + 1, r1);
      OnwardThen(w, w1, CompleteFrom(w1, i + 1, r1).0);
    }
  }

  /** finish_target_if_possible and set_result_state. */
  function FinishWith(w: World, r: Result): (World, Result)
    requires Ready(w)
  {
    var (w', released) := Finish(w);
    var r' := if released.Some? then
                r.(bytesReleased := r.bytesReleased + released.value, arenasRemoved := r.arenasRemoved + 1)
              else r;
    (w', r'.(evacuationActive := w'.gpu.target.Some?, completed := w'.gpu.target.None?))
  }

  function Process(w: World): (World, Result)
    requires Ready(w)
  {
    if w.gpu.target.None? then (w, NOTHING)
    else
      CompleteFromReady(w, 0, NOTHING);
      var (w1, r1) := CompleteFrom(w, 0, NOTHING);
      FinishWith(w1, r1)
  }

  lemma ProcessReady(w: World)
    requires Ready(w)
    ensures Ready(Process(w).0)
  {
    if w.gpu.target.Some? {
      CompleteFromReady(w, 0, NOTHING);
      FinishReady(CompleteFrom(w, 0, NOTHING).0);
    }
  }
}
