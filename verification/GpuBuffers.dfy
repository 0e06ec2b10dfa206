/** Every buffer is accounted for: what allocations made is still there, was released by
    evacuations, as the statistics say, or went with the last allocation in it. */
module GpuBuffers {
  import opened Wrappers
  import opened Sums
  import opened GpuCore
  import opened GpuState
  import opened GpuInvariant
  import opened GpuMoves
  import opened GpuAllocate
  import opened GpuPlan
  import opened GpuWorld
  import opened GpuSchedule
  import opened GpuTally
  import opened GpuOwners
  import opened GpuRuns
  import opened GpuOutcomes

  ghost function Length(): seq<Byte> -> nat {
    (bytes: seq<Byte>) => |bytes|
  }

  /** All bytes of all buffers. */
  ghost function TotalBytes(m: Memory): nat {
    Sum(m.arenas, Length())
  }

  /** So many buffers of so many bytes in all. */
  datatype Buffers = Buffers(count: int, bytes: int) {
    function Plus(other: Buffers): Buffers {
      Buffers(count + other.count, bytes + other.bytes)
    }
  }

  const NO_BUFFERS := Buffers(0, 0)

  /** The buffers there are, and those released by evacuations. */
  ghost function Known(w: World): Buffers {
    Buffers(w.memory.active + w.gpu.statistics.blocksReleased,
            TotalBytes(w.memory) + w.gpu.statistics.bytesReleased)
  }

  // ---- One buffer more or less ----

  lemma RemovedBytes(m: Memory, a: nat)
    requires a < |m.arenas|
    ensures TotalBytes(RemoveArena(m, a)) + |m.arenas[a]| == TotalBytes(m)
  {
    SumUpdate(m.arenas, a, [], Length());
  }

  lemma AddedBytes(m: Memory, a: nat, size: nat, memoryClass: nat)
    requires |m.classes| == |m.arenas| && (a < |m.arenas| ==> m.arenas[a] == [])
    ensures TotalBytes(AddArena(m, a, size, memoryClass)) == TotalBytes(m) + size
  {
    var more := if |m.arenas| <= a then seq(a + 1 - |m.arenas|, _ => []) else [];
    var arenas: seq<seq<Byte>> := m.arenas + more;
    SumSplit(m.arenas, more, Length());
    SumZero(more, Length());
    var bytes: seq<Byte> := seq(size, _ => 0);
    SumUpdate(arenas, a, bytes, Length());
    assert AddArena(m, a, size, memoryClass).arenas == arenas[a := bytes];
  }

  lemma CopiedBytes(m: Memory, r: Relocation)
    requires CopyFits(m, r)
    ensures TotalBytes(CopyBlock(m, r)) == TotalBytes(m)
  {
    SumSame(m.arenas, CopyBlock(m, r).arenas, Length(), Length());
  }

  // ---- Completing and scheduling ----

  lemma {:induction false} CompletingReleases(w: World, i: nat, r: Result)
    requires Ready(w) && w.gpu.target.Some? && i <= |w.gpu.Moves()|
    ensures Known(CompleteFrom(w, i, r).0) == Known(w)
    decreases |w.gpu.Moves()| - i
  {
    hide Ready, GiveUp;
    if i < |w.gpu.Moves()| {
      CompleteMoveReady(w, i, r);
      RoundReleases(w, i, r);
      hide CompleteMove;
      var (w1, r1) := CompleteMove(w, i, r);
      CompletingReleases(w1, i + 1, r1);
    }
  }

  lemma RoundReleases(w: World, i: nat, r: Result)
    requires Ready(w) && w.gpu.target.Some? && i < |w.gpu.Moves()|
    ensures Known(CompleteMove(w, i, r).0) == Known(w)
  {
    hide Sound, MemoryOk, GiveUp, TotalBytes;
    CopyRoundReady(w, i, r);
    var s := CountCopied(w.gpu, i);
    if CopyDone(w, w.gpu.Moves()[i]) {
      StatisticsAside(w.gpu, s.statistics);
      if w.gpu.Moves()[i].id in w.executor.refuseSwitch {
        GiveUpIs(s, i);
      } else {
        SwitchSound(w.gpu, i, w.executor.next);
      }
    }
    var w1 := CopyRound(w, i, r).0;
    if RetirementDone(w1, w1.gpu.Moves()[i]) {
      RetireSound(w1.gpu, i);
    }
  }

  /** The source's buffer goes, and is counted. */
  lemma FinishReleases(w: World)
    requires Ready(w)
    ensures Known(Finish(w).0) == Known(w)
  {
    if w.gpu.target.Some? && Finished(w.gpu.Moves()) {
      EndReady(w);
      var a, w1 := w.gpu.target.value.source, w.(gpu := EndTarget(w.gpu));
      RemovedOnce(w1, a);
      if CanRelease(w1.gpu.arenas[a]) {
        DropSound(w1.gpu, a);
        RemovedBytes(w1.memory, a);
      }
      hide Ready, TotalBytes, Untouched;
    }
  }

  lemma ProcessReleases(w: World)
    requires Ready(w)
    ensures Known(Process(w).0) == Known(w)
  {
    hide Ready, CompleteFrom, Finish, Known;
    if w.gpu.target.Some? {
      CompleteFromReady(w, 0, NOTHING);
      CompletingReleases(w, 0, NOTHING);
      FinishReleases(CompleteFrom(w, 0, NOTHING).0);
    }
  }

  lemma {:induction false} SchedulingReleases(p: Progress)
    requires Ready(p.world)
    ensures Known(Schedule(p).world) == Known(p.world)
    decreases p.moves
  {
    if MaySchedule(p) {
      hide Ready, RefuseOne, ScheduleOne, Known, Onward, FindSchedulable;
      if Refused(p) {
        RefusalReleases(p.world, NextMove(p));
      } else {
        ScheduleOneReady(p.world, NextMove(p));
        CopyReleases(p.world, NextMove(p));
        SchedulingReleases(ScheduleRound(p));
      }
    }
  }

  lemma CopyReleases(w: World, i: nat)
    requires Ready(w) && i < |w.gpu.Moves()| && w.gpu.Moves()[i].state == Reserved
    ensures Known(ScheduleOne(w, i)) == Known(w)
  {
    hide Ready, CopyBlock, CopyFits, TotalBytes;
    PendingFits(w, i);
    CopiedBytes(w.memory, RelocationOf(w, i));
    CopyKeepsActive(w.memory, RelocationOf(w, i));
  }

  lemma RefusalReleases(w: World, i: nat)
    requires Ready(w) && i < |w.gpu.Moves()| && w.gpu.Moves()[i].state == Reserved
    ensures Known(RefuseOne(w, i)) == Known(w)
  {
    hide Sound, MemoryOk, GiveUp, TotalBytes, GivenUp;
    GiveUpIs(w.gpu, i);
  }

  lemma DefragmentReleases(w: World, budget: Budget, plan: Option<Plan>)
    requires Ready(w)
    ensures Known(Defragment(w, budget, plan).0) == Known(w)
  {
    hide Ready, Process, Schedule, Finish, PlanOk, Begin, TotalBytes;
    ProcessReady(w);
    ProcessReleases(w);
    var (w1, r1) := Process(w);
    BeginReady(w1, budget, plan);
    var w2 := BeginWith(w1, budget, plan);
    if w2 != w1 {
      BeginKeeps(w1.gpu, plan.value);
    }
    var p := Progress(w2, budget.copyBytes, budget.moveCount, r1);
    ScheduleReady(p);
    SchedulingReleases(p);
    FinishReleases(Schedule(p).world);
  }

  // ---- Releasing and allocating ----

  /** The buffer that goes with the allocation: its arena's, if it is the last thing in
      it and the arena is not frozen. */
  function Dropped(w: World, id: nat): Buffers
    requires Ready(w) && w.gpu.Live(id)
  {
    if Copied(w.gpu, id) then NO_BUFFERS
    else
      TakenOutReady(w, id);
      var x := TakenOut(w, id).gpu.arenas[w.gpu.entries[id].arena];
      if CanRelease(x) then Buffers(1, x.capacity) else NO_BUFFERS
  }

  lemma DeallocateReleases(w: World, id: nat)
    requires Ready(w) && w.gpu.Live(id)
    ensures Known(TryDeallocate(w, id).0).Plus(Dropped(w, id)) == Known(w)
  {
    if !Copied(w.gpu, id) {
      hide Ready, TakenOut, ReleaseArena, Finish, Known, Copied;
      TakenOutReady(w, id);
      var a, w1 := w.gpu.entries[id].arena, TakenOut(w, id);
      TakenOutKnown(w, id);
      ReleaseReady(w1, a);
      ReleaseReleases(w1, a);
      FinishReleases(ReleaseArena(w1, a));
    }
  }

  lemma ReleaseReleases(w: World, a: nat)
    requires Ready(w) && a < |w.gpu.arenas|
    ensures Known(ReleaseArena(w, a)).Plus(if CanRelease(w.gpu.arenas[a]) then Buffers(1, w.gpu.arenas[a].capacity)
                                           else NO_BUFFERS) == Known(w)
  {
    RemovedOnce(w, a);
    if CanRelease(w.gpu.arenas[a]) {
      DropSound(w.gpu, a);
      RemovedBytes(w.memory, a);
    }
    hide Ready, TotalBytes, Untouched, DropArena;
  }

  lemma WithdrawStatistics(s: State, id: nat)
    requires Sound(s) && !Copied(s, id)
    ensures Withdraw(s, id).statistics == s.statistics
  {
    hide Sound, Copied, NoPending, FindMove, SamePlans, SameKinds, SameRoles, Withdraw;
    WithdrawSound(s, id);
  }

  lemma TakenOutKnown(w: World, id: nat)
    requires Ready(w) && w.gpu.Live(id) && !Copied(w.gpu, id)
    ensures Known(TakenOut(w, id)) == Known(w)
  {
    hide Sound, MemoryOk, Copied, Withdraw, Remove, NoPending, TotalBytes, SameKinds, SameRoles;
    WithdrawReady(w, id);
    WithdrawStatistics(w.gpu, id);
    var w1 := w.(gpu := Withdraw(w.gpu, id));
    RemoveReady(w1, id);
    RemoveShape(w1.gpu, id);
  }

  /** The buffer made for the allocation: one of its own arena's capacity if it is
      dedicated or no arena has room. */
  ghost function Made(w: World, size: nat, options: Options): Buffers {
    var o := Normalised(options);
    if Dedicated(w.gpu, size, o) || NoRoomBefore(w.gpu, 0, |w.gpu.order|, size, o) then
      Buffers(1, Capacity(w.gpu, size, o))
    else NO_BUFFERS
  }

  lemma RoomIsRoom(s: State, k: nat, size: nat, options: Options)
    requires k < |s.order| && HasRoom(s, k, size, options)
    ensures !NoRoomBefore(s, 0, |s.order|, size, options)
  {
    hide HasRoom;
  }

  lemma EnteredRoom(s: State, i: nat, k: nat, size: nat, options: Options, s': State, id: nat)
    requires EnteredAt(s, i, k, size, options, s', id)
    ensures HasRoom(s, k, size, options)
  {
  }

  lemma ExistingReleases(w: World, w': World, id: nat, size: nat, options: Options)
    requires InExisting(w, w', id, size, options) && !Dedicated(w.gpu, size, Normalised(options))
    ensures Known(w') == Known(w).Plus(Made(w, size, options))
  {
    hide HasRoom, NoRoomBefore, PlacedIn, EnteredAt;
    var k :| 0 <= k < |w.gpu.order| && EnteredAt(w.gpu, 0, k, size, Normalised(options), w'.gpu, id);
    EnteredRoom(w.gpu, 0, k, size, Normalised(options), w'.gpu, id);
    RoomIsRoom(w.gpu, k, size, Normalised(options));
    EnteredStatistics(w.gpu, k, size, Normalised(options), w'.gpu, id);
  }

  lemma EnteredStatistics(s: State, k: nat, size: nat, options: Options, s': State, id: nat)
    requires EnteredAt(s, 0, k, size, options, s', id)
    ensures s'.statistics == s.statistics
  {
  }

  lemma NewReleases(w: World, w': World, id: nat, size: nat, options: Options)
    requires Ready(w) && InNew(w, w', id, size, options)
    requires var o := Normalised(options);
             Dedicated(w.gpu, size, o) || NoRoomBefore(w.gpu, 0, |w.gpu.order|, size, o)
    ensures Known(w') == Known(w).Plus(Made(w, size, options))
  {
    hide Sound, Gains, SameKinds, SameRoles, TotalBytes, NoRoomBefore, AddArena;
    var o := Normalised(options);
    var s1: State, a: nat :| NewAt(w, w', id, size, options, s1, a);
    AddedBytes(w.memory, a, Capacity(w.gpu, size, o), o.memoryClass);
    AddedActive(w.memory, a, Capacity(w.gpu, size, o), o.memoryClass);
  }

  lemma AddedActive(m: Memory, a: nat, size: nat, memoryClass: nat)
    requires |m.classes| == |m.arenas|
    ensures AddArena(m, a, size, memoryClass).active == m.active + 1
  {
  }

  lemma AllocateReleases(w: World, size: nat, options: Options)
    requires Ready(w) && OptionsOk(size, options)
    ensures Known(Allocate(w, size, options).0) == Known(w).Plus(Made(w, size, options))
  {
    hide Ready, Allocate, InExisting, InNew, NoRoomBefore, Known, Made, OptionsOk;
    AllocateIs(w, size, options);
    var (w', id) := Allocate(w, size, options);
    if InNew(w, w', id, size, options) && (Dedicated(w.gpu, size, Normalised(options))
         || NoRoomBefore(w.gpu, 0, |w.gpu.order|, size, Normalised(options))) {
      NewReleases(w, w', id, size, options);
    } else {
      ExistingReleases(w, w', id, size, options);
    }
  }

  // ---- Runs ----

  /** The buffers made and dropped by one operation. */
  ghost function MadeBy(w: World, op: Op): Buffers {
    if op.Alloc? then Made(w, op.size, op.options) else NO_BUFFERS
  }

  ghost function DroppedBy(o: Owners, op: Op): Buffers
    requires Safe(o) && Allowed(o.world, op)
  {
    if op.Free? then Dropped(o.world, op.id) else NO_BUFFERS
  }

  lemma StepReleases(o: Owners, op: Op)
    requires Safe(o) && Allowed(o.world, op)
    ensures Known(Step(o, op).world).Plus(DroppedBy(o, op)) == Known(o.world).Plus(MadeBy(o.world, op))
  {
    hide Sound, MemoryOk, Tallied, Allocate, TryDeallocate, Defragment, Process, TotalBytes, Made, Dropped, OptionsOk, WriteAt;
    match op
    case Alloc(size, options) => AllocateReleases(o.world, size, options);
    case Free(id) => DeallocateReleases(o.world, id); DeallocateKeeps(o.world, id);
    case Defrag(budget, plan) => DefragmentReleases(o.world, budget, plan);
    case Complete => ProcessReleases(o.world);
    case Write(id, index, value) =>
      WriteKeeps(o.world, id, index, value);
      PokedBytes(o.world, id, index, value);
    case _ =>
  }

  lemma PokedBytes(w: World, id: nat, j: nat, value: Byte)
    requires w.gpu.Live(id) && w.gpu.entries[id].arena < |w.memory.arenas|
    requires w.gpu.entries[id].offset + j < |w.memory.arenas[w.gpu.entries[id].arena]|
    ensures TotalBytes(WriteAt(w, id, j, value).memory) == TotalBytes(w.memory)
    ensures WriteAt(w, id, j, value).memory.active == w.memory.active
  {
    SumSame(w.memory.arenas, WriteAt(w, id, j, value).memory.arenas, Length(), Length());
  }

  /** All buffers made during the run, and all that went with an allocation. */
  ghost function AllMade(arenaSize: nat, ops: seq<Op>): Buffers
    requires arenaSize <= U32_MAX
  {
    if ops == [] then NO_BUFFERS
    else
      var init, op := ops[..|ops| - 1], ops[|ops| - 1];
      var w := Run(arenaSize, init).world;
      AllMade(arenaSize, init).Plus(if Allowed(w, op) then MadeBy(w, op) else NO_BUFFERS)
  }

  ghost function AllDropped(arenaSize: nat, ops: seq<Op>): Buffers
    requires arenaSize <= U32_MAX
  {
    if ops == [] then NO_BUFFERS
    else
      var init, op := ops[..|ops| - 1], ops[|ops| - 1];
      var o := Run(arenaSize, init);
      AllDropped(arenaSize, init).Plus(if Allowed(o.world, op) then DroppedBy(o, op) else NO_BUFFERS)
  }

  /** One operation more. */
  lemma RunOnce(arenaSize: nat, init: seq<Op>, op: Op)
    requires arenaSize <= U32_MAX
    ensures var o := Run(arenaSize, init);
            Run(arenaSize, init + [op]) == if Allowed(o.world, op) then Step(o, op) else o
  {
    hide Step, Allowed, Safe;
    assert (init + [op])[..|init|] == init;
  }

  lemma MadeOnce(arenaSize: nat, init: seq<Op>, op: Op)
    requires arenaSize <= U32_MAX
    ensures var w := Run(arenaSize, init).world;
            AllMade(arenaSize, init + [op]) ==
            if Allowed(w, op) then AllMade(arenaSize, init).Plus(MadeBy(w, op)) else AllMade(arenaSize, init)
  {
    hide Run, Step, Allowed, Safe, MadeBy;
    assert (init + [op])[..|init|] == init;
  }

  lemma DroppedOnce(arenaSize: nat, init: seq<Op>, op: Op)
    requires arenaSize <= U32_MAX
    ensures var o := Run(arenaSize, init);
            AllDropped(arenaSize, init + [op]) ==
            if Allowed(o.world, op) then AllDropped(arenaSize, init).Plus(DroppedBy(o, op))
            else AllDropped(arenaSize, init)
  {
    hide Run, Step, Allowed, Safe, DroppedBy;
    assert (init + [op])[..|init|] == init;
  }

  /** After every run the buffers that are there, those released by evacuations and
      those that went with an allocation are those that allocations made, by number and
      by size. */
  lemma {:induction false} EveryBufferIsAccountedFor(arenaSize: nat, ops: seq<Op>)
    requires arenaSize <= U32_MAX
    ensures Known(Run(arenaSize, ops).world).Plus(AllDropped(arenaSize, ops)) == AllMade(arenaSize, ops)
  {
    hide *;
    if ops == [] {
      NothingYet(arenaSize);
    } else {
      var init, op := ops[..|ops| - 1], ops[|ops| - 1];
      assert ops == init + [op];
      EveryBufferIsAccountedFor(arenaSize, init);
      RunOnce(arenaSize, init, op);
      MadeOnce(arenaSize, init, op);
      DroppedOnce(arenaSize, init, op);
      var o := Run(arenaSize, init);
      if Allowed(o.world, op) {
        StepReleases(o, op);
        BothSides(Known(o.world), Known(Step(o, op).world), AllMade(arenaSize, init), AllDropped(arenaSize, init),
                  MadeBy(o.world, op), DroppedBy(o, op));
      }
    }
  }

  lemma BothSides(known: Buffers, after: Buffers, made: Buffers, dropped: Buffers, more: Buffers, less: Buffers)
    requires known.Plus(dropped) == made && after.Plus(less) == known.Plus(more)
    ensures after.Plus(dropped.Plus(less)) == made.Plus(more)
  {
  }

  lemma RunNone(arenaSize: nat)
    requires arenaSize <= U32_MAX
    ensures Run(arenaSize, []).world == Initial(arenaSize)
    ensures AllMade(arenaSize, []) == NO_BUFFERS && AllDropped(arenaSize, []) == NO_BUFFERS
  {
    hide Safe, Initial;
  }

  lemma NothingYet(arenaSize: nat)
    requires arenaSize <= U32_MAX
    ensures Known(Run(arenaSize, []).world).Plus(AllDropped(arenaSize, [])) == AllMade(arenaSize, [])
  {
    hide Run, Safe, AllMade, AllDropped;
    RunNone(arenaSize);
    NoBytes(Initial(arenaSize));
  }

  lemma NoBytes(w: World)
    requires w.memory == Memory([], [], 0) && w.gpu.statistics == Statistics(0, 0, 0, 0, 0, 0)
    ensures Known(w) == NO_BUFFERS
  {
  }
}
