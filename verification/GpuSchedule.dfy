/** Scheduling copies within a budget, and the defragment call as a whole. */
module GpuSchedule {
  import opened Wrappers
  import opened GpuCore
  import opened GpuState
  import opened GpuInvariant
  import opened GpuMoves
  import opened GpuPlan
  import opened GpuWorld

  datatype Budget = Budget(copyBytes: nat, moveCount: nat)

  // ---- One copy ----

  function RelocationOf(w: World, i: nat): Relocation
    requires i < |w.gpu.Moves()| && w.gpu.Moves()[i].allocation < |w.gpu.entries|
  {
    MakeRelocation(w.gpu, w.gpu.Moves()[i])
  }

  /** Both ends of a pending move lie inside their buffers. */
  lemma PendingFits(w: World, i: nat)
    requires Ready(w) && i < |w.gpu.Moves()| && w.gpu.Moves()[i].Pending()
    ensures w.gpu.Moves()[i].allocation < |w.gpu.entries|
    ensures CopyFits(w.memory, RelocationOf(w, i))
  {
    SoundMoves(w.gpu);
    SoundCore(w.gpu);
    var m := w.gpu.Moves()[i];
    hide Sound, CoreOk;
    LiveBlockFits(w.gpu.Tables(), m.allocation);
    HeldBlockFits(w.gpu.Tables(), i);
  }

  function ScheduleOne(w: World, i: nat): World
    requires Ready(w) && i < |w.gpu.Moves()| && w.gpu.Moves()[i].state == Reserved
  {
    PendingFits(w, i);
    World(ScheduleMove(w.gpu, i, w.executor.next),
          CopyBlock(w.memory, RelocationOf(w, i)),
          w.executor.(next := w.executor.next + 1, copies := w.executor.copies + [RelocationOf(w, i)]))
  }

  lemma ScheduleOneReady(w: World, i: nat)
    requires Ready(w) && i < |w.gpu.Moves()| && w.gpu.Moves()[i].state == Reserved
    ensures Ready(ScheduleOne(w, i)) && Onward(w, ScheduleOne(w, i))
  {
    PendingFits(w, i);
    ScheduleSound(w.gpu, i, w.executor.next);
    MovedOnAside(w.gpu, ScheduleMove(w.gpu, i, w.executor.next), i);
    hide Sound, MemoryOk, MovedOn, Onward, CopyFits;
    var s := ScheduleMove(w.gpu, i, w.executor.next);
    MovedOnOnward(w, s, w.executor, i);
    MemoryCopied(s, w.memory, RelocationOf(w, i));
    OnwardMemory(w, w.(gpu := s), ScheduleOne(w, i));
  }

  lemma OnwardMemory(w: World, w1: World, w2: World)
    requires Onward(w, w1) && w2.gpu == w1.gpu
    ensures Onward(w, w2)
  {
  }

  function RefuseOne(w: World, i: nat): World
    requires Ready(w) && i < |w.gpu.Moves()| && w.gpu.Moves()[i].state == Reserved
  {
    w.(gpu := GiveUp(w.gpu, i))
  }

  lemma RefuseOneReady(w: World, i: nat)
    requires Ready(w) && i < |w.gpu.Moves()| && w.gpu.Moves()[i].state == Reserved
    ensures Ready(RefuseOne(w, i)) && Onward(w, RefuseOne(w, i))
  {
    GiveUpSound(w.gpu, i);
    GiveUpStatistics(w.gpu, i);
    hide Sound, MemoryOk, GaveUp, Onward;
    GaveUpOnward(w, GiveUp(w.gpu, i));
  }

  // ---- The loop ----

  datatype Progress = Progress(world: World, bytes: nat, moves: nat, result: Result)

  predicate MaySchedule(p: Progress) {
    && p.world.gpu.target.Some? && p.bytes != 0 && p.moves != 0
    && FindSchedulable(p.world.gpu.Moves(), 0, p.bytes) < |p.world.gpu.Moves()|
  }

  function NextMove(p: Progress): nat
    requires MaySchedule(p)
  {
    FindSchedulable(p.world.gpu.Moves(), 0, p.bytes)
  }

  predicate Refused(p: Progress)
    requires MaySchedule(p)
  {
    p.world.gpu.Moves()[NextMove(p)].id in p.world.executor.refuseCopy
  }

  /** One round: the remaining bytes cover the move, the executor accepts it. */
  function ScheduleRound(p: Progress): Progress
    requires Ready(p.world) && MaySchedule(p)
  {
    var size := p.world.gpu.Moves()[NextMove(p)].size;
    Progress(ScheduleOne(p.world, NextMove(p)), p.bytes - size, p.moves - 1,
             p.result.(bytesScheduled := p.result.bytesScheduled + size, movesScheduled := p.result.movesScheduled + 1))
  }

  function Schedule(p: Progress): Progress
    requires Ready(p.world)
    decreases p.moves
  {
    if !MaySchedule(p) then p
    else if Refused(p) then p.(world := RefuseOne(p.world, NextMove(p)))
    else
      ScheduleOneReady(p.world, NextMove(p));
      Schedule(ScheduleRound(p))
  }

  lemma {:induction false} ScheduleReady(p: Progress)
    requires Ready(p.world)
    ensures Ready(Schedule(p).world)
    ensures p.world.gpu.target.Some? ==> Onward(p.world, Schedule(p).world)
    ensures p.world.gpu.target.None? ==> Schedule(p) == p
    decreases p.moves
  {
    hide Ready, Onward, ScheduleOne, RefuseOne;
    if !MaySchedule(p) {
      if p.world.gpu.target.Some? {
        NotOnward(p.world);
      }
    } else if Refused(p) {
      RefuseOneReady(p.world, NextMove(p));
    } else {
      ScheduleOneReady(p.world, NextMove(p));
      var q := ScheduleRound(p);
      OnwardTarget(p.world, q.world);
      ScheduleReady(q);
      OnwardThen(p.world, q.world, Schedule(q).world);
    }
  }

  lemma OnwardTarget(w: World, w': World)
    requires Onward(w, w')
    ensures w.gpu.target.Some? && w'.gpu.target.Some?
  {
  }

  // ---- defragment ----

  /** Which plan is found is up to the planner. */
  function BeginWith(w: World, budget: Budget, plan: Option<Plan>): World
    requires Ready(w)
  {
    if w.gpu.target.None? && budget.copyBytes != 0 && budget.moveCount != 0 && plan.Some? && PlanOk(w.gpu, plan.value) then
      w.(gpu := Begin(w.gpu, plan.value))
    else w
  }

  lemma BeginReady(w: World, budget: Budget, plan: Option<Plan>)
    requires Ready(w)
    ensures Ready(BeginWith(w, budget, plan))
  {
    if BeginWith(w, budget, plan) != w {
      BeginSound(w.gpu, plan.value);
      hide Sound, Begin, PlanOk, SameKinds;
      BeginOrder(w.gpu, plan.value);
      MemoryKinds(w.gpu, Begin(w.gpu, plan.value), w.memory);
    }
  }

  lemma BeginOrder(s: State, plan: Plan)
    requires plan.source < |s.arenas| && ReserveAll(s.arenas, plan.moves).Some?
    ensures Begin(s, plan).order == s.order
  {
  }

  predicate Exhausted(p: Progress) {
    && p.world.gpu.target.Some? && HasReserved(p.world.gpu.Moves())
    && (p.bytes == 0 || p.moves == 0
        || FindSchedulable(p.world.gpu.Moves(), 0, p.bytes) == |p.world.gpu.Moves()|)
  }

  /** The state when the scheduling loop has ended. */
  function Scheduled(w: World, budget: Budget, plan: Option<Plan>): Progress
    requires Ready(w)
  {
    ProcessReady(w);
    var (w1, r1) := Process(w);
    BeginReady(w1, budget, plan);
    Schedule(Progress(BeginWith(w1, budget, plan), budget.copyBytes, budget.moveCount, r1))
  }

  lemma ScheduledReady(w: World, budget: Budget, plan: Option<Plan>)
    requires Ready(w)
    ensures Ready(Scheduled(w, budget, plan).world)
  {
    ProcessReady(w);
    var (w1, r1) := Process(w);
    BeginReady(w1, budget, plan);
    hide Ready, Process, BeginWith, Schedule;
    ScheduleReady(Progress(BeginWith(w1, budget, plan), budget.copyBytes, budget.moveCount, r1));
  }

  function Defragment(w: World, budget: Budget, plan: Option<Plan>): (World, Result)
    requires Ready(w)
  {
    ScheduledReady(w, budget, plan);
    var p := Scheduled(w, budget, plan);
    var r := if Exhausted(p) then p.result.(budgetExhausted := true) else p.result;
    FinishWith(p.world, r)
  }

  lemma DefragmentReady(w: World, budget: Budget, plan: Option<Plan>)
    requires Ready(w)
    ensures Ready(Defragment(w, budget, plan).0)
  {
    ScheduledReady(w, budget, plan);
    hide Ready, Scheduled;
    FinishReady(Scheduled(w, budget, plan).world);
  }
}
