/** Three more runs: one on which a byte that an owner wrote is lost, one on which a new
    allocation counts as relocating, and one on which an evacuation never ends. */
module GpuMishaps {
  import opened Wrappers
  import opened FreeList
  import opened GpuCore
  import opened GpuState
  import opened GpuAllocate
  import opened GpuPlan
  import opened GpuWorld
  import opened GpuSchedule
  import opened GpuBytes
  import opened GpuTally
  import opened GpuContents
  import opened GpuOwners
  import opened GpuRuns
  import opened GpuPlanner
  import opened GpuFindings
  import opened GpuLiveness
  import opened GpuCompletion
  import opened GpuScenarios
  import opened GpuLeak

  const COPY := Relocation(0, 1, 1, 2, 0, 8, 4, 0, 0)
  const COPYING := MOVE.(state := CopyScheduled, copyCompletion := 1)
  const SWITCHED := MOVE.(state := ReferencesSwitched, copyCompletion := 1, sourceRetirement := 2)

  /** The first block's copy has been scheduled, and perhaps completed. */
  function CopyBegun(memory: Memory, completed: nat): World {
    World(Evacuating(BEGUN.arenas, BEGUN.entries, 2, COPYING).(statistics := Statistics(4, 0, 0, 0, 1, 0)),
          memory, Executor(completed, 2, {}, {}, [COPY], []))
  }

  /** The first block is now behind the third, and its old place retires. */
  const RETIRING := FROZEN.(allocations := 0, retiring := 1)

  function Switched(memory: Memory): World {
    World(Evacuating([NO_ARENA, RETIRING, Half([Range(12, 4)], 4, 2, 0)],
                     [EMPTY_ENTRY, Block(8, 4, 2), Gone(0, 8, 1), Block(0, 8, 2)], 2, SWITCHED)
          .(statistics := Statistics(4, 4, 0, 0, 1, 0)),
          memory, Executor(1, 3, {}, {}, [COPY], [COPY]))
  }

  lemma CopyOfZeros()
    ensures CopyFits(TWO_BUFFERS, COPY) && CopyBlock(TWO_BUFFERS, COPY) == TWO_BUFFERS
  {
    var to := ZEROS;
    assert to[..8] + to[0..4] + to[12..] == ZEROS;
    assert CopyBlock(TWO_BUFFERS, COPY).arenas == TWO_BUFFERS.arenas;
  }

  lemma ScheduleStep(w: World)
    requires w == W4 && Ready(w)
    ensures Defragment(w, Budget(4, 1), Some(PLAN)).0 == CopyBegun(TWO_BUFFERS, 0)
  {
    hide Ready, Begin, PlanOk, CopyBlock, CopyFits;
    BeginStep(w);
    BeginReady(w, Budget(4, 1), Some(PLAN));
    CopyOfZeros();
    var w1 := World(BEGUN, TWO_BUFFERS, IDLE_EXECUTOR);
    assert BEGUN.Moves() == [MOVE];
    assert FindSchedulable([MOVE], 0, 4) == 0;
    assert RelocationOf(w1, 0) == COPY;
    var p := Progress(w1, 4, 1, NOTHING);
    ScheduleOneReady(w1, 0);
    assert [MOVE][0 := COPYING] == [COPYING];
    assert ScheduleOne(w1, 0) == CopyBegun(TWO_BUFFERS, 0);
    assert Schedule(p).world == CopyBegun(TWO_BUFFERS, 0);
    assert [COPYING][0].state == CopyScheduled;
  }

  lemma CompleteStep(w: World, memory: Memory)
    requires w == CopyBegun(memory, 1) && Ready(w)
    ensures Process(w).0 == Switched(memory)
  {
    hide Ready;
    CopyRoundReady(w, 0, NOTHING);
    assert w.gpu.Moves() == [COPYING];
    var w1 := CopyRound(w, 0, NOTHING).0;
    assert [COPYING][0 := SWITCHED] == [SWITCHED];
    assert w1.gpu.arenas == Switched(memory).gpu.arenas;
    assert w1.gpu.entries == Switched(memory).gpu.entries;
    assert w1 == Switched(memory);
    CompleteMoveReady(w, 0, NOTHING);
    assert CompleteMove(w, 0, NOTHING).0 == w1;
    LastRound(w, w1);
    assert [SWITCHED][0].state == ReferencesSwitched;
    CompleteFromReady(w, 0, NOTHING);
    assert Finish(w1) == (w1, None);
  }

  lemma LastRound(w: World, w1: World)
    requires Ready(w) && w.gpu.target.Some? && |w.gpu.Moves()| == 1 && CompleteMove(w, 0, NOTHING).0 == w1
    requires |w1.gpu.Moves()| == 1
    ensures CompleteFrom(w, 0, NOTHING).0 == w1
  {
    hide Ready, CompleteMove;
    CompleteMoveReady(w, 0, NOTHING);
  }

  // ---- A byte is lost ----

  lemma {:induction false} NoWritesCareful(ops: seq<Op>)
    requires forall i :: 0 <= i < |ops| ==> !ops[i].Write?
    ensures Careful(16, ops)
  {
    hide Run;
    if ops != [] {
      NoWritesCareful(ops[..|ops| - 1]);
    }
  }

  /** Up to the copy nothing was written and all bytes read zero. */
  lemma WrittenSoFar(ops: seq<Op>)
    requires forall i :: 0 <= i < |ops| ==> !ops[i].Write?
    requires Run(16, ops).world == CopyBegun(TWO_BUFFERS, 0)
    ensures var o := Run(16, ops); 1 in o.accounts && o.accounts[1].written == [0, 0, 0, 0]
  {
    hide Run, Safe, Careful;
    NoWritesCareful(ops);
    CarefulRunsLoseNothing(16, ops);
    var w := CopyBegun(TWO_BUFFERS, 0);
    assert w.gpu.Live(1);
    assert Contents(w, 1) == ZEROS[0..4] == [0, 0, 0, 0];
  }

  const POKED := Memory([[], [7, 0, 0, 0, 0, 0, 0, 0, 0, 0, 0, 0, 0, 0, 0, 0], ZEROS], [0, 0, 0], 2)

  /** The owner writes to the block while it is being copied. */
  lemma ThenWrite(ops: seq<Op>, o: Owners)
    requires o == Run(16, ops) && o.world == CopyBegun(TWO_BUFFERS, 0)
    requires 1 in o.accounts && o.accounts[1].written == [0, 0, 0, 0]
    ensures var p := Run(16, ops + [Write(1, 0, 7)]);
            p.world == CopyBegun(POKED, 0) && 1 in p.accounts && p.accounts[1].written == [7, 0, 0, 0]
  {
    hide Run, Ready, Tallied, Copied, CopyOf, Accurate, Contents;
    var w := o.world;
    assert Allowed(w, Write(1, 0, 7));
    OneMore(ops, Write(1, 0, 7));
    WriteKeeps(w, 1, 0, 7);
    assert ZEROS[0 := 7] == POKED.arenas[1];
    assert WriteAt(w, 1, 0, 7) == CopyBegun(POKED, 0);
    assert [0, 0, 0, 0][0 := 7] == [7, 0, 0, 0];
  }

  lemma ThenAdvance(ops: seq<Op>, o: Owners, memory: Memory)
    requires o == Run(16, ops) && o.world == CopyBegun(memory, 0)
    ensures Run(16, ops + [Advance(1)]) == o.(world := CopyBegun(memory, 1))
  {
    hide Run, Safe;
    OneMore(ops, Advance(1));
  }

  lemma ThenComplete(ops: seq<Op>, o: Owners, memory: Memory)
    requires o == Run(16, ops) && o.world == CopyBegun(memory, 1)
    ensures Run(16, ops + [Complete]).world == Switched(memory)
    ensures 1 in o.accounts ==>
              && 1 in Run(16, ops + [Complete]).accounts
              && Run(16, ops + [Complete]).accounts[1].written == o.accounts[1].written
  {
    hide Run, Safe, Ready, Process, WorldAfter, Switches;
    var w := WorldAfter(ops);
    OneMore(ops, Complete);
    CompleteStep(w, memory);
  }

  lemma Prefix(before: seq<Op>, ops: seq<Op>)
    requires before == [Alloc(4, PLAIN), Alloc(8, PLAIN), Alloc(8, PLAIN), Free(2)]
    requires ops == before + [Defrag(Budget(4, 1), Some(PLAN))]
    ensures Run(16, ops).world == CopyBegun(TWO_BUFFERS, 0)
    ensures MayPlan(Run(16, before).world.gpu, 1, Some(PLAN))
  {
    hide Run, Safe, Ready, Defragment, MayPlan, WorldAfter;
    AfterFour(before);
    var w := WorldAfter(before);
    PlanIsFound(w, 1);
    ScheduleStep(w);
    ThenDefrag(before, Budget(4, 1), PLAN, w, CopyBegun(TWO_BUFFERS, 0));
  }

  /** The owner of the first block writes a seven to it while it is being copied, and
      when the copy has been switched in the block reads zero there. */
  lemma AByteIsLost(before: seq<Op>, ops: seq<Op>)
    requires before == [Alloc(4, PLAIN), Alloc(8, PLAIN), Alloc(8, PLAIN), Free(2)]
    requires ops == before + [Defrag(Budget(4, 1), Some(PLAN)), Write(1, 0, 7), Advance(1), Complete]
    ensures MayPlan(Run(16, before).world.gpu, 1, Some(PLAN))
    ensures var o := Run(16, ops);
            && o.world.gpu.Live(1) && 1 in o.accounts
            && o.accounts[1].written == [7, 0, 0, 0] && Contents(o.world, 1) == [0, 0, 0, 0]
            && 0 in o.accounts[1].lost
  {
    hide Run, Ready, Tallied, MayPlan, Copied, CopyOf;
    var o5 := before + [Defrag(Budget(4, 1), Some(PLAN))];
    Prefix(before, o5);
    WrittenSoFar(o5);
    var o6 := o5 + [Write(1, 0, 7)];
    ThenWrite(o5, Run(16, o5));
    var o7 := o6 + [Advance(1)];
    ThenAdvance(o6, Run(16, o6), POKED);
    ThenComplete(o7, Run(16, o7), POKED);
    assert ops == o7 + [Complete];
    var o := Run(16, ops);
    assert ZEROS[8..12] == [0, 0, 0, 0];
    assert Accurate(o.world, 1, o.accounts[1]);
  }

  // ---- A new allocation counts as relocating ----

  const RELEASED := World(Evacuating([NO_ARENA, RETIRING, Half([Range(8, 8)], 8, 1, 0)],
                                     [EMPTY_ENTRY, Gone(2, 4, 2), Gone(0, 8, 1), Block(0, 8, 2)], 1, SWITCHED)
                          .(statistics := Statistics(4, 4, 0, 0, 1, 0)),
                          TWO_BUFFERS, Executor(1, 3, {}, {}, [COPY], [COPY]))

  lemma ReleaseStep(w: World)
    requires w == Switched(TWO_BUFFERS) && Ready(w)
    ensures TryDeallocate(w, 1) == (RELEASED, true)
  {
    hide Ready;
    assert w.gpu.Moves() == [SWITCHED];
    assert FindMove([SWITCHED], 0, 1) == 0;
    assert Release([Range(12, 4)], 8, 4) == [Range(8, 8)];
    var s := Remove(w.gpu, 1);
    assert s.arenas == RELEASED.gpu.arenas && s.entries == RELEASED.gpu.entries;
    assert [SWITCHED][0].state == ReferencesSwitched;
  }

  lemma NewbornStep(w: World)
    requires w == RELEASED && WorldOk(w) && OptionsOk(4, PLAIN)
    ensures var w' := Allocate(w, 4, PLAIN).0;
            w'.gpu.Live(1) && IsRelocating(w'.gpu, 1)
  {
    hide Ready, Tallied, OptionsOk, Allocate;
    assert w.gpu.Moves()[0].allocation == 1;
    assert StillRetiring(w.gpu, 1);
    NewbornRelocating(w, 4, PLAIN);
    AllocatedId(w, 4, PLAIN);
  }

  /** The first block is moved and then released; while its old place retires, the next
      allocation gets its id, and its owner may neither pin it nor make it movable. */
  lemma ANewbornRelocates(before: seq<Op>, ops: seq<Op>, movable: bool)
    requires before == [Alloc(4, PLAIN), Alloc(8, PLAIN), Alloc(8, PLAIN), Free(2)]
    requires ops == before + [Defrag(Budget(4, 1), Some(PLAN)), Advance(1), Complete, Free(1), Alloc(4, PLAIN)]
    ensures MayPlan(Run(16, before).world.gpu, 1, Some(PLAN))
    ensures var s := Run(16, ops).world.gpu;
            s.Live(1) && IsRelocating(s, 1) && !MaySetMovable(s, 1, movable)
  {
    hide Run, Safe, Ready, Tallied, MayPlan, TryDeallocate, Allocate, OptionsOk, WorldAfter, IsRelocating;
    var o5 := before + [Defrag(Budget(4, 1), Some(PLAN))];
    Prefix(before, o5);
    var o6 := o5 + [Advance(1)];
    ThenAdvance(o5, Run(16, o5), TWO_BUFFERS);
    var o7 := o6 + [Complete];
    ThenComplete(o6, Run(16, o6), TWO_BUFFERS);
    var o8 := o7 + [Free(1)];
    var w7 := WorldAfter(o7);
    ReleaseStep(w7);
    ThenFree(o7, 1, w7, RELEASED);
    var w8 := WorldAfter(o8);
    PlainIsOk(4);
    RunOk(o8);
    NewbornStep(w8);
    ThenAlloc(o8, 4, w8, Allocate(w8, 4, PLAIN).0, Allocate(w8, 4, PLAIN).1);
    assert ops == o8 + [Alloc(4, PLAIN)];
  }

  lemma RunOk(ops: seq<Op>)
    ensures WorldOk(Run(16, ops).world)
  {
    hide Run;
  }

  // ---- An evacuation that never ends ----

  /** Under a budget of one byte a call the first block is never copied: the evacuation
      is begun, and after any number of further calls it is still under way, its source
      frozen. */
  lemma AnEvacuationNeverEnds(before: seq<Op>, times: seq<nat>)
    requires before == [Alloc(4, PLAIN), Alloc(8, PLAIN), Alloc(8, PLAIN), Free(2)]
    ensures var w := Run(16, before).world;
            && WorldOk(w) && MayPlan(w.gpu, 1, Some(PLAN))
            && var s := Calls(FirstCall(w, Budget(1, 1), PLAN), Budget(1, 1), times).gpu;
               && s.target.Some? && s.target.value.source == 1
               && 1 < |s.arenas| && s.arenas[1].role == EvacuationSource
  {
    hide Run, Ready, Tallied, MayPlan, WorldAfter, UnderWay, CarriedOut, Calls, FirstCall, Begin, PlanOk;
    AfterFour(before);
    RunOk(before);
    var w := WorldAfter(before);
    PlanIsFound(w, 1);
    BeginStep(w);
    var budget := Budget(1, 1);
    FirstCallProceeds(w, budget, PLAN, 0);
    var v := FirstCall(w, budget, PLAN);
    CallsProceed(w, PLAN, v, budget, times, 0);
    FrozenUnderWay(w, PLAN, Calls(v, budget, times));
  }

  lemma FrozenUnderWay(w: World, plan: Plan, v: World)
    requires WorldOk(v) && UnderWay(w, plan, v)
    ensures v.gpu.target.Some? && v.gpu.target.value.source == plan.source < |v.gpu.arenas|
    ensures v.gpu.arenas[plan.source].role == EvacuationSource
  {
  }
}
