/** A run that leaves an empty arena behind: the memory still has a buffer although
    every allocation has been released. */
module GpuLeak {
  import opened Wrappers
  import opened Alignment
  import opened Sums
  import opened FreeList
  import opened GpuCore
  import opened GpuState
  import opened GpuInvariant
  import opened GpuPlan
  import opened GpuWorld
  import opened GpuSchedule
  import opened GpuConservation
  import opened GpuPlanner
  import opened GpuRuns
  import opened GpuScenarios

  // ---- The plan that is found ----

  const FIRST := Candidate(1, 16, 4, 1)
  const SECOND := Candidate(2, 16, 8, 1)

  lemma UsageOf(entries: seq<Entry>, a: nat, live: nat)
    requires entries == [EMPTY_ENTRY, Block(0, 4, 1), Gone(0, 8, 1), Block(0, 8, 2)]
    requires (a == 1 && live == 4) || (a == 2 && live == 8)
    ensures Measures(Usage(live, 1, false), entries, a)
  {
    assert entries[..3][..2] == [EMPTY_ENTRY, Block(0, 4, 1)];
    assert entries[..3] == [EMPTY_ENTRY, Block(0, 4, 1), Gone(0, 8, 1)];
    assert entries == entries[..3] + [entries[3]];
    SumAppend(entries[..3], entries[3], LiveSize(a));
    SumAppend(entries[..3], entries[3], LiveIn(a));
    assert entries[..3] == [EMPTY_ENTRY, Block(0, 4, 1)] + [Gone(0, 8, 1)];
    SumAppend([EMPTY_ENTRY, Block(0, 4, 1)], Gone(0, 8, 1), LiveSize(a));
    SumAppend([EMPTY_ENTRY, Block(0, 4, 1)], Gone(0, 8, 1), LiveIn(a));
    assert [EMPTY_ENTRY, Block(0, 4, 1)] == [EMPTY_ENTRY] + [Block(0, 4, 1)];
    SumAppend([EMPTY_ENTRY], Block(0, 4, 1), LiveSize(a));
    SumAppend([EMPTY_ENTRY], Block(0, 4, 1), LiveIn(a));
    assert [EMPTY_ENTRY] == [] + [EMPTY_ENTRY];
    SumAppend([], EMPTY_ENTRY, LiveSize(a));
    SumAppend([], EMPTY_ENTRY, LiveIn(a));
  }

  /** The first arena recovers twelve bytes, the second eight. */
  lemma RankingIs(w: World)
    requires w == W4 && Ready(w)
    ensures Ranking(w.gpu, [FIRST, SECOND])
  {
    UsageOf(W4.gpu.entries, 1, 4);
    UsageOf(W4.gpu.entries, 2, 8);
    hide Sound, Measures;
    assert W4.gpu.order[0] == 1 && W4.gpu.order[1] == 2;
    assert CandidateOf(W4.gpu, FIRST) && CandidateOf(W4.gpu, SECOND);
    assert [FIRST, SECOND][0].arena == 1 && [FIRST, SECOND][1].arena == 2;
  }

  /** Only the second arena receives from the first, and has one range. */
  lemma OnlyRange(w: World, a: nat, k: nat)
    requires w == W4
    ensures MayReceive(w.gpu, 1, a) <==> a == 2
    ensures MayReceive(w.gpu, 1, a) && RangeFits(w.gpu.arenas, a, k, 4, 1) ==> k == 0
    ensures RangeFits(w.gpu.arenas, 2, 0, 4, 1) && AlignedFit(w.gpu.arenas[2].ranges[0], 4, 1) == Some(8)
  {
    FitsAt(Range(8, 8), 4);
    assert W4.gpu.order[1] == 2;
  }

  lemma PlanIsBest(w: World)
    requires w == W4
    ensures BestSoFar(w.gpu, 1, PLAN.moves, 1)
  {
    hide AlignedFit, RangeFits, MayReceive;
    var s, m := w.gpu, PLAN.moves[0];
    assert Unplaced(s.entries, 1) == m.(destination := 0, destinationOffset := 0);
    assert Moves(PLAN.moves, 1) by { assert PLAN.moves[0].allocation == 1; }
    assert PLAN.moves[..0] == [] && PLAN.moves[..1] == PLAN.moves;
    assert ReserveAll(s.arenas, []) == Some(s.arenas);
    assert Pow2(0) == 1;
    OnlyRange(w, 2, 0);
    forall b: nat, l: nat | MayReceive(s, 1, b) && RangeFits(s.arenas, b, l, 4, 1) ensures b == 2 && l == 0 {
      OnlyRange(w, b, l);
    }
    assert BestRange(s, 1, s.arenas, m, 0) by {
      BestOfOne(s, m);
    }
    assert PlacedBest(s, 1, PLAN.moves, 0);
    PlanReserves(w);
  }

  lemma BestOfOne(s: State, m: Move)
    requires 1 < |s.arenas| && m.allocation < |s.entries| && Pow2(s.entries[m.allocation].alignment) == 1
    requires MayReceive(s, 1, m.destination) && RangeFits(s.arenas, m.destination, 0, m.size, 1)
    requires m.destinationOffset == AlignedFit(s.arenas[m.destination].ranges[0], m.size, 1).value
    requires forall b: nat, l: nat :: MayReceive(s, 1, b) && RangeFits(s.arenas, b, l, m.size, 1) ==> b == m.destination && l == 0
    ensures BestRange(s, 1, s.arenas, m, 0)
  {
    hide AlignedFit, MayReceive;
  }

  lemma PlanReserves(w: World)
    requires w == W4
    ensures ReserveAll(w.gpu.arenas, PLAN.moves).Some?
  {
    assert ReserveAll(W4.gpu.arenas, []) == Some(W4.gpu.arenas);
    assert FindRange([Range(8, 8)], 0, 8, 4) == 0;
    assert PLAN.moves[..0] == [];
  }

  /** Looking at one arena or more, the planner may find the plan. */
  lemma PlanIsFound(w: World, maxBlocksScanned: nat)
    requires w == W4 && Ready(w) && maxBlocksScanned > 0
    ensures MayPlan(w.gpu, maxBlocksScanned, Some(PLAN))
  {
    hide Ready, PlanOk, BestSoFar, Ranking, Begin;
    RankingIs(w);
    BeginStep(w);
    PlanIsBest(w);
    assert Chosen(w.gpu, [FIRST, SECOND], 0, Some(PLAN));
  }

  lemma MeasuredOnce(entries: seq<Entry>, c: Candidate, d: Candidate)
    requires Measures(Usage(c.live, c.count, false), entries, c.arena) && Measures(Usage(d.live, d.count, false), entries, d.arena)
    requires c.arena == d.arena && c.capacity == d.capacity
    ensures c == d
  {
  }

  /** Every ranking begins with the first arena. */
  lemma FirstRanked(w: World, ranked: seq<Candidate>)
    requires w == W4 && Ready(w) && Ranking(w.gpu, ranked)
    ensures |ranked| > 0 && ranked[0] == FIRST
  {
    hide Sound, Measures;
    RankingIs(w);
    assert CandidateOf(w.gpu, [FIRST, SECOND][0]) && CandidateOf(w.gpu, [FIRST, SECOND][1]);
    var j :| 0 <= j < |ranked| && ranked[j].arena == 1;
    assert CandidateOf(w.gpu, ranked[j]) && CandidateOf(w.gpu, ranked[0]);
    MeasuredOnce(w.gpu.entries, ranked[j], FIRST);
    assert ranked[0].arena in [1, 2];
    if ranked[0].arena == 1 {
      MeasuredOnce(w.gpu.entries, ranked[0], FIRST);
    } else {
      MeasuredOnce(w.gpu.entries, ranked[0], SECOND);
    }
  }

  lemma TwoApart(moves: seq<Move>)
    requires DistinctMoves(moves) && |moves| > 1
    ensures moves[0].allocation != moves[1].allocation
  {
  }

  /** The first arena's only allocation is the first block. */
  lemma OneMove(w: World, moves: seq<Move>)
    requires w == W4 && Evacuates(w.gpu.entries, 1, moves)
    ensures |moves| == 1 && moves[0] == PLAN.moves[0].(destination := moves[0].destination,
                                                      destinationOffset := moves[0].destinationOffset)
  {
    assert Moves(moves, 1);
    forall k | 0 <= k < |moves| ensures moves[k].allocation == 1 {
      assert FromSource(w.gpu.entries, 1, moves[k]);
    }
    if |moves| > 1 {
      TwoApart(moves);
    }
  }

  /** It does not get stuck. */
  lemma NeverStuck(w: World)
    requires w == W4
    ensures !Unplannable(w.gpu, 1)
  {
    hide RangeFits, MayReceive, AlignedFit;
    forall moves, i | Stuck(w.gpu, 1, moves, i) ensures false {
      OneMove(w, moves);
      OnlyRange(w, 2, 0);
      assert moves[..0] == [];
      assert Pow2(0) == 1;
    }
  }

  lemma OnlyPlace(w: World, moves: seq<Move>)
    requires w == W4 && BestSoFar(w.gpu, 1, moves, |moves|)
    ensures moves == PLAN.moves
  {
    hide RangeFits, MayReceive, AlignedFit;
    OneMove(w, moves);
    assert PlacedBest(w.gpu, 1, moves, 0);
    assert moves[..0] == [];
    assert Pow2(0) == 1;
    var r: nat :| BestRange(w.gpu, 1, w.gpu.arenas, moves[0], r);
    OnlyRange(w, moves[0].destination, r);
  }

  /** There is no other plan that it may find, and it never finds none. */
  lemma OnlyPlan(w: World, maxBlocksScanned: nat, plan: Option<Plan>)
    requires w == W4 && Ready(w) && maxBlocksScanned > 0 && MayPlan(w.gpu, maxBlocksScanned, plan)
    ensures plan == Some(PLAN)
  {
    hide Ready, PlanOk, BestSoFar, Ranking, Unplannable;
    var ranked: seq<Candidate>, scanned: nat :|
      && Chosen(w.gpu, ranked, scanned, plan)
      && (plan.Some? ==> scanned < maxBlocksScanned)
      && (plan.None? ==> scanned == if |ranked| < maxBlocksScanned then |ranked| else maxBlocksScanned);
    FirstRanked(w, ranked);
    NeverStuck(w);
    assert scanned == 0;
    OnlyPlace(w, plan.value.moves);
  }

  // ---- The leak ----

  /** The budget does not reach for the copy; the third block is released. */
  const L5 := World(BEGUN, TWO_BUFFERS, IDLE_EXECUTOR)
  const L6 := World(Evacuating([NO_ARENA, FROZEN, Half([Range(0, 8), Range(12, 4)], 12, 0, 1)],
                               [EMPTY_ENTRY, Block(0, 4, 1), Gone(0, 8, 1), Gone(2, 8, 2)], 3, MOVE),
                    TWO_BUFFERS, IDLE_EXECUTOR)

  /** The first block's reservation is cancelled and it is taken out of its arena. */
  const L6_TAKEN := World(Evacuating([NO_ARENA, FROZEN.(ranges := [Range(0, 16)], free := 16, allocations := 0),
                                      Half([Range(0, 16)], 16, 0, 0)],
                                     [EMPTY_ENTRY, Gone(3, 4, 1), Gone(0, 8, 1), Gone(2, 8, 2)], 1,
                                     MOVE.(state := Cancelled)),
                          TWO_BUFFERS, IDLE_EXECUTOR)
  const L7 := World(State([NO_ARENA, NO_ARENA, Half([Range(0, 16)], 16, 0, 0)], [2], [1],
                          [EMPTY_ENTRY, Gone(3, 4, 1), Gone(0, 8, 1), Gone(2, 8, 2)], 1, None,
                          Statistics(0, 0, 16, 1, 0, 0), 16, 1),
                    Memory([[], [], ZEROS], [0, 0, 0], 1), IDLE_EXECUTOR)

  lemma FifthStep(w: World)
    requires w == W4 && Ready(w)
    ensures Defragment(w, Budget(1, 1), Some(PLAN)).0 == L5
  {
    hide Ready, Begin, PlanOk;
    BeginStep(w);
    assert [MOVE][0].state == Reserved;
  }

  lemma SixthStep(w: World)
    requires w == L5 && Ready(w)
    ensures TryDeallocate(w, 3) == (L6, true)
  {
    hide Ready;
    assert FindMove([MOVE], 0, 3) == 1;
    assert Release([Range(12, 4)], 0, 8) == [Range(0, 8), Range(12, 4)];
    var s := Remove(L5.gpu, 3);
    assert s.arenas == L6.gpu.arenas && s.entries == L6.gpu.entries;
    assert [MOVE][0].state == Reserved;
  }

  lemma TakenStep()
    requires Ready(L6)
    ensures !Copied(L6.gpu, 1) && TakenOut(L6, 1) == L6_TAKEN
  {
    hide Ready;
    assert FindMove([MOVE], 0, 1) == 0;
    assert Release([Range(0, 8), Range(12, 4)], 8, 4) == [Range(0, 16)];
    assert Release([Range(4, 12)], 0, 4) == [Range(0, 16)];
    var s := CancelMove(L6.gpu, 0);
    assert s.arenas == L6.gpu.arenas[2 := Half([Range(0, 16)], 16, 0, 0)];
    assert s.Moves() == L6_TAKEN.gpu.Moves();
    var t := Remove(s, 1);
    assert t.arenas == L6_TAKEN.gpu.arenas && t.entries == L6_TAKEN.gpu.entries;
  }

  lemma SeventhStep(w: World)
    requires w == L6 && Ready(w)
    ensures TryDeallocate(w, 1) == (L7, true)
  {
    hide Ready, Copied, TakenOut;
    TakenStep();
    TakenOutReady(L6, 1);
    assert ReleaseArena(L6_TAKEN, 1) == L6_TAKEN;
    assert Finished(L6_TAKEN.gpu.Moves());
    assert IndexOf([1, 2], 0, 1) == 0;
    var s := DropArena(EndTarget(L6_TAKEN.gpu), 1);
    assert s.arenas == L7.gpu.arenas && s.order == L7.gpu.order && s.freeArenas == L7.gpu.freeArenas;
    assert RemoveArena(TWO_BUFFERS, 1) == L7.memory;
  }

  lemma Leaks(ops: seq<Op>, o5: seq<Op>, o6: seq<Op>, o7: seq<Op>)
    requires Run(16, ops).world == W4
    requires o5 == ops + [Defrag(Budget(1, 1), Some(PLAN))] && o6 == o5 + [Free(3)] && o7 == o6 + [Free(1)]
    ensures Run(16, o7).world == L7
  {
    hide Ready, TryDeallocate, Defragment, Run, Safe, WorldAfter;
    var w4 := WorldAfter(ops);
    FifthStep(w4);
    ThenDefrag(ops, Budget(1, 1), PLAN, w4, L5);
    var w5 := WorldAfter(o5);
    SixthStep(w5);
    ThenFree(o5, 3, w5, L6);
    var w6 := WorldAfter(o6);
    SeventhStep(w6);
    ThenFree(o6, 1, w6, L7);
  }

  /** Everything is released, but one arena stays, empty, with its buffer. The plan is
      the one that the planner finds, and the only one that it may find. */
  lemma EmptyArenaLeaks(before: seq<Op>, ops: seq<Op>, maxBlocksScanned: nat, plan: Option<Plan>)
    requires before == [Alloc(4, PLAIN), Alloc(8, PLAIN), Alloc(8, PLAIN), Free(2)]
    requires maxBlocksScanned > 0 && ops == before + [Defrag(Budget(1, 1), plan), Free(3), Free(1)]
    ensures MayPlan(Run(16, before).world.gpu, maxBlocksScanned, Some(PLAN))
    ensures MayPlan(Run(16, before).world.gpu, maxBlocksScanned, plan) ==>
              var w := Run(16, ops).world;
              && (forall id :: 0 <= id < |w.gpu.entries| ==> !w.gpu.Live(id))
              && w.gpu.target.None? && w.gpu.order == [2] && w.memory.active == 1
  {
    hide Run, Safe, Ready, MayPlan;
    AfterFour(before);
    var w := WorldAfter(before);
    PlanIsFound(w, maxBlocksScanned);
    if MayPlan(w.gpu, maxBlocksScanned, plan) {
      OnlyPlan(w, maxBlocksScanned, plan);
      var o5 := before + [Defrag(Budget(1, 1), plan)];
      Leaks(before, o5, o5 + [Free(3)], o5 + [Free(3)] + [Free(1)]);
      assert ops == o5 + [Free(3)] + [Free(1)];
    }
  }
}
