/** What a call does to bytes: an accepted switch makes the copy the contents, a
    scheduled copy has the contents, and nothing else changes a byte. */
module GpuContents {
  import opened Wrappers
  import opened GpuCore
  import opened GpuState
  import opened GpuInvariant
  import opened GpuMoves
  import opened GpuPlan
  import opened GpuWorld
  import opened GpuSchedule
  import opened GpuBytes
  import opened GpuTally
  import opened GpuCalls
  import opened GpuPlacement

  /** Completing will switch the allocation. */
  predicate Switches(w: World, id: nat) {
    var k := FindMove(w.gpu.Moves(), 0, id);
    k < |w.gpu.Moves()| && WillSwitch(w, w.gpu.Moves()[k])
  }

  /** What the copy of the allocation under way holds. */
  function CopyOf(w: World, id: nat): seq<Byte>
    requires Copied(w.gpu, id)
  {
    CopyAt(w.memory, w.gpu.Moves()[FindMove(w.gpu.Moves(), 0, id)])
  }

  /** Every allocation being copied afterwards was so before, by a copy with the same
      bytes. */
  ghost predicate CopiesKept(w: World, w': World) {
    forall id: nat :: Copied(w'.gpu, id) ==> Copied(w.gpu, id) && CopyOf(w', id) == CopyOf(w, id)
  }

  lemma {:induction false} FindMoveAt(moves: seq<Move>, i: nat, k: nat)
    requires i <= k < |moves|
    requires forall j, l :: 0 <= j < l < |moves| ==> moves[j].allocation != moves[l].allocation
    ensures FindMove(moves, i, moves[k].allocation) == k
    decreases |moves| - i
  {
    if i < k {
      FindMoveAt(moves, i + 1, k);
    }
  }

  lemma SameCopiesKept(w: World, w': World)
    requires Sound(w.gpu) && SameCopies(w, w')
    ensures CopiesKept(w, w')
  {
    DistinctMoves(w.gpu);
    hide Sound, CopyAt, FindMove;
    forall id: nat | Copied(w'.gpu, id) ensures Copied(w.gpu, id) && CopyOf(w', id) == CopyOf(w, id) {
      FindMoveAt(w.gpu.Moves(), 0, FindMove(w'.gpu.Moves(), 0, id));
    }
  }

  // ---- Completing ----

  lemma {:induction false} CompleteFromQuiet(w: World, i: nat, r: Result)
    requires Ready(w) && w.gpu.target.Some? && i <= |w.gpu.Moves()|
    ensures var w' := CompleteFrom(w, i, r).0; w'.memory == w.memory && NoNewCopy(w.gpu, w'.gpu)
    decreases |w.gpu.Moves()| - i
  {
    hide Ready, CompleteMove, Round;
    if i < |w.gpu.Moves()| {
      CompleteMoveReady(w, i, r);
      CompleteMoveQuiet(w, i, r);
      var (w1, r1) := CompleteMove(w, i, r);
      CompleteFromQuiet(w1, i + 1, r1);
    }
  }

  lemma CompleteMoveQuiet(w: World, i: nat, r: Result)
    requires Ready(w) && w.gpu.target.Some? && i < |w.gpu.Moves()|
    ensures var w' := CompleteMove(w, i, r).0; w'.memory == w.memory && NoNewCopy(w.gpu, w'.gpu)
  {
    hide Ready, CompleteCopy, CompleteRetirement;
    CopyRoundReady(w, i, r);
    if CopyDone(w, w.gpu.Moves()[i]) {
      CompleteCopyQuiet(w, i);
    }
    var w1 := CopyRound(w, i, r).0;
    if RetirementDone(w1, w1.gpu.Moves()[i]) {
      RetirementQuiet(w1, i);
    }
  }

  lemma CompleteCopyQuiet(w: World, i: nat)
    requires Ready(w) && i < |w.gpu.Moves()| && w.gpu.Moves()[i].state == CopyScheduled
    ensures CompleteCopy(w, i).memory == w.memory && NoNewCopy(w.gpu, CompleteCopy(w, i).gpu)
  {
    hide Sound, MemoryOk, GiveUp;
    var s := CountCopied(w.gpu, i);
    StatisticsAside(w.gpu, s.statistics);
    if w.gpu.Moves()[i].id in w.executor.refuseSwitch {
      GiveUpIs(s, i);
    } else {
      SwitchSound(w.gpu, i, w.executor.next);
    }
  }

  lemma RetirementQuiet(w: World, i: nat)
    requires Ready(w) && i < |w.gpu.Moves()| && w.gpu.Moves()[i].state == ReferencesSwitched
    ensures CompleteRetirement(w, i).memory == w.memory && NoNewCopy(w.gpu, CompleteRetirement(w, i).gpu)
  {
    hide Sound, MemoryOk;
    RetireSound(w.gpu, i);
  }

  lemma FinishContents(w: World)
    requires Ready(w)
    ensures SameContents(w, Finish(w).0) && SameCopies(w, Finish(w).0)
  {
    if w.gpu.target.Some? && Finished(w.gpu.Moves()) {
      EndReady(w);
      var w1 := w.(gpu := EndTarget(w.gpu));
      hide Ready, BytesAt, ReleaseArena;
      ReleaseContents(w1, w.gpu.target.value.source);
      ReleaseEntries(w1, w.gpu.target.value.source);
      forall id | 0 <= id < |w.gpu.entries| && w.gpu.Live(id) ensures Contents(w1, id) == Contents(w, id) {
      }
    }
  }

  /** After completing, an allocation whose switch is accepted reads what its copy
      held; every other reads what it read, and copies still under way are as they
      were. */
  lemma ProcessBytes(w: World)
    requires Ready(w)
    ensures |Process(w).0.gpu.entries| == |w.gpu.entries|
    ensures forall id :: 0 <= id < |w.gpu.entries| && w.gpu.Live(id) ==>
              Contents(Process(w).0, id) == if Switches(w, id) then CopyOf(w, id) else Contents(w, id)
    ensures CopiesKept(w, Process(w).0)
  {
    ProcessPlaces(w);
    if w.gpu.target.Some? {
      hide Sound, MemoryOk, BytesAt, CompleteFrom, Finish, FindMove;
      CompleteFromReady(w, 0, NOTHING);
      CompleteFromPlaces(w, 0, NOTHING);
      CompleteFromQuiet(w, 0, NOTHING);
      var w1 := CompleteFrom(w, 0, NOTHING).0;
      FinishContents(w1);
      FinishEntries(w1);
      QuietCopies(w, w1);
      SameCopiesThen(w, w1, Finish(w1).0);
      SameCopiesKept(w, Process(w).0);
      forall id | 0 <= id < |w.gpu.entries| && w.gpu.Live(id)
        ensures Contents(Process(w).0, id) == if Switches(w, id) then CopyOf(w, id) else Contents(w, id)
      {
        SwitchedContents(w, w1, id);
        assert w1.gpu.Live(id);
      }
    }
  }

  lemma SameCopiesThen(w: World, w1: World, w2: World)
    requires SameCopies(w, w1) && SameCopies(w1, w2)
    ensures SameCopies(w, w2)
  {
    forall k | 0 <= k < |w2.gpu.Moves()| && w2.gpu.Moves()[k].state == CopyScheduled
      ensures k < |w.gpu.Moves()| && w.gpu.Moves()[k] == w2.gpu.Moves()[k]
      ensures CopyAt(w2.memory, w2.gpu.Moves()[k]) == CopyAt(w.memory, w.gpu.Moves()[k])
    {
      assert w1.gpu.Moves()[k] == w2.gpu.Moves()[k];
    }
  }

  lemma SwitchedContents(w: World, w1: World, id: nat)
    requires Ready(w) && w.gpu.Live(id) && id < |w1.gpu.entries| && w1.gpu.entries[id] == Landed(w, 0, id)
    requires w1.memory == w.memory
    ensures Contents(w1, id) == if Switches(w, id) then CopyOf(w, id) else Contents(w, id)
  {
    if w.gpu.target.Some? {
      SoundMoves(w.gpu);
    }
  }

  // ---- Scheduling ----

  /** The moves that are copied afterwards: those copied before, with the same bytes,
      and some that were reserved, with the bytes that their allocations read. */
  ghost predicate Copying(w: World, w': World) {
    && SameContents(w, w') && |w'.gpu.Moves()| == |w.gpu.Moves()| && w'.gpu.entries == w.gpu.entries
    && forall k :: 0 <= k < |w'.gpu.Moves()| && w'.gpu.Moves()[k].state == CopyScheduled ==>
         var m, n := w'.gpu.Moves()[k], w.gpu.Moves()[k];
         && m.allocation == n.allocation && n.Pending()
         && (n.state == CopyScheduled ==> CopyAt(w'.memory, m) == CopyAt(w.memory, n))
         && (n.state == Reserved ==>
               n.allocation < |w.gpu.entries| && w.gpu.Live(n.allocation)
               && CopyAt(w'.memory, m) == Contents(w, n.allocation))
  }

  lemma CopyingNothing(w: World)
    requires Ready(w)
    ensures Copying(w, w)
  {
  }

  lemma CopyingThen(w: World, w1: World, w2: World)
    requires Copying(w, w1) && Copying(w1, w2)
    requires forall k :: 0 <= k < |w1.gpu.Moves()| && w1.gpu.Moves()[k].state == Reserved ==>
               w.gpu.Moves()[k].state == Reserved && w.gpu.Moves()[k].allocation == w1.gpu.Moves()[k].allocation
    ensures Copying(w, w2)
  {
    hide CopyAt, Contents;
    assert forall id :: 0 <= id < |w.gpu.entries| && w.gpu.Live(id) ==> w1.gpu.Live(id) && Contents(w2, id) == Contents(w, id);
  }

  lemma ScheduleOneCopying(w: World, i: nat)
    requires Ready(w) && i < |w.gpu.Moves()| && w.gpu.Moves()[i].state == Reserved
    ensures Copying(w, ScheduleOne(w, i))
    ensures forall k :: 0 <= k < |w.gpu.Moves()| && ScheduleOne(w, i).gpu.Moves()[k].state == Reserved ==>
              w.gpu.Moves()[k] == ScheduleOne(w, i).gpu.Moves()[k]
  {
    ScheduleBytes(w, i);
    PendingFits(w, i);
    SoundMoves(w.gpu);
    hide Sound, MemoryOk, CopyAt, Contents, CopyBlock, CopyFits;
    assert PendingOk(w.gpu.arenas, w.gpu.entries, w.gpu.Moves()[i]);
  }

  lemma RefuseOneCopying(w: World, i: nat)
    requires Ready(w) && i < |w.gpu.Moves()| && w.gpu.Moves()[i].state == Reserved
    ensures Copying(w, RefuseOne(w, i))
  {
    hide Sound, MemoryOk, GiveUp, BytesAt;
    GiveUpIs(w.gpu, i);
  }

  lemma {:induction false} ScheduleCopying(p: Progress)
    requires Ready(p.world)
    ensures Copying(p.world, Schedule(p).world)
    decreases p.moves
  {
    hide Ready, Copying, ScheduleOne, RefuseOne;
    if !MaySchedule(p) {
      CopyingNothing(p.world);
    } else if Refused(p) {
      RefuseOneCopying(p.world, NextMove(p));
    } else {
      ScheduleOneReady(p.world, NextMove(p));
      ScheduleOneCopying(p.world, NextMove(p));
      var q := ScheduleRound(p);
      SameNumber(p.world, q.world);
      ScheduleCopying(q);
      CopyingThen(p.world, q.world, Schedule(q).world);
    }
  }

  lemma SameNumber(w: World, w': World)
    requires Copying(w, w')
    ensures |w'.gpu.Moves()| == |w.gpu.Moves()|
  {
  }

  // ---- defragment ----

  /** Every allocation being copied afterwards either was so before, by a copy with the
      same bytes, or is copied anew from what it reads. */
  ghost predicate CopiesMade(w: World, w': World) {
    forall id: nat :: Copied(w'.gpu, id) ==>
      if Copied(w.gpu, id) then CopyOf(w', id) == CopyOf(w, id)
      else id < |w.gpu.entries| && w.gpu.Live(id) && CopyOf(w', id) == Contents(w, id)
  }

  lemma CopyingMakes(w: World, w': World)
    requires Sound(w.gpu) && Copying(w, w')
    ensures CopiesMade(w, w')
  {
    DistinctMoves(w.gpu);
    hide Sound, CopyAt, FindMove, Contents;
    forall id: nat | Copied(w'.gpu, id)
      ensures if Copied(w.gpu, id) then CopyOf(w', id) == CopyOf(w, id)
              else id < |w.gpu.entries| && w.gpu.Live(id) && CopyOf(w', id) == Contents(w, id)
    {
      FindMoveAt(w.gpu.Moves(), 0, FindMove(w'.gpu.Moves(), 0, id));
    }
  }

  lemma MadeThenKept(w: World, w1: World, w2: World)
    requires CopiesMade(w, w1) && CopiesKept(w1, w2)
    ensures CopiesMade(w, w2)
  {
    hide Copied, CopyOf, Contents;
  }

  lemma BeginBytes(w: World, budget: Budget, plan: Option<Plan>)
    requires Ready(w)
    ensures var w' := BeginWith(w, budget, plan);
            && w'.memory == w.memory && w'.gpu.entries == w.gpu.entries
            && (w' == w || w.gpu.target.None?)
            && (w' != w ==> forall k :: 0 <= k < |w'.gpu.Moves()| ==> w'.gpu.Moves()[k].state == Reserved)
  {
    if BeginWith(w, budget, plan) != w {
      BeginSound(w.gpu, plan.value);
      BeginKeeps(w.gpu, plan.value);
      hide Sound, Begin, PlanOk, SameKinds;
    }
  }

  /** Beyond what completing does, defragmenting changes nobody's bytes; the copies it
      schedules have what their allocations then read. */
  lemma DefragmentBytes(w: World, budget: Budget, plan: Option<Plan>)
    requires Ready(w)
    ensures Ready(Process(w).0)
    ensures SameContents(Process(w).0, Defragment(w, budget, plan).0)
    ensures Defragment(w, budget, plan).0.gpu.entries == Process(w).0.gpu.entries
    ensures CopiesMade(Process(w).0, Defragment(w, budget, plan).0)
  {
    ProcessReady(w);
    var (w1, r1) := Process(w);
    ScheduledReady(w, budget, plan);
    DefragmentPlaces(w, budget, plan);
    hide Sound, MemoryOk, Process, BeginWith, Schedule, Finish, CopyOf, Copied, Contents, Copying;
    BeginReady(w1, budget, plan);
    BeginBytes(w1, budget, plan);
    var w2 := BeginWith(w1, budget, plan);
    var p := Progress(w2, budget.copyBytes, budget.moveCount, r1);
    ScheduleCopying(p);
    var w3 := Schedule(p).world;
    ScheduleReady(p);
    FinishContents(w3);
    CopyingMakes(w2, w3);
    BegunMakes(w1, w2, w3);
    SameCopiesKept(w3, Finish(w3).0);
    MadeThenKept(w1, w3, Finish(w3).0);
    FinishEntries(w3);
    CopyingContents(w2, w3, Finish(w3).0);
    SameReads(w1, w2, Finish(w3).0);
  }

  lemma SameReads(w: World, w1: World, w2: World)
    requires w1.memory == w.memory && w1.gpu.entries == w.gpu.entries && SameContents(w1, w2)
    ensures SameContents(w, w2)
  {
  }

  lemma CopyingContents(w: World, w1: World, w2: World)
    requires Copying(w, w1) && SameContents(w1, w2) && w2.gpu.entries == w1.gpu.entries
    ensures SameContents(w, w2)
  {
    hide Contents;
    assert forall id :: 0 <= id < |w.gpu.entries| && w.gpu.Live(id) ==> w1.gpu.Live(id);
  }

  /** Beginning adds reserved moves only, and only where there were none. */
  lemma BegunMakes(w: World, w1: World, w2: World)
    requires w1.memory == w.memory && w1.gpu.entries == w.gpu.entries && (w1 == w || w.gpu.target.None?)
    requires Sound(w1.gpu) && (w1 != w ==> forall k :: 0 <= k < |w1.gpu.Moves()| ==> w1.gpu.Moves()[k].state == Reserved)
    requires CopiesMade(w1, w2)
    ensures CopiesMade(w, w2)
  {
  }
}
