/** When an allocation changes its place: exactly when its copy has completed and
    the executor switches its references. */
module GpuPlacement {
  import opened Wrappers
  import opened GpuCore
  import opened GpuState
  import opened GpuInvariant
  import opened GpuMoves
  import opened GpuPlan
  import opened GpuWorld
  import opened GpuSchedule
  import opened GpuTally
  import opened GpuCalls

  /** The copy is complete and the switch will be accepted. */
  predicate WillSwitch(w: World, m: Move) {
    m.state == CopyScheduled && m.copyCompletion <= w.executor.completed && m.id !in w.executor.refuseSwitch
  }

  function Relocated(e: Entry, m: Move): Entry {
    e.(arena := m.destination, offset := m.destinationOffset)
  }

  /** Where the allocation will be once the moves from the i-th on are completed. */
  function Landed(w: World, i: nat, id: nat): Entry
    requires i <= |w.gpu.Moves()| && id < |w.gpu.entries|
  {
    var k := FindMove(w.gpu.Moves(), i, id);
    if k < |w.gpu.Moves()| && WillSwitch(w, w.gpu.Moves()[k]) then Relocated(w.gpu.entries[id], w.gpu.Moves()[k])
    else w.gpu.entries[id]
  }

  // ---- One round ----

  /** What the i-th round does to entries and to the other moves. */
  ghost predicate Round(w: World, i: nat, w': World) {
    && i < |w.gpu.Moves()| == |w'.gpu.Moves()|
    && (forall k :: 0 <= k < |w.gpu.Moves()| && k != i ==>
          || w'.gpu.Moves()[k] == w.gpu.Moves()[k]
          || (w.gpu.Moves()[k].state == Reserved && w'.gpu.Moves()[k] == w.gpu.Moves()[k].(state := Cancelled)))
    && w'.gpu.Moves()[i].allocation == w.gpu.Moves()[i].allocation
    && w'.executor.completed == w.executor.completed && w'.executor.refuseSwitch == w.executor.refuseSwitch
    && var m := w.gpu.Moves()[i];
       if WillSwitch(w, m) then
         && m.allocation < |w.gpu.entries|
         && w'.gpu.entries == w.gpu.entries[m.allocation := Relocated(w.gpu.entries[m.allocation], m)]
       else w'.gpu.entries == w.gpu.entries
  }

  lemma CompleteCopyRound(w: World, i: nat)
    requires Ready(w) && i < |w.gpu.Moves()| && CopyDone(w, w.gpu.Moves()[i])
    ensures Round(w, i, CompleteCopy(w, i))
  {
    hide Sound, MemoryOk, GiveUp;
    var s := CountCopied(w.gpu, i);
    StatisticsAside(w.gpu, s.statistics);
    if w.gpu.Moves()[i].id in w.executor.refuseSwitch {
      GiveUpIs(s, i);
    } else {
      SwitchSound(w.gpu, i, w.executor.next);
    }
  }

  lemma CompleteMoveRound(w: World, i: nat, r: Result)
    requires Ready(w) && w.gpu.target.Some? && i < |w.gpu.Moves()|
    ensures Round(w, i, CompleteMove(w, i, r).0)
  {
    hide Ready, CompleteCopy, CompleteRetirement;
    CopyRoundReady(w, i, r);
    if CopyDone(w, w.gpu.Moves()[i]) {
      CompleteCopyRound(w, i);
    }
    var w1 := CopyRound(w, i, r).0;
    if RetirementDone(w1, w1.gpu.Moves()[i]) {
      RetirementRound(w, i, w1);
    }
  }

  lemma RetirementRound(w: World, i: nat, w1: World)
    requires Round(w, i, w1) && Ready(w1) && w1.gpu.Moves()[i].state == ReferencesSwitched
    ensures Round(w, i, CompleteRetirement(w1, i))
  {
    hide Sound, MemoryOk;
    RetireSound(w1.gpu, i);
  }

  lemma {:induction false} FindMoveSame(before: seq<Move>, after: seq<Move>, i: nat, id: nat)
    requires |before| == |after| && i <= |before|
    requires forall k :: i <= k < |before| ==> before[k].allocation == after[k].allocation
    ensures FindMove(before, i, id) == FindMove(after, i, id)
    decreases |before| - i
  {
    if i < |before| && before[i].allocation != id {
      FindMoveSame(before, after, i + 1, id);
    }
  }

  /** The later moves fare as they would have without the round. */
  lemma RoundLater(w: World, i: nat, w': World, id: nat)
    requires Round(w, i, w') && id < |w.gpu.entries|
    requires forall j, k :: 0 <= j < k < |w.gpu.Moves()| ==> w.gpu.Moves()[j].allocation != w.gpu.Moves()[k].allocation
    ensures id < |w'.gpu.entries| && Landed(w', i + 1, id) == Landed(w, i, id)
  {
    hide FindMove;
    var moves, moves' := w.gpu.Moves(), w'.gpu.Moves();
    FindMoveSame(moves, moves', i + 1, id);
    var k := FindMove(moves, i + 1, id);
    FindMoveStep(moves, i, id);
    if k < |moves| {
      assert moves'[k] == moves[k] || moves[k].state == Reserved;
    }
  }

  lemma FindMoveStep(moves: seq<Move>, i: nat, id: nat)
    requires i < |moves|
    ensures FindMove(moves, i, id) == if moves[i].allocation == id then i else FindMove(moves, i + 1, id)
  {
  }

  lemma {:induction false} CompleteFromPlaces(w: World, i: nat, r: Result)
    requires Ready(w) && w.gpu.target.Some? && i <= |w.gpu.Moves()|
    ensures var w' := CompleteFrom(w, i, r).0;
            && |w'.gpu.entries| == |w.gpu.entries|
            && forall id :: 0 <= id < |w.gpu.entries| ==> w'.gpu.entries[id] == Landed(w, i, id)
    decreases |w.gpu.Moves()| - i
  {
    if i < |w.gpu.Moves()| {
      DistinctMoves(w.gpu);
      hide Ready, CompleteMove, Landed, Round;
      CompleteMoveReady(w, i, r);
      CompleteMoveRound(w, i, r);
      var (w1, r1) := CompleteMove(w, i, r);
      CompleteFromPlaces(w1, i + 1, r1);
      RoundSize(w, i, w1);
      forall id | 0 <= id < |w.gpu.entries| ensures CompleteFrom(w1, i + 1, r1).0.gpu.entries[id] == Landed(w, i, id) {
        RoundLater(w, i, w1, id);
      }
    }
  }

  lemma RoundSize(w: World, i: nat, w': World)
    requires Round(w, i, w')
    ensures |w'.gpu.entries| == |w.gpu.entries|
  {
  }

  lemma DistinctMoves(s: State)
    requires Sound(s)
    ensures forall j, k :: 0 <= j < k < |s.Moves()| ==> s.Moves()[j].allocation != s.Moves()[k].allocation
  {
  }

  /** Completing moves places each allocation where its move leads if the move's
      copy is complete and its switch accepted, and leaves all others alone. */
  lemma ProcessPlaces(w: World)
    requires Ready(w)
    ensures var w' := Process(w).0;
            && |w'.gpu.entries| == |w.gpu.entries|
            && forall id :: 0 <= id < |w.gpu.entries| ==> w'.gpu.entries[id] == Landed(w, 0, id)
  {
    if w.gpu.target.Some? {
      CompleteFromReady(w, 0, NOTHING);
      hide Ready, CompleteFrom, Landed;
      CompleteFromPlaces(w, 0, NOTHING);
      FinishEntries(CompleteFrom(w, 0, NOTHING).0);
    }
  }

  lemma {:induction false} ScheduleEntries(p: Progress)
    requires Ready(p.world)
    ensures Schedule(p).world.gpu.entries == p.world.gpu.entries
    decreases p.moves
  {
    if MaySchedule(p) {
      hide Ready, GiveUp;
      if Refused(p) {
        RefuseEntries(p.world, NextMove(p));
      } else {
        ScheduleOneReady(p.world, NextMove(p));
        ScheduleEntries(ScheduleRound(p));
      }
    }
  }

  lemma RefuseEntries(w: World, i: nat)
    requires Ready(w) && i < |w.gpu.Moves()| && w.gpu.Moves()[i].state == Reserved
    ensures RefuseOne(w, i).gpu.entries == w.gpu.entries
  {
    GiveUpIs(w.gpu, i);
  }

  /** Defragmenting places allocations as completing does; what it plans and
      schedules moves nothing yet. */
  lemma DefragmentPlaces(w: World, budget: Budget, plan: Option<Plan>)
    requires Ready(w)
    ensures Defragment(w, budget, plan).0.gpu.entries == Process(w).0.gpu.entries
  {
    hide Ready, Process, Schedule, Finish, PlanOk, Begin;
    ProcessReady(w);
    var (w1, r1) := Process(w);
    BeginReady(w1, budget, plan);
    var w2 := BeginWith(w1, budget, plan);
    if w2 != w1 {
      BeginKeeps(w1.gpu, plan.value);
    }
    var p := Progress(w2, budget.copyBytes, budget.moveCount, r1);
    ScheduleReady(p);
    ScheduleEntries(p);
    FinishEntries(Schedule(p).world);
  }

  predicate SamePlace(e: Entry, f: Entry) {
    e.arena == f.arena && e.offset == f.offset
  }

  /** An allocation changes its place exactly when the copy of its move is complete
      and the switch accepted; it then lies where the move reserved its place, in
      another arena. */
  lemma PlacementChanges(w: World, id: nat)
    requires Ready(w) && w.gpu.Live(id)
    ensures var k, e := FindMove(w.gpu.Moves(), 0, id), Process(w).0.gpu.entries;
            && id < |e|
            && (!SamePlace(e[id], w.gpu.entries[id]) <==>
                  k < |w.gpu.Moves()| && WillSwitch(w, w.gpu.Moves()[k]))
            && (k < |w.gpu.Moves()| && WillSwitch(w, w.gpu.Moves()[k]) ==>
                  && e[id] == Relocated(w.gpu.entries[id], w.gpu.Moves()[k])
                  && e[id].arena != w.gpu.entries[id].arena)
  {
    ProcessPlaces(w);
    if w.gpu.target.Some? {
      SoundMoves(w.gpu);
    }
  }

  /** Pinned allocations never move, and dedicated ones are pinned. */
  lemma PinnedStays(w: World, id: nat, budget: Budget, plan: Option<Plan>)
    requires Ready(w) && w.gpu.Live(id)
    requires !w.gpu.entries[id].movable
             || (w.gpu.entries[id].arena < |w.gpu.arenas| && w.gpu.arenas[w.gpu.entries[id].arena].dedicated)
    ensures |Process(w).0.gpu.entries| == |Defragment(w, budget, plan).0.gpu.entries| == |w.gpu.entries|
    ensures Process(w).0.gpu.entries[id] == w.gpu.entries[id]
    ensures Defragment(w, budget, plan).0.gpu.entries[id] == w.gpu.entries[id]
  {
    ProcessPlaces(w);
    LiveArena(w.gpu, id);
    if w.gpu.target.Some? {
      SoundMoves(w.gpu);
    }
    DefragmentPlaces(w, budget, plan);
  }
}
