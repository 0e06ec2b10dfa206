/** Every call keeps the invariant and the accounts. */
module GpuCalls {
  import opened Wrappers
  import opened GpuCore
  import opened GpuState
  import opened GpuInvariant
  import opened GpuMoves
  import opened GpuPlan
  import opened GpuWorld
  import opened GpuSchedule
  import opened GpuTally

  lemma RefuseOneOk(w: World, i: nat)
    requires WorldOk(w) && i < |w.gpu.Moves()| && w.gpu.Moves()[i].state == Reserved
    ensures WorldOk(RefuseOne(w, i))
  {
    hide Ready, Tallied, RefuseOne;
    RefuseOneReady(w, i);
    RefuseOneTallied(w, i);
  }

  lemma ScheduleOneOk(w: World, i: nat)
    requires WorldOk(w) && i < |w.gpu.Moves()| && w.gpu.Moves()[i].state == Reserved
    ensures WorldOk(ScheduleOne(w, i))
  {
    hide Ready, Tallied, ScheduleOne;
    ScheduleOneReady(w, i);
    ScheduleOneTallied(w, i);
  }

  lemma CompleteMoveOk(w: World, i: nat, r: Result)
    requires WorldOk(w) && w.gpu.target.Some? && i < |w.gpu.Moves()|
    ensures WorldOk(CompleteMove(w, i, r).0)
  {
    hide Ready, Tallied, CompleteCopy, CompleteRetirement;
    CopyRoundReady(w, i, r);
    if CopyDone(w, w.gpu.Moves()[i]) {
      CompleteCopyTallied(w, i);
    }
    var w1 := CopyRound(w, i, r).0;
    if RetirementDone(w1, w1.gpu.Moves()[i]) {
      CompleteRetirementReady(w1, i);
      CompleteRetirementTallied(w1, i);
    }
  }

  lemma {:induction false} CompleteFromOk(w: World, i: nat, r: Result)
    requires WorldOk(w) && w.gpu.target.Some? && i <= |w.gpu.Moves()|
    ensures WorldOk(CompleteFrom(w, i, r).0)
    decreases |w.gpu.Moves()| - i
  {
    hide Ready, Tallied, CompleteMove;
    if i < |w.gpu.Moves()| {
      CompleteMoveReady(w, i, r);
      CompleteMoveOk(w, i, r);
      var (w1, r1) := CompleteMove(w, i, r);
      CompleteFromOk(w1, i + 1, r1);
    }
  }

  lemma FinishOk(w: World)
    requires WorldOk(w)
    ensures WorldOk(Finish(w).0)
  {
    hide Ready, Tallied, Finish;
    FinishReady(w);
    FinishTallied(w);
  }

  lemma ProcessOk(w: World)
    requires WorldOk(w)
    ensures WorldOk(Process(w).0)
  {
    hide Ready, Tallied, CompleteFrom, Finish;
    if w.gpu.target.Some? {
      CompleteFromReady(w, 0, NOTHING);
      CompleteFromOk(w, 0, NOTHING);
      FinishOk(CompleteFrom(w, 0, NOTHING).0);
    }
  }

  lemma BeginOk(w: World, budget: Budget, plan: Option<Plan>)
    requires WorldOk(w)
    ensures WorldOk(BeginWith(w, budget, plan))
  {
    hide Ready, Tallied, PlanOk, Begin;
    BeginReady(w, budget, plan);
    if BeginWith(w, budget, plan) != w {
      BeginTallied(w, plan.value);
    }
  }

  lemma {:induction false} ScheduleOk(p: Progress)
    requires WorldOk(p.world)
    ensures WorldOk(Schedule(p).world)
    decreases p.moves
  {
    hide Ready, Tallied, ScheduleOne, RefuseOne;
    if MaySchedule(p) {
      if Refused(p) {
        RefuseOneOk(p.world, NextMove(p));
      } else {
        ScheduleOneReady(p.world, NextMove(p));
        ScheduleOneOk(p.world, NextMove(p));
        ScheduleOk(ScheduleRound(p));
      }
    }
  }

  lemma ScheduledOk(w: World, budget: Budget, plan: Option<Plan>)
    requires WorldOk(w)
    ensures WorldOk(Scheduled(w, budget, plan).world)
  {
    hide Ready, Tallied, Process, BeginWith, Schedule;
    ProcessReady(w);
    ProcessOk(w);
    var (w1, r1) := Process(w);
    BeginReady(w1, budget, plan);
    BeginOk(w1, budget, plan);
    ScheduleOk(Progress(BeginWith(w1, budget, plan), budget.copyBytes, budget.moveCount, r1));
  }

  lemma DefragmentOk(w: World, budget: Budget, plan: Option<Plan>)
    requires WorldOk(w)
    ensures WorldOk(Defragment(w, budget, plan).0)
  {
    hide Ready, Tallied, Scheduled, Finish;
    ScheduledReady(w, budget, plan);
    ScheduledOk(w, budget, plan);
    FinishOk(Scheduled(w, budget, plan).world);
  }

  // ---- Finishing leaves the entries alone ----

  lemma ReleaseEntries(w: World, a: nat)
    requires Ready(w) && a < |w.gpu.arenas|
    ensures ReleaseArena(w, a).gpu.entries == w.gpu.entries && ReleaseArena(w, a).executor == w.executor
    ensures ReleaseArena(w, a).gpu.target == w.gpu.target && ReleaseArena(w, a).gpu.freeEntry == w.gpu.freeEntry
  {
  }

  lemma FinishEntries(w: World)
    requires Ready(w)
    ensures Finish(w).0.gpu.entries == w.gpu.entries && Finish(w).0.executor == w.executor
    ensures Finish(w).0.gpu.freeEntry == w.gpu.freeEntry
  {
    if w.gpu.target.Some? && Finished(w.gpu.Moves()) {
      EndReady(w);
      hide Ready;
      ReleaseEntries(w.(gpu := EndTarget(w.gpu)), w.gpu.target.value.source);
    }
  }

  // ---- The order of the arenas ----

  lemma ReleaseOrder(w: World, a: nat)
    requires Ready(w) && a < |w.gpu.arenas|
    ensures SameSequence(w.gpu.order, ReleaseArena(w, a).gpu.order)
  {
    hide Sound, MemoryOk, SameSequence, DropArena;
    if CanRelease(w.gpu.arenas[a]) {
      DropSound(w.gpu, a);
    } else {
      SequenceSame(w.gpu.order);
    }
  }

  lemma FinishOrder(w: World)
    requires Ready(w)
    ensures SameSequence(w.gpu.order, Finish(w).0.gpu.order)
  {
    hide Ready, SameSequence, ReleaseArena;
    SequenceSame(w.gpu.order);
    if w.gpu.target.Some? && Finished(w.gpu.Moves()) {
      EndReady(w);
      ReleaseOrder(w.(gpu := EndTarget(w.gpu)), w.gpu.target.value.source);
    }
  }

  lemma OnwardOrder(w: World, w': World)
    requires Onward(w, w')
    ensures w'.gpu.order == w.gpu.order
  {
  }

  /** No call changes the sequence in which the arenas stand: the arena that goes is
      taken out, the others move up. */
  lemma ProcessOrder(w: World)
    requires Ready(w)
    ensures SameSequence(w.gpu.order, Process(w).0.gpu.order)
  {
    hide Ready, SameSequence, CompleteFrom, Finish, Onward;
    if w.gpu.target.Some? {
      CompleteFromReady(w, 0, NOTHING);
      OnwardOrder(w, CompleteFrom(w, 0, NOTHING).0);
      FinishOrder(CompleteFrom(w, 0, NOTHING).0);
    } else {
      SequenceSame(w.gpu.order);
    }
  }

  lemma DefragmentOrder(w: World, budget: Budget, plan: Option<Plan>)
    requires Ready(w)
    ensures SameSequence(w.gpu.order, Defragment(w, budget, plan).0.gpu.order)
  {
    hide Ready, SameSequence, Process, Schedule, Finish, Onward, PlanOk, Begin;
    ProcessReady(w);
    ProcessOrder(w);
    var (w1, r1) := Process(w);
    BeginReady(w1, budget, plan);
    var w2 := BeginWith(w1, budget, plan);
    if w2 != w1 {
      BeginKeeps(w1.gpu, plan.value);
    }
    var p := Progress(w2, budget.copyBytes, budget.moveCount, r1);
    ScheduleReady(p);
    if w2.gpu.target.Some? {
      OnwardOrder(w2, Schedule(p).world);
    }
    FinishOrder(Schedule(p).world);
    SequenceThen(w.gpu.order, w1.gpu.order, Finish(Schedule(p).world).0.gpu.order);
  }

  lemma TakenOutOrder(w: World, id: nat)
    requires Ready(w) && w.gpu.Live(id) && !Copied(w.gpu, id)
    ensures TakenOut(w, id).gpu.order == w.gpu.order && TakenOut(w, id).gpu.freeEntry == id
  {
    hide Sound, MemoryOk, Copied, Withdraw, Remove, NoPending, SamePlans, SameKinds, SameRoles;
    WithdrawReady(w, id);
    WithdrawSound(w.gpu, id);
    RemoveReady(w.(gpu := Withdraw(w.gpu, id)), id);
    RemoveShape(Withdraw(w.gpu, id), id);
  }

  lemma DeallocateOrder(w: World, id: nat)
    requires Ready(w) && w.gpu.Live(id)
    ensures SameSequence(w.gpu.order, TryDeallocate(w, id).0.gpu.order)
    ensures !Copied(w.gpu, id) ==> TryDeallocate(w, id).0.gpu.freeEntry == id
  {
    hide Ready, Copied, SameSequence, TakenOut, ReleaseArena, Finish;
    if Copied(w.gpu, id) {
      SequenceSame(w.gpu.order);
    } else {
      var a := w.gpu.entries[id].arena;
      TakenOutReady(w, id);
      TakenOutOrder(w, id);
      var w1 := TakenOut(w, id);
      ReleaseReady(w1, a);
      ReleaseOrder(w1, a);
      ReleaseEntries(w1, a);
      FinishOrder(ReleaseArena(w1, a));
      FinishEntries(ReleaseArena(w1, a));
      SequenceThen(w.gpu.order, ReleaseArena(w1, a).gpu.order, TryDeallocate(w, id).0.gpu.order);
    }
  }
}
