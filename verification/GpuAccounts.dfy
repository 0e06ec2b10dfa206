/** What a call reports, and that it stays within its budget. */
module GpuAccounts {
  import opened Wrappers
  import opened GpuCore
  import opened GpuState
  import opened GpuInvariant
  import opened GpuMoves
  import opened GpuPlan
  import opened GpuWorld
  import opened GpuSchedule
  import opened GpuTally

  /** Between two points of a call the lifetime totals grow as the call's result
      does; every copy made is logged, every arena removed leaves the memory. */
  ghost predicate Reported(w: World, r: Result, w': World, r': Result) {
    var t, t' := w.gpu.statistics, w'.gpu.statistics;
    && t'.bytesScheduled + r.bytesScheduled == t.bytesScheduled + r'.bytesScheduled
    && t'.bytesCopied + r.bytesCopied == t.bytesCopied + r'.bytesCopied
    && t'.bytesReleased + r.bytesReleased == t.bytesReleased + r'.bytesReleased
    && t'.movesScheduled + r.movesScheduled == t.movesScheduled + r'.movesScheduled
    && t'.movesCompleted + r.movesCompleted == t.movesCompleted + r'.movesCompleted
    && t'.blocksReleased + r.arenasRemoved == t.blocksReleased + r'.arenasRemoved
    && |w'.executor.copies| + r.movesScheduled == |w.executor.copies| + r'.movesScheduled
    && w'.memory.active + r'.arenasRemoved == w.memory.active + r.arenasRemoved
  }

  lemma ReportedThen(w: World, r: Result, w1: World, r1: Result, w2: World, r2: Result)
    requires Reported(w, r, w1, r1) && Reported(w1, r1, w2, r2)
    ensures Reported(w, r, w2, r2)
  {
  }

  // ---- Completing ----

  lemma CopyRoundReported(w: World, i: nat, r: Result)
    requires Ready(w) && w.gpu.target.Some? && i < |w.gpu.Moves()|
    ensures Reported(w, r, CopyRound(w, i, r).0, CopyRound(w, i, r).1)
  {
    hide Sound, MemoryOk, GiveUp;
    if CopyDone(w, w.gpu.Moves()[i]) {
      var s := CountCopied(w.gpu, i);
      StatisticsAside(w.gpu, s.statistics);
      if w.gpu.Moves()[i].id in w.executor.refuseSwitch {
        GiveUpIs(s, i);
      } else {
        SwitchSound(w.gpu, i, w.executor.next);
      }
    }
  }

  lemma CompleteMoveReported(w: World, i: nat, r: Result)
    requires Ready(w) && w.gpu.target.Some? && i < |w.gpu.Moves()|
    ensures Reported(w, r, CompleteMove(w, i, r).0, CompleteMove(w, i, r).1)
  {
    hide Sound, MemoryOk, CopyRound;
    CopyRoundReported(w, i, r);
    CopyRoundReady(w, i, r);
    var w1 := CopyRound(w, i, r).0;
    if RetirementDone(w1, w1.gpu.Moves()[i]) {
      RetireSound(w1.gpu, i);
    }
  }

  lemma {:induction false} CompleteFromReported(w: World, i: nat, r: Result)
    requires Ready(w) && w.gpu.target.Some? && i <= |w.gpu.Moves()|
    ensures Reported(w, r, CompleteFrom(w, i, r).0, CompleteFrom(w, i, r).1)
    decreases |w.gpu.Moves()| - i
  {
    hide Ready, CompleteMove;
    if i < |w.gpu.Moves()| {
      CompleteMoveReady(w, i, r);
      CompleteMoveReported(w, i, r);
      var (w1, r1) := CompleteMove(w, i, r);
      CompleteFromReported(w1, i + 1, r1);
    }
  }

  lemma FinishReported(w: World, r: Result)
    requires Ready(w)
    ensures Reported(w, r, FinishWith(w, r).0, FinishWith(w, r).1)
    ensures var (w', r') := FinishWith(w, r);
            && r'.evacuationActive == w'.gpu.target.Some? && r'.completed == w'.gpu.target.None?
            && r'.budgetExhausted == r.budgetExhausted
  {
    hide Ready, IndexOf, Finished;
    if w.gpu.target.Some? && Finished(w.gpu.Moves()) {
      EndReady(w);
    }
  }

  /** Completing reports what it did to the totals, and schedules nothing. */
  lemma ProcessReported(w: World)
    requires Ready(w)
    ensures var (w', r) := Process(w);
            && Reported(w, NOTHING, w', r)
            && r.evacuationActive == w'.gpu.target.Some? && r.completed == w'.gpu.target.None?
            && !r.budgetExhausted && r.movesScheduled == 0 && r.bytesScheduled == 0
  {
    if w.gpu.target.Some? {
      hide Ready, CompleteFrom, FinishWith, Reported;
      CompleteFromReady(w, 0, NOTHING);
      CompleteFromReported(w, 0, NOTHING);
      CompleteFromSchedules(w, 0, NOTHING);
      var (w1, r1) := CompleteFrom(w, 0, NOTHING);
      FinishReported(w1, r1);
      FinishSchedules(w1, r1);
      ReportedThen(w, NOTHING, w1, r1, FinishWith(w1, r1).0, FinishWith(w1, r1).1);
    }
  }

  lemma {:induction false} CompleteFromSchedules(w: World, i: nat, r: Result)
    requires Ready(w) && w.gpu.target.Some? && i <= |w.gpu.Moves()|
    ensures var r' := CompleteFrom(w, i, r).1;
            && r'.movesScheduled == r.movesScheduled && r'.bytesScheduled == r.bytesScheduled
            && r'.budgetExhausted == r.budgetExhausted
    decreases |w.gpu.Moves()| - i
  {
    hide Ready, CompleteCopy, CompleteRetirement;
    if i < |w.gpu.Moves()| {
      CompleteMoveReady(w, i, r);
      CopyRoundReady(w, i, r);
      var (w1, r1) := CompleteMove(w, i, r);
      CompleteFromSchedules(w1, i + 1, r1);
    }
  }

  lemma FinishSchedules(w: World, r: Result)
    requires Ready(w)
    ensures var r' := FinishWith(w, r).1; r'.movesScheduled == r.movesScheduled && r'.bytesScheduled == r.bytesScheduled
  {
  }

  // ---- Scheduling within the budget ----

  /** What is spent is reported. */
  ghost predicate Spent(p: Progress, q: Progress) {
    && Reported(p.world, p.result, q.world, q.result)
    && q.bytes + q.result.bytesScheduled == p.bytes + p.result.bytesScheduled
    && q.moves + q.result.movesScheduled == p.moves + p.result.movesScheduled
    && q.result.budgetExhausted == p.result.budgetExhausted
  }

  lemma ScheduleRoundReported(p: Progress)
    requires Ready(p.world) && MaySchedule(p)
    ensures Spent(p, ScheduleRound(p))
  {
    hide Sound, MemoryOk, CopyFits;
    PendingFits(p.world, NextMove(p));
  }

  lemma RefuseReported(p: Progress)
    requires Ready(p.world) && MaySchedule(p)
    ensures Spent(p, p.(world := RefuseOne(p.world, NextMove(p))))
  {
    hide Sound, MemoryOk, GiveUp;
    GiveUpIs(p.world.gpu, NextMove(p));
  }

  lemma SpentThen(p: Progress, q: Progress, r: Progress)
    requires Spent(p, q) && Spent(q, r)
    ensures Spent(p, r)
  {
  }

  lemma {:induction false} ScheduleReported(p: Progress)
    requires Ready(p.world)
    ensures Spent(p, Schedule(p))
    decreases p.moves
  {
    if MaySchedule(p) {
      hide Ready, Spent, ScheduleRound, RefuseOne;
      if Refused(p) {
        RefuseReported(p);
      } else {
        ScheduleOneReady(p.world, NextMove(p));
        RoundOf(p);
        ScheduleRoundReported(p);
        ScheduleReported(ScheduleRound(p));
        SpentThen(p, ScheduleRound(p), Schedule(ScheduleRound(p)));
      }
    }
  }

  lemma RoundOf(p: Progress)
    requires Ready(p.world) && MaySchedule(p)
    ensures ScheduleRound(p).world == ScheduleOne(p.world, NextMove(p)) && ScheduleRound(p).moves == p.moves - 1
  {
  }

  lemma GiveUpOne(w: World, i: nat)
    requires Ready(w) && i < |w.gpu.Moves()| && w.gpu.Moves()[i].state == Reserved
    ensures RefuseOne(w, i).gpu.statistics == w.gpu.statistics
    ensures !HasReserved(RefuseOne(w, i).gpu.Moves())
  {
    GiveUpIs(w.gpu, i);
    GiveUpSound(w.gpu, i);
  }

  /** The loop ends only when the budget is spent, no reserved move fits in what is
      left, or none is reserved any more. */
  lemma {:induction false} ScheduleEnds(p: Progress)
    requires Ready(p.world)
    ensures var q := Schedule(p);
            q.world.gpu.target.Some? && HasReserved(q.world.gpu.Moves()) ==> Exhausted(q)
    decreases p.moves
  {
    if MaySchedule(p) {
      hide Ready, GiveUp, HasReserved, ScheduleOne;
      if Refused(p) {
        GiveUpOne(p.world, NextMove(p));
      } else {
        ScheduleOneReady(p.world, NextMove(p));
        ScheduleEnds(ScheduleRound(p));
      }
    }
  }

  /** Ending an evacuation needs every move done, so none is still reserved. */
  lemma FinishKeepsReserved(w: World)
    requires Ready(w)
    ensures var w' := Finish(w).0;
            (w'.gpu.target.Some? && HasReserved(w'.gpu.Moves())) <==> (w.gpu.target.Some? && HasReserved(w.gpu.Moves()))
  {
    if w.gpu.target.Some? && Finished(w.gpu.Moves()) {
      EndReady(w);
      hide Ready;
    }
  }

  /** A call stays within both budgets and reports what it did; it says that its
      budget was exhausted exactly when moves remain to be scheduled. */
  lemma DefragmentReported(w: World, budget: Budget, plan: Option<Plan>)
    requires Ready(w)
    ensures var (w', r) := Defragment(w, budget, plan);
            && Reported(w, NOTHING, w', r)
            && r.bytesScheduled <= budget.copyBytes && r.movesScheduled <= budget.moveCount
            && (r.budgetExhausted <==> exists i :: 0 <= i < |w'.gpu.Moves()| && w'.gpu.Moves()[i].state == Reserved)
            && r.evacuationActive == w'.gpu.target.Some? && r.completed == w'.gpu.target.None?
  {
    hide Ready, Process, Schedule, FinishWith, PlanOk, Begin, HasReserved;
    ProcessReady(w);
    ProcessReported(w);
    var (w1, r1) := Process(w);
    BeginReady(w1, budget, plan);
    var w2 := BeginWith(w1, budget, plan);
    if w2 != w1 {
      BeginKeeps(w1.gpu, plan.value);
    }
    var p := Progress(w2, budget.copyBytes, budget.moveCount, r1);
    ScheduleReady(p);
    ScheduleReported(p);
    ScheduleEnds(p);
    var q := Schedule(p);
    var r2 := if Exhausted(q) then q.result.(budgetExhausted := true) else q.result;
    FinishReported(q.world, r2);
    FinishSchedules(q.world, r2);
    FinishReserved(q.world, r2);
    ReservedIs(FinishWith(q.world, r2).0.gpu);
  }

  lemma ReservedIs(s: State)
    ensures (s.target.Some? && HasReserved(s.Moves())) <==> exists i :: 0 <= i < |s.Moves()| && s.Moves()[i].state == Reserved
  {
  }

  lemma NotYetExhausted(w: World, budget: Budget, plan: Option<Plan>)
    requires Ready(w)
    ensures !Scheduled(w, budget, plan).result.budgetExhausted
  {
    hide Ready, Process, Schedule, PlanOk, Begin, Reported;
    ProcessReady(w);
    ProcessReported(w);
    var (w1, r1) := Process(w);
    BeginReady(w1, budget, plan);
    var p := Progress(BeginWith(w1, budget, plan), budget.copyBytes, budget.moveCount, r1);
    ScheduleReported(p);
  }

  lemma FinishReserved(w: World, r: Result)
    requires Ready(w)
    ensures var w' := FinishWith(w, r).0;
            (w'.gpu.target.Some? && HasReserved(w'.gpu.Moves())) <==> (w.gpu.target.Some? && HasReserved(w.gpu.Moves()))
  {
    FinishKeepsReserved(w);
  }
}
