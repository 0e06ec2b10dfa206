/** An evacuation that nobody hinders completes under any budget that covers its
    largest move, one call after the other, and under no other. */
module GpuLiveness {
  import opened Wrappers
  import opened Sums
  import opened GpuCore
  import opened GpuState
  import opened GpuInvariant
  import opened GpuMoves
  import opened GpuPlan
  import opened GpuWorld
  import opened GpuSchedule
  import opened GpuTally
  import opened GpuCalls
  import opened GpuPlacement
  import opened GpuOutcomes

  /** The executor refuses nothing. */
  predicate Willing(x: Executor) {
    x.refuseCopy == {} && x.refuseSwitch == {}
  }

  // ---- Under way and done ----

  /** The move is the plan's, not given up, and its allocation where that says. */
  predicate OnItsWay(before: seq<Entry>, now: seq<Entry>, m: Move, n: Move) {
    && m.allocation == n.allocation < |before| && m.allocation < |now|
    && m.destination == n.destination && m.destinationOffset == n.destinationOffset && m.size == n.size
    && m.state != Cancelled
    && now[m.allocation] == if m.Pending() then before[m.allocation] else Relocated(before[m.allocation], n)
  }

  /** Those that no move of the plan is for are as they were. */
  ghost predicate OthersStay(before: seq<Entry>, now: seq<Entry>, moves: seq<Move>) {
    |now| == |before| && forall id :: 0 <= id < |before| && !Moves(moves, id) ==> now[id] == before[id]
  }

  /** The plan, made in world w, is under way in world v. */
  ghost predicate UnderWay(w: World, plan: Plan, v: World) {
    && v.gpu.target.Some? && !v.gpu.target.value.aborted && v.gpu.target.value.source == plan.source
    && Willing(v.executor) && v.memory.active == w.memory.active
    && |v.gpu.Moves()| == |plan.moves|
    && (forall k :: 0 <= k < |plan.moves| ==>
          OnItsWay(w.gpu.entries, v.gpu.entries, v.gpu.Moves()[k], plan.moves[k]))
    && OthersStay(w.gpu.entries, v.gpu.entries, plan.moves)
  }

  /** The plan has been carried out: every allocation lies where the plan puts it, and
      the source and its buffer are gone. */
  ghost predicate CarriedOut(w: World, plan: Plan, v: World) {
    && v.gpu.target.None? && Willing(v.executor)
    && plan.source < |v.gpu.arenas| && !v.gpu.arenas[plan.source].active && v.memory.active == w.memory.active - 1
    && OthersStay(w.gpu.entries, v.gpu.entries, plan.moves)
    && forall k :: 0 <= k < |plan.moves| ==>
         var n := plan.moves[k];
         n.allocation < |w.gpu.entries| && v.gpu.entries[n.allocation] == Relocated(w.gpu.entries[n.allocation], n)
  }

  ghost predicate Proceeding(w: World, plan: Plan, v: World) {
    UnderWay(w, plan, v) || CarriedOut(w, plan, v)
  }

  /** Which moves are only reserved. */
  ghost predicate SameReserved(before: seq<Move>, after: seq<Move>) {
    |before| == |after| && forall k :: 0 <= k < |before| ==> (after[k].state == Reserved <==> before[k].state == Reserved)
  }

  ghost function ReservedCount(): Move -> nat {
    (m: Move) => Bit(m.state == Reserved)
  }

  ghost function Unscheduled(v: World): nat {
    Sum(v.gpu.Moves(), ReservedCount())
  }

  lemma UnscheduledNone(v: World)
    ensures Unscheduled(v) == 0 <==> !HasReserved(v.gpu.Moves())
  {
    var moves := v.gpu.Moves();
    if HasReserved(moves) {
      var k :| 0 <= k < |moves| && moves[k].state == Reserved;
      SumAtLeast(moves, k, ReservedCount());
    } else {
      SumZero(moves, ReservedCount());
    }
  }

  // ---- Completing ----

  /** What becomes of moves and entries when the i-th move goes on: if it has been
      switched, its allocation has moved. */
  ghost predicate GoesOn(v: World, v': World, i: nat) {
    && v.gpu.target.Some? && v'.gpu.target.Some? && i < |v.gpu.Moves()| == |v'.gpu.Moves()|
    && v'.gpu.target == Some(v.gpu.target.value.(moves := v.gpu.Moves()[i := v'.gpu.Moves()[i]]))
    && var m, n := v.gpu.Moves()[i], v'.gpu.Moves()[i];
       && SamePlan(m, n) && n.state != Cancelled && (n.Pending() ==> m.Pending()) && m.allocation < |v.gpu.entries|
       && v'.gpu.entries == if m.Pending() == n.Pending() then v.gpu.entries
                            else v.gpu.entries[n.allocation := Relocated(v.gpu.entries[n.allocation], n)]
  }

  lemma GoesOnAt(w: World, plan: Plan, v: World, v': World, i: nat, k: nat)
    requires Sound(v.gpu) && UnderWay(w, plan, v) && GoesOn(v, v', i) && k < |plan.moves|
    ensures k < |v'.gpu.Moves()| && OnItsWay(w.gpu.entries, v'.gpu.entries, v'.gpu.Moves()[k], plan.moves[k])
  {
    assert OnItsWay(w.gpu.entries, v.gpu.entries, v.gpu.Moves()[k], plan.moves[k]);
    if k != i {
      SwitchedRest(v.gpu, i);
    }
    hide Sound;
  }

  lemma GoesOnOthers(w: World, plan: Plan, v: World, v': World, i: nat)
    requires UnderWay(w, plan, v) && GoesOn(v, v', i)
    ensures OthersStay(w.gpu.entries, v'.gpu.entries, plan.moves)
  {
    assert OnItsWay(w.gpu.entries, v.gpu.entries, v.gpu.Moves()[i], plan.moves[i]);
    assert Moves(plan.moves, v.gpu.Moves()[i].allocation);
  }

  lemma OneGoesOn(w: World, plan: Plan, v: World, v': World, i: nat)
    requires Sound(v.gpu) && UnderWay(w, plan, v) && GoesOn(v, v', i)
    requires Willing(v'.executor) && v'.memory.active == v.memory.active
    ensures UnderWay(w, plan, v') && |v'.gpu.Moves()| == |v.gpu.Moves()|
  {
    GoesOnOthers(w, plan, v, v', i);
    hide Sound, OnItsWay, OthersStay;
    forall k | 0 <= k < |plan.moves|
      ensures OnItsWay(w.gpu.entries, v'.gpu.entries, v'.gpu.Moves()[k], plan.moves[k])
    {
      GoesOnAt(w, plan, v, v', i, k);
    }
  }

  lemma AllocationInTable(s: State, i: nat)
    requires Sound(s) && i < |s.Moves()|
    ensures s.Moves()[i].allocation < |s.entries|
  {
  }

  lemma CopyGoesOn(w: World, plan: Plan, v: World, i: nat)
    requires Ready(v) && UnderWay(w, plan, v) && i < |v.gpu.Moves()| && CopyDone(v, v.gpu.Moves()[i])
    ensures UnderWay(w, plan, CompleteCopy(v, i)) && SameReserved(v.gpu.Moves(), CompleteCopy(v, i).gpu.Moves())
    ensures CompleteCopy(v, i).gpu.Moves()[i].state == ReferencesSwitched
  {
    hide Sound, MemoryOk, OnItsWay, OthersStay, UnderWay;
    UnderWayIs(w, plan, v);
    AllocationInTable(v.gpu, i);
    StatisticsAside(v.gpu, CountCopied(v.gpu, i).statistics);
    SwitchSound(v.gpu, i, v.executor.next);
    OneGoesOn(w, plan, v, CompleteCopy(v, i), i);
  }

  lemma UnderWayIs(w: World, plan: Plan, v: World)
    requires UnderWay(w, plan, v)
    ensures v.gpu.target.Some? && !v.gpu.target.value.aborted && Willing(v.executor)
    ensures |v.gpu.Moves()| == |plan.moves|
    ensures forall k :: 0 <= k < |v.gpu.Moves()| ==> v.gpu.Moves()[k].state != Cancelled
  {
    forall k | 0 <= k < |v.gpu.Moves()| ensures v.gpu.Moves()[k].state != Cancelled {
      assert OnItsWay(w.gpu.entries, v.gpu.entries, v.gpu.Moves()[k], plan.moves[k]);
    }
  }

  lemma RetirementGoesOn(w: World, plan: Plan, v: World, i: nat)
    requires Ready(v) && UnderWay(w, plan, v) && i < |v.gpu.Moves()| && v.gpu.Moves()[i].state == ReferencesSwitched
    ensures UnderWay(w, plan, CompleteRetirement(v, i))
    ensures SameReserved(v.gpu.Moves(), CompleteRetirement(v, i).gpu.Moves())
  {
    hide Sound, MemoryOk, OnItsWay, OthersStay, UnderWay;
    UnderWayIs(w, plan, v);
    AllocationInTable(v.gpu, i);
    RetireSound(v.gpu, i);
    OneGoesOn(w, plan, v, CompleteRetirement(v, i), i);
  }

  lemma RoundGoesOn(w: World, plan: Plan, v: World, i: nat, r: Result)
    requires Ready(v) && UnderWay(w, plan, v) && v.gpu.target.Some? && i < |v.gpu.Moves()|
    ensures var v' := CompleteMove(v, i, r).0;
            UnderWay(w, plan, v') && SameReserved(v.gpu.Moves(), v'.gpu.Moves())
  {
    hide Ready, UnderWay, CompleteCopy, CompleteRetirement;
    CopyRoundReady(v, i, r);
    if CopyDone(v, v.gpu.Moves()[i]) {
      CopyGoesOn(w, plan, v, i);
    }
    var v1 := CopyRound(v, i, r).0;
    if RetirementDone(v1, v1.gpu.Moves()[i]) {
      RetirementGoesOn(w, plan, v1, i);
    }
  }

  lemma {:induction false} CompletingGoesOn(w: World, plan: Plan, v: World, i: nat, r: Result)
    requires Ready(v) && UnderWay(w, plan, v) && v.gpu.target.Some? && i <= |v.gpu.Moves()|
    ensures var v' := CompleteFrom(v, i, r).0;
            UnderWay(w, plan, v') && SameReserved(v.gpu.Moves(), v'.gpu.Moves())
    decreases |v.gpu.Moves()| - i
  {
    if i < |v.gpu.Moves()| {
      hide Ready, UnderWay, CompleteMove, Onward, SameReserved;
      CompleteMoveReady(v, i, r);
      RoundGoesOn(w, plan, v, i, r);
      var (v1, r1) := CompleteMove(v, i, r);
      ReservedSize(v.gpu.Moves(), v1.gpu.Moves());
      UnderWayIs(w, plan, v1);
      CompletingGoesOn(w, plan, v1, i + 1, r1);
      ReservedThen(v.gpu.Moves(), v1.gpu.Moves(), CompleteFrom(v1, i + 1, r1).0.gpu.Moves());
    } else {
      hide Ready, UnderWay;
    }
  }

  lemma ReservedSize(before: seq<Move>, after: seq<Move>)
    requires SameReserved(before, after)
    ensures |after| == |before|
  {
  }

  lemma ReservedThen(before: seq<Move>, between: seq<Move>, after: seq<Move>)
    requires SameReserved(before, between) && SameReserved(between, after)
    ensures SameReserved(before, after)
  {
  }

  /** Ending the evacuation carries the plan out. */
  lemma FinishProceeds(w: World, plan: Plan, v: World)
    requires WorldOk(v) && UnderWay(w, plan, v)
    ensures Proceeding(w, plan, Finish(v).0)
    ensures HasReserved(v.gpu.Moves()) ==> Finish(v).0 == v
    ensures HasReserved(Finish(v).0.gpu.Moves()) ==> Finish(v).0 == v
  {
    if Finished(v.gpu.Moves()) {
      FinishedReleases(v);
      FinishEntries(v);
      forall k | 0 <= k < |plan.moves|
        ensures plan.moves[k].allocation < |w.gpu.entries|
        ensures v.gpu.entries[plan.moves[k].allocation] ==
                Relocated(w.gpu.entries[plan.moves[k].allocation], plan.moves[k])
      {
        assert OnItsWay(w.gpu.entries, v.gpu.entries, v.gpu.Moves()[k], plan.moves[k]);
      }
      hide WorldOk, Finish, OnItsWay;
    } else {
      hide WorldOk;
    }
  }

  lemma ProcessProceeds(w: World, plan: Plan, v: World)
    requires WorldOk(v) && Proceeding(w, plan, v)
    ensures Proceeding(w, plan, Process(v).0)
    ensures HasReserved(v.gpu.Moves()) || HasReserved(Process(v).0.gpu.Moves()) ==>
              UnderWay(w, plan, Process(v).0) && SameReserved(v.gpu.Moves(), Process(v).0.gpu.Moves())
    ensures v.gpu.target.None? ==> Process(v).0 == v
  {
    hide Ready, Tallied, UnderWay, CarriedOut, CompleteFrom, Finish;
    if v.gpu.target.Some? {
      StillUnderWay(w, plan, v);
      CompleteFromReady(v, 0, NOTHING);
      CompleteFromOk(v, 0, NOTHING);
      CompletingGoesOn(w, plan, v, 0, NOTHING);
      FinishProceeds(w, plan, CompleteFrom(v, 0, NOTHING).0);
    }
  }

  lemma StillUnderWay(w: World, plan: Plan, v: World)
    requires Proceeding(w, plan, v) && v.gpu.target.Some?
    ensures UnderWay(w, plan, v)
  {
  }

  // ---- Scheduling ----

  lemma {:induction false} FindsSchedulable(moves: seq<Move>, i: nat, bytes: nat, k: nat)
    requires i <= k < |moves| && moves[k].state == Reserved && moves[k].size <= bytes
    ensures FindSchedulable(moves, i, bytes) < |moves|
    decreases |moves| - i
  {
    if i < k {
      FindsSchedulable(moves, i + 1, bytes, k);
    }
  }

  /** No budget of this size covers the move. */
  predicate OutOfReach(p: Progress, m: Move) {
    p.moves == 0 || m.size > p.bytes
  }

  lemma ScheduleOneGoesOn(w: World, plan: Plan, p: Progress)
    requires Ready(p.world) && UnderWay(w, plan, p.world) && MaySchedule(p)
    ensures UnderWay(w, plan, ScheduleRound(p).world) && Unscheduled(ScheduleRound(p).world) < Unscheduled(p.world)
    ensures !Refused(p)
    ensures |ScheduleRound(p).world.gpu.Moves()| == |p.world.gpu.Moves()|
    ensures forall k :: 0 <= k < |p.world.gpu.Moves()| && k != NextMove(p) ==>
              ScheduleRound(p).world.gpu.Moves()[k] == p.world.gpu.Moves()[k]
  {
    hide Sound, MemoryOk, OnItsWay, OthersStay, UnderWay, CopyBlock, CopyFits, FindSchedulable;
    var v, i := p.world, NextMove(p);
    UnderWayIs(w, plan, v);
    AllocationInTable(v.gpu, i);
    PendingFits(v, i);
    CopyKeepsActive(v.memory, RelocationOf(v, i));
    var v' := ScheduleOne(v, i);
    OneGoesOn(w, plan, v, v', i);
    SumUpdate(v.gpu.Moves(), i, v'.gpu.Moves()[i], ReservedCount());
  }

  /** The scheduling loop schedules something if anything is in reach, and never what
      is not. */
  lemma {:induction false} ScheduleGoesOn(w: World, plan: Plan, p: Progress, k: nat)
    requires Ready(p.world) && UnderWay(w, plan, p.world)
    ensures var q := Schedule(p);
            && UnderWay(w, plan, q.world) && Unscheduled(q.world) <= Unscheduled(p.world)
            && (MaySchedule(p) ==> Unscheduled(q.world) < Unscheduled(p.world))
            && |q.world.gpu.Moves()| == |p.world.gpu.Moves()|
            && (k < |p.world.gpu.Moves()| && OutOfReach(p, p.world.gpu.Moves()[k]) ==>
                  q.world.gpu.Moves()[k] == p.world.gpu.Moves()[k])
    decreases p.moves
  {
    hide Ready, UnderWay, ScheduleOne, Unscheduled;
    if MaySchedule(p) {
      ScheduleOneGoesOn(w, plan, p);
      ScheduleOneReady(p.world, NextMove(p));
      ScheduleGoesOn(w, plan, ScheduleRound(p), k);
    }
  }

  lemma ReachableSchedules(p: Progress, k: nat)
    requires Ready(p.world) && p.world.gpu.target.Some? && k < |p.world.gpu.Moves()|
    requires p.world.gpu.Moves()[k].state == Reserved && !OutOfReach(p, p.world.gpu.Moves()[k])
    ensures MaySchedule(p)
  {
    SoundMoves(p.world.gpu);
    FindsSchedulable(p.world.gpu.Moves(), 0, p.bytes, k);
  }

  // ---- One call ----

  /** The same world when the executor's timeline has come this far. */
  function At(w: World, completed: nat): World {
    w.(executor := w.executor.(completed := completed))
  }

  lemma AtOk(w: World, completed: nat)
    requires WorldOk(w)
    ensures WorldOk(At(w, completed))
  {
    hide Sound, MemoryOk, Accounted, Settled;
    assert At(w, completed).gpu.Moves() == w.gpu.Moves();
  }

  lemma AtProceeds(w: World, plan: Plan, v: World, completed: nat)
    requires Proceeding(w, plan, v)
    ensures Proceeding(w, plan, At(v, completed)) && At(v, completed).gpu == v.gpu
  {
    hide OnItsWay, OthersStay;
    assert At(v, completed).gpu.Moves() == v.gpu.Moves();
  }

  predicate Affords(budget: Budget, m: Move) {
    budget.moveCount > 0 && m.size <= budget.copyBytes
  }

  /** The scheduling loop keeps the plan going, schedules at least one move if it can
      afford one, and never one that it cannot. */
  lemma LoopProceeds(w: World, plan: Plan, v: World, budget: Budget, r: Result, k: nat)
    requires WorldOk(v) && UnderWay(w, plan, v)
    ensures var q := Schedule(Progress(v, budget.copyBytes, budget.moveCount, r)).world;
            && WorldOk(q) && UnderWay(w, plan, q) && Unscheduled(q) <= Unscheduled(v)
            && (k < |v.gpu.Moves()| && v.gpu.Moves()[k].state == Reserved ==>
                  if Affords(budget, v.gpu.Moves()[k]) then Unscheduled(q) < Unscheduled(v)
                  else k < |q.gpu.Moves()| && q.gpu.Moves()[k] == v.gpu.Moves()[k])
  {
    hide Ready, Tallied, UnderWay, Schedule, Unscheduled, MaySchedule;
    var p := Progress(v, budget.copyBytes, budget.moveCount, r);
    UnderWayIs(w, plan, v);
    ScheduleOk(p);
    ScheduleGoesOn(w, plan, p, k);
    if k < |v.gpu.Moves()| && v.gpu.Moves()[k].state == Reserved && Affords(budget, v.gpu.Moves()[k]) {
      ReachableSchedules(p, k);
    }
  }

  lemma FinishLess(w: World, plan: Plan, v: World, k: nat)
    requires WorldOk(v) && UnderWay(w, plan, v)
    ensures Proceeding(w, plan, Finish(v).0) && Unscheduled(Finish(v).0) <= Unscheduled(v)
    ensures k < |v.gpu.Moves()| && v.gpu.Moves()[k].state == Reserved ==> Finish(v).0 == v
  {
    hide Ready, Tallied, UnderWay, CarriedOut, Finish, HasReserved, Unscheduled;
    FinishProceeds(w, plan, v);
    UnscheduledNone(v);
    UnscheduledNone(Finish(v).0);
    if k < |v.gpu.Moves()| && v.gpu.Moves()[k].state == Reserved {
      StillReserved(v, k);
    }
  }

  lemma SchedulingProceeds(w: World, plan: Plan, v: World, budget: Budget, r: Result, k: nat)
    requires WorldOk(v) && UnderWay(w, plan, v)
    ensures var p := Progress(v, budget.copyBytes, budget.moveCount, r);
            && Ready(Schedule(p).world)
            && var v' := Finish(Schedule(p).world).0;
               && Proceeding(w, plan, v') && Unscheduled(v') <= Unscheduled(v)
               && (k < |v.gpu.Moves()| && v.gpu.Moves()[k].state == Reserved ==>
                     if Affords(budget, v.gpu.Moves()[k]) then Unscheduled(v') < Unscheduled(v)
                     else UnderWay(w, plan, v') && k < |v'.gpu.Moves()| && v'.gpu.Moves()[k] == v.gpu.Moves()[k])
  {
    hide Ready, Tallied, UnderWay, CarriedOut, Schedule, Finish, Unscheduled, Affords;
    LoopProceeds(w, plan, v, budget, r, k);
    FinishLess(w, plan, Schedule(Progress(v, budget.copyBytes, budget.moveCount, r)).world, k);
  }

  lemma StillReserved(v: World, k: nat)
    requires k < |v.gpu.Moves()| && v.gpu.Moves()[k].state == Reserved
    ensures HasReserved(v.gpu.Moves())
  {
  }

  lemma SameUnscheduled(v: World, v': World)
    requires SameReserved(v.gpu.Moves(), v'.gpu.Moves())
    ensures Unscheduled(v') == Unscheduled(v) && (HasReserved(v.gpu.Moves()) <==> HasReserved(v'.gpu.Moves()))
  {
    SumSame(v.gpu.Moves(), v'.gpu.Moves(), ReservedCount(), ReservedCount());
    UnscheduledNone(v);
    UnscheduledNone(v');
  }

  /** One more call of the same budget. */
  ghost function Call(v: World, budget: Budget, completed: nat): (v': World)
    requires WorldOk(v)
    ensures WorldOk(v')
  {
    AtOk(v, completed);
    DefragmentOk(At(v, completed), budget, None);
    Defragment(At(v, completed), budget, None).0
  }

  lemma CallIs(v: World, budget: Budget, completed: nat)
    requires WorldOk(v)
    ensures WorldOk(At(v, completed)) && WorldOk(Process(At(v, completed)).0)
    ensures var (v1, r) := Process(At(v, completed));
            var p := Progress(v1, budget.copyBytes, budget.moveCount, r);
            Ready(Schedule(p).world) && Call(v, budget, completed) == Finish(Schedule(p).world).0
  {
    hide Ready, Tallied, Process, Schedule, Finish;
    AtOk(v, completed);
    ProcessOk(At(v, completed));
    var (v1, r) := Process(At(v, completed));
    ScheduleReady(Progress(v1, budget.copyBytes, budget.moveCount, r));
  }

  /** What was done stays done. */
  lemma NothingToDo(v: World, budget: Budget, completed: nat)
    requires WorldOk(v) && v.gpu.target.None?
    ensures Call(v, budget, completed) == At(v, completed)
  {
    CallIs(v, budget, completed);
    hide Ready, Tallied;
  }

  lemma {:induction false} CallProceeds(w: World, plan: Plan, v: World, budget: Budget, completed: nat, k: nat)
    requires WorldOk(v) && Proceeding(w, plan, v)
    ensures var v' := Call(v, budget, completed);
            && Proceeding(w, plan, v') && Unscheduled(v') <= Unscheduled(v)
            && (k < |v.gpu.Moves()| && v.gpu.Moves()[k].state == Reserved ==>
                  if Affords(budget, v.gpu.Moves()[k]) then Unscheduled(v') < Unscheduled(v)
                  else UnderWay(w, plan, v') && k < |v'.gpu.Moves()| && v'.gpu.Moves()[k].state == Reserved
                       && v'.gpu.Moves()[k].size == v.gpu.Moves()[k].size)
  {
    hide Ready, Tallied, Process, Schedule, Finish, Call, UnderWay, CarriedOut, Unscheduled, HasReserved;
    CallIs(v, budget, completed);
    AtProceeds(w, plan, v, completed);
    var v0 := At(v, completed);
    assert v0.gpu.Moves() == v.gpu.Moves();
    ProcessProceeds(w, plan, v0);
    var (v1, r) := Process(v0);
    UnscheduledNone(v0);
    UnscheduledNone(v1);
    SameUnscheduledAt(v, v0);
    if v1.gpu.target.None? {
      ScheduleReady(Progress(v1, budget.copyBytes, budget.moveCount, r));
      NoTarget(v1);
    } else {
      StillUnderWay(w, plan, v1);
      SchedulingProceeds(w, plan, v1, budget, r, k);
    }
    if HasReserved(v0.gpu.Moves()) || HasReserved(v1.gpu.Moves()) {
      SameUnscheduled(v0, v1);
    }
    if k < |v.gpu.Moves()| && v.gpu.Moves()[k].state == Reserved {
      StillReserved(v0, k);
      SameReservedAt(v0.gpu.Moves(), v1.gpu.Moves(), k);
      SameSizes(w, plan, v0, v1, k);
      if !Affords(budget, v.gpu.Moves()[k]) {
        UnderWayIs(w, plan, Call(v, budget, completed));
        UnderWayIs(w, plan, v1);
      }
    }
  }

  lemma SameReservedAt(before: seq<Move>, after: seq<Move>, k: nat)
    requires SameReserved(before, after) && k < |before|
    ensures k < |after| && (after[k].state == Reserved <==> before[k].state == Reserved)
  {
  }

  lemma SameUnscheduledAt(v: World, v0: World)
    requires v0.gpu == v.gpu
    ensures Unscheduled(v0) == Unscheduled(v)
  {
  }

  lemma NoTarget(v: World)
    requires Ready(v) && v.gpu.target.None?
    ensures Finish(v) == (v, None) && !HasReserved(v.gpu.Moves())
  {
  }

  lemma SameSizes(w: World, plan: Plan, v: World, v': World, k: nat)
    requires Proceeding(w, plan, v) && UnderWay(w, plan, v') && k < |v.gpu.Moves()| == |v'.gpu.Moves()|
    ensures v'.gpu.Moves()[k].size == v.gpu.Moves()[k].size
  {
    assert v.gpu.target.Some?;
    assert OnItsWay(w.gpu.entries, v.gpu.entries, v.gpu.Moves()[k], plan.moves[k]);
    assert OnItsWay(w.gpu.entries, v'.gpu.entries, v'.gpu.Moves()[k], plan.moves[k]);
  }
}
