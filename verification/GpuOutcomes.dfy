/** How evacuations end: cancelled without a trace, or with the source removed. */
module GpuOutcomes {
  import opened Wrappers
  import opened Sums
  import opened GpuCore
  import opened GpuState
  import opened GpuInvariant
  import opened GpuMoves
  import opened GpuPlan
  import opened GpuWorld
  import opened GpuSchedule
  import opened GpuTally
  import opened GpuCalls
  import opened GpuAccounts
  import opened GpuConservation

  // ---- Removing an arena ----

  /** An arena is removed only when no block of any kind lies in it, and its buffer,
      which the memory demands to be there, goes with it. */
  lemma RemovedOnce(w: World, a: nat)
    requires Ready(w) && a < |w.gpu.arenas|
    ensures ReleaseArena(w, a) != w ==>
              && Untouched(w.gpu.Tables(), a) && (w.gpu.target.Some? ==> w.gpu.target.value.source != a)
              && a < |w.memory.arenas| && |w.memory.arenas[a]| == w.gpu.arenas[a].capacity > 0
              && ReleaseArena(w, a).memory.arenas == w.memory.arenas[a := []]
              && ReleaseArena(w, a).memory.active == w.memory.active - 1
    ensures w.gpu.arenas[a].active && w.gpu.arenas[a].role == Normal ==>
              (ReleaseArena(w, a) != w <==> Untouched(w.gpu.Tables(), a))
  {
    SoundCore(w.gpu);
    assert ArenaOk(w.gpu.arenas[a]) && Counted(w.gpu.Tables(), a);
    if CanRelease(w.gpu.arenas[a]) {
      EmptyArena(w.gpu, a);
      NobodyThere(w.gpu, a);
      DropSound(w.gpu, a);
    }
    if w.gpu.arenas[a].active {
      Sizes(w.gpu);
      EmptyMeansFree(w.gpu.Tables(), a);
    }
  }

  lemma Sizes(s: State)
    requires Sound(s)
    ensures forall i :: 0 <= i < |s.entries| && s.entries[i].live ==> s.entries[i].size > 0
    ensures forall i :: 0 <= i < |s.Moves()| ==> s.Moves()[i].size > 0
  {
    forall i | 0 <= i < |s.entries| && s.entries[i].live ensures s.entries[i].size > 0 {
      LiveArena(s, i);
    }
    if s.target.Some? {
      SoundMoves(s);
    }
  }

  // ---- An evacuation that was never aborted ----

  lemma NobodyWaits(t: Target, id: nat)
    requires Finished(t.moves) && !t.aborted
    ensures !Waiting(t, id)
  {
  }

  /** Once its moves are done the source is empty. */
  lemma EvacuatedSource(w: World)
    requires WorldOk(w) && w.gpu.target.Some? && Finished(w.gpu.Moves()) && !w.gpu.target.value.aborted
    ensures Untouched(w.gpu.Tables(), w.gpu.target.value.source)
  {
    var a, c := w.gpu.target.value.source, w.gpu.Tables();
    forall id | 0 <= id < |w.gpu.entries| ensures LiveIn(a)(w.gpu.entries[id]) == 0 {
      NobodyWaits(w.gpu.target.value, id);
    }
    SumZero(c.entries, LiveIn(a));
    SumZero(c.moves, ReservedIn(a));
    SumZero(c.moves, RetiringIn(a));
  }

  /** An evacuation that no refusal has aborted ends with its source removed. */
  lemma FinishedReleases(w: World)
    requires WorldOk(w) && w.gpu.target.Some? && Finished(w.gpu.Moves()) && !w.gpu.target.value.aborted
    ensures var a := w.gpu.target.value.source;
            && a < |w.gpu.arenas| && w.gpu.arenas[a].active
            && var (w', released) := Finish(w);
               && w'.gpu.target.None? && released == Some(w.gpu.arenas[a].capacity)
               && a < |w'.gpu.arenas| && !w'.gpu.arenas[a].active && w'.memory.active == w.memory.active - 1
  {
    var a, c := w.gpu.target.value.source, w.gpu.Tables();
    SourceIsActive(w.gpu);
    EvacuatedSource(w);
    SoundCore(w.gpu);
    Sizes(w.gpu);
    EmptyMeansFree(c, a);
    assert ArenaOk(w.gpu.arenas[a]) && Counted(c, a);
    EndReady(w);
    hide Ready, CoreOk, Tallied;
  }

  // ---- An evacuation that the executor refuses from the start ----

  lemma AllNormal(s: State)
    requires Sound(s) && s.target.None?
    ensures forall a :: 0 <= a < |s.arenas| ==> s.arenas[a].role == Normal
  {
  }

  /** Between two states without an evacuation the arenas follow from the entries. */
  lemma SameArenas(s: State, t: State)
    requires Sound(s) && Sound(t) && s.target.None? && t.target.None?
    requires t.entries == s.entries && SameKinds(s.arenas, t.arenas)
    ensures t.arenas == s.arenas
  {
    SoundCore(s);
    SoundCore(t);
    AllNormal(s);
    AllNormal(t);
    hide Sound, CoreOk;
    BlocksDetermineArenas(s.Tables(), t.Tables());
  }

  lemma GivenUpFinished(moves: seq<Move>, i: nat)
    requires forall k :: 0 <= k < |moves| ==> moves[k].state == Reserved
    ensures Finished(GivenUp(moves, i))
  {
  }

  /** Giving up a plan of which nothing was scheduled gives the arenas back as they
      were, range for range. */
  lemma GivenUpRestores(s: State, plan: Plan, i: nat)
    requires Sound(s) && s.target.None? && PlanOk(s, plan)
    requires Sound(Begin(s, plan)) && i < |Begin(s, plan).Moves()| && Begin(s, plan).Moves()[i].state == Reserved
    ensures var t := GiveUp(Begin(s, plan), i);
            && Sound(t) && t.target.Some? && Finished(t.Moves()) && t.target.value.source == plan.source < |t.arenas|
            && EndTarget(t) == s.(nextMoveId := s.nextMoveId + |plan.moves|)
  {
    hide Sound, GiveUp, MovePlanned, ReserveAll, CanEvacuate, Moves, Begin, SamePlans, SameKinds, SameRoles, GivenUp, Finished, Accounted;
    BeginSound(s, plan);
    var s1 := Begin(s, plan);
    GiveUpIs(s1, i);
    GiveUpSound(s1, i);
    var t := GiveUp(s1, i);
    GivenUpFinished(s1.Moves(), i);
    EndSound(t);
    BeginRest(s, plan);
    GaveUpKinds(s1, t);
    KindsThen(s.arenas, s1.arenas, t.arenas);
    KindsThen(s.arenas, t.arenas, EndTarget(t).arenas);
    SameArenas(s, EndTarget(t));
  }

  lemma GaveUpKinds(s: State, t: State)
    requires GaveUp(s, t)
    ensures SameKinds(s.arenas, t.arenas)
  {
  }

  lemma BeginRest(s: State, plan: Plan)
    requires PlanOk(s, plan)
    ensures var s1 := Begin(s, plan);
            && s1 == s.(arenas := s1.arenas, target := s1.target, nextMoveId := s.nextMoveId + |plan.moves|)
            && s1.target.Some? && s1.target.value.source == plan.source
  {
  }

  /** States and sizes are all that the search looks at. */
  lemma {:induction false} FindSchedulableSame(before: seq<Move>, after: seq<Move>, i: nat, bytes: nat)
    requires |before| == |after| && i <= |before|
    requires forall k :: i <= k < |before| ==> before[k].state == after[k].state && before[k].size == after[k].size
    ensures FindSchedulable(before, i, bytes) == FindSchedulable(after, i, bytes)
    decreases |before| - i
  {
    if i < |before| {
      FindSchedulableSame(before, after, i + 1, bytes);
    }
  }

  lemma BegunMoves(s: State, plan: Plan, i: nat)
    requires Sound(s) && s.target.None? && PlanOk(s, plan) && i < |plan.moves|
    ensures var moves := Begin(s, plan).Moves();
            && |moves| == |plan.moves| && moves[i].state == Reserved && moves[i].id == s.nextMoveId + i
            && moves[i].size == plan.moves[i].size > 0
  {
    BeginSound(s, plan);
    assert MovePlanned(s, plan.source, plan.moves[i]);
    LiveArena(s, plan.moves[i].allocation);
    hide Sound, PlanOk, MovePlanned;
  }

  function Started(w: World, plan: Plan): World
    requires PlanOk(w.gpu, plan)
  {
    w.(gpu := Begin(w.gpu, plan))
  }

  lemma StartedReady(w: World, budget: Budget, plan: Plan)
    requires Ready(w) && w.gpu.target.None? && PlanOk(w.gpu, plan) && budget.moveCount > 0 && budget.copyBytes > 0
    ensures Ready(Started(w, plan))
    ensures Scheduled(w, budget, Some(plan)) ==
            Schedule(Progress(Started(w, plan), budget.copyBytes, budget.moveCount, NOTHING))
  {
    BeginReady(w, budget, Some(plan));
    hide Ready, PlanOk, Begin, Schedule;
    assert Process(w) == (w, NOTHING);
  }

  lemma StartedMoves(w: World, plan: Plan, i: nat)
    requires Ready(w) && w.gpu.target.None? && PlanOk(w.gpu, plan) && i < |plan.moves|
    ensures var moves := Started(w, plan).gpu.Moves();
            && Started(w, plan).gpu.target.Some? && Started(w, plan).executor == w.executor
            && |moves| == |plan.moves| && moves[i].state == Reserved && moves[i].id == w.gpu.nextMoveId + i
            && moves[i].size == plan.moves[i].size > 0
  {
    BegunMoves(w.gpu, plan, i);
    BeginRest(w.gpu, plan);
  }

  lemma StartedSchedulable(w: World, plan: Plan, bytes: nat)
    requires Ready(w) && w.gpu.target.None? && PlanOk(w.gpu, plan)
    ensures FindSchedulable(Started(w, plan).gpu.Moves(), 0, bytes) == FindSchedulable(plan.moves, 0, bytes)
  {
    hide Ready, Started;
    if plan.moves != [] {
      StartedMoves(w, plan, 0);
      forall k | 0 <= k < |plan.moves|
        ensures var m := Started(w, plan).gpu.Moves()[k]; m.state == plan.moves[k].state && m.size == plan.moves[k].size
      {
        StartedMoves(w, plan, k);
        assert MovePlanned(w.gpu, plan.source, plan.moves[k]);
      }
      FindSchedulableSame(Started(w, plan).gpu.Moves(), plan.moves, 0, bytes);
    } else {
      hide PlanOk;
      NothingStarted(w, plan);
    }
  }

  lemma NothingStarted(w: World, plan: Plan)
    requires PlanOk(w.gpu, plan) && plan.moves == []
    ensures Started(w, plan).gpu.Moves() == []
  {
  }

  /** The first move that the budget covers is the first to be copied, and the
      executor refuses it. */
  predicate FirstRefused(w: World, budget: Budget, plan: Plan) {
    var k := FindSchedulable(plan.moves, 0, budget.copyBytes);
    k < |plan.moves| && w.gpu.nextMoveId + k in w.executor.refuseCopy
  }

  /** The scheduling loop stops at the first refusal. */
  lemma StopsAtFirst(w: World, budget: Budget, plan: Plan)
    requires Ready(w) && w.gpu.target.None? && PlanOk(w.gpu, plan) && budget.moveCount > 0 && FirstRefused(w, budget, plan)
    ensures var w1, k := Started(w, plan), FindSchedulable(plan.moves, 0, budget.copyBytes);
            && Ready(w1) && k < |w1.gpu.Moves()| && w1.gpu.Moves()[k].state == Reserved
            && Scheduled(w, budget, Some(plan)) == Progress(RefuseOne(w1, k), budget.copyBytes, budget.moveCount, NOTHING)
  {
    hide Ready, PlanOk, Started, FindSchedulable, RefuseOne, Scheduled;
    var k := FindSchedulable(plan.moves, 0, budget.copyBytes);
    StartedMoves(w, plan, k);
    StartedReady(w, budget, plan);
    StartedSchedulable(w, plan, budget.copyBytes);
    var p := Progress(Started(w, plan), budget.copyBytes, budget.moveCount, NOTHING);
    assert MaySchedule(p);
    assert Refused(p);
  }

  lemma NotReleased(w: World, plan: Plan)
    requires PlanOk(w.gpu, plan)
    ensures plan.source < |w.gpu.arenas| && !CanRelease(w.gpu.arenas[plan.source])
  {
  }

  lemma NoTrace(w: World, plan: Plan, k: nat)
    requires Ready(w) && w.gpu.target.None? && PlanOk(w.gpu, plan) && Ready(Started(w, plan))
    requires k < |Started(w, plan).gpu.Moves()| && Started(w, plan).gpu.Moves()[k].state == Reserved
    ensures Ready(RefuseOne(Started(w, plan), k)) && !HasReserved(RefuseOne(Started(w, plan), k).gpu.Moves())
    ensures FinishWith(RefuseOne(Started(w, plan), k), NOTHING) ==
            (w.(gpu := w.gpu.(nextMoveId := w.gpu.nextMoveId + |plan.moves|)), NOTHING)
  {
    hide Sound, MemoryOk, GiveUp, Begin, Finished, EndTarget, PlanOk, HasReserved;
    GivenUpRestores(w.gpu, plan, k);
    RefuseOneReady(Started(w, plan), k);
    GiveUpOne(Started(w, plan), k);
    NotReleased(w, plan);
  }

  /** If the first copy that the call asks for is refused, the call leaves no trace:
      arenas, allocations and memory are exactly as before. */
  lemma RefusedLeavesNoTrace(w: World, budget: Budget, plan: Plan)
    requires Ready(w) && w.gpu.target.None? && PlanOk(w.gpu, plan)
    requires budget.moveCount > 0 && FirstRefused(w, budget, plan)
    ensures Defragment(w, budget, Some(plan)) ==
            (w.(gpu := w.gpu.(nextMoveId := w.gpu.nextMoveId + |plan.moves|)), NOTHING)
  {
    hide Ready, PlanOk, Started, Scheduled, RefuseOne, FinishWith, HasReserved, FirstRefused, FindSchedulable;
    StopsAtFirst(w, budget, plan);
    NoTrace(w, plan, FindSchedulable(plan.moves, 0, budget.copyBytes));
  }

  // ---- How an evacuation ends ----

  /** The executor is at work for the move: copying, or waiting to let go of the
      source. */
  predicate InFlight(m: Move) {
    m.state == CopyScheduled || m.state == ReferencesSwitched
  }

  ghost predicate NothingInFlight(moves: seq<Move>) {
    forall k :: 0 <= k < |moves| ==> !InFlight(moves[k])
  }

  /** Somebody lies in the arena. */
  ghost predicate Inhabited(s: State, a: nat) {
    exists id :: 0 <= id < |s.entries| && s.entries[id].live && s.entries[id].arena == a
  }

  lemma NobodyLeft(s: State, a: nat)
    requires s.target.None?
    ensures Untouched(s.Tables(), a) <==> !Inhabited(s, a)
  {
    SumZero(s.Moves(), ReservedIn(a));
    SumZero(s.Moves(), RetiringIn(a));
    if Inhabited(s, a) {
      var id :| 0 <= id < |s.entries| && s.entries[id].live && s.entries[id].arena == a;
      SumAtLeast(s.entries, id, LiveIn(a));
    } else {
      SumZero(s.entries, LiveIn(a));
    }
  }

  /** No evacuation any more: nothing is frozen, and of the arenas only the source may
      have gone, which it has exactly if nobody is left in it; the others stand in the
      order in the same sequence. */
  ghost predicate Over(w: World, w': World, source: nat) {
    && w'.gpu.target.None? && w'.gpu.entries == w.gpu.entries
    && |w'.gpu.arenas| == |w.gpu.arenas| && source < |w.gpu.arenas|
    && (forall a :: 0 <= a < |w.gpu.arenas| ==> w'.gpu.arenas[a].role == Normal)
    && (forall a :: 0 <= a < |w.gpu.arenas| && a != source ==> w'.gpu.arenas[a] == w.gpu.arenas[a])
    && w.gpu.arenas[source].active
    && SameSequence(w.gpu.order, w'.gpu.order)
    && (if Inhabited(w.gpu, source) then w'.gpu.arenas[source] == w.gpu.arenas[source].(role := Normal)
        else !w'.gpu.arenas[source].active)
    && w'.memory.active == if Inhabited(w.gpu, source) then w.memory.active else w.memory.active - 1
  }

  lemma ReleaseIs(w: World, a: nat)
    requires Ready(w) && w.gpu.target.None? && a < |w.gpu.arenas| && w.gpu.arenas[a].active
    ensures CanRelease(w.gpu.arenas[a]) <==> !Inhabited(w.gpu, a)
    ensures Over(w, ReleaseArena(w, a), a)
  {
    AllNormal(w.gpu);
    RemovedOnce(w, a);
    NobodyLeft(w.gpu, a);
    ReleaseOrder(w, a);
    hide SameSequence;
    if CanRelease(w.gpu.arenas[a]) {
      DropSound(w.gpu, a);
      hide Ready, Untouched, DropArena, Inhabited;
    } else {
      hide Ready, Untouched, Inhabited;
    }
  }

  lemma FinishIsOver(w: World)
    requires Ready(w) && w.gpu.target.Some? && Finished(w.gpu.Moves())
    ensures Over(w, Finish(w).0, w.gpu.target.value.source)
  {
    var a := w.gpu.target.value.source;
    SourceIsActive(w.gpu);
    EndReady(w);
    var w1 := w.(gpu := EndTarget(w.gpu));
    hide Ready, ReleaseArena;
    ReleaseIs(w1, a);
  }

  /** Once nothing is only reserved, the evacuation ends as soon as nothing is in
      flight, and not before. */
  lemma EndsWhenNothingInFlight(w: World)
    requires Ready(w) && w.gpu.target.Some? && !HasReserved(w.gpu.Moves())
    ensures NothingInFlight(w.gpu.Moves()) ==> Over(w, Finish(w).0, w.gpu.target.value.source)
    ensures !NothingInFlight(w.gpu.Moves()) ==> Finish(w) == (w, None)
  {
    if NothingInFlight(w.gpu.Moves()) {
      FinishIsOver(w);
    }
    hide Ready;
  }

  lemma GivenUpInFlight(moves: seq<Move>, i: nat, k: nat)
    requires i < |moves| && k < |moves|
    ensures GivenUp(moves, i)[k].state != Reserved
    ensures InFlight(GivenUp(moves, i)[k]) <==> k != i && InFlight(moves[k])
  {
  }

  /** A refusal, of a copy or of a switch, ends the evacuation then and there exactly
      when no other move is in flight; the source is then unfrozen, and gone if it is
      empty. */
  lemma RefusalEnds(w: World, i: nat)
    requires Ready(w) && i < |w.gpu.Moves()| && w.gpu.Moves()[i].Pending()
    ensures var w1 := w.(gpu := GiveUp(w.gpu, i));
            && Ready(w1) && w1.gpu.target.Some?
            && if forall k :: 0 <= k < |w.gpu.Moves()| && k != i ==> !InFlight(w.gpu.Moves()[k]) then
                 Over(w1, Finish(w1).0, w1.gpu.target.value.source)
               else Finish(w1) == (w1, None)
  {
    hide Sound, MemoryOk, GiveUp, GivenUp, GaveUp, Over, InFlight, Finish;
    GiveUpIs(w.gpu, i);
    GiveUpSound(w.gpu, i);
    GiveUpStatistics(w.gpu, i);
    GaveUpOnward(w, GiveUp(w.gpu, i));
    forall k | 0 <= k < |w.gpu.Moves()|
      ensures GivenUp(w.gpu.Moves(), i)[k].state != Reserved
      ensures InFlight(GivenUp(w.gpu.Moves(), i)[k]) <==> k != i && InFlight(w.gpu.Moves()[k])
    {
      GivenUpInFlight(w.gpu.Moves(), i, k);
    }
    EndsWhenNothingInFlight(w.(gpu := GiveUp(w.gpu, i)));
  }

  /** A completing call by whose end the evacuation has been given up: it is over after
      the call exactly when nothing is in flight once the moves have been gone through. */
  lemma GivenUpCompletion(w: World)
    requires WorldOk(w) && w.gpu.target.Some?
    ensures Ready(CompleteFrom(w, 0, NOTHING).0)
    ensures var w1, w' := CompleteFrom(w, 0, NOTHING).0, Process(w).0;
            w1.gpu.target.Some? && w1.gpu.target.value.aborted ==>
              if NothingInFlight(w1.gpu.Moves()) then Over(w1, w', w1.gpu.target.value.source) else w' == w1
  {
    hide Ready, CompleteFrom, Over, NothingInFlight, Finish;
    CompleteFromReady(w, 0, NOTHING);
    CompleteFromOk(w, 0, NOTHING);
    var w1 := CompleteFrom(w, 0, NOTHING).0;
    if w1.gpu.target.Some? && w1.gpu.target.value.aborted {
      EndsWhenNothingInFlight(w1);
    }
  }

  /** So it is with a defragmenting call. */
  lemma GivenUpCall(w: World, budget: Budget, plan: Option<Plan>)
    requires WorldOk(w)
    ensures Ready(Scheduled(w, budget, plan).world)
    ensures var w1, w' := Scheduled(w, budget, plan).world, Defragment(w, budget, plan).0;
            w1.gpu.target.Some? && w1.gpu.target.value.aborted ==>
              if NothingInFlight(w1.gpu.Moves()) then Over(w1, w', w1.gpu.target.value.source) else w' == w1
  {
    hide Ready, Scheduled, Over, NothingInFlight, Finish;
    ScheduledReady(w, budget, plan);
    ScheduledOk(w, budget, plan);
    var w1 := Scheduled(w, budget, plan).world;
    if w1.gpu.target.Some? && w1.gpu.target.value.aborted {
      EndsWhenNothingInFlight(w1);
    }
  }
}
