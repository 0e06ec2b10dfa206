/** An evacuation from its first call to its last: under which budgets it completes,
    where everything lies then, and that everybody's bytes have come along. */
module GpuCompletion {
  import opened Wrappers
  import opened Sums
  import opened GpuCore
  import opened GpuState
  import opened GpuInvariant
  import opened GpuPlan
  import opened GpuWorld
  import opened GpuSchedule
  import opened GpuBytes
  import opened GpuTally
  import opened GpuCalls
  import opened GpuPlacement
  import opened GpuContents
  import opened GpuOutcomes
  import opened GpuEndings
  import opened GpuLiveness

  // ---- Many calls ----

  /** One call after the other with the same budget, while the executor's timeline
      takes on whatever values it does. */
  ghost function Calls(v: World, budget: Budget, times: seq<nat>): (v': World)
    requires WorldOk(v)
    ensures WorldOk(v')
    decreases |times|
  {
    if times == [] then v
    else Call(Calls(v, budget, times[..|times| - 1]), budget, times[|times| - 1])
  }

  lemma {:induction false} CallsProceed(w: World, plan: Plan, v: World, budget: Budget, times: seq<nat>, k: nat)
    requires WorldOk(v) && Proceeding(w, plan, v)
    ensures var v' := Calls(v, budget, times);
            && Proceeding(w, plan, v') && Unscheduled(v') <= Unscheduled(v)
            && (k < |v.gpu.Moves()| && v.gpu.Moves()[k].state == Reserved && !Affords(budget, v.gpu.Moves()[k]) ==>
                  UnderWay(w, plan, v') && k < |v'.gpu.Moves()| && v'.gpu.Moves()[k].state == Reserved
                  && v'.gpu.Moves()[k].size == v.gpu.Moves()[k].size)
    decreases |times|
  {
    hide WorldOk, Call, UnderWay, CarriedOut, Unscheduled;
    if times == [] {
      if v.gpu.target.Some? {
        StillUnderWay(w, plan, v);
      }
    } else {
      var last := |times| - 1;
      CallsProceed(w, plan, v, budget, times[..last], k);
      var u := Calls(v, budget, times[..last]);
      CallProceeds(w, plan, u, budget, times[last], k);
      if k < |v.gpu.Moves()| && v.gpu.Moves()[k].state == Reserved && !Affords(budget, v.gpu.Moves()[k]) {
        UnderWayIs(w, plan, u);
        StillOut(budget, v.gpu.Moves()[k], u.gpu.Moves()[k]);
      }
    }
  }

  /** All that is only reserved could be copied by one call. */
  ghost predicate AllAfforded(budget: Budget, moves: seq<Move>) {
    forall k :: 0 <= k < |moves| && moves[k].state == Reserved ==> Affords(budget, moves[k])
  }

  ghost predicate AllSizes(budget: Budget, moves: seq<Move>) {
    forall k :: 0 <= k < |moves| ==> Affords(budget, moves[k])
  }

  lemma SizesAffordAll(w: World, plan: Plan, v: World, budget: Budget)
    requires Proceeding(w, plan, v) && AllSizes(budget, plan.moves)
    ensures AllAfforded(budget, v.gpu.Moves())
  {
    forall k | 0 <= k < |v.gpu.Moves()| ensures Affords(budget, v.gpu.Moves()[k]) {
      assert OnItsWay(w.gpu.entries, v.gpu.entries, v.gpu.Moves()[k], plan.moves[k]);
      assert Affords(budget, plan.moves[k]);
    }
  }

  lemma {:induction false} CallsSchedule(w: World, plan: Plan, v: World, budget: Budget, times: seq<nat>)
    requires WorldOk(v) && Proceeding(w, plan, v) && AllSizes(budget, plan.moves)
    ensures Unscheduled(Calls(v, budget, times)) <= if Unscheduled(v) > |times| then Unscheduled(v) - |times| else 0
    decreases |times|
  {
    hide WorldOk, Call, UnderWay, CarriedOut, Unscheduled, AllSizes, Affords;
    if times != [] {
      var last := |times| - 1;
      CallsSchedule(w, plan, v, budget, times[..last]);
      CallsProceed(w, plan, v, budget, times[..last], 0);
      var u := Calls(v, budget, times[..last]);
      SizesAffordAll(w, plan, u, budget);
      UnscheduledNone(u);
      if HasReserved(u.gpu.Moves()) {
        var k :| 0 <= k < |u.gpu.Moves()| && u.gpu.Moves()[k].state == Reserved;
        assert Affords(budget, u.gpu.Moves()[k]);
        CallProceeds(w, plan, u, budget, times[last], k);
      } else {
        CallProceeds(w, plan, u, budget, times[last], 0);
      }
    }
  }

  // ---- Bytes along the way ----

  /** Everybody reads what it read in world w, and so does every copy under way. */
  ghost predicate Steady(w: World, v: World) {
    && |v.gpu.entries| == |w.gpu.entries|
    && forall id :: 0 <= id < |w.gpu.entries| ==>
         && v.gpu.Live(id) == w.gpu.Live(id)
         && (w.gpu.Live(id) ==> Contents(v, id) == Contents(w, id))
         && (Copied(v.gpu, id) ==> w.gpu.Live(id) && CopyOf(v, id) == Contents(w, id))
  }

  lemma ProcessSteady(w: World, v: World)
    requires Ready(v) && Steady(w, v)
    ensures Steady(w, Process(v).0)
  {
    hide Ready, Process, Contents, CopyOf, FindMove;
    ProcessBytes(v);
    ProcessPlaces(v);
  }

  lemma DefragmentSteady(w: World, v: World, budget: Budget, plan: Option<Plan>)
    requires Ready(v) && Steady(w, v)
    ensures Steady(w, Defragment(v, budget, plan).0)
  {
    hide Ready, Process, Defragment, Contents, CopyOf, Copied;
    ProcessReady(v);
    ProcessSteady(w, v);
    DefragmentBytes(v, budget, plan);
    var v1, v2 := Process(v).0, Defragment(v, budget, plan).0;
    forall id | 0 <= id < |w.gpu.entries|
      ensures v2.gpu.Live(id) == w.gpu.Live(id)
      ensures w.gpu.Live(id) ==> Contents(v2, id) == Contents(w, id)
      ensures Copied(v2.gpu, id) ==> w.gpu.Live(id) && CopyOf(v2, id) == Contents(w, id)
    {
      assert v1.gpu.Live(id) == w.gpu.Live(id);
    }
  }

  lemma AtSteady(w: World, v: World, completed: nat)
    requires Steady(w, v)
    ensures Steady(w, At(v, completed))
  {
    hide FindMove, BytesAt;
    var v' := At(v, completed);
    forall id | 0 <= id < |w.gpu.entries|
      ensures v'.gpu.Live(id) == w.gpu.Live(id)
      ensures w.gpu.Live(id) ==> Contents(v', id) == Contents(w, id)
      ensures Copied(v'.gpu, id) ==> w.gpu.Live(id) && CopyOf(v', id) == Contents(w, id)
    {
      assert v.gpu.Live(id) == w.gpu.Live(id);
    }
  }

  lemma {:induction false} CallsSteady(w: World, v: World, budget: Budget, times: seq<nat>)
    requires WorldOk(v) && Steady(w, v)
    ensures Steady(w, Calls(v, budget, times))
    decreases |times|
  {
    hide Ready, Tallied, Defragment, Steady;
    if times != [] {
      var last := |times| - 1;
      CallsSteady(w, v, budget, times[..last]);
      var u := Calls(v, budget, times[..last]);
      AtOk(u, times[last]);
      AtSteady(w, u, times[last]);
      DefragmentSteady(w, At(u, times[last]), budget, None);
    }
  }

  lemma SteadyFirst(w: World)
    requires w.gpu.target.None?
    ensures Steady(w, w)
  {
  }

  // ---- From the first call ----

  lemma PlanNotEmpty(s: State, plan: Plan)
    requires Sound(s) && PlanOk(s, plan)
    ensures plan.moves != [] && plan.source < |s.arenas| && s.arenas[plan.source].active
    ensures forall k :: 0 <= k < |plan.moves| ==> plan.moves[k].size > 0
  {
    SoundCore(s);
    assert Counted(s.Tables(), plan.source);
    var id := SumWitness(s.entries, LiveIn(plan.source));
    assert Moves(plan.moves, id);
    OrderActive(s, plan.source);
    forall k | 0 <= k < |plan.moves| ensures plan.moves[k].size > 0 {
      assert MovePlanned(s, plan.source, plan.moves[k]);
      LiveArena(s, plan.moves[k].allocation);
    }
  }

  lemma StartedUnderWay(w: World, plan: Plan)
    requires WorldOk(w) && w.gpu.target.None? && PlanOk(w.gpu, plan) && Willing(w.executor)
    ensures UnderWay(w, plan, Started(w, plan))
    ensures forall k :: 0 <= k < |plan.moves| ==>
              Started(w, plan).gpu.Moves()[k].state == Reserved && Started(w, plan).gpu.Moves()[k].size == plan.moves[k].size
  {
    forall k | 0 <= k < |plan.moves| ensures MovePlanned(w.gpu, plan.source, plan.moves[k]) {
    }
    BeginKeeps(w.gpu, plan);
    hide WorldOk, ReserveAll, Frozen;
  }

  /** The first call: the plan is begun if the budget is not nothing. */
  ghost function FirstCall(w: World, budget: Budget, plan: Plan): (v: World)
    requires WorldOk(w)
    ensures WorldOk(v)
  {
    DefragmentOk(w, budget, Some(plan));
    Defragment(w, budget, Some(plan)).0
  }

  predicate Nothing(budget: Budget) {
    budget.copyBytes == 0 || budget.moveCount == 0
  }

  lemma FirstCallIs(w: World, budget: Budget, plan: Plan)
    requires WorldOk(w) && w.gpu.target.None? && PlanOk(w.gpu, plan)
    ensures Nothing(budget) ==> FirstCall(w, budget, plan) == w
    ensures !Nothing(budget) ==>
              && WorldOk(Started(w, plan))
              && var p := Progress(Started(w, plan), budget.copyBytes, budget.moveCount, NOTHING);
                 && Ready(Schedule(p).world) && FirstCall(w, budget, plan) == Finish(Schedule(p).world).0
  {
    hide Ready, Tallied, PlanOk, Begin, Schedule, Finish;
    assert Process(w) == (w, NOTHING);
    BeginOk(w, budget, Some(plan));
    BeginReady(w, budget, Some(plan));
    if Nothing(budget) {
      ScheduleReady(Progress(w, budget.copyBytes, budget.moveCount, NOTHING));
      NoTarget(w);
    } else {
      StartedReady(w, budget, plan);
      ScheduleReady(Progress(Started(w, plan), budget.copyBytes, budget.moveCount, NOTHING));
    }
  }

  /** What the first call leaves. */
  lemma FirstCallProceeds(w: World, budget: Budget, plan: Plan, k: nat)
    requires WorldOk(w) && w.gpu.target.None? && PlanOk(w.gpu, plan) && Willing(w.executor)
    requires !Nothing(budget) && k < |plan.moves|
    ensures var v := FirstCall(w, budget, plan);
            && Proceeding(w, plan, v)
            && if Affords(budget, plan.moves[k]) then Unscheduled(v) < |plan.moves|
               else UnderWay(w, plan, v) && k < |v.gpu.Moves()| && v.gpu.Moves()[k].state == Reserved
                    && v.gpu.Moves()[k].size == plan.moves[k].size
  {
    hide Ready, Tallied, PlanOk, Started, Schedule, Finish, UnderWay, CarriedOut, Unscheduled, FirstCall;
    FirstCallIs(w, budget, plan);
    StartedUnderWay(w, plan);
    UnderWayIs(w, plan, Started(w, plan));
    SchedulingProceeds(w, plan, Started(w, plan), budget, NOTHING, k);
    AtMostAll(Started(w, plan));
  }

  lemma AtMostAll(v: World)
    ensures Unscheduled(v) <= |v.gpu.Moves()|
  {
    CountAtMost(v.gpu.Moves());
  }

  lemma {:induction false} CountAtMost(moves: seq<Move>)
    ensures Sum(moves, ReservedCount()) <= |moves|
  {
    if moves != [] {
      CountAtMost(moves[..|moves| - 1]);
    }
  }

  // ---- To the last ----

  /** The executor keeps pace and goes on refusing nothing. */
  function Paced(v: World): Executor {
    v.executor.(completed := v.executor.next)
  }

  /** The last two calls. */
  ghost function LastCalls(v: World): (v': World)
    requires WorldOk(v)
    ensures WorldOk(v')
  {
    var v1 := After(v, Paced(v));
    After(v1, Paced(v1))
  }

  lemma AfterProceeds(w: World, plan: Plan, v: World)
    requires WorldOk(v) && Proceeding(w, plan, v)
    ensures Proceeding(w, plan, After(v, Paced(v)))
  {
    hide Ready, Tallied, Process, UnderWay, CarriedOut;
    var v0 := At(v, v.executor.next);
    assert AtTime(v, Paced(v)) == v0;
    AtOk(v, v.executor.next);
    AtProceeds(w, plan, v, v.executor.next);
    ProcessProceeds(w, plan, v0);
  }

  lemma AfterSteady(w: World, v: World)
    requires WorldOk(v) && Steady(w, v)
    ensures Steady(w, After(v, Paced(v)))
  {
    hide Ready, Tallied, Process, Steady;
    assert AtTime(v, Paced(v)) == At(v, v.executor.next);
    AtOk(v, v.executor.next);
    AtSteady(w, v, v.executor.next);
    ProcessSteady(w, At(v, v.executor.next));
  }

  lemma LastCallsEnd(w: World, plan: Plan, v: World)
    requires WorldOk(v) && Proceeding(w, plan, v)
    ensures Proceeding(w, plan, LastCalls(v))
    ensures !HasReserved(v.gpu.Moves()) ==> CarriedOut(w, plan, LastCalls(v))
  {
    hide WorldOk, After, Closed, HasReserved;
    var v1 := After(v, Paced(v));
    AfterProceeds(w, plan, v);
    AfterProceeds(w, plan, v1);
    if !HasReserved(v.gpu.Moves()) {
      if v.gpu.target.Some? {
        EvacuationEnds(v, Paced(v), Paced(v1));
        ClosedIs(v, LastCalls(v), v.gpu.target.value.source);
      } else {
        ClosedStays(v, Paced(v));
        ClosedStays(v1, Paced(v1));
      }
    }
  }

  /** What cannot be afforded is never copied. */
  lemma LastCallsReserved(w: World, plan: Plan, v: World, k: nat)
    requires WorldOk(v) && UnderWay(w, plan, v) && k < |v.gpu.Moves()| && v.gpu.Moves()[k].state == Reserved
    ensures UnderWay(w, plan, LastCalls(v))
  {
    hide Ready, Tallied, Process, UnderWay, CarriedOut, After;
    var v1 := After(v, Paced(v));
    AfterReserved(w, plan, v, k);
    AfterReserved(w, plan, v1, k);
  }

  lemma AfterReserved(w: World, plan: Plan, v: World, k: nat)
    requires WorldOk(v) && UnderWay(w, plan, v) && k < |v.gpu.Moves()| && v.gpu.Moves()[k].state == Reserved
    ensures var v1 := After(v, Paced(v));
            UnderWay(w, plan, v1) && k < |v1.gpu.Moves()| && v1.gpu.Moves()[k].state == Reserved
  {
    hide Ready, Tallied, Process, UnderWay, CarriedOut;
    var v0 := At(v, v.executor.next);
    assert AtTime(v, Paced(v)) == v0;
    AtOk(v, v.executor.next);
    AtProceeds(w, plan, v, v.executor.next);
    ProcessProceeds(w, plan, v0);
    assert v0.gpu.Moves() == v.gpu.Moves();
    StillReserved(v0, k);
    SameReservedAt(v0.gpu.Moves(), Process(v0).0.gpu.Moves(), k);
  }

  /** The whole evacuation: the first call, further calls with the same budget, and two
      completions. */
  ghost function Evacuated(w: World, budget: Budget, plan: Plan, times: seq<nat>): World
    requires WorldOk(w)
  {
    LastCalls(Calls(FirstCall(w, budget, plan), budget, times))
  }

  /** Under a budget that covers its largest move an evacuation that nobody hinders
      completes after as many calls as it has moves, and two more to complete: every
      allocation of the plan lies where the plan puts it, the source and its buffer are
      gone, nobody else has moved, and everybody reads what it read. */
  lemma EvacuationCompletes(w: World, budget: Budget, plan: Plan, times: seq<nat>)
    requires WorldOk(w) && w.gpu.target.None? && PlanOk(w.gpu, plan) && Willing(w.executor)
    requires AllSizes(budget, plan.moves) && |times| + 1 >= |plan.moves|
    ensures CarriedOut(w, plan, Evacuated(w, budget, plan, times))
    ensures Steady(w, Evacuated(w, budget, plan, times))
  {
    PlanNotEmpty(w.gpu, plan);
    assert Affords(budget, plan.moves[0]);
    hide Ready, Tallied, PlanOk, FirstCall, Calls, LastCalls, UnderWay, CarriedOut, Unscheduled, HasReserved, AllSizes, Steady;
    FirstCallProceeds(w, budget, plan, 0);
    var v := FirstCall(w, budget, plan);
    CallsProceed(w, plan, v, budget, times, 0);
    CallsSchedule(w, plan, v, budget, times);
    var u := Calls(v, budget, times);
    UnscheduledNone(u);
    LastCallsEnd(w, plan, u);
    EvacuatedSteady(w, budget, plan, times);
  }

  lemma EvacuatedSteady(w: World, budget: Budget, plan: Plan, times: seq<nat>)
    requires WorldOk(w) && w.gpu.target.None?
    ensures Steady(w, Evacuated(w, budget, plan, times))
  {
    hide Ready, Tallied, Defragment, Calls, After, Steady;
    SteadyFirst(w);
    DefragmentSteady(w, w, budget, Some(plan));
    CallsSteady(w, FirstCall(w, budget, plan), budget, times);
    var u := Calls(FirstCall(w, budget, plan), budget, times);
    AfterSteady(w, u);
    AfterSteady(w, After(u, Paced(u)));
  }

  lemma {:induction false} CallsIdle(v: World, budget: Budget, times: seq<nat>)
    requires WorldOk(v) && v.gpu.target.None?
    ensures Calls(v, budget, times).gpu == v.gpu
    decreases |times|
  {
    hide WorldOk, Call;
    if times != [] {
      var last := |times| - 1;
      CallsIdle(v, budget, times[..last]);
      NothingToDo(Calls(v, budget, times[..last]), budget, times[last]);
    }
  }

  lemma UnderWaySource(w: World, plan: Plan, v: World)
    requires WorldOk(v) && UnderWay(w, plan, v)
    ensures plan.source < |v.gpu.arenas| && v.gpu.arenas[plan.source].active
  {
    SourceIsActive(v.gpu);
  }

  /** The source is recovered exactly under those budgets: with any other it is still
      there after any number of calls. */
  lemma RecoversExactlyIf(w: World, budget: Budget, plan: Plan, times: seq<nat>)
    requires WorldOk(w) && w.gpu.target.None? && PlanOk(w.gpu, plan) && Willing(w.executor)
    requires |times| + 1 >= |plan.moves|
    ensures var v := Evacuated(w, budget, plan, times);
            && plan.source < |v.gpu.arenas|
            && (!v.gpu.arenas[plan.source].active <==> AllSizes(budget, plan.moves))
  {
    PlanNotEmpty(w.gpu, plan);
    hide Ready, Tallied, PlanOk, FirstCall, LastCalls, UnderWay, Affords, Steady;
    if AllSizes(budget, plan.moves) {
      EvacuationCompletes(w, budget, plan, times);
    } else {
      var k :| 0 <= k < |plan.moves| && !Affords(budget, plan.moves[k]);
      NotRecovered(w, budget, plan, times, k);
    }
  }

  lemma NotRecovered(w: World, budget: Budget, plan: Plan, times: seq<nat>, k: nat)
    requires WorldOk(w) && w.gpu.target.None? && PlanOk(w.gpu, plan) && Willing(w.executor)
    requires k < |plan.moves| && !Affords(budget, plan.moves[k])
    ensures var v := Evacuated(w, budget, plan, times);
            plan.source < |v.gpu.arenas| && v.gpu.arenas[plan.source].active
  {
    PlanNotEmpty(w.gpu, plan);
    hide Ready, Tallied, PlanOk, FirstCall, After, UnderWay, CarriedOut, Unscheduled, HasReserved;
    FirstCallIs(w, budget, plan);
    var v := FirstCall(w, budget, plan);
    if Nothing(budget) {
      CallsIdle(v, budget, times);
      var u := Calls(v, budget, times);
      ClosedStays(u, Paced(u));
      ClosedStays(After(u, Paced(u)), Paced(After(u, Paced(u))));
    } else {
      FirstCallProceeds(w, budget, plan, k);
      StillOut(budget, plan.moves[k], v.gpu.Moves()[k]);
      CallsProceed(w, plan, v, budget, times, k);
      LastCallsReserved(w, plan, Calls(v, budget, times), k);
      UnderWaySource(w, plan, Evacuated(w, budget, plan, times));
    }
  }

  lemma StillOut(budget: Budget, m: Move, n: Move)
    requires !Affords(budget, m) && m.size == n.size
    ensures !Affords(budget, n)
  {
  }
}
