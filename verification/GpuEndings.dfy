/** An evacuation of which nothing is only reserved any more is over after two calls,
    if the executor keeps pace, whatever switches it refuses. */
module GpuEndings {
  import opened Wrappers
  import opened GpuCore
  import opened GpuState
  import opened GpuInvariant
  import opened GpuMoves
  import opened GpuPlan
  import opened GpuWorld
  import opened GpuBytes
  import opened GpuTally
  import opened GpuCalls
  import opened GpuPlacement
  import opened GpuContents
  import opened GpuOutcomes

  /** The executor some time later: its timeline has reached all that it has handed
      out, and what it will refuse may have changed. */
  predicate KeepsPace(w: World, x: Executor) {
    && x == w.executor.(completed := x.completed, refuseCopy := x.refuseCopy, refuseSwitch := x.refuseSwitch)
    && x.completed + 1 >= x.next
  }

  function AtTime(w: World, x: Executor): World {
    w.(executor := x)
  }

  lemma PaceOk(w: World, x: Executor)
    requires WorldOk(w) && KeepsPace(w, x)
    ensures WorldOk(AtTime(w, x))
  {
    hide Sound, MemoryOk, Accounted, Settled;
    assert AtTime(w, x).gpu.Moves() == w.gpu.Moves();
  }

  /** process_completions once the executor has kept pace. */
  ghost function After(w: World, x: Executor): (w': World)
    requires WorldOk(w) && KeepsPace(w, x)
    ensures WorldOk(w')
  {
    PaceOk(w, x);
    ProcessOk(AtTime(w, x));
    Process(AtTime(w, x)).0
  }

  // ---- One call ----

  /** The move is over or, unless this is the last call, waits for its retirement. */
  predicate Drained(m: Move, last: bool) {
    m.state == SourceRetired || m.state == Cancelled || (!last && m.state == ReferencesSwitched)
  }

  /** The executor is done with the move as far as it has gone. */
  predicate Due(w: World, m: Move, last: bool) {
    && m.state != Reserved && (m.state == CopyScheduled ==> !last && CopyDone(w, m))
    && (m.state == ReferencesSwitched ==> RetirementDone(w, m))
  }

  ghost predicate DrainedUpTo(w: World, i: nat, last: bool) {
    && w.gpu.target.Some? && i <= |w.gpu.Moves()|
    && (forall k :: 0 <= k < i ==> Drained(w.gpu.Moves()[k], last))
    && (forall k :: i <= k < |w.gpu.Moves()| ==> Due(w, w.gpu.Moves()[k], last))
  }

  lemma DrainRound(w: World, i: nat, r: Result, last: bool)
    requires Ready(w) && DrainedUpTo(w, i, last) && i < |w.gpu.Moves()|
    ensures DrainedUpTo(CompleteMove(w, i, r).0, i + 1, last)
  {
    hide Sound, MemoryOk, GiveUp;
    CopyRoundReady(w, i, r);
    var w1 := CopyRound(w, i, r).0;
    if CopyDone(w, w.gpu.Moves()[i]) {
      var s := CountCopied(w.gpu, i);
      StatisticsAside(w.gpu, s.statistics);
      if w.gpu.Moves()[i].id in w.executor.refuseSwitch {
        GiveUpIs(s, i);
        assert GivenUp(s.Moves(), i) == s.Moves()[i := s.Moves()[i].(state := Cancelled)];
      } else {
        SwitchSound(w.gpu, i, w.executor.next);
      }
    }
    if RetirementDone(w1, w1.gpu.Moves()[i]) {
      RetireSound(w1.gpu, i);
    }
  }

  lemma {:induction false} DrainAll(w: World, i: nat, r: Result, last: bool)
    requires Ready(w) && DrainedUpTo(w, i, last)
    ensures var w' := CompleteFrom(w, i, r).0; DrainedUpTo(w', |w'.gpu.Moves()|, last)
    decreases |w.gpu.Moves()| - i
  {
    if i < |w.gpu.Moves()| {
      hide Ready, CompleteMove, Drained, Due, Onward;
      CompleteMoveReady(w, i, r);
      DrainRound(w, i, r, last);
      var (w1, r1) := CompleteMove(w, i, r);
      OnwardSize(w, w1);
      DrainAll(w1, i + 1, r1, last);
    }
  }

  predicate SameKind(x: Arena, y: Arena) {
    x.active == y.active && x.capacity == y.capacity && x.memoryClass == y.memoryClass && x.dedicated == y.dedicated
  }

  /** The evacuation is over: nothing is frozen, every arena but the source is there
      that was there, in the same sequence, and the source, which was, is if and only if
      somebody lies in it. */
  ghost predicate Closed(w: World, w': World, source: nat) {
    && w'.gpu.target.None? && |w'.gpu.arenas| == |w.gpu.arenas| && source < |w.gpu.arenas|
    && (forall a :: 0 <= a < |w.gpu.arenas| ==> w'.gpu.arenas[a].role == Normal)
    && (forall a :: 0 <= a < |w.gpu.arenas| && (a != source || Inhabited(w'.gpu, source)) ==>
          SameKind(w.gpu.arenas[a], w'.gpu.arenas[a]))
    && SameSequence(w.gpu.order, w'.gpu.order)
    && w.gpu.arenas[source].active && (w'.gpu.arenas[source].active <==> Inhabited(w'.gpu, source))
    && w'.memory.active == if Inhabited(w'.gpu, source) then w.memory.active else w.memory.active - 1
  }

  lemma OverCloses(w: World, w1: World, w': World, source: nat)
    requires Onward(w, w1) && w1.memory == w.memory && Over(w1, w', source)
    ensures Closed(w, w', source)
  {
  }

  /** One call either ends the evacuation or leaves its moves drained so far. */
  lemma DrainingCall(w: World, last: bool)
    requires WorldOk(w) && DrainedUpTo(w, 0, last)
    ensures w.gpu.target.Some?
    ensures var w', source := Process(w).0, w.gpu.target.value.source;
            || Closed(w, w', source)
            || (!last && Onward(w, w') && w'.memory == w.memory && DrainedUpTo(w', |w'.gpu.Moves()|, false))
  {
    hide Ready, Tallied, CompleteFrom, Onward, Over, Closed;
    CompleteFromReady(w, 0, NOTHING);
    CompleteFromQuiet(w, 0, NOTHING);
    DrainAll(w, 0, NOTHING, last);
    var w1 := CompleteFrom(w, 0, NOTHING).0;
    OnwardSource(w, w1);
    if Finished(w1.gpu.Moves()) {
      FinishIsOver(w1);
      OverCloses(w, w1, Process(w).0, w.gpu.target.value.source);
    } else {
      assert Finish(w1) == (w1, None);
    }
  }

  lemma OnwardSource(w: World, w': World)
    requires Onward(w, w')
    ensures w.gpu.target.Some? && w'.gpu.target.Some? && w'.gpu.target.value.source == w.gpu.target.value.source
  {
  }

  // ---- Two calls ----

  lemma AllDue(w: World, x: Executor)
    requires WorldOk(w) && KeepsPace(w, x) && w.gpu.target.Some? && !HasReserved(w.gpu.Moves())
    ensures DrainedUpTo(AtTime(w, x), 0, false)
  {
    hide Ready, Accounted, Balanced, Settled;
    assert AtTime(w, x).gpu.Moves() == w.gpu.Moves();
  }

  lemma AllDueLast(w: World, x: Executor)
    requires WorldOk(w) && KeepsPace(w, x) && DrainedUpTo(w, |w.gpu.Moves()|, false)
    ensures DrainedUpTo(AtTime(w, x), 0, true)
  {
    hide Ready, Accounted, Balanced, Settled;
    assert AtTime(w, x).gpu.Moves() == w.gpu.Moves();
  }

  lemma ClosedThen(w: World, w1: World, w2: World, source: nat)
    requires Onward(w, w1) && w1.memory == w.memory && Closed(w1, w2, source)
    ensures Closed(w, w2, source)
  {
  }

  lemma ClosedStays(w: World, x: Executor)
    requires WorldOk(w) && KeepsPace(w, x) && w.gpu.target.None?
    ensures After(w, x) == AtTime(w, x)
  {
  }

  lemma ClosedWhenever(w: World, x: Executor, w': World, y: Executor, source: nat)
    requires Closed(AtTime(w, x), w', source)
    ensures Closed(w, AtTime(w', y), source)
  {
  }

  lemma NothingCopied(w: World, id: nat)
    requires forall k :: 0 <= k < |w.gpu.Moves()| ==> w.gpu.Moves()[k].state != CopyScheduled
    ensures !Switches(w, id) && (id < |w.gpu.entries| ==> Landed(w, 0, id) == w.gpu.entries[id])
  {
    hide FindMove;
  }

  /** Nothing is switched where nothing is being copied. */
  lemma NothingSwitched(w: World)
    requires Ready(w) && forall k :: 0 <= k < |w.gpu.Moves()| ==> w.gpu.Moves()[k].state != CopyScheduled
    ensures Process(w).0.gpu.entries == w.gpu.entries && SameContents(w, Process(w).0)
  {
    hide Ready, Process, Landed, Switches, Contents;
    ProcessPlaces(w);
    ProcessBytes(w);
    forall id | 0 <= id < |w.gpu.entries|
      ensures Process(w).0.gpu.entries[id] == w.gpu.entries[id]
      ensures w.gpu.Live(id) ==> Contents(Process(w).0, id) == Contents(w, id)
    {
      NothingCopied(w, id);
    }
  }

  lemma SecondPlaces(w: World, x: Executor)
    requires WorldOk(w) && KeepsPace(w, x)
    requires w.gpu.target.Some? ==> DrainedUpTo(w, |w.gpu.Moves()|, false)
    ensures After(w, x).gpu.entries == w.gpu.entries
    ensures SameContents(w, After(w, x))
  {
    hide Ready, Tallied, Process, BytesAt;
    PaceOk(w, x);
    assert AtTime(w, x).gpu.Moves() == w.gpu.Moves();
    NothingSwitched(AtTime(w, x));
  }

  lemma TwoCalls(w: World, x1: Executor, x2: Executor)
    requires WorldOk(w) && w.gpu.target.Some? && !HasReserved(w.gpu.Moves()) && KeepsPace(w, x1)
    requires KeepsPace(After(w, x1), x2)
    ensures var w1 := After(w, x1);
            && Closed(w, After(w1, x2), w.gpu.target.value.source)
            && After(w1, x2).gpu.entries == w1.gpu.entries && SameContents(w1, After(w1, x2))
  {
    hide Ready, Tallied, Process, Closed, Onward, KeepsPace, SameContents, Drained, Due;
    PaceOk(w, x1);
    AllDue(w, x1);
    DrainingCall(AtTime(w, x1), false);
    var w1, source := After(w, x1), w.gpu.target.value.source;
    if Closed(AtTime(w, x1), w1, source) {
      ClosedIs(AtTime(w, x1), w1, source);
      ClosedStays(w1, x2);
      ClosedWhenever(w, x1, w1, x2, source);
      SecondPlaces(w1, x2);
    } else {
      PaceOk(w1, x2);
      AllDueLast(w1, x2);
      SecondPlaces(w1, x2);
      DrainingCall(AtTime(w1, x2), true);
      OnwardSource(AtTime(w, x1), w1);
      OnwardTimes(w, x1, w1, x2);
      ClosedThen(w, AtTime(w1, x2), After(w1, x2), source);
    }
  }

  lemma ClosedIs(w: World, w': World, source: nat)
    requires Closed(w, w', source)
    ensures w'.gpu.target.None?
  {
  }

  lemma OnwardTimes(w: World, x: Executor, w': World, y: Executor)
    requires Onward(AtTime(w, x), w')
    ensures Onward(w, AtTime(w', y))
  {
  }

  /** Whatever the executor refuses, once nothing is only reserved two calls end the
      evacuation, the executor keeping pace. Where a copy was complete and its switch
      accepted, the allocation lies at its destination and reads its copy; all others
      keep their place and their bytes. The source is gone exactly if it is empty. */
  lemma EvacuationEnds(w: World, x1: Executor, x2: Executor)
    requires WorldOk(w) && w.gpu.target.Some? && !HasReserved(w.gpu.Moves()) && KeepsPace(w, x1)
    requires KeepsPace(After(w, x1), x2)
    ensures var w1, w' := AtTime(w, x1), After(After(w, x1), x2);
            && Closed(w, w', w.gpu.target.value.source)
            && |w'.gpu.entries| == |w.gpu.entries|
            && forall id :: 0 <= id < |w.gpu.entries| ==>
                 && w'.gpu.entries[id] == Landed(w1, 0, id)
                 && (w.gpu.Live(id) ==>
                       Contents(w', id) == if Switches(w1, id) then CopyOf(w1, id) else Contents(w, id))
  {
    hide Ready, Tallied, Process, Closed, KeepsPace, FindMove, Contents, CopyOf, After;
    PaceOk(w, x1);
    TwoCalls(w, x1, x2);
    AfterBytes(w, x1);
    var w1, w2 := After(w, x1), After(After(w, x1), x2);
    forall id | 0 <= id < |w.gpu.entries| && w.gpu.Live(id)
      ensures Contents(w2, id) == if Switches(AtTime(w, x1), id) then CopyOf(AtTime(w, x1), id) else Contents(w, id)
    {
      assert w1.gpu.Live(id);
    }
  }

  lemma AfterBytes(w: World, x: Executor)
    requires WorldOk(w) && KeepsPace(w, x)
    ensures var w1, w' := AtTime(w, x), After(w, x);
            && |w'.gpu.entries| == |w.gpu.entries|
            && forall id :: 0 <= id < |w.gpu.entries| ==>
                 && w'.gpu.entries[id] == Landed(w1, 0, id)
                 && (w.gpu.Live(id) ==>
                       && w'.gpu.Live(id)
                       && Contents(w', id) == if Switches(w1, id) then CopyOf(w1, id) else Contents(w, id))
  {
    PaceOk(w, x);
    ProcessPlaces(AtTime(w, x));
    ProcessBytes(AtTime(w, x));
    hide Ready, Tallied, Process, FindMove, CopyOf, BytesAt;
  }

  lemma AllSame(w: World, w': World, source: nat)
    requires Closed(w, w', source) && Inhabited(w'.gpu, source)
    ensures SameKinds(w.gpu.arenas, w'.gpu.arenas)
  {
    hide Inhabited;
  }

  /** If every switch is refused and the source is not empty, the arenas are again as
      they were before the evacuation, range for range. */
  lemma RefusedSwitchesRestore(before: State, w: World, x1: Executor, x2: Executor)
    requires WorldOk(w) && w.gpu.target.Some? && !HasReserved(w.gpu.Moves()) && KeepsPace(w, x1)
    requires KeepsPace(After(w, x1), x2)
    requires Sound(before) && before.target.None? && before.entries == w.gpu.entries
    requires SameKinds(before.arenas, w.gpu.arenas)
    requires forall id: nat :: !Switches(AtTime(w, x1), id)
    requires Inhabited(w.gpu, w.gpu.target.value.source)
    ensures After(After(w, x1), x2).gpu.arenas == before.arenas
  {
    hide Sound, MemoryOk, Tallied, Process, KeepsPace, After, FindMove, WillSwitch, Contents, Closed, Inhabited, SameKinds;
    EvacuationEnds(w, x1, x2);
    var w', source := After(After(w, x1), x2), w.gpu.target.value.source;
    forall id | 0 <= id < |w.gpu.entries| ensures w'.gpu.entries[id] == w.gpu.entries[id] {
      assert !Switches(AtTime(w, x1), id);
    }
    assert w'.gpu.entries == before.entries;
    ClosedIs(w, w', source);
    StillInhabited(w.gpu, w'.gpu, source);
    AllSame(w, w', source);
    KindsThen(before.arenas, w.gpu.arenas, w'.gpu.arenas);
    SameArenas(before, w'.gpu);
  }

  lemma StillInhabited(s: State, t: State, a: nat)
    requires Inhabited(s, a) && t.entries == s.entries
    ensures Inhabited(t, a)
  {
  }
}
