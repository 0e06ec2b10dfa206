/** Three things the allocator's documentation promises and the code does not quite
    do, each with the exact condition under which it does. */
module GpuFindings {
  import opened Wrappers
  import opened Sums
  import opened GpuCore
  import opened GpuState
  import opened GpuInvariant
  import opened GpuMoves
  import opened GpuAllocate
  import opened GpuWorld
  import opened GpuBytes
  import opened GpuTally
  import opened GpuCalls
  import opened GpuOwners
  import opened GpuContents
  import opened GpuOutcomes

  // ---- Empty arenas that stay ----

  /** An arena that is kept although nothing lies in it. */
  predicate Idle(x: Arena) {
    x.active && x.allocations == 0 && x.reservations == 0 && x.retiring == 0
  }

  ghost predicate NoIdle(s: State) {
    forall a :: 0 <= a < |s.arenas| ==> !Idle(s.arenas[a])
  }

  lemma IdleIsUntouched(s: State, a: nat)
    requires Sound(s) && a < |s.arenas| && s.arenas[a].active
    ensures Idle(s.arenas[a]) <==> Untouched(s.Tables(), a)
  {
    SoundCore(s);
    assert Counted(s.Tables(), a);
  }

  /** try_release_arena sees to the arena it is given, if that is not frozen. */
  lemma ReleaseIdle(w: World, a: nat, b: nat)
    requires Ready(w) && a < |w.gpu.arenas| && b < |w.gpu.arenas|
    ensures |ReleaseArena(w, a).gpu.arenas| == |w.gpu.arenas|
    ensures Idle(ReleaseArena(w, a).gpu.arenas[b]) <==>
            Idle(w.gpu.arenas[b]) && !(b == a && w.gpu.arenas[a].role == Normal)
    ensures ReleaseArena(w, a).gpu.target == w.gpu.target
  {
    RemovedOnce(w, a);
    if w.gpu.arenas[a].active {
      IdleIsUntouched(w.gpu, a);
    }
    if CanRelease(w.gpu.arenas[a]) {
      DropSound(w.gpu, a);
    }
    hide Ready, Untouched;
  }

  /** When nothing is left in the source its moves are all done. */
  lemma IdleSourceIsFinished(s: State)
    requires Sound(s) && s.target.Some? && s.target.value.source < |s.arenas|
    requires Idle(s.arenas[s.target.value.source])
    ensures Finished(s.Moves())
  {
    var a := s.target.value.source;
    IdleIsUntouched(s, a);
    SoundMoves(s);
    forall i | 0 <= i < |s.Moves()| ensures !Holds(s.Moves()[i]) {
      if s.Moves()[i].Pending() {
        SumAtLeast(s.entries, s.Moves()[i].allocation, LiveIn(a));
      } else if s.Moves()[i].state == ReferencesSwitched {
        SumAtLeast(s.Moves(), i, RetiringIn(a));
      }
    }
  }

  /** Ending an evacuation sees to its source. */
  lemma FinishIdle(w: World, b: nat)
    requires Ready(w) && b < |w.gpu.arenas|
    ensures |Finish(w).0.gpu.arenas| == |w.gpu.arenas|
    ensures Idle(Finish(w).0.gpu.arenas[b]) <==>
            Idle(w.gpu.arenas[b]) && !(w.gpu.target.Some? && b == w.gpu.target.value.source)
  {
    if w.gpu.target.Some? {
      SourceIsActive(w.gpu);
      var a := w.gpu.target.value.source;
      if Finished(w.gpu.Moves()) {
        EndReady(w);
        ReleaseIdle(w.(gpu := EndTarget(w.gpu)), a, b);
        hide Ready;
      } else if Idle(w.gpu.arenas[a]) {
        IdleSourceIsFinished(w.gpu);
      }
    }
  }

  /** The allocation's move is reserved in an arena that holds nothing else. */
  predicate LoneReservation(s: State, id: nat) {
    var k := FindMove(s.Moves(), 0, id);
    && k < |s.Moves()| && s.Moves()[k].state == Reserved && s.Moves()[k].destination < |s.arenas|
    && s.arenas[s.Moves()[k].destination].allocations == 0 && s.arenas[s.Moves()[k].destination].reservations == 1
  }

  lemma WithdrawnArenas(s: State, id: nat, b: nat)
    requires Sound(s) && s.Live(id) && !Copied(s, id) && b < |s.arenas| && !Idle(s.arenas[b])
    requires b != s.entries[id].arena
    ensures |Withdraw(s, id).arenas| == |s.arenas|
    ensures Idle(Withdraw(s, id).arenas[b]) <==>
            LoneReservation(s, id) && b == s.Moves()[FindMove(s.Moves(), 0, id)].destination
  {
    var k := FindMove(s.Moves(), 0, id);
    if k < |s.Moves()| && s.Moves()[k].state == Reserved {
      SoundMoves(s);
      SoundCore(s);
      var m := s.Moves()[k];
      CancelShape(s, k);
      VacateKind(s.arenas[m.destination], m.destinationOffset, m.size);
      NothingRetires(s, m.destination);
      hide Sound, CoreOk, FindMove, Vacate;
    }
  }

  /** Only the source has blocks that retire. */
  lemma NothingRetires(s: State, a: nat)
    requires Sound(s) && a < |s.arenas| && s.target.Some? && a != s.target.value.source
    ensures s.arenas[a].retiring == 0
  {
    SoundCore(s);
    SoundMoves(s);
    assert Counted(s.Tables(), a);
    SumZero(s.Moves(), RetiringIn(a));
  }

  lemma RemoveArenas(s: State, id: nat, b: nat)
    requires s.Live(id) && s.entries[id].arena < |s.arenas| && b < |s.arenas|
    ensures var t := Remove(s, id);
            && |t.arenas| == |s.arenas| && t.target == s.target && t.arenas[b].role == s.arenas[b].role
            && (b != s.entries[id].arena ==> t.arenas[b] == s.arenas[b])
  {
    hide Vacate;
    VacateKind(s.arenas[s.entries[id].arena], s.entries[id].offset, s.entries[id].size);
  }

  lemma WithdrawRoles(s: State, id: nat, b: nat)
    requires Sound(s) && !Copied(s, id) && b < |s.arenas|
    ensures var t := Withdraw(s, id);
            && |t.arenas| == |s.arenas| && t.arenas[b].role == s.arenas[b].role
            && t.target.Some? == s.target.Some? && (s.target.Some? ==> t.target.value.source == s.target.value.source)
  {
    hide Sound, Withdraw, Copied, SamePlans, SameKinds;
    WithdrawSound(s, id);
  }

  lemma TakenOutArenas(w: World, id: nat, b: nat)
    requires Ready(w) && w.gpu.Live(id) && !Copied(w.gpu, id) && b < |w.gpu.arenas|
    ensures var s, t := w.gpu, TakenOut(w, id).gpu;
            && |Withdraw(s, id).arenas| == |t.arenas| == |s.arenas|
            && (b != s.entries[id].arena ==> t.arenas[b] == Withdraw(s, id).arenas[b])
            && t.arenas[b].role == s.arenas[b].role
            && t.target.Some? == s.target.Some? && (s.target.Some? ==> t.target.value.source == s.target.value.source)
  {
    hide Sound, MemoryOk, Withdraw, Remove, Copied, NoPending;
    WithdrawReady(w, id);
    RemoveReady(w.(gpu := Withdraw(w.gpu, id)), id);
    WithdrawRoles(w.gpu, id, b);
    RemoveArenas(Withdraw(w.gpu, id), id, b);
  }

  lemma FrozenIsSource(s: State, a: nat)
    requires Sound(s) && a < |s.arenas|
    ensures s.arenas[a].role == Normal || (s.target.Some? && s.target.value.source == a)
  {
  }

  /** What the withdrawn move tells about its places. */
  lemma LoneElsewhere(s: State, id: nat)
    requires Sound(s) && s.Live(id) && LoneReservation(s, id)
    ensures var d := s.Moves()[FindMove(s.Moves(), 0, id)].destination;
            && d < |s.arenas| && d != s.entries[id].arena && s.target.Some? && d != s.target.value.source
  {
    SoundMoves(s);
  }

  lemma IdleAfterDeallocate(w: World, id: nat, b: nat)
    requires Ready(w) && NoIdle(w.gpu) && w.gpu.Live(id) && !Copied(w.gpu, id) && b < |w.gpu.arenas|
    ensures var s' := TryDeallocate(w, id).0.gpu;
            && |s'.arenas| == |w.gpu.arenas|
            && (Idle(s'.arenas[b]) <==>
                  LoneReservation(w.gpu, id) && b == w.gpu.Moves()[FindMove(w.gpu.Moves(), 0, id)].destination)
  {
    hide Sound, MemoryOk, Copied, TakenOut, Withdraw, ReleaseArena, Finish, Idle, FindMove;
    var a := w.gpu.entries[id].arena;
    TakenOutReady(w, id);
    TakenOutArenas(w, id, b);
    TakenOutArenas(w, id, a);
    var w1 := TakenOut(w, id);
    ReleaseReady(w1, a);
    ReleaseIdle(w1, a, b);
    FinishIdle(ReleaseArena(w1, a), b);
    FrozenIsSource(w.gpu, a);
    if b != a {
      WithdrawnArenas(w.gpu, id, b);
    }
    if LoneReservation(w.gpu, id) {
      LoneElsewhere(w.gpu, id);
    }
  }

  /** Releasing an allocation leaves an empty arena behind exactly when the
      allocation's cancelled reservation was all that its destination held: only the
      arena the allocation lay in, and the source of a finished evacuation, are
      looked at. */
  lemma EmptyArenaStays(w: World, id: nat)
    requires Ready(w) && NoIdle(w.gpu) && w.gpu.Live(id) && !Copied(w.gpu, id)
    ensures NoIdle(TryDeallocate(w, id).0.gpu) <==> !LoneReservation(w.gpu, id)
  {
    hide Ready, Copied, TryDeallocate, Idle, FindMove;
    forall b | 0 <= b < |w.gpu.arenas|
      ensures var s' := TryDeallocate(w, id).0.gpu;
              && |s'.arenas| == |w.gpu.arenas|
              && (Idle(s'.arenas[b]) <==>
                    LoneReservation(w.gpu, id) && b == w.gpu.Moves()[FindMove(w.gpu.Moves(), 0, id)].destination)
    {
      IdleAfterDeallocate(w, id, b);
    }
    LiveInPool(w, id);
    IdleAfterDeallocate(w, id, w.gpu.entries[id].arena);
    if LoneReservation(w.gpu, id) {
      LoneInPool(w, id);
      var d := w.gpu.Moves()[FindMove(w.gpu.Moves(), 0, id)].destination;
      assert Idle(TryDeallocate(w, id).0.gpu.arenas[d]);
    }
  }

  lemma LoneInPool(w: World, id: nat)
    requires Ready(w) && w.gpu.Live(id) && LoneReservation(w.gpu, id)
    ensures w.gpu.Moves()[FindMove(w.gpu.Moves(), 0, id)].destination < |w.gpu.arenas|
  {
  }

  lemma LiveInPool(w: World, id: nat)
    requires Ready(w) && w.gpu.Live(id)
    ensures w.gpu.entries[id].arena < |w.gpu.arenas|
  {
    LiveArena(w.gpu, id);
  }

  /** Giving up an evacuation leaves every arena empty that held nothing but
      reservations of moves now cancelled. */
  lemma GivingUpLeavesEmpty(s: State, i: nat, a: nat)
    requires Sound(s) && i < |s.Moves()| && s.Moves()[i].Pending() && a < |s.arenas| && s.arenas[a].active
    ensures |GiveUp(s, i).arenas| == |s.arenas|
    ensures Idle(GiveUp(s, i).arenas[a]) <==>
            && s.arenas[a].allocations == 0 && s.arenas[a].retiring == 0
            && forall k :: 0 <= k < |s.Moves()| && k != i && s.Moves()[k].state == CopyScheduled ==> s.Moves()[k].destination != a
  {
    GiveUpIs(s, i);
    GiveUpSound(s, i);
    var t := GiveUp(s, i);
    SoundCore(s);
    SoundCore(t);
    assert Counted(s.Tables(), a) && Counted(t.Tables(), a);
    hide Sound, CoreOk, GiveUp, Sum;
    GivenUpRetiring(s.Moves(), i, a);
    GivenUpReserved(s.Moves(), i, a);
  }

  lemma GivenUpRetiring(moves: seq<Move>, i: nat, a: nat)
    requires i < |moves| && moves[i].Pending()
    ensures Sum(GivenUp(moves, i), RetiringIn(a)) == Sum(moves, RetiringIn(a))
  {
    SumSame(moves, GivenUp(moves, i), RetiringIn(a), RetiringIn(a));
  }

  lemma GivenUpReserved(moves: seq<Move>, i: nat, a: nat)
    requires i < |moves| && moves[i].Pending()
    ensures Sum(GivenUp(moves, i), ReservedIn(a)) == 0 <==>
            forall k :: 0 <= k < |moves| && k != i && moves[k].state == CopyScheduled ==> moves[k].destination != a
  {
    var after := GivenUp(moves, i);
    if Sum(after, ReservedIn(a)) == 0 {
      forall k | 0 <= k < |moves| && k != i && moves[k].state == CopyScheduled ensures moves[k].destination != a {
        SumAtLeast(after, k, ReservedIn(a));
      }
    } else {
      var k := SumWitness(after, ReservedIn(a));
      assert after[k] == moves[k];
    }
  }

  // ---- A new allocation that counts as relocating ----

  /** The executor has switched an allocation of this id, whose source is not yet
      retired. */
  predicate StillRetiring(s: State, id: nat) {
    exists i :: 0 <= i < |s.Moves()| && s.Moves()[i].allocation == id && s.Moves()[i].state == ReferencesSwitched
  }

  /** The id that the next allocation will get. */
  function NextId(s: State): nat {
    if s.freeEntry != 0 then s.freeEntry else |s.entries|
  }

  lemma {:induction false} TryAllocateId(s: State, i: nat, size: nat, options: Options)
    requires i <= |s.order| && s.freeEntry < |s.entries|
    requires forall k :: 0 <= k < |s.order| ==> s.order[k] < |s.arenas|
    ensures TryAllocate(s, i, size, options).1.Some? ==> TryAllocate(s, i, size, options).1.value == NextId(s)
    decreases |s.order| - i
  {
    if i < |s.order| {
      hide TryAllocateInArena, Admits;
      TryInArenaId(s, s.order[i], size, options);
      TryAllocateId(s, i + 1, size, options);
    }
  }

  lemma TryInArenaId(s: State, a: nat, size: nat, options: Options)
    requires a < |s.arenas| && s.freeEntry < |s.entries|
    ensures TryAllocateInArena(s, a, size, options).1.Some? ==> TryAllocateInArena(s, a, size, options).1.value == NextId(s)
  {
    hide AlignedFit, Available, Occupy;
  }

  lemma NormalisedOk(size: nat, options: Options)
    requires OptionsOk(size, options)
    ensures OptionsOk(size, Normalised(options)) && Normalised(options).alignment > 0
  {
  }

  lemma AllocatedId(w: World, size: nat, options: Options)
    requires Ready(w) && OptionsOk(size, options)
    ensures Allocate(w, size, options).1 == NextId(w.gpu)
  {
    hide Sound, MemoryOk, OptionsOk, TryAllocate, TryAllocateInArena, Entered, PlacedIn;
    var o := Normalised(options);
    NormalisedOk(size, options);
    TryAllocateSound(w.gpu, 0, size, o);
    FreshSound(w.gpu, size, o);
    TryAllocateId(w.gpu, 0, size, o);
    var (s1, a) := CreateArena(w.gpu, Capacity(w.gpu, size, o), o.memoryClass, Dedicated(w.gpu, size, o));
    TryInArenaId(s1, a, size, ForNewArena(w.gpu, size, o));
  }

  /** Moves that are not over and not retiring are of live allocations. */
  lemma OnlyRetiring(s: State, id: nat)
    requires Sound(s) && !s.Live(id)
    ensures IsRelocating(s, id) <==> StillRetiring(s, id)
    ensures IsRelocating(s, id) ==> id < |s.entries|
  {
    if s.target.Some? {
      SoundMoves(s);
    }
  }

  /** A new allocation counts as relocating exactly when the slot at the head of the
      free ones, which it gets, is of an allocation that was released while its old
      place was still retiring. */
  lemma NewbornRelocating(w: World, size: nat, options: Options)
    requires WorldOk(w) && OptionsOk(size, options)
    ensures var (w', id) := Allocate(w, size, options);
            && w'.gpu.Live(id)
            && (IsRelocating(w'.gpu, id) <==> w.gpu.freeEntry != 0 && StillRetiring(w.gpu, w.gpu.freeEntry))
  {
    AllocateKeeps(w, size, options);
    AllocatedId(w, size, options);
    hide Sound, MemoryOk, Tallied, Allocate, OthersKept, CopiesKept, InNew, OptionsOk, StillRetiring;
    var (w', id) := Allocate(w, size, options);
    assert w'.gpu.Moves() == w.gpu.Moves();
    assert IsRelocating(w'.gpu, id) <==> IsRelocating(w.gpu, id);
    OnlyRetiring(w.gpu, id);
  }

  lemma StillThere(w: World, id: nat, i: nat)
    requires Ready(w) && w.gpu.Live(id) && !Copied(w.gpu, id) && i < |w.gpu.Moves()|
    requires FindMove(w.gpu.Moves(), 0, id) == i && w.gpu.Moves()[i].state == ReferencesSwitched
    ensures var w1 := TakenOut(w, id); w1.gpu.target == w.gpu.target && |w1.gpu.entries| == |w.gpu.entries| && !w1.gpu.Live(id)
  {
    TakenOutReady(w, id);
  }

  lemma StillUnfinished(w: World, i: nat)
    requires Ready(w) && i < |w.gpu.Moves()| && w.gpu.Moves()[i].state == ReferencesSwitched
    ensures Finish(w) == (w, None)
  {
  }

  /** Releasing an allocation that has been switched leaves its move retiring. */
  lemma ReleasedStillRetires(w: World, id: nat)
    requires Ready(w) && w.gpu.Live(id) && StillRetiring(w.gpu, id)
    ensures var (w', ok) := TryDeallocate(w, id);
            ok && id < |w'.gpu.entries| && !w'.gpu.Live(id) && StillRetiring(w'.gpu, id)
  {
    var i :| 0 <= i < |w.gpu.Moves()| && w.gpu.Moves()[i].allocation == id && w.gpu.Moves()[i].state == ReferencesSwitched;
    OnlyMove(w.gpu, id, FindMove(w.gpu.Moves(), 0, id));
    var a := w.gpu.entries[id].arena;
    hide FindMove, Sound, MemoryOk, TakenOut, ReleaseArena, Finish;
    TakenOutReady(w, id);
    var w1 := TakenOut(w, id);
    StillThere(w, id, i);
    ReleaseReady(w1, a);
    ReleaseEntries(w1, a);
    StillUnfinished(ReleaseArena(w1, a), i);
  }

  // ---- A write that is lost ----

  /** What the owner writes to one byte is there after the next completion exactly when
      the allocation is not switched by it, or the copy has that very byte: a write to
      an allocation being copied does not reach its copy. */
  lemma WriteDuringCopy(w: World, id: nat, j: nat, value: Byte)
    requires WorldOk(w) && w.gpu.Live(id) && j < w.gpu.entries[id].size
    ensures w.gpu.entries[id].arena < |w.memory.arenas|
    ensures w.gpu.entries[id].offset + j < |w.memory.arenas[w.gpu.entries[id].arena]|
    ensures Switches(w, id) ==> |CopyOf(w, id)| == w.gpu.entries[id].size
    ensures var w1 := WriteAt(w, id, j, value);
            && Ready(w1) && id < |Process(w1).0.gpu.entries|
            && |Contents(Process(w1).0, id)| == w.gpu.entries[id].size
            && (Contents(Process(w1).0, id)[j] == value <==> !Switches(w, id) || CopyOf(w, id)[j] == value)
  {
    WriteKeeps(w, id, j, value);
    var w1 := WriteAt(w, id, j, value);
    ProcessBytes(w1);
    if Switches(w, id) {
      CopiedIsLive(w, id);
    }
    hide Ready, Tallied, Process, WriteAt, CopyOf, Contents, FindMove;
  }
}
