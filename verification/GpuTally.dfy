/** The accounts: nobody is left in an evacuated arena without a move, and the
    statistics agree with what the executor was asked to do. */
module GpuTally {
  import opened Wrappers
  import opened Sums
  import opened GpuCore
  import opened GpuState
  import opened GpuInvariant
  import opened GpuMoves
  import opened GpuPlan
  import opened GpuWorld
  import opened GpuSchedule

  ghost function RelocationSize(): Relocation -> nat {
    (r: Relocation) => r.size
  }

  /** What the executor has promised of the moves lies on its timeline. */
  predicate Timely(moves: seq<Move>, next: nat) {
    forall k :: 0 <= k < |moves| ==>
      && (moves[k].state == CopyScheduled ==> moves[k].copyCompletion < next)
      && (moves[k].state == ReferencesSwitched ==> moves[k].sourceRetirement < next)
  }

  /** The books for these moves, statistics and logs: every byte scheduled has been
      copied or is being copied, every switch made has been retired or is retiring. */
  ghost predicate Balanced(moves: seq<Move>, t: Statistics, x: Executor) {
    && t.bytesScheduled == t.bytesCopied + Sum(moves, CopyingBytes())
    && t.bytesScheduled == Sum(x.copies, RelocationSize())
    && t.movesScheduled == |x.copies|
    && |x.switches| == t.movesCompleted + Sum(moves, Retiring())
  }

  /** Of an aborted evacuation nothing is only reserved any more. */
  predicate Settled(target: Option<Target>) {
    target.Some? && target.value.aborted ==> !HasReserved(target.value.moves)
  }

  ghost predicate Tallied(w: World) {
    && Accounted(w.gpu.entries, w.gpu.target) && Settled(w.gpu.target)
    && Balanced(w.gpu.Moves(), w.gpu.statistics, w.executor)
    && Timely(w.gpu.Moves(), w.executor.next)
  }

  ghost predicate WorldOk(w: World) {
    Ready(w) && Tallied(w)
  }

  // ---- Giving up, exactly ----

  /** The i-th move and all that are only reserved are cancelled. */
  function GivenUp(moves: seq<Move>, i: nat): seq<Move> {
    seq(|moves|, k requires 0 <= k < |moves| =>
      if k == i || moves[k].state == Reserved then moves[k].(state := Cancelled) else moves[k])
  }

  /** The moves from the j-th on that are only reserved are cancelled. */
  function GivenUpFrom(moves: seq<Move>, j: nat): seq<Move> {
    seq(|moves|, k requires 0 <= k < |moves| =>
      if k >= j && moves[k].state == Reserved then moves[k].(state := Cancelled) else moves[k])
  }

  lemma {:induction false} CancelReservedMoves(s: State, j: nat)
    requires HasMoves(s) && j <= |s.Moves()|
    ensures CancelReserved(s, j).Moves() == GivenUpFrom(s.Moves(), j)
    decreases |s.Moves()| - j
  {
    if j < |s.Moves()| {
      if s.Moves()[j].state == Reserved {
        CancelKeepsMoves(s, j);
        CancelReservedMoves(CancelMove(s, j), j + 1);
        CancelledMoves(s, j);
        assert GivenUpFrom(s.Moves()[j := s.Moves()[j].(state := Cancelled)], j + 1) == GivenUpFrom(s.Moves(), j);
      } else {
        CancelReservedMoves(s, j + 1);
        assert GivenUpFrom(s.Moves(), j + 1) == GivenUpFrom(s.Moves(), j);
      }
    } else {
      assert GivenUpFrom(s.Moves(), j) == s.Moves();
    }
  }

  lemma CancelledMoves(s: State, i: nat)
    requires HasMove(s, i)
    ensures CancelMove(s, i).Moves() == s.Moves()[i := s.Moves()[i].(state := Cancelled)]
    ensures CancelMove(s, i).entries == s.entries
  {
  }

  lemma AbortMoves(s: State)
    requires HasMoves(s)
    ensures Abort(s).Moves() == GivenUpFrom(s.Moves(), 0)
  {
    hide CancelReserved;
    forall k | 0 <= k < |s.Moves()| ensures HasMove(MarkAborted(s), k) {
      assert HasMove(s, k);
    }
    CancelReservedMoves(MarkAborted(s), 0);
  }

  /** Giving up touches the moves' states, and returns their reservations. */
  lemma GiveUpIs(s: State, i: nat)
    requires Sound(s) && i < |s.Moves()| && s.Moves()[i].Pending()
    ensures s.target.Some?
    ensures var s' := GiveUp(s, i);
            && s'.target == Some(s.target.value.(moves := GivenUp(s.Moves(), i), aborted := true))
            && s'.entries == s.entries && s'.statistics == s.statistics
  {
    hide Sound, CancelMove, Abort, SamePlans, SameKinds, SameRoles;
    CancelSound(s, i);
    GiveUpSound(s, i);
    var t := CancelMove(s, i);
    AbortSound(t);
    AbortMoves(t);
    CancelledMoves(s, i);
    assert GivenUpFrom(t.Moves(), 0) == GivenUp(s.Moves(), i);
  }

  // ---- Everyone left has a move ----

  lemma GivenUpAccounted(entries: seq<Entry>, t: Target, t': Target, i: nat)
    requires Accounted(entries, Some(t)) && t'.source == t.source && t'.moves == GivenUp(t.moves, i) && t'.aborted
    ensures Accounted(entries, Some(t'))
  {
    forall id | 0 <= id < |entries| && entries[id].live && entries[id].arena == t.source ensures Waiting(t', id) {
      assert Waiting(t, id);
      var k :| 0 <= k < |t.moves| && t.moves[k].allocation == id
               && (t.moves[k].Pending() || (t.moves[k].state == Cancelled && t.aborted));
      assert t'.moves[k].allocation == id;
    }
  }

  /** A move that goes on from pending to pending, or that nobody waits for. */
  lemma OneMoveAccounted(entries: seq<Entry>, t: Target, i: nat, m: Move)
    requires Accounted(entries, Some(t)) && i < |t.moves| && m.allocation == t.moves[i].allocation
    requires m.Pending() || !(t.moves[i].Pending() || t.moves[i].state == Cancelled)
    ensures Accounted(entries, Some(t.(moves := t.moves[i := m])))
  {
    var t' := t.(moves := t.moves[i := m]);
    forall id | 0 <= id < |entries| && entries[id].live && entries[id].arena == t.source ensures Waiting(t', id) {
      assert Waiting(t, id);
      var k :| 0 <= k < |t.moves| && t.moves[k].allocation == id
               && (t.moves[k].Pending() || (t.moves[k].state == Cancelled && t.aborted));
      assert t'.moves[k].allocation == id;
    }
  }

  /** The allocation of the i-th move has left the source. */
  lemma LeftAccounted(entries: seq<Entry>, t: Target, i: nat, m: Move, e: Entry)
    requires Accounted(entries, Some(t)) && i < |t.moves| && t.moves[i].allocation < |entries|
    requires e.live ==> e.arena != t.source
    ensures Accounted(entries[t.moves[i].allocation := e], Some(t.(moves := t.moves[i := m])))
  {
    var t' := t.(moves := t.moves[i := m]);
    var after := entries[t.moves[i].allocation := e];
    forall id | 0 <= id < |after| && after[id].live && after[id].arena == t.source ensures Waiting(t', id) {
      assert id != t.moves[i].allocation;
      assert Waiting(t, id);
      var k :| 0 <= k < |t.moves| && t.moves[k].allocation == id
               && (t.moves[k].Pending() || (t.moves[k].state == Cancelled && t.aborted));
      assert t'.moves[k].allocation == id;
    }
  }

  lemma DeadAccounted(entries: seq<Entry>, target: Option<Target>, id: nat, dead: Entry)
    requires Accounted(entries, target) && id < |entries| && !dead.live
    ensures Accounted(entries[id := dead], target)
  {
  }

  lemma GivenUpSettled(t: Target, i: nat)
    ensures Settled(Some(t.(moves := GivenUp(t.moves, i), aborted := true)))
  {
  }

  lemma OneMoveSettled(t: Target, i: nat, m: Move)
    requires Settled(Some(t)) && i < |t.moves|
    requires t.moves[i].state == Reserved || m.state != Reserved
    ensures Settled(Some(t.(moves := t.moves[i := m])))
  {
    var moves := t.moves[i := m];
    if HasReserved(moves) {
      var k :| 0 <= k < |moves| && moves[k].state == Reserved;
      assert t.moves[k].state == Reserved;
    }
  }

  // ---- The books ----

  lemma OneMoveBalance(moves: seq<Move>, i: nat, m: Move)
    requires i < |moves|
    ensures Sum(moves[i := m], CopyingBytes()) + CopyingBytes()(moves[i]) == Sum(moves, CopyingBytes()) + CopyingBytes()(m)
    ensures Sum(moves[i := m], Retiring()) + Retiring()(moves[i]) == Sum(moves, Retiring()) + Retiring()(m)
  {
    SumUpdate(moves, i, m, CopyingBytes());
    SumUpdate(moves, i, m, Retiring());
  }

  lemma GivenUpBalance(moves: seq<Move>, i: nat)
    requires i < |moves| && moves[i].Pending()
    ensures Sum(GivenUp(moves, i), CopyingBytes()) + CopyingBytes()(moves[i]) == Sum(moves, CopyingBytes())
    ensures Sum(GivenUp(moves, i), Retiring()) == Sum(moves, Retiring())
  {
    var one := moves[i := moves[i].(state := Cancelled)];
    OneMoveBalance(moves, i, one[i]);
    SumSame(one, GivenUp(moves, i), CopyingBytes(), CopyingBytes());
    SumSame(one, GivenUp(moves, i), Retiring(), Retiring());
  }

  lemma GivenUpTimely(moves: seq<Move>, i: nat, next: nat)
    requires Timely(moves, next)
    ensures Timely(GivenUp(moves, i), next)
  {
  }

  // ---- Each step ----

  lemma RefuseOneTallied(w: World, i: nat)
    requires WorldOk(w) && i < |w.gpu.Moves()| && w.gpu.Moves()[i].state == Reserved
    ensures Tallied(RefuseOne(w, i))
  {
    hide Sound, MemoryOk, GiveUp, Sum, Accounted, GivenUp, Settled;
    GiveUpIs(w.gpu, i);
    GivenUpSettled(w.gpu.target.value, i);
    GivenUpBalance(w.gpu.Moves(), i);
    GivenUpTimely(w.gpu.Moves(), i, w.executor.next);
    GivenUpAccounted(w.gpu.entries, w.gpu.target.value, GiveUp(w.gpu, i).target.value, i);
  }

  lemma ScheduleOneTallied(w: World, i: nat)
    requires WorldOk(w) && i < |w.gpu.Moves()| && w.gpu.Moves()[i].state == Reserved
    ensures Tallied(ScheduleOne(w, i))
  {
    hide Sound, MemoryOk, Sum, Accounted, CopyFits, CopyBlock, Settled;
    PendingFits(w, i);
    var w' := ScheduleOne(w, i);
    OneMoveSettled(w.gpu.target.value, i, w'.gpu.Moves()[i]);
    OneMoveBalance(w.gpu.Moves(), i, w'.gpu.Moves()[i]);
    OneMoveAccounted(w.gpu.entries, w.gpu.target.value, i, w'.gpu.Moves()[i]);
    SumAppend(w.executor.copies, RelocationOf(w, i), RelocationSize());
  }

  lemma CompleteCopyTallied(w: World, i: nat)
    requires WorldOk(w) && i < |w.gpu.Moves()| && w.gpu.Moves()[i].state == CopyScheduled
    ensures Tallied(CompleteCopy(w, i))
  {
    hide Sound, MemoryOk, GiveUp, Sum, Accounted, GivenUp, MovedOn, Settled;
    var m, s := w.gpu.Moves()[i], CountCopied(w.gpu, i);
    StatisticsAside(w.gpu, s.statistics);
    if m.id in w.executor.refuseSwitch {
      GiveUpIs(s, i);
      GivenUpSettled(w.gpu.target.value, i);
      GivenUpBalance(w.gpu.Moves(), i);
      GivenUpTimely(w.gpu.Moves(), i, w.executor.next);
      GivenUpAccounted(w.gpu.entries, w.gpu.target.value, GiveUp(s, i).target.value, i);
    } else {
      SwitchSound(s, i, w.executor.next);
      var s' := SwitchMove(s, i, w.executor.next);
      OneMoveBalance(w.gpu.Moves(), i, s'.Moves()[i]);
      OneMoveSettled(w.gpu.target.value, i, s'.Moves()[i]);
      MoveLeaves(w, i);
      LeftAccounted(w.gpu.entries, w.gpu.target.value, i, s'.Moves()[i], s'.entries[m.allocation]);
    }
  }

  lemma MoveLeaves(w: World, i: nat)
    requires Ready(w) && i < |w.gpu.Moves()|
    ensures w.gpu.target.Some? && w.gpu.Moves()[i].destination != w.gpu.target.value.source
  {
    SoundMoves(w.gpu);
  }

  lemma CompleteRetirementTallied(w: World, i: nat)
    requires WorldOk(w) && i < |w.gpu.Moves()| && w.gpu.Moves()[i].state == ReferencesSwitched
    ensures Tallied(CompleteRetirement(w, i))
  {
    hide Sound, MemoryOk, Sum, Accounted, Settled, MovedOn, Vacate;
    RetireSound(w.gpu, i);
    RetireShape(w.gpu, i);
    var s' := RetireMove(w.gpu, i);
    OneMoveBalance(w.gpu.Moves(), i, s'.Moves()[i]);
    OneMoveSettled(w.gpu.target.value, i, s'.Moves()[i]);
    OneMoveAccounted(w.gpu.entries, w.gpu.target.value, i, s'.Moves()[i]);
  }

  lemma FinishedBalance(moves: seq<Move>)
    requires Finished(moves)
    ensures Sum(moves, CopyingBytes()) == 0 && Sum(moves, Retiring()) == 0
  {
    SumZero(moves, CopyingBytes());
    SumZero(moves, Retiring());
  }

  lemma ReleaseTallied(w: World, a: nat)
    requires WorldOk(w) && a < |w.gpu.arenas|
    ensures Tallied(ReleaseArena(w, a))
  {
    if CanRelease(w.gpu.arenas[a]) {
      DropSound(w.gpu, a);
      hide Ready, Sum, Accounted, DropArena;
    }
  }

  lemma FinishTallied(w: World)
    requires WorldOk(w)
    ensures Tallied(Finish(w).0)
  {
    if w.gpu.target.Some? && Finished(w.gpu.Moves()) {
      hide Ready, Finished, ReleaseArena, Tallied;
      EndReady(w);
      EndTallied(w);
      ReleaseTallied(w.(gpu := EndTarget(w.gpu)), w.gpu.target.value.source);
      var w1 := ReleaseArena(w.(gpu := EndTarget(w.gpu)), w.gpu.target.value.source);
      CountedTallied(w1, w.gpu.arenas[w.gpu.target.value.source].capacity);
    }
  }

  lemma EndTallied(w: World)
    requires WorldOk(w) && w.gpu.target.Some? && Finished(w.gpu.Moves())
    ensures w.gpu.target.value.source < |w.gpu.arenas| && Tallied(w.(gpu := EndTarget(w.gpu)))
  {
    FinishedBalance(w.gpu.Moves());
    EndReady(w);
    hide Ready, Sum;
  }

  lemma CountedTallied(w: World, capacity: nat)
    requires Tallied(w)
    ensures Tallied(CountReleased(w, capacity))
  {
    assert CountReleased(w, capacity).gpu.Moves() == w.gpu.Moves();
    hide Accounted, Settled;
  }

  lemma BeginTallied(w: World, plan: Plan)
    requires WorldOk(w) && w.gpu.target.None? && PlanOk(w.gpu, plan)
    ensures Tallied(w.(gpu := Begin(w.gpu, plan)))
  {
    BeginSound(w.gpu, plan);
    var s' := Begin(w.gpu, plan);
    SumZero(s'.Moves(), CopyingBytes());
    SumZero(s'.Moves(), Retiring());
  }

  lemma WithdrawTallied(w: World, id: nat)
    requires WorldOk(w) && w.gpu.Live(id) && !Copied(w.gpu, id)
    ensures var s := Withdraw(w.gpu, id);
            && Balanced(s.Moves(), s.statistics, w.executor) && s.entries == w.gpu.entries
            && Timely(s.Moves(), w.executor.next) && Settled(s.target)
            && forall dead: Entry :: !dead.live ==> Accounted(s.entries[id := dead], s.target)
  {
    hide FindMove, Sum, Accounted, Vacate, Sound, MemoryOk, Settled;
    var k := FindMove(w.gpu.Moves(), 0, id);
    if k < |w.gpu.Moves()| && w.gpu.Moves()[k].state == Reserved {
      SoundMoves(w.gpu);
      var m := w.gpu.Moves()[k].(state := Cancelled);
      OneMoveBalance(w.gpu.Moves(), k, m);
      OneMoveSettled(w.gpu.target.value, k, m);
      forall dead: Entry | !dead.live ensures Accounted(w.gpu.entries[id := dead], Withdraw(w.gpu, id).target) {
        LeftAccounted(w.gpu.entries, w.gpu.target.value, k, m, dead);
      }
    } else {
      forall dead: Entry | !dead.live ensures Accounted(w.gpu.entries[id := dead], w.gpu.target) {
        DeadAccounted(w.gpu.entries, w.gpu.target, id, dead);
      }
    }
  }

  lemma TakenOutTallied(w: World, id: nat)
    requires WorldOk(w) && w.gpu.Live(id) && !Copied(w.gpu, id)
    ensures WorldOk(TakenOut(w, id))
  {
    hide Sound, MemoryOk, Copied, Withdraw, Remove, Accounted, Balanced, Settled, SameKinds, SameRoles;
    TakenOutReady(w, id);
    WithdrawReady(w, id);
    WithdrawTallied(w, id);
    RemoveShape(Withdraw(w.gpu, id), id);
  }
}
