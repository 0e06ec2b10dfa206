/** Each step of an evacuation keeps the invariant: starting it, reserving,
    scheduling, switching, retiring and cancelling a move, and ending it. */
module GpuMoves {
  import opened Wrappers
  import opened Sums
  import opened FreeList
  import opened EntryTable
  import opened GpuCore
  import opened GpuState
  import opened GpuInvariant

  // ---- Moves ----

  lemma SoundMoves(s: State)
    requires Sound(s) && s.target.Some?
    ensures HasMoves(s)
    ensures forall i :: 0 <= i < |s.Moves()| ==>
              && s.Moves()[i].source == s.target.value.source < |s.arenas|
              && s.Moves()[i].source != s.Moves()[i].destination && s.Moves()[i].size > 0
    ensures forall i :: 0 <= i < |s.Moves()| && s.Moves()[i].Pending() ==> PendingOk(s.arenas, s.entries, s.Moves()[i])
  {
  }

  /** What a step of the i-th move does beside the entries. */
  ghost predicate MovedOn(s: State, s': State, i: nat) {
    && s.target.Some? && s'.target.Some? && i < |s.Moves()| && |s'.Moves()| == |s.Moves()|
    && SamePlan(s.Moves()[i], s'.Moves()[i])
    && s'.target == Some(s.target.value.(moves := s.Moves()[i := s'.Moves()[i]]))
    && SameKinds(s.arenas, s'.arenas) && SameRoles(s.arenas, s'.arenas)
    && s' == s.(arenas := s'.arenas, entries := s'.entries, target := s'.target, statistics := s'.statistics)
  }

  lemma MovedOnSound(s: State, s': State, i: nat)
    requires Sound(s) && MovedOn(s, s', i) && s'.entries == s.entries
    requires s'.Moves()[i].Pending() ==> s.Moves()[i].Pending()
    requires CoreOk(s'.Tables())
    ensures Sound(s')
  {
    hide OrderOk, ChainOk, EntriesOk, CoreOk, TargetOk, RolesOk, SamePlan, SameKinds, SameRoles;
    KindsExtend(s.arenas, s'.arenas);
    KindsOrder(s.arenas, s'.arenas, s.order, s.freeArenas);
    ExtendEntries(s.arenas, s'.arenas, s.entries);
    ExtendTarget(s.arenas, s'.arenas, s.entries, s.target, s.nextMoveId);
    KindsRoles(s.arenas, s'.arenas, s.target, s'.target);
    TargetMoveOn(s'.arenas, s.entries, s.target.value, i, s'.Moves()[i], s.nextMoveId);
  }

  lemma CancelShape(s: State, i: nat)
    requires HasMove(s, i) && s.Moves()[i].Pending()
    ensures MovedOn(s, CancelMove(s, i), i)
    ensures CancelMove(s, i).entries == s.entries && CancelMove(s, i).Moves()[i].state == Cancelled
    ensures CancelMove(s, i).statistics == s.statistics
  {
    hide Vacate;
    var m := s.Moves()[i];
    VacateKind(s.arenas[m.destination], m.destinationOffset, m.size);
  }

  lemma CancelCore(s: State, i: nat)
    requires HasMove(s, i) && s.Moves()[i].Pending() && s.Moves()[i].size > 0 && CoreOk(s.Tables())
    ensures CoreOk(CancelMove(s, i).Tables())
  {
    hide CoreOk, Vacate;
    var s' := CancelMove(s, i);
    ReturnOk(s.Tables(), s'.Tables(), i, s'.Moves()[i]);
  }

  lemma CancelSound(s: State, i: nat)
    requires Sound(s) && i < |s.Moves()| && s.Moves()[i].Pending()
    ensures HasMove(s, i)
    ensures Sound(CancelMove(s, i)) && MovedOn(s, CancelMove(s, i), i)
    ensures CancelMove(s, i).entries == s.entries && CancelMove(s, i).Moves()[i].state == Cancelled
    ensures CancelMove(s, i).statistics == s.statistics
  {
    SoundMoves(s);
    SoundCore(s);
    CancelShape(s, i);
    hide Sound, CoreOk, MovedOn, CancelMove;
    CancelCore(s, i);
    MovedOnSound(s, CancelMove(s, i), i);
  }

  lemma ScheduleSound(s: State, i: nat, timeline: nat)
    requires Sound(s) && i < |s.Moves()| && s.Moves()[i].state == Reserved
    ensures Sound(ScheduleMove(s, i, timeline)) && MovedOn(s, ScheduleMove(s, i, timeline), i)
  {
    hide Sound, CoreOk;
    SoundCore(s);
    var s' := ScheduleMove(s, i, timeline);
    MoveOnOk(s.Tables(), i, s'.Moves()[i]);
    MovedOnSound(s, s', i);
  }

  lemma RetireShape(s: State, i: nat)
    requires HasMove(s, i)
    ensures MovedOn(s, RetireMove(s, i), i)
    ensures RetireMove(s, i).entries == s.entries && RetireMove(s, i).Moves()[i].state == SourceRetired
  {
    hide Vacate;
    var m := s.Moves()[i];
    VacateKind(s.arenas[m.source], m.sourceOffset, m.size);
  }

  lemma RetireCore(s: State, i: nat)
    requires HasMove(s, i) && s.Moves()[i].state == ReferencesSwitched && s.Moves()[i].size > 0 && CoreOk(s.Tables())
    ensures CoreOk(RetireMove(s, i).Tables())
  {
    hide CoreOk, Vacate;
    var s' := RetireMove(s, i);
    ReturnOk(s.Tables(), s'.Tables(), i, s'.Moves()[i]);
  }

  lemma RetireSound(s: State, i: nat)
    requires Sound(s) && i < |s.Moves()| && s.Moves()[i].state == ReferencesSwitched
    ensures HasMove(s, i)
    ensures Sound(RetireMove(s, i)) && MovedOn(s, RetireMove(s, i), i)
  {
    SoundMoves(s);
    SoundCore(s);
    RetireShape(s, i);
    hide Sound, CoreOk, MovedOn, RetireMove;
    RetireCore(s, i);
    MovedOnSound(s, RetireMove(s, i), i);
  }

  /** What switching does to the entries. */
  ghost predicate Rebound(s: State, s': State, i: nat) {
    && i < |s.Moves()| && s.Live(s.Moves()[i].allocation)
    && var m := s.Moves()[i];
       s'.entries == s.entries[m.allocation :=
         s.entries[m.allocation].(arena := m.destination, offset := m.destinationOffset)]
  }

  lemma SwitchShape(s: State, i: nat, timeline: nat)
    requires HasMove(s, i) && s.Moves()[i].source != s.Moves()[i].destination && s.Live(s.Moves()[i].allocation)
    ensures var s' := SwitchMove(s, i, timeline);
            && MovedOn(s, s', i) && Rebound(s, s', i) && s'.freeEntry == s.freeEntry && i < |s'.Moves()|
            && s'.Moves()[i].state == ReferencesSwitched && s'.Moves()[i].sourceRetirement == timeline
            && s'.statistics == s.statistics
  {
  }

  lemma ReboundSound(s: State, s': State, i: nat)
    requires Sound(s) && MovedOn(s, s', i) && Rebound(s, s', i) && s.Moves()[i].Pending() && !s'.Moves()[i].Pending()
    requires PendingOk(s.arenas, s.entries, s.Moves()[i]) && CoreOk(s'.Tables())
    ensures Sound(s')
  {
    var m := s.Moves()[i];
    var e := s'.entries[m.allocation];
    LiveArena(s, m.allocation);
    NoneElse(s, s', i);
    hide OrderOk, EntriesOk, CoreOk, TargetOk, RolesOk, Threaded, SameRoles, NoPending;
    KindsExtend(s.arenas, s'.arenas);
    assert EntryOk(s'.arenas, e);
    hide SameKinds;
    var chain :| Threaded(s.entries, OffsetOf(), IsLive(), s.freeEntry, chain);
    UpdateKeeps(s.entries, OffsetOf(), IsLive(), s.freeEntry, chain, m.allocation, e);
    KindsOrder(s.arenas, s'.arenas, s.order, s.freeArenas);
    ExtendEntries(s.arenas, s'.arenas, s.entries);
    ExtendTarget(s.arenas, s'.arenas, s.entries, s.target, s.nextMoveId);
    KindsRoles(s.arenas, s'.arenas, s.target, s'.target);
    OneEntry(s'.arenas, s.entries, m.allocation, e);
    TargetMoveOn(s'.arenas, s.entries, s.target.value, i, s'.Moves()[i], s.nextMoveId);
    TargetElsewhere(s'.arenas, s.entries, m.allocation, e, s'.target, s.nextMoveId);
  }

  /** No other move has the allocation. */
  lemma NoneElse(s: State, s': State, i: nat)
    requires Sound(s) && MovedOn(s, s', i) && i < |s'.Moves()| && !s'.Moves()[i].Pending()
    ensures i < |s.Moves()| && NoPending(s'.Moves(), s.Moves()[i].allocation)
  {
    assert Planned(s.Moves(), s.target.value.source, |s.arenas|, s.nextMoveId);
  }

  lemma SwitchCore(s: State, i: nat, timeline: nat)
    requires HasMove(s, i) && s.Moves()[i].source != s.Moves()[i].destination && s.Moves()[i].Pending()
    requires PendingOk(s.arenas, s.entries, s.Moves()[i]) && CoreOk(s.Tables())
    ensures CoreOk(SwitchMove(s, i, timeline).Tables())
  {
    hide CoreOk;
    var s' := SwitchMove(s, i, timeline);
    assert s'.Tables() == Core(s'.arenas, s'.entries, s.Moves()[i := s'.Moves()[i]]);
    SwitchOk(s.Tables(), s'.Tables(), i, s'.Moves()[i]);
  }

  lemma SwitchSound(s: State, i: nat, timeline: nat)
    requires Sound(s) && i < |s.Moves()| && s.Moves()[i].Pending()
    ensures HasMove(s, i) && s.Moves()[i].source != s.Moves()[i].destination
    ensures s.Live(s.Moves()[i].allocation)
    ensures var s' := SwitchMove(s, i, timeline); Sound(s') && MovedOn(s, s', i) && Rebound(s, s', i)
  {
    SoundMoves(s);
    SoundCore(s);
    var s' := SwitchMove(s, i, timeline);
    SwitchShape(s, i, timeline);
    hide Sound, CoreOk, MovedOn, Rebound, PendingOk, SwitchMove;
    SwitchCore(s, i, timeline);
    ReboundSound(s, s', i);
  }

  // ---- Giving up ----

  /** Some moves were given up, at least all those only reserved; nothing else
      happened but that their reservations were returned. */
  ghost predicate GaveUp(s: State, s': State) {
    && s.target.Some? && s'.target.Some?
    && SamePlans(s.Moves(), s'.Moves())
    && s'.target == Some(s.target.value.(moves := s'.Moves(), aborted := s'.target.value.aborted))
    && (forall k :: 0 <= k < |s.Moves()| ==>
          s'.Moves()[k] == s.Moves()[k] || (s.Moves()[k].Pending() && s'.Moves()[k].state == Cancelled))
    && SameKinds(s.arenas, s'.arenas) && SameRoles(s.arenas, s'.arenas)
    && s' == s.(arenas := s'.arenas, target := s'.target)
  }

  lemma GaveUpNothing(s: State)
    requires s.target.Some?
    ensures GaveUp(s, s)
  {
  }

  lemma GaveUpThen(s: State, t: State, u: State)
    requires GaveUp(s, t) && GaveUp(t, u)
    ensures GaveUp(s, u)
  {
    forall k | 0 <= k < |s.Moves()| ensures SamePlan(s.Moves()[k], u.Moves()[k]) {
      assert SamePlan(s.Moves()[k], t.Moves()[k]) && SamePlan(t.Moves()[k], u.Moves()[k]);
    }
  }

  lemma CancelGivesUp(s: State, i: nat)
    requires Sound(s) && i < |s.Moves()| && s.Moves()[i].Pending()
    ensures HasMove(s, i) && GaveUp(s, CancelMove(s, i)) && Sound(CancelMove(s, i))
  {
    hide Sound, CancelMove, SamePlan, SamePlans, SameKinds, SameRoles;
    CancelSound(s, i);
    OneMoveOn(s.Moves(), i, CancelMove(s, i).Moves()[i]);
  }

  lemma {:induction false} CancelReservedSound(s: State, i: nat)
    requires Sound(s) && s.target.Some? && HasMoves(s) && i <= |s.Moves()|
    ensures var s' := CancelReserved(s, i);
            && Sound(s') && GaveUp(s, s')
            && forall k :: i <= k < |s.Moves()| ==> s'.Moves()[k].state != Reserved
    decreases |s.Moves()| - i
  {
    hide Sound, GaveUp, CancelMove;
    if i == |s.Moves()| {
      GaveUpNothing(s);
    } else if s.Moves()[i].state == Reserved {
      CancelGivesUp(s, i);
      CancelKeepsMoves(s, i);
      var t := CancelMove(s, i);
      CancelReservedSound(t, i + 1);
      GaveUpThen(s, t, CancelReserved(t, i + 1));
      CancelledStays(s, t, CancelReserved(t, i + 1), i);
    } else {
      CancelReservedSound(s, i + 1);
      NotReservedStays(s, CancelReserved(s, i + 1), i);
    }
  }

  lemma CancelledStays(s: State, t: State, u: State, i: nat)
    requires HasMove(s, i) && t == CancelMove(s, i) && GaveUp(t, u)
    ensures i < |u.Moves()| == |s.Moves()| && u.Moves()[i].state != Reserved
  {
  }

  lemma NotReservedStays(s: State, u: State, i: nat)
    requires i < |s.Moves()| && s.Moves()[i].state != Reserved && GaveUp(s, u)
    ensures i < |u.Moves()| == |s.Moves()| && u.Moves()[i].state != Reserved
  {
  }

  lemma MarkSound(s: State)
    requires Sound(s) && s.target.Some?
    ensures Sound(MarkAborted(s)) && GaveUp(s, MarkAborted(s))
  {
    hide CoreOk, OrderOk, ChainOk, EntriesOk, MovesOk, Planned;
    assert MarkAborted(s).Tables() == s.Tables();
  }

  lemma AbortSound(s: State)
    requires Sound(s) && s.target.Some?
    ensures HasMoves(s)
    ensures var s' := Abort(s);
            && Sound(s') && GaveUp(s, s') && s'.target.value.aborted
            && forall k :: 0 <= k < |s'.Moves()| ==> s'.Moves()[k].state != Reserved
  {
    SoundMoves(s);
    MarkSound(s);
    var t := MarkAborted(s);
    SoundMoves(t);
    hide Sound, CancelReserved;
    CancelReservedSound(t, 0);
    GaveUpThen(s, t, CancelReserved(t, 0));
    CancelReservedMark(t, 0);
  }

  lemma {:induction false} CancelReservedMark(s: State, i: nat)
    requires HasMoves(s) && i <= |s.Moves()|
    ensures CancelReserved(s, i).target.Some?
    ensures CancelReserved(s, i).target.value.aborted == s.target.value.aborted
    decreases |s.Moves()| - i
  {
    if i < |s.Moves()| {
      if s.Moves()[i].state == Reserved {
        CancelKeepsMoves(s, i);
        CancelReservedMark(CancelMove(s, i), i + 1);
      } else {
        CancelReservedMark(s, i + 1);
      }
    }
  }

  // ---- Ending an evacuation ----

  lemma EndSound(s: State)
    requires Sound(s) && s.target.Some? && Finished(s.Moves())
    ensures s.target.value.source < |s.arenas|
    ensures Sound(EndTarget(s)) && SameKinds(s.arenas, EndTarget(s).arenas)
  {
    SoundCore(s);
    var a, s' := s.target.value.source, EndTarget(s);
    SourceIsActive(s);
    hide OrderOk, ChainOk, EntriesOk, CoreOk;
    ForgetOk(s.Tables());
    RoleOk(s.Tables().(moves := []), a, Normal);
    KindsExtend(s.arenas, s'.arenas);
    KindsOrder(s.arenas, s'.arenas, s.order, s.freeArenas);
    ExtendEntries(s.arenas, s'.arenas, s.entries);
    assert s'.Tables() == Core(s'.arenas, s.entries, []);
  }

  // ---- Dropping an arena ----

  lemma EmptyArena(s: State, a: nat)
    requires Sound(s) && a < |s.arenas| && CanRelease(s.arenas[a])
    ensures Untouched(s.Tables(), a) && a in s.order && a > 0
  {
    assert Counted(s.Tables(), a);
  }

  /** Any two arenas that are still in the order stand in it in the same sequence. */
  ghost predicate SameSequence(before: seq<nat>, after: seq<nat>) {
    forall a: nat, b: nat {:trigger IndexOf(after, 0, a), IndexOf(after, 0, b)} :: a in after && b in after ==>
      && a in before && b in before
      && (IndexOf(after, 0, a) < IndexOf(after, 0, b) <==> IndexOf(before, 0, a) < IndexOf(before, 0, b))
  }

  lemma SequenceThen(a: seq<nat>, b: seq<nat>, c: seq<nat>)
    requires SameSequence(a, b) && SameSequence(b, c)
    ensures SameSequence(a, c)
  {
    hide IndexOf;
    forall x: nat, y: nat | x in c && y in c
      ensures x in a && y in a && (IndexOf(c, 0, x) < IndexOf(c, 0, y) <==> IndexOf(a, 0, x) < IndexOf(a, 0, y))
    {
      assert IndexOf(c, 0, x) < IndexOf(c, 0, y) <==> IndexOf(b, 0, x) < IndexOf(b, 0, y);
    }
  }

  lemma SequenceSame(order: seq<nat>)
    ensures SameSequence(order, order)
  {
  }

  /** Without one arena the others move up behind it. */
  lemma SequenceWithout(order: seq<nat>, k: nat)
    requires NoRepeats(order) && k < |order|
    ensures SameSequence(order, order[..k] + order[k + 1..])
  {
    hide IndexOf;
    var after := order[..k] + order[k + 1..];
    NoRepeatsRemove(order, k);
    forall a: nat | a in after
      ensures a in order
      ensures IndexOf(order, 0, a) == IndexOf(after, 0, a) + if IndexOf(after, 0, a) < k then 0 else 1
    {
      var i := IndexOf(after, 0, a);
      assert after[i] == order[if i < k then i else i + 1];
    }
  }

  /** What dropping an arena does. */
  ghost predicate Dropped(s: State, s': State, a: nat) {
    && a < |s.arenas| && s'.arenas == s.arenas[a := NO_ARENA]
    && |s'.order| == |s.order| - 1 && a !in s'.order && SameSequence(s.order, s'.order)
    && s'.freeArenas == s.freeArenas + [a]
    && s' == s.(arenas := s'.arenas, order := s'.order, freeArenas := s'.freeArenas)
  }

  lemma DropOrder(s: State, a: nat)
    requires OrderOk(s.arenas, s.order, s.freeArenas) && 0 < a < |s.arenas| && a in s.order
    ensures var s' := DropArena(s, a); OrderOk(s'.arenas, s'.order, s'.freeArenas) && Dropped(s, s', a)
  {
    var s' := DropArena(s, a);
    var k := IndexOf(s.order, 0, a);
    assert k < |s.order|;
    NoRepeatsRemove(s.order, k);
    SequenceWithout(s.order, k);
    NoRepeatsAppend(s.freeArenas, a);
    forall b: nat ensures b in s'.order <==> b < |s'.arenas| && s'.arenas[b].active {
      assert b in s.order <==> b < |s.arenas| && s.arenas[b].active;
    }
    forall b: nat ensures b in s'.freeArenas <==> 0 < b < |s'.arenas| && !s'.arenas[b].active {
      assert b in s.freeArenas <==> 0 < b < |s.arenas| && !s.arenas[b].active;
    }
  }

  lemma DropSound(s: State, a: nat)
    requires Sound(s) && a < |s.arenas| && CanRelease(s.arenas[a])
    ensures a in s.order
    ensures Sound(DropArena(s, a)) && Dropped(s, DropArena(s, a), a)
  {
    EmptyArena(s, a);
    DropOrder(s, a);
    NobodyThere(s, a);
    var s' := DropArena(s, a);
    hide OrderOk, CoreOk, Untouched, DropArena;
    NoFreeBytes();
    ReplaceArenaOk(s.Tables(), a, NO_ARENA);
    assert s'.Tables() == s.Tables().(arenas := s.arenas[a := NO_ARENA]);
    DroppedRest(s, s', a);
  }

  lemma NoFreeBytes()
    ensures forall p: nat {:trigger FreeAt(NO_ARENA.ranges, p)} :: FreeAt(NO_ARENA.ranges, p) <==> p < NO_ARENA.capacity
  {
  }

  /** No live entry and no pending move's destination is in the arena. */
  ghost predicate Vacant(s: State, a: nat) {
    && (forall id :: 0 <= id < |s.entries| && s.entries[id].live ==> s.entries[id].arena != a)
    && (forall i :: 0 <= i < |s.Moves()| && s.Moves()[i].Pending() ==> s.Moves()[i].destination != a)
    && (s.target.Some? ==> s.target.value.source != a)
  }

  lemma NobodyThere(s: State, a: nat)
    requires Sound(s) && a < |s.arenas| && CanRelease(s.arenas[a])
    ensures Vacant(s, a)
  {
    EmptyArena(s, a);
    forall id | 0 <= id < |s.entries| && s.entries[id].live ensures s.entries[id].arena != a {
      SumAtLeast(s.entries, id, LiveIn(a));
    }
    forall i | 0 <= i < |s.Moves()| && s.Moves()[i].Pending() ensures s.Moves()[i].destination != a {
      SumAtLeast(s.Moves(), i, ReservedIn(a));
    }
  }

  lemma DroppedRest(s: State, s': State, a: nat)
    requires Sound(s) && Vacant(s, a) && Dropped(s, s', a)
    ensures EntriesOk(s'.arenas, s'.entries)
    ensures RolesOk(s'.arenas, s'.target)
    ensures TargetOk(s'.arenas, s'.entries, s'.target, s'.nextMoveId)
  {
    forall id | 0 <= id < |s.entries| ensures EntryOk(s'.arenas, s.entries[id]) {
      assert EntryOk(s.arenas, s.entries[id]);
    }
    forall i | 0 <= i < |s.Moves()| && s.Moves()[i].Pending() ensures PendingOk(s'.arenas, s.entries, s.Moves()[i]) {
      assert PendingOk(s.arenas, s.entries, s.Moves()[i]);
    }
  }

  // ---- Starting an evacuation ----

  lemma StartSound(s: State, source: nat)
    requires Sound(s) && s.target.None? && source < |s.arenas| && s.arenas[source].active && !s.arenas[source].dedicated
    ensures Sound(StartTarget(s, source)) && SameKinds(s.arenas, StartTarget(s, source).arenas)
  {
    SoundCore(s);
    var s' := StartTarget(s, source);
    hide OrderOk, ChainOk, EntriesOk, CoreOk;
    RoleOk(s.Tables(), source, EvacuationSource);
    KindsExtend(s.arenas, s'.arenas);
    KindsOrder(s.arenas, s'.arenas, s.order, s.freeArenas);
    ExtendEntries(s.arenas, s'.arenas, s.entries);
    assert s'.Tables() == Core(s'.arenas, s.entries, []);
  }

  /** A move that may be added to the plan. */
  ghost predicate Addable(s: State, m: Move) {
    && s.target.Some? && m.state == Reserved && m.size > 0
    && m.source == s.target.value.source && m.destination != m.source
    && PendingOk(s.arenas, s.entries, m)
    && Available(s.arenas[m.destination], m.destinationOffset, m.size)
    && forall i :: 0 <= i < |s.Moves()| ==> s.Moves()[i].allocation != m.allocation
  }

  ghost predicate Planning(s: State, s': State, m: Move) {
    && s.target.Some? && s'.target == Some(s.target.value.(moves := s.Moves() + [m.(id := s.nextMoveId)]))
    && SameKinds(s.arenas, s'.arenas) && SameRoles(s.arenas, s'.arenas) && s'.nextMoveId == s.nextMoveId + 1
    && s' == s.(arenas := s'.arenas, target := s'.target, nextMoveId := s'.nextMoveId)
  }

  lemma ReserveShape(s: State, m: Move)
    requires Addable(s, m)
    ensures Planning(s, ReserveMove(s, m), m)
  {
    hide Occupy, Available;
    OccupyKind(s.arenas[m.destination], m.destinationOffset, m.size);
  }

  lemma ReserveCore(s: State, m: Move)
    requires Addable(s, m) && CoreOk(s.Tables())
    ensures CoreOk(ReserveMove(s, m).Tables())
  {
    hide CoreOk, Occupy, Available;
    ReserveOk(s.Tables(), ReserveMove(s, m).Tables(), m.(id := s.nextMoveId));
  }

  lemma PlanningTarget(s: State, s': State, m: Move)
    requires Sound(s) && Addable(s, m) && Planning(s, s', m)
    ensures TargetOk(s'.arenas, s'.entries, s'.target, s'.nextMoveId)
  {
    hide CoreOk, OrderOk, ChainOk, EntriesOk, RolesOk, SameRoles;
    var moves := s'.Moves();
    forall i | 0 <= i < |moves| && moves[i].Pending() ensures PendingOk(s'.arenas, s'.entries, moves[i]) {
      assert PendingOk(s.arenas, s.entries, if i < |s.Moves()| then moves[i] else m);
    }
  }

  lemma ReserveSound(s: State, m: Move)
    requires Sound(s) && Addable(s, m)
    ensures Sound(ReserveMove(s, m)) && Planning(s, ReserveMove(s, m), m)
  {
    SoundCore(s);
    ReserveShape(s, m);
    ReserveCore(s, m);
    var s' := ReserveMove(s, m);
    PlanningTarget(s, s', m);
    hide OrderOk, ChainOk, EntriesOk, CoreOk, ReserveMove, Addable, TargetOk, SameKinds;
    KindsExtend(s.arenas, s'.arenas);
    KindsOrder(s.arenas, s'.arenas, s.order, s.freeArenas);
    ExtendEntries(s.arenas, s'.arenas, s.entries);
    KindsRoles(s.arenas, s'.arenas, s.target, s'.target);
  }
}
