/** What every reachable state of the GPU allocator satisfies, and that each
    operation on the tables keeps it. */
module GpuInvariant {
  import opened Wrappers
  import opened Alignment
  import opened Sums
  import opened FreeList
  import opened EntryTable
  import opened GpuCore
  import opened GpuState

  ghost function OffsetOf(): Entry -> nat {
    (e: Entry) => e.offset
  }

  ghost function IsLive(): Entry -> bool {
    (e: Entry) => e.live
  }

  // ---- The invariant ----

  ghost predicate NoRepeats(ids: seq<nat>) {
    forall i, j :: 0 <= i < j < |ids| ==> ids[i] != ids[j]
  }

  /** The order lists the active arenas, the free list the inactive ones; the
      first slot of the pool is never used. */
  ghost predicate OrderOk(arenas: seq<Arena>, order: seq<nat>, freeArenas: seq<nat>) {
    && |arenas| > 0 && !arenas[0].active
    && NoRepeats(order) && NoRepeats(freeArenas)
    && (forall a: nat {:trigger a in order} :: a in order <==> a < |arenas| && arenas[a].active)
    && (forall a: nat {:trigger a in freeArenas} :: a in freeArenas <==> 0 < a < |arenas| && !arenas[a].active)
  }

  ghost predicate ChainOk(entries: seq<Entry>, freeEntry: nat) {
    exists chain :: Threaded(entries, OffsetOf(), IsLive(), freeEntry, chain)
  }

  /** A live allocation is non-empty, aligned, in an active arena of its memory
      class, and pinned if that arena is dedicated. */
  ghost predicate EntryOk(arenas: seq<Arena>, e: Entry) {
    e.live ==>
      && e.arena < |arenas| && arenas[e.arena].active && e.size > 0
      && e.alignment < WORD_BITS && e.offset % Pow2(e.alignment) == 0
      && e.memoryClass == arenas[e.arena].memoryClass
      && (arenas[e.arena].dedicated ==> !e.movable)
  }

  ghost predicate EntriesOk(arenas: seq<Arena>, entries: seq<Entry>) {
    forall id :: 0 <= id < |entries| ==> EntryOk(arenas, entries[id])
  }

  /** The moves of a plan lead from its source to other arenas; each allocation is
      moved once and the moves are numbered in order. */
  ghost predicate Planned(moves: seq<Move>, source: nat, pool: nat, nextMoveId: nat) {
    && (forall i :: 0 <= i < |moves| ==>
          moves[i].source == source && source != moves[i].destination < pool && moves[i].size > 0)
    && (forall i, j :: 0 <= i < j < |moves| ==> moves[i].allocation != moves[j].allocation)
    && (forall i, j :: 0 <= i < j < |moves| ==> moves[i].id < moves[j].id)
    && (forall i :: 0 <= i < |moves| ==> moves[i].id < nextMoveId)
  }

  /** A pending move's allocation is a movable one, still where the move found it;
      the destination is aligned for it, in an arena of its memory class that is
      not dedicated. */
  ghost predicate PendingOk(arenas: seq<Arena>, entries: seq<Entry>, m: Move) {
    && m.source < |arenas| && m.destination < |arenas| && m.allocation < |entries|
    && var e, x := entries[m.allocation], arenas[m.destination];
       && e.live && e.movable && e.arena == m.source && e.offset == m.sourceOffset && e.size == m.size
       && m.destinationOffset % Pow2(e.alignment) == 0
       && x.active && !x.dedicated && x.memoryClass == e.memoryClass
  }

  ghost predicate MovesOk(arenas: seq<Arena>, entries: seq<Entry>, moves: seq<Move>) {
    forall i :: 0 <= i < |moves| && moves[i].Pending() ==> PendingOk(arenas, entries, moves[i])
  }

  /** Only the source of the evacuation under way, if any, is frozen. */
  ghost predicate RolesOk(arenas: seq<Arena>, target: Option<Target>) {
    forall a :: 0 <= a < |arenas| ==>
      (arenas[a].role == EvacuationSource <==> target.Some? && target.value.source == a)
  }

  ghost predicate TargetOk(arenas: seq<Arena>, entries: seq<Entry>, target: Option<Target>, nextMoveId: nat) {
    target.Some? ==>
      var t := target.value;
      && t.source < |arenas| && arenas[t.source].active && !arenas[t.source].dedicated
      && Planned(t.moves, t.source, |arenas|, nextMoveId)
      && MovesOk(arenas, entries, t.moves)
      && (forall i :: 0 <= i < |t.moves| ==> t.moves[i].allocation < |entries|)
  }

  ghost predicate Sound(s: State) {
    && CoreOk(s.Tables())
    && OrderOk(s.arenas, s.order, s.freeArenas)
    && ChainOk(s.entries, s.freeEntry)
    && EntriesOk(s.arenas, s.entries)
    && RolesOk(s.arenas, s.target)
    && TargetOk(s.arenas, s.entries, s.target, s.nextMoveId)
    && s.arenaSize <= U32_MAX
  }

  /** Whoever is still in the source has a move that is pending, or that was
      cancelled when the evacuation was aborted. */
  ghost predicate Waiting(t: Target, id: nat) {
    exists i :: 0 <= i < |t.moves| && t.moves[i].allocation == id
      && (t.moves[i].Pending() || (t.moves[i].state == Cancelled && t.aborted))
  }

  ghost predicate Accounted(entries: seq<Entry>, target: Option<Target>) {
    target.Some? ==>
      forall id :: 0 <= id < |entries| && entries[id].live && entries[id].arena == target.value.source ==>
        Waiting(target.value, id)
  }

  ghost function CopyingBytes(): Move -> nat {
    (m: Move) => if m.state == CopyScheduled then m.size else 0
  }

  ghost function Retiring(): Move -> nat {
    (m: Move) => Bit(m.state == ReferencesSwitched)
  }

  lemma SoundCore(s: State)
    requires Sound(s)
    ensures CoreOk(s.Tables())
  {
  }

  // ---- Arenas listed once ----

  lemma NoRepeatsAppend(ids: seq<nat>, a: nat)
    requires NoRepeats(ids) && a !in ids
    ensures NoRepeats(ids + [a])
  {
  }

  lemma NoRepeatsRemove(ids: seq<nat>, k: nat)
    requires NoRepeats(ids) && k < |ids|
    ensures NoRepeats(ids[..k] + ids[k + 1..])
    ensures forall a: nat :: a in ids[..k] + ids[k + 1..] <==> a in ids && a != ids[k]
  {
    var rest := ids[..k] + ids[k + 1..];
    forall a: nat | a in ids && a != ids[k] ensures a in rest {
      var i :| 0 <= i < |ids| && ids[i] == a;
      assert rest[if i < k then i else i - 1] == a;
    }
  }

  // ---- Arenas whose free space and counters change ----

  /** The same arenas but for their free space, their counters and their role. */
  ghost predicate SameKinds(before: seq<Arena>, after: seq<Arena>) {
    && |before| == |after|
    && forall a :: 0 <= a < |before| ==>
         && after[a].active == before[a].active && after[a].capacity == before[a].capacity
         && after[a].memoryClass == before[a].memoryClass && after[a].dedicated == before[a].dedicated
  }

  ghost predicate SameRoles(before: seq<Arena>, after: seq<Arena>) {
    |before| == |after| && forall a :: 0 <= a < |before| ==> after[a].role == before[a].role
  }

  lemma KindsOrder(arenas: seq<Arena>, after: seq<Arena>, order: seq<nat>, freeArenas: seq<nat>)
    requires OrderOk(arenas, order, freeArenas) && SameKinds(arenas, after)
    ensures OrderOk(after, order, freeArenas)
  {
  }

  /** No active arena disappears or changes its kind. */
  ghost predicate Extends(before: seq<Arena>, after: seq<Arena>) {
    && |before| <= |after|
    && forall a :: 0 <= a < |before| && before[a].active ==>
         && after[a].active && after[a].capacity == before[a].capacity
         && after[a].memoryClass == before[a].memoryClass && after[a].dedicated == before[a].dedicated
  }

  lemma KindsExtend(before: seq<Arena>, after: seq<Arena>)
    requires SameKinds(before, after)
    ensures Extends(before, after) && |before| == |after|
  {
  }

  lemma ExtendEntries(arenas: seq<Arena>, after: seq<Arena>, entries: seq<Entry>)
    requires EntriesOk(arenas, entries) && Extends(arenas, after)
    ensures EntriesOk(after, entries)
  {
    forall id | 0 <= id < |entries| ensures EntryOk(after, entries[id]) {
      assert EntryOk(arenas, entries[id]);
    }
  }

  lemma ExtendTarget(arenas: seq<Arena>, after: seq<Arena>, entries: seq<Entry>, target: Option<Target>, next: nat)
    requires TargetOk(arenas, entries, target, next) && Extends(arenas, after)
    ensures TargetOk(after, entries, target, next)
  {
    if target.Some? {
      var moves := target.value.moves;
      forall i | 0 <= i < |moves| && moves[i].Pending() ensures PendingOk(after, entries, moves[i]) {
        assert PendingOk(arenas, entries, moves[i]);
      }
    }
  }

  lemma KindsRoles(arenas: seq<Arena>, after: seq<Arena>, target: Option<Target>, later: Option<Target>)
    requires RolesOk(arenas, target) && SameRoles(arenas, after)
    requires target.Some? == later.Some? && (target.Some? ==> target.value.source == later.value.source)
    ensures RolesOk(after, later)
  {
  }

  // ---- Moves that go on ----

  /** The same move but for how far it has come. */
  predicate SamePlan(m: Move, n: Move) {
    n == m.(state := n.state, copyCompletion := n.copyCompletion, sourceRetirement := n.sourceRetirement)
  }

  predicate SamePlans(before: seq<Move>, after: seq<Move>) {
    |before| == |after| && forall i :: 0 <= i < |before| ==> SamePlan(before[i], after[i])
  }

  lemma SamePlanned(before: seq<Move>, after: seq<Move>, source: nat, pool: nat, next: nat)
    requires Planned(before, source, pool, next) && SamePlans(before, after)
    ensures Planned(after, source, pool, next)
  {
    assert forall i :: 0 <= i < |before| ==> SamePlan(before[i], after[i]);
  }

  lemma FewerPending(arenas: seq<Arena>, entries: seq<Entry>, before: seq<Move>, after: seq<Move>)
    requires MovesOk(arenas, entries, before) && SamePlans(before, after)
    requires forall i :: 0 <= i < |before| && after[i].Pending() ==> before[i].Pending()
    ensures MovesOk(arenas, entries, after)
  {
    forall i | 0 <= i < |after| && after[i].Pending() ensures PendingOk(arenas, entries, after[i]) {
      assert PendingOk(arenas, entries, before[i]) && SamePlan(before[i], after[i]);
    }
  }

  lemma OneMoveOn(moves: seq<Move>, i: nat, m: Move)
    requires i < |moves| && SamePlan(moves[i], m)
    ensures SamePlans(moves, moves[i := m])
  {
  }

  /** The target after its i-th move went on without becoming pending again. */
  lemma TargetMoveOn(arenas: seq<Arena>, entries: seq<Entry>, t: Target, i: nat, m: Move, next: nat)
    requires TargetOk(arenas, entries, Some(t), next) && i < |t.moves| && SamePlan(t.moves[i], m)
    requires m.Pending() ==> t.moves[i].Pending()
    ensures TargetOk(arenas, entries, Some(t.(moves := t.moves[i := m])), next)
  {
    OneMoveOn(t.moves, i, m);
    SamePlanned(t.moves, t.moves[i := m], t.source, |arenas|, next);
    FewerPending(arenas, entries, t.moves, t.moves[i := m]);
  }

  // ---- Placing ----

  /** A new entry takes a free slot or one at the end of the table. */
  lemma PushGains(s: State, e: Entry)
    requires ChainOk(s.entries, s.freeEntry) && e.live
    ensures s.freeEntry < |s.entries|
    ensures var (s', id) := PushEntry(s, e);
            && id > 0 && !s.Live(id) && Gains(s.entries, s'.entries, id, e)
            && s' == s.(entries := s'.entries, freeEntry := s'.freeEntry)
            && ChainOk(s'.entries, s'.freeEntry)
  {
    var chain :| Threaded(s.entries, OffsetOf(), IsLive(), s.freeEntry, chain);
    if s.freeEntry != 0 {
      PopKeeps(s.entries, OffsetOf(), IsLive(), s.freeEntry, chain, e);
    } else {
      AppendKeeps(s.entries, OffsetOf(), IsLive(), s.freeEntry, chain, e);
    }
  }

  lemma GainsElsewhere(before: seq<Entry>, after: seq<Entry>, id: nat, e: Entry)
    requires Gains(before, after, id, e)
    ensures id < |after| && after[id] == e && |before| <= |after|
    ensures forall i :: 0 <= i < |after| && i != id ==> i < |before| && after[i] == before[i]
    ensures id < |before| ==> !before[id].live
  {
  }

  lemma GainEntries(arenas: seq<Arena>, before: seq<Entry>, after: seq<Entry>, id: nat, e: Entry)
    requires EntriesOk(arenas, before) && Gains(before, after, id, e) && EntryOk(arenas, e)
    ensures EntriesOk(arenas, after)
  {
    GainsElsewhere(before, after, id, e);
    forall i | 0 <= i < |after| ensures EntryOk(arenas, after[i]) {
      assert i != id ==> EntryOk(arenas, before[i]);
    }
  }

  lemma GainTarget(arenas: seq<Arena>, before: seq<Entry>, after: seq<Entry>, id: nat, e: Entry, target: Option<Target>, next: nat)
    requires TargetOk(arenas, before, target, next) && Gains(before, after, id, e)
    ensures TargetOk(arenas, after, target, next)
  {
    GainsElsewhere(before, after, id, e);
    if target.Some? {
      var moves := target.value.moves;
      forall i | 0 <= i < |moves| && moves[i].Pending() ensures PendingOk(arenas, after, moves[i]) {
        assert PendingOk(arenas, before, moves[i]);
      }
    }
  }

  lemma GainAccounted(before: seq<Entry>, after: seq<Entry>, id: nat, e: Entry, target: Option<Target>)
    requires Accounted(before, target) && Gains(before, after, id, e)
    requires target.Some? ==> e.arena != target.value.source
    ensures Accounted(after, target)
  {
    GainsElsewhere(before, after, id, e);
  }

  /** What a placement does. */
  ghost predicate Placed(s: State, s': State, id: nat, a: nat, e: Entry) {
    && id > 0 && !s.Live(id) && Gains(s.entries, s'.entries, id, e) && e.live && e.arena == a
    && SameKinds(s.arenas, s'.arenas) && SameRoles(s.arenas, s'.arenas)
    && s' == s.(arenas := s'.arenas, entries := s'.entries, freeEntry := s'.freeEntry)
  }

  lemma PlaceSound(s: State, a: nat, offset: nat, size: nat, options: Options)
    requires Sound(s) && a < |s.arenas| && Available(s.arenas[a], offset, size) && size > 0
    requires s.arenas[a].memoryClass == options.memoryClass && (s.arenas[a].dedicated ==> !options.movable)
    requires NewEntry(a, offset, size, options).alignment < WORD_BITS
    requires offset % Pow2(NewEntry(a, offset, size, options).alignment) == 0
    ensures s.freeEntry < |s.entries|
    ensures var (s', id) := Place(s, a, offset, size, options);
            Sound(s') && Placed(s, s', id, a, NewEntry(a, offset, size, options))
  {
    hide OrderOk, ChainOk, EntriesOk, CoreOk, TargetOk, RolesOk, PushEntry, Occupy, ArenaOk, Available;
    var x, e := s.arenas[a], NewEntry(a, offset, size, options);
    var arenas := s.arenas[a := Occupy(x, offset, size).(allocations := x.allocations + 1)];
    PushGains(s, e);
    PushGains(s.(arenas := arenas), e);
    var (s', id) := Place(s, a, offset, size, options);
    ActiveWithRoom(s.Tables(), a, offset, size);
    OccupyKind(x, offset, size);
    KindsOrder(s.arenas, arenas, s.order, s.freeArenas);
    ExtendEntries(s.arenas, arenas, s.entries);
    ExtendTarget(s.arenas, arenas, s.entries, s.target, s.nextMoveId);
    KindsRoles(s.arenas, arenas, s.target, s.target);
    GainEntries(arenas, s.entries, s'.entries, id, e);
    GainTarget(arenas, s.entries, s'.entries, id, e, s.target, s.nextMoveId);
    PlaceOk(s.Tables(), s'.Tables(), id, e);
  }

  lemma ActiveWithRoom(c: Core, a: nat, offset: nat, size: nat)
    requires CoreOk(c) && a < |c.arenas| && Available(c.arenas[a], offset, size) && size > 0
    ensures c.arenas[a].active
  {
    OccupyOk(c.arenas[a], offset, size);
  }

  lemma OccupyKind(x: Arena, offset: nat, size: nat)
    requires Available(x, offset, size)
    ensures var y := Occupy(x, offset, size);
            y == x.(ranges := y.ranges, free := y.free)
  {
  }

  // ---- A new arena ----

  lemma NothingOutside(s: State, a: nat)
    requires Sound(s) && (a >= |s.arenas| || !s.arenas[a].active)
    ensures Untouched(s.Tables(), a)
  {
    if a < |s.arenas| {
      assert ArenaOk(s.arenas[a]) && Counted(s.Tables(), a);
    } else {
      forall i | 0 <= i < |s.entries| ensures LiveIn(a)(s.entries[i]) == 0 {
        assert EntryOk(s.arenas, s.entries[i]);
      }
      SumZero(s.entries, LiveIn(a));
      SumZero(s.Moves(), ReservedIn(a));
      SumZero(s.Moves(), RetiringIn(a));
    }
  }

  lemma CreateOrder(arenas: seq<Arena>, order: seq<nat>, freeArenas: seq<nat>, x: Arena)
    requires OrderOk(arenas, order, freeArenas) && x.active
    ensures freeArenas == [] ==> OrderOk(arenas + [x], order + [|arenas|], freeArenas)
    ensures freeArenas != [] ==>
              var last := |freeArenas| - 1;
              && 0 < freeArenas[last] < |arenas| && !arenas[freeArenas[last]].active
              && OrderOk(arenas[freeArenas[last] := x], order + [freeArenas[last]], freeArenas[..last])
  {
    if freeArenas == [] {
      NoRepeatsAppend(order, |arenas|);
    } else {
      var last := |freeArenas| - 1;
      var a := freeArenas[last];
      assert a in freeArenas;
      NoRepeatsAppend(order, a);
      NoRepeatsRemove(freeArenas, last);
      assert freeArenas[..last] + freeArenas[last + 1..] == freeArenas[..last];
      var after, rest := arenas[a := x], freeArenas[..last];
      forall b: nat ensures b in rest <==> 0 < b < |after| && !after[b].active {
        assert b in freeArenas <==> 0 < b < |arenas| && !arenas[b].active;
      }
      forall b: nat ensures b in order + [a] <==> b < |after| && after[b].active {
        assert b in order <==> b < |arenas| && arenas[b].active;
      }
    }
  }

  /** The slot that the next arena takes: the one given up last, or a new one. */
  function NextArena(s: State): nat {
    if s.freeArenas != [] then s.freeArenas[|s.freeArenas| - 1] else |s.arenas|
  }

  /** What creating an arena does. */
  ghost predicate Created(s: State, s': State, a: nat, x: Arena) {
    && a == NextArena(s) && s.freeArenas == s'.freeArenas + (if s.freeArenas != [] then [a] else [])
    && 0 < a < |s'.arenas| && s'.arenas[a] == x
    && (a < |s.arenas| ==> !s.arenas[a].active) && a <= |s.arenas|
    && s'.arenas == (if a < |s.arenas| then s.arenas[a := x] else s.arenas + [x])
    && s'.order == s.order + [a]
    && s' == s.(arenas := s'.arenas, order := s'.order, freeArenas := s'.freeArenas)
  }

  lemma CreateSound(s: State, capacity: nat, memoryClass: nat, dedicated: bool)
    requires Sound(s) && 0 < capacity <= U32_MAX
    ensures s.freeArenas != [] ==> s.freeArenas[|s.freeArenas| - 1] < |s.arenas|
    ensures var (s', a) := CreateArena(s, capacity, memoryClass, dedicated);
            Sound(s') && Created(s, s', a, NewArena(capacity, memoryClass, dedicated))
  {
    hide EntriesOk, CoreOk, TargetOk, NewArena, ArenaOk, Untouched;
    var x := NewArena(capacity, memoryClass, dedicated);
    NewArenaIs(capacity, memoryClass, dedicated);
    NewArenaOk(capacity, memoryClass, dedicated);
    CreateOrder(s.arenas, s.order, s.freeArenas, x);
    var (s', a) := CreateArena(s, capacity, memoryClass, dedicated);
    NothingOutside(s, a);
    if a < |s.arenas| {
      ReplaceArenaOk(s.Tables(), a, x);
    } else {
      AddArenaOk(s.Tables(), x);
    }
    assert s'.Tables() == s.Tables().(arenas := s'.arenas);
    ExtendEntries(s.arenas, s'.arenas, s.entries);
    ExtendTarget(s.arenas, s'.arenas, s.entries, s.target, s.nextMoveId);
    SourceIsActive(s);
  }

  lemma NewArenaIs(capacity: nat, memoryClass: nat, dedicated: bool)
    ensures var x := NewArena(capacity, memoryClass, dedicated);
            && x.active && x.role == Normal && x.capacity == x.free == capacity && x.memoryClass == memoryClass
            && x.dedicated == dedicated && x.ranges == [Range(0, capacity)]
            && x.allocations == x.reservations == x.retiring == 0
  {
  }

  lemma SourceIsActive(s: State)
    requires Sound(s)
    ensures s.target.Some? ==> s.target.value.source < |s.arenas| && s.arenas[s.target.value.source].active
  {
  }

  // ---- Removing ----

  ghost predicate NoPending(moves: seq<Move>, id: nat) {
    forall i :: 0 <= i < |moves| && moves[i].Pending() ==> moves[i].allocation != id
  }

  lemma RemoveChain(entries: seq<Entry>, freeEntry: nat, id: nat, dead: Entry)
    requires ChainOk(entries, freeEntry) && id < |entries| && entries[id].live && !dead.live && dead.offset == freeEntry
    ensures ChainOk(entries[id := dead], id)
  {
    var chain :| Threaded(entries, OffsetOf(), IsLive(), freeEntry, chain);
    PushKeeps(entries, OffsetOf(), IsLive(), freeEntry, chain, id, dead);
  }

  /** Only a pending move looks at its allocation's entry. */
  lemma TargetElsewhere(arenas: seq<Arena>, entries: seq<Entry>, id: nat, e: Entry, target: Option<Target>, next: nat)
    requires TargetOk(arenas, entries, target, next) && id < |entries|
    requires target.Some? ==> NoPending(target.value.moves, id)
    ensures TargetOk(arenas, entries[id := e], target, next)
  {
    if target.Some? {
      var moves := target.value.moves;
      forall i | 0 <= i < |moves| && moves[i].Pending() ensures PendingOk(arenas, entries[id := e], moves[i]) {
        assert PendingOk(arenas, entries, moves[i]);
      }
    }
  }

  lemma OneEntry(arenas: seq<Arena>, entries: seq<Entry>, id: nat, e: Entry)
    requires EntriesOk(arenas, entries) && id < |entries| && EntryOk(arenas, e)
    ensures EntriesOk(arenas, entries[id := e])
  {
    var after := entries[id := e];
    forall i | 0 <= i < |after| ensures EntryOk(arenas, after[i]) {
      assert i != id ==> EntryOk(arenas, entries[i]);
    }
  }

  ghost predicate Removed(s: State, s': State, id: nat) {
    && s.Live(id) && |s'.entries| == |s.entries| && !s'.entries[id].live
    && s'.entries == s.entries[id := s'.entries[id]]
    && SameKinds(s.arenas, s'.arenas) && SameRoles(s.arenas, s'.arenas)
    && s' == s.(arenas := s'.arenas, entries := s'.entries, freeEntry := s'.freeEntry)
  }

  lemma LiveArena(s: State, id: nat)
    requires Sound(s) && s.Live(id)
    ensures s.entries[id].arena < |s.arenas| && s.arenas[s.entries[id].arena].active && s.entries[id].size > 0
    ensures EntryOk(s.arenas, s.entries[id])
  {
  }

  lemma VacateKind(x: Arena, offset: nat, size: nat)
    ensures var y := Vacate(x, offset, size);
            y == x.(ranges := y.ranges, free := y.free)
  {
  }

  lemma RemoveShape(s: State, id: nat)
    requires s.Live(id) && s.entries[id].arena < |s.arenas|
    ensures Removed(s, Remove(s, id), id)
    ensures |Remove(s, id).entries| == |s.entries|
    ensures Remove(s, id).entries[id].offset == s.freeEntry && Remove(s, id).freeEntry == id
  {
    hide Vacate;
    var e := s.entries[id];
    VacateKind(s.arenas[e.arena], e.offset, e.size);
  }

  lemma RemovedSound(s: State, s': State, id: nat)
    requires Sound(s) && Removed(s, s', id) && NoPending(s.Moves(), id) && CoreOk(s'.Tables())
    requires s'.freeEntry == id && s'.entries[id].offset == s.freeEntry
    ensures Sound(s')
  {
    hide OrderOk, ChainOk, EntriesOk, CoreOk, TargetOk, RolesOk, SameKinds, SameRoles, NoPending;
    KindsExtend(s.arenas, s'.arenas);
    RemoveChain(s.entries, s.freeEntry, id, s'.entries[id]);
    KindsOrder(s.arenas, s'.arenas, s.order, s.freeArenas);
    ExtendEntries(s.arenas, s'.arenas, s.entries);
    ExtendTarget(s.arenas, s'.arenas, s.entries, s.target, s.nextMoveId);
    KindsRoles(s.arenas, s'.arenas, s.target, s.target);
    OneEntry(s'.arenas, s.entries, id, s'.entries[id]);
    TargetElsewhere(s'.arenas, s.entries, id, s'.entries[id], s.target, s.nextMoveId);
  }

  lemma RemoveCore(s: State, id: nat)
    requires s.Live(id) && s.entries[id].arena < |s.arenas| && s.entries[id].size > 0 && CoreOk(s.Tables())
    ensures CoreOk(Remove(s, id).Tables())
  {
    hide CoreOk, Vacate;
    var s' := Remove(s, id);
    RemoveOk(s.Tables(), s'.Tables(), id, s'.entries[id]);
  }

  lemma RemoveSound(s: State, id: nat)
    requires Sound(s) && s.Live(id) && NoPending(s.Moves(), id)
    ensures s.entries[id].arena < |s.arenas|
    ensures Sound(Remove(s, id)) && Removed(s, Remove(s, id), id)
  {
    LiveArena(s, id);
    SoundCore(s);
    hide Sound, CoreOk, Removed, Remove, NoPending;
    RemoveShape(s, id);
    RemoveCore(s, id);
    RemovedSound(s, Remove(s, id), id);
  }

  lemma SetMovableSound(s: State, id: nat, movable: bool)
    requires Sound(s) && s.Live(id) && NoPending(s.Moves(), id) && s.entries[id].arena < |s.arenas|
    requires s.arenas[s.entries[id].arena].dedicated ==> !movable
    ensures Sound(SetMovable(s, id, movable))
  {
    LiveArena(s, id);
    hide OrderOk, EntriesOk, CoreOk, TargetOk, RolesOk, Threaded;
    var e := s.entries[id].(movable := movable);
    var chain :| Threaded(s.entries, OffsetOf(), IsLive(), s.freeEntry, chain);
    UpdateKeeps(s.entries, OffsetOf(), IsLive(), s.freeEntry, chain, id, e);
    OneEntry(s.arenas, s.entries, id, e);
    TargetElsewhere(s.arenas, s.entries, id, e, s.target, s.nextMoveId);
    EntryTagOk(s.Tables(), id, movable);
  }
}
