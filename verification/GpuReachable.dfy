/** What holds in every reachable state, in terms of offsets and sizes. */
module GpuReachable {
  import opened Alignment
  import opened Sums
  import opened GpuCore
  import opened GpuState
  import opened GpuInvariant
  import opened GpuMoves
  import opened GpuWorld
  import opened GpuBytes
  import opened GpuTally
  import opened GpuContents
  import opened GpuOwners
  import opened GpuRuns
  import opened GpuBuffers
  import opened GpuConservation
  import opened GpuOutcomes

  predicate Disjoint(offset: nat, size: nat, other: nat, otherSize: nat) {
    offset + size <= other || other + otherSize <= offset
  }

  /** Every live allocation lies aligned within an active arena of its memory class,
      and no two overlap. */
  ghost predicate AllocationsApart(s: State) {
    && (forall id :: 0 <= id < |s.entries| && s.Live(id) ==>
          var e := s.entries[id];
          && e.size > 0 && e.arena < |s.arenas| && s.arenas[e.arena].active
          && e.offset + e.size <= s.arenas[e.arena].capacity
          && e.offset % Pow2(e.alignment) == 0 && e.memoryClass == s.arenas[e.arena].memoryClass
          && (s.arenas[e.arena].dedicated ==> !e.movable))
    && (forall i, j :: 0 <= i < j < |s.entries| && s.Live(i) && s.Live(j) && s.entries[i].arena == s.entries[j].arena ==>
          Disjoint(s.entries[i].offset, s.entries[i].size, s.entries[j].offset, s.entries[j].size))
  }

  /** Every reserved destination and every source not yet retired lies within its
      arena, apart from all live allocations and from each other. */
  ghost predicate MovesApart(s: State) {
    && (forall i :: 0 <= i < |s.Moves()| && Holds(s.Moves()[i]) ==>
          var m := s.Moves()[i];
          && HeldArena(m) < |s.arenas| && s.arenas[HeldArena(m)].active
          && HeldOffset(m) + m.size <= s.arenas[HeldArena(m)].capacity)
    && (forall id, i :: 0 <= id < |s.entries| && s.Live(id) && 0 <= i < |s.Moves()| && Holds(s.Moves()[i])
                        && s.entries[id].arena == HeldArena(s.Moves()[i]) ==>
          Disjoint(s.entries[id].offset, s.entries[id].size, HeldOffset(s.Moves()[i]), s.Moves()[i].size))
    && (forall i, j :: 0 <= i < j < |s.Moves()| && Holds(s.Moves()[i]) && Holds(s.Moves()[j])
                       && HeldArena(s.Moves()[i]) == HeldArena(s.Moves()[j]) ==>
          Disjoint(HeldOffset(s.Moves()[i]), s.Moves()[i].size, HeldOffset(s.Moves()[j]), s.Moves()[j].size))
  }

  /** A pending move is for a movable allocation, still at the frozen source, and
      leads to an aligned place in another arena of the same memory class. */
  ghost predicate MovesProper(s: State) {
    forall i :: 0 <= i < |s.Moves()| && s.Moves()[i].Pending() ==>
      var m := s.Moves()[i];
      && s.target.Some? && m.source == s.target.value.source < |s.arenas| && s.arenas[m.source].role == EvacuationSource
      && s.Live(m.allocation) && s.entries[m.allocation].movable
      && s.entries[m.allocation].arena == m.source && s.entries[m.allocation].offset == m.sourceOffset
      && m.destination < |s.arenas| && m.destination != m.source && !s.arenas[m.destination].dedicated
      && s.arenas[m.destination].role == Normal
      && s.arenas[m.destination].memoryClass == s.arenas[m.source].memoryClass
      && m.destinationOffset % Pow2(s.entries[m.allocation].alignment) == 0
  }

  /** No byte is lost track of: free, live and held bytes make up each arena. */
  ghost predicate SpaceBalances(s: State) {
    forall a :: 0 <= a < |s.arenas| && s.arenas[a].active ==>
      s.arenas[a].free + Sum(s.entries, LiveSize(a)) + Sum(s.Moves(), HeldSize(a)) == s.arenas[a].capacity
  }

  lemma SoundAllocationsApart(s: State)
    requires Sound(s)
    ensures AllocationsApart(s)
  {
    SoundCore(s);
    var c := s.Tables();
    forall id | 0 <= id < |s.entries| && s.Live(id)
      ensures EntryOk(s.arenas, s.entries[id])
      ensures s.entries[id].offset + s.entries[id].size <= s.arenas[s.entries[id].arena].capacity
    {
      LiveArena(s, id);
      LiveBlockFits(c, id);
    }
    hide Sound, CoreOk, Pow2;
    forall i, j | 0 <= i < j < |s.entries| && s.Live(i) && s.Live(j) && s.entries[i].arena == s.entries[j].arena
      ensures Disjoint(s.entries[i].offset, s.entries[i].size, s.entries[j].offset, s.entries[j].size)
    {
      LiveBlocksApart(c, i, j, s.entries[i].offset);
      LiveBlocksApart(c, i, j, s.entries[j].offset);
    }
  }

  lemma HeldInPool(s: State, i: nat)
    requires Sound(s) && i < |s.Moves()| && Holds(s.Moves()[i])
    ensures HeldArena(s.Moves()[i]) < |s.arenas| && s.Moves()[i].size > 0
  {
    SoundMoves(s);
  }

  lemma SoundMovesApart(s: State)
    requires Sound(s)
    ensures MovesApart(s)
  {
    SoundCore(s);
    var c := s.Tables();
    hide CoreOk;
    forall i | 0 <= i < |s.Moves()| && Holds(s.Moves()[i])
      ensures HeldArena(s.Moves()[i]) < |s.arenas| && s.arenas[HeldArena(s.Moves()[i])].active && s.Moves()[i].size > 0
      ensures HeldOffset(s.Moves()[i]) + s.Moves()[i].size <= s.arenas[HeldArena(s.Moves()[i])].capacity
    {
      HeldInPool(s, i);
      HeldBlockFits(c, i);
    }
    forall id, i | 0 <= id < |s.entries| && s.Live(id) && 0 <= i < |s.Moves()| && Holds(s.Moves()[i])
                   && s.entries[id].arena == HeldArena(s.Moves()[i])
      ensures Disjoint(s.entries[id].offset, s.entries[id].size, HeldOffset(s.Moves()[i]), s.Moves()[i].size)
    {
      LiveArena(s, id);
      LiveAndHeldApart(c, id, i, s.entries[id].offset);
      LiveAndHeldApart(c, id, i, HeldOffset(s.Moves()[i]));
    }
    forall i, j | 0 <= i < j < |s.Moves()| && Holds(s.Moves()[i]) && Holds(s.Moves()[j])
                  && HeldArena(s.Moves()[i]) == HeldArena(s.Moves()[j])
      ensures Disjoint(HeldOffset(s.Moves()[i]), s.Moves()[i].size, HeldOffset(s.Moves()[j]), s.Moves()[j].size)
    {
      HeldBlocksApart(c, i, j, HeldOffset(s.Moves()[i]));
      HeldBlocksApart(c, i, j, HeldOffset(s.Moves()[j]));
    }
  }

  lemma SoundMovesProper(s: State)
    requires Sound(s)
    ensures MovesProper(s)
  {
    if s.target.Some? {
      SoundMoves(s);
      hide CoreOk, OrderOk, ChainOk, Pow2;
    }
  }

  lemma SoundSpaceBalances(s: State)
    requires Sound(s)
    ensures SpaceBalances(s)
  {
    SoundCore(s);
    Sizes(s);
    hide Sound, CoreOk, Sum;
    forall a | 0 <= a < |s.arenas| && s.arenas[a].active
      ensures s.arenas[a].free + Sum(s.entries, LiveSize(a)) + Sum(s.Moves(), HeldSize(a)) == s.arenas[a].capacity
    {
      SpaceIsConserved(s.Tables(), a);
    }
  }

  /** Every live allocation lies at a multiple of the alignment that its owner asked
      for, in an arena of the memory class asked for, and is as long as what its owner
      writes. */
  ghost predicate AsAsked(o: Owners) {
    forall id :: 0 <= id < |o.world.gpu.entries| && o.world.gpu.Live(id) ==>
      && id in o.accounts
      && var e, asked := o.world.gpu.entries[id], o.accounts[id].asked;
         && e.size == |o.accounts[id].written|
         && (asked.alignment > 0 ==> e.offset % asked.alignment == 0)
         && e.arena < |o.world.gpu.arenas| && o.world.gpu.arenas[e.arena].memoryClass == asked.memoryClass
         && e.resourceClass == asked.resourceClass
  }

  lemma SafeIsAsAsked(o: Owners)
    requires Safe(o)
    ensures AsAsked(o)
  {
    hide Tallied, CoreOk, OrderOk, ChainOk, RolesOk, TargetOk, MemoryOk, Contents, Copied, CopyOf, Pow2;
    forall id | 0 <= id < |o.world.gpu.entries| && o.world.gpu.Live(id)
      ensures id in o.accounts && EntryOk(o.world.gpu.arenas, o.world.gpu.entries[id])
      ensures Honours(o.world.gpu.entries[id], o.accounts[id].asked)
      ensures o.world.gpu.entries[id].size == |o.accounts[id].written|
    {
      assert Accurate(o.world, id, o.accounts[id]);
      InItsBuffer(o.world, id);
    }
  }

  /** After every run the blocks are where they may be, and as they were asked for. */
  lemma EveryRunIsLaidOut(arenaSize: nat, ops: seq<Op>)
    requires arenaSize <= U32_MAX
    ensures var s := Run(arenaSize, ops).world.gpu;
            AllocationsApart(s) && MovesApart(s) && MovesProper(s) && SpaceBalances(s)
    ensures AsAsked(Run(arenaSize, ops))
  {
    hide Sound, Accurate, Tallied, MemoryOk;
    SafeIsAsAsked(Run(arenaSize, ops));
    var s := Run(arenaSize, ops).world.gpu;
    SoundAllocationsApart(s);
    SoundMovesApart(s);
    SoundMovesProper(s);
    SoundSpaceBalances(s);
  }

  /** After every run each active arena, and nothing else, has a buffer of its size; the
      buffers that there are, those counted as released and those that went with an
      allocation are those that were made; and between evacuations the totals balance
      with the executor's logs. */
  lemma EveryRunBalances(arenaSize: nat, ops: seq<Op>)
    requires arenaSize <= U32_MAX
    ensures var w := Run(arenaSize, ops).world;
            && MemoryOk(w.gpu, w.memory)
            && Known(w).Plus(AllDropped(arenaSize, ops)) == AllMade(arenaSize, ops)
            && (w.gpu.target.None? ==>
                  && w.gpu.statistics.bytesCopied == w.gpu.statistics.bytesScheduled
                  && w.gpu.statistics.bytesScheduled == Sum(w.executor.copies, RelocationSize())
                  && w.gpu.statistics.movesScheduled == |w.executor.copies|
                  && w.gpu.statistics.movesCompleted == |w.executor.switches|)
  {
    EveryBufferIsAccountedFor(arenaSize, ops);
    hide Known, AllMade, AllDropped, Accurate, Sound;
  }
}
