/** The bytes of allocations and of copies under way.

    Contents is what an allocation reads back through its id; a copy under way has
    its bytes at the move's destination. Each step is shown to leave both alone, but
    for the switch, which makes the copy the contents, and the copy itself. */
module GpuBytes {
  import opened Wrappers
  import opened GpuCore
  import opened GpuState
  import opened GpuInvariant
  import opened GpuMoves
  import opened GpuWorld
  import opened GpuSchedule

  /** The bytes of a block; none if it is not within a buffer. */
  function BytesAt(m: Memory, a: nat, offset: nat, size: nat): seq<Byte> {
    if a < |m.arenas| && offset + size <= |m.arenas[a]| then m.arenas[a][offset..offset + size] else []
  }

  function Contents(w: World, id: nat): seq<Byte>
    requires id < |w.gpu.entries|
  {
    var e := w.gpu.entries[id];
    BytesAt(w.memory, e.arena, e.offset, e.size)
  }

  /** What the move has copied to its destination. */
  function CopyAt(m: Memory, move: Move): seq<Byte> {
    BytesAt(m, move.destination, move.destinationOffset, move.size)
  }

  /** The destination holds what the source holds. */
  ghost predicate Mirrored(m: Memory, move: Move) {
    CopyAt(m, move) == BytesAt(m, move.source, move.sourceOffset, move.size)
  }

  /** Whoever is live in both reads the same bytes. */
  ghost predicate SameContents(w: World, w': World) {
    forall id :: 0 <= id < |w.gpu.entries| && id < |w'.gpu.entries| && w.gpu.Live(id) && w'.gpu.Live(id) ==>
      Contents(w', id) == Contents(w, id)
  }

  /** Every copy under way afterwards was under way before, and has the same bytes. */
  ghost predicate SameCopies(w: World, w': World) {
    forall k :: 0 <= k < |w'.gpu.Moves()| && w'.gpu.Moves()[k].state == CopyScheduled ==>
      && k < |w.gpu.Moves()| && w.gpu.Moves()[k] == w'.gpu.Moves()[k]
      && CopyAt(w'.memory, w'.gpu.Moves()[k]) == CopyAt(w.memory, w.gpu.Moves()[k])
  }

  // ---- Steps that touch neither memory nor entries ----

  ghost predicate NoNewCopy(s: State, s': State) {
    forall i :: 0 <= i < |s'.Moves()| && s'.Moves()[i].state == CopyScheduled ==>
      i < |s.Moves()| && s.Moves()[i] == s'.Moves()[i]
  }

  lemma QuietCopies(w: World, w': World)
    requires w'.memory == w.memory && NoNewCopy(w.gpu, w'.gpu)
    ensures SameCopies(w, w')
  {
  }

  lemma GaveUpQuiet(s: State, s': State)
    requires GaveUp(s, s')
    ensures NoNewCopy(s, s') && s'.entries == s.entries
  {
  }

  // ---- Switching ----

  /** Switching keeps the allocation's bytes exactly when the destination mirrors
      the source at that moment; all others keep theirs anyway. */
  lemma SwitchContents(w: World, w': World, i: nat)
    requires i < |w.gpu.Moves()| && PendingOk(w.gpu.arenas, w.gpu.entries, w.gpu.Moves()[i])
    requires Rebound(w.gpu, w'.gpu, i) && w'.memory == w.memory
    ensures var m := w.gpu.Moves()[i];
            && |w'.gpu.entries| == |w.gpu.entries|
            && Contents(w', m.allocation) == BytesAt(w.memory, m.destination, m.destinationOffset, m.size)
            && (Contents(w', m.allocation) == Contents(w, m.allocation) <==> Mirrored(w.memory, m))
            && (forall id :: 0 <= id < |w.gpu.entries| && id != m.allocation ==> Contents(w', id) == Contents(w, id))
  {
  }

  // ---- Copying ----

  ghost predicate Apart(a: nat, offset: nat, size: nat, r: Relocation) {
    a == r.destinationArena ==> forall p :: InBlock(p, offset, size) ==> !InBlock(p, r.destinationOffset, r.size)
  }

  /** A copy changes no byte outside its destination. */
  lemma CopyElsewhere(m: Memory, r: Relocation, a: nat, offset: nat, size: nat)
    requires CopyFits(m, r) && Apart(a, offset, size, r)
    ensures BytesAt(CopyBlock(m, r), a, offset, size) == BytesAt(m, a, offset, size)
  {
    if a == r.destinationArena && offset + size <= |m.arenas[a]| {
      var was, now := m.arenas[a], CopyBlock(m, r).arenas[a];
      forall p | offset <= p < offset + size ensures now[p] == was[p] {
        assert InBlock(p, offset, size);
      }
      assert now[offset..offset + size] == was[offset..offset + size];
    }
  }

  lemma CopyThere(m: Memory, r: Relocation)
    requires CopyFits(m, r)
    ensures BytesAt(CopyBlock(m, r), r.destinationArena, r.destinationOffset, r.size) ==
            BytesAt(m, r.sourceArena, r.sourceOffset, r.size)
    ensures BytesAt(CopyBlock(m, r), r.sourceArena, r.sourceOffset, r.size) ==
            BytesAt(m, r.sourceArena, r.sourceOffset, r.size)
  {
  }

  lemma ScheduleApart(w: World, i: nat)
    requires Ready(w) && i < |w.gpu.Moves()| && w.gpu.Moves()[i].Pending()
    requires w.gpu.Moves()[i].allocation < |w.gpu.entries|
    ensures forall id :: 0 <= id < |w.gpu.entries| && w.gpu.entries[id].live ==>
              Apart(w.gpu.entries[id].arena, w.gpu.entries[id].offset, w.gpu.entries[id].size, RelocationOf(w, i))
    ensures forall k :: 0 <= k < |w.gpu.Moves()| && k != i && w.gpu.Moves()[k].Pending() ==>
              Apart(w.gpu.Moves()[k].destination, w.gpu.Moves()[k].destinationOffset, w.gpu.Moves()[k].size, RelocationOf(w, i))
  {
    SoundCore(w.gpu);
    SoundMoves(w.gpu);
    hide Sound, CoreOk;
    var c, r := w.gpu.Tables(), RelocationOf(w, i);
    forall id | 0 <= id < |w.gpu.entries| && w.gpu.entries[id].live
      ensures Apart(w.gpu.entries[id].arena, w.gpu.entries[id].offset, w.gpu.entries[id].size, r)
    {
      if w.gpu.entries[id].arena == r.destinationArena {
        forall p | InBlock(p, w.gpu.entries[id].offset, w.gpu.entries[id].size)
          ensures !InBlock(p, r.destinationOffset, r.size)
        {
          LiveAndHeldApart(c, id, i, p);
        }
      }
    }
    forall k | 0 <= k < |w.gpu.Moves()| && k != i && w.gpu.Moves()[k].Pending()
      ensures Apart(w.gpu.Moves()[k].destination, w.gpu.Moves()[k].destinationOffset, w.gpu.Moves()[k].size, r)
    {
      if w.gpu.Moves()[k].destination == r.destinationArena {
        forall p | InBlock(p, w.gpu.Moves()[k].destinationOffset, w.gpu.Moves()[k].size)
          ensures !InBlock(p, r.destinationOffset, r.size)
        {
          HeldBlocksApart(c, k, i, p);
        }
      }
    }
  }

  /** A copy changes no live allocation's bytes and no other copy under way, and has
      the bytes that its allocation reads. */
  lemma ScheduleBytes(w: World, i: nat)
    requires Ready(w) && i < |w.gpu.Moves()| && w.gpu.Moves()[i].state == Reserved
    ensures var w', m := ScheduleOne(w, i), w.gpu.Moves()[i];
            && m.allocation < |w.gpu.entries| && SameContents(w, w')
            && |w'.gpu.Moves()| == |w.gpu.Moves()|
            && CopyAt(w'.memory, w'.gpu.Moves()[i]) == Contents(w, m.allocation)
            && forall k :: 0 <= k < |w.gpu.Moves()| && k != i && w.gpu.Moves()[k].Pending() ==>
                 && w'.gpu.Moves()[k] == w.gpu.Moves()[k]
                 && CopyAt(w'.memory, w.gpu.Moves()[k]) == CopyAt(w.memory, w.gpu.Moves()[k])
  {
    PendingFits(w, i);
    ScheduleApart(w, i);
    SoundMoves(w.gpu);
    var w', r := ScheduleOne(w, i), RelocationOf(w, i);
    hide Ready, CopyFits, Apart, CopyBlock, BytesAt, Sound;
    forall id | 0 <= id < |w.gpu.entries| && w.gpu.Live(id) ensures Contents(w', id) == Contents(w, id) {
      CopyElsewhere(w.memory, r, w.gpu.entries[id].arena, w.gpu.entries[id].offset, w.gpu.entries[id].size);
    }
    CopyThere(w.memory, r);
    assert PendingOk(w.gpu.arenas, w.gpu.entries, w.gpu.Moves()[i]);
    forall k | 0 <= k < |w.gpu.Moves()| && k != i && w.gpu.Moves()[k].Pending()
      ensures CopyAt(w'.memory, w.gpu.Moves()[k]) == CopyAt(w.memory, w.gpu.Moves()[k])
    {
      var m := w.gpu.Moves()[k];
      CopyElsewhere(w.memory, r, m.destination, m.destinationOffset, m.size);
    }
  }

  // ---- Removing an arena ----

  lemma RemoveElsewhere(m: Memory, gone: nat, a: nat, offset: nat, size: nat)
    requires gone < |m.arenas| && a != gone
    ensures BytesAt(RemoveArena(m, gone), a, offset, size) == BytesAt(m, a, offset, size)
  {
  }

  /** Nobody's bytes were in an arena that is removed. */
  lemma ReleaseContents(w: World, a: nat)
    requires Ready(w) && a < |w.gpu.arenas|
    ensures SameContents(w, ReleaseArena(w, a))
  {
    if CanRelease(w.gpu.arenas[a]) {
      NobodyThere(w.gpu, a);
      DropSound(w.gpu, a);
      var w' := ReleaseArena(w, a);
      hide Ready, Sound, BytesAt, RemoveArena, DropArena;
      forall id | 0 <= id < |w.gpu.entries| && w.gpu.Live(id) ensures Contents(w', id) == Contents(w, id) {
        RemoveElsewhere(w.memory, a, w.gpu.entries[id].arena, w.gpu.entries[id].offset, w.gpu.entries[id].size);
      }
    }
  }

  /** Nor was any copy under way. */
  lemma ReleaseCopies(w: World, a: nat)
    requires Ready(w) && a < |w.gpu.arenas|
    ensures SameCopies(w, ReleaseArena(w, a))
  {
    if CanRelease(w.gpu.arenas[a]) {
      NobodyThere(w.gpu, a);
      DropSound(w.gpu, a);
      var w' := ReleaseArena(w, a);
      hide Ready, Sound, BytesAt, RemoveArena, DropArena;
      forall k | 0 <= k < |w'.gpu.Moves()| && w'.gpu.Moves()[k].state == CopyScheduled
        ensures CopyAt(w'.memory, w'.gpu.Moves()[k]) == CopyAt(w.memory, w.gpu.Moves()[k])
      {
        var m := w.gpu.Moves()[k];
        RemoveElsewhere(w.memory, a, m.destination, m.destinationOffset, m.size);
      }
    }
  }
}
