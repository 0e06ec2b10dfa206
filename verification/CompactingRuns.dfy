/** The compacting allocator beside a buffer that is moved along with it: what a
    pass achieves, and that no run of operations ever loses a byte. */
module CompactingRuns {
  import opened Wrappers
  import opened FreeList
  import opened Sliding
  import opened Packing
  import opened Compacting

  // ---- What a pass achieves ----

  ghost function LiveBytes(h: Heap): nat {
    Bytes(Items(h.entries))
  }

  /** All the free space is one range behind the live bytes. */
  ghost predicate FullyPacked(h: Heap) {
    h.free == if LiveBytes(h) < SPACE then [Range(LiveBytes(h), SPACE - LiveBytes(h))] else []
  }

  lemma {:induction false} CompletedMeansNoGap(blocks: seq<Block>, budget: nat)
    requires InOrder(blocks)
    ensures Slide(blocks, budget).completed <==> Slide(blocks, budget).gaps == []
  {
    if blocks != [] {
      var last := |blocks| - 1;
      CompletedMeansNoGap(blocks[..last], budget);
      CursorBehind(blocks, budget);
      TargetBetween(Slide(blocks[..last], budget), blocks[last], budget);
    }
  }

  /** A pass says it completed exactly when it leaves the live allocations tiling
      [0, LiveBytes) and everything behind them free. */
  lemma CompletedMeansFullyPacked(h: Heap, budget: nat)
    requires Valid(h)
    ensures Slide(Items(h.entries), budget).completed <==> FullyPacked(Compact(h, budget))
    ensures LiveBytes(Compact(h, budget)) == LiveBytes(h)
  {
    hide Slide, Items, Valid, Compact, Lists, Bytes, InOrder;
    var blocks := Items(h.entries);
    var p := Slide(blocks, budget);
    ValidDisjoint(h);
    ItemsInOrder(h.entries);
    ItemsInSpace(h.entries);
    SlidePlaces(blocks, budget);
    SlideGaps(blocks, budget);
    CompactKeeps(h, budget);
    CompactIsAfterPass(h, budget);
    SameBytes(blocks, p.placed);
    CompletedMeansNoGap(blocks, budget);
    assert p.cursor <= SPACE;
    assert p.gaps != [] ==> FreeAfter(p)[0] == p.gaps[0] && p.gaps[0].End() < p.cursor;
  }

  /** An unbudgeted pass always completes. */
  lemma UnbudgetedCompletes(h: Heap, budget: nat)
    requires Valid(h) && SPACE <= budget
    ensures Slide(Items(h.entries), budget).completed && FullyPacked(Compact(h, budget))
  {
    var blocks := Items(h.entries);
    ItemsList(h.entries);
    ItemsInSpace(h.entries);
    TotalInSpace(blocks);
    AmpleBudgetCompletes(blocks, budget);
    CompletedMeansFullyPacked(h, budget);
  }

  lemma TotalInSpace(blocks: seq<Block>)
    requires InOrder(blocks) && forall i :: 0 <= i < |blocks| ==> blocks[i].End() <= SPACE
    ensures Bytes(blocks) <= SPACE
  {
    TightBelow(blocks, |blocks|);
    assert blocks[..|blocks|] == blocks;
  }

  /** After a completed pass another one, under any budget, moves nothing. */
  lemma CompletedIsIdle(h: Heap, budget: nat, again: nat)
    requires Valid(h) && Slide(Items(h.entries), budget).completed
    ensures Valid(Compact(h, budget))
    ensures var p := Slide(Items(Compact(h, budget).entries), again);
            p.completed && p.moves == [] && p.moved == 0 && p.bytes == 0
    ensures Compact(Compact(h, budget), again).free == Compact(h, budget).free
  {
    CompactKeeps(h, budget);
    ItemsList(h.entries);
    CompletedMeansPacked(Items(h.entries), budget);
    CompletedMeansFullyPacked(h, budget);
    PackedHeapIsIdle(Compact(h, budget), again);
  }

  lemma PackedHeapIsIdle(h: Heap, again: nat)
    requires Valid(h) && Packed(Items(h.entries)) && FullyPacked(h)
    ensures var p := Slide(Items(h.entries), again);
            p.completed && p.moves == [] && p.moved == 0 && p.bytes == 0
    ensures Compact(h, again).free == h.free
  {
    hide Slide, Items, Packed, Compact, Valid;
    PackedIsIdle(Items(h.entries), again);
    CompletedMeansFullyPacked(h, again);
  }

  // ---- Repeated passes ----

  ghost function Compactions(h: Heap, budget: nat, count: nat): (h': Heap)
    requires Valid(h)
    ensures Valid(h')
    decreases count
  {
    if count == 0 then h
    else
      CompactKeeps(h, budget);
      Compactions(Compact(h, budget), budget, count - 1)
  }

  /** After one pass or more the heap is fully packed exactly when the blocks are that
      as many passes over them leave. */
  lemma {:induction false} CompactionsArePasses(h: Heap, budget: nat, count: nat)
    requires Valid(h) && count > 0
    ensures FullyPacked(Compactions(h, budget, count)) <==> Packed(Passes(Items(h.entries), budget, count))
    decreases count
  {
    hide Slide, Items, Packed, Compact, Valid, FullyPacked, InOrder;
    CompactKeeps(h, budget);
    var placed := Slide(Items(h.entries), budget).placed;
    if count == 1 {
      ValidDisjoint(h);
      ItemsInOrder(h.entries);
      CompletedMeansFullyPacked(h, budget);
      CompletedMeansPacked(Items(h.entries), budget);
      assert Passes(Items(h.entries), budget, 1) == Passes(placed, budget, 0) == placed;
      assert Compactions(h, budget, 1) == Compactions(Compact(h, budget), budget, 0) == Compact(h, budget);
    } else {
      CompactionsArePasses(Compact(h, budget), budget, count - 1);
    }
  }

  /** Repeated compaction with one budget leaves all free space in one range if and only
      if every block out of place fits in the budget; then it takes no more passes than
      there are blocks, and one. */
  lemma CompactionsPackExactly(h: Heap, budget: nat)
    requires Valid(h)
    ensures Movable(Items(h.entries), budget) ==> FullyPacked(Compactions(h, budget, |Items(h.entries)| + 1))
    ensures !Movable(Items(h.entries), budget) ==> forall count: nat :: count > 0 ==> !FullyPacked(Compactions(h, budget, count))
  {
    hide Items, Packed, Valid, FullyPacked, Passes, Compactions, InOrder, Slide;
    var blocks := Items(h.entries);
    ValidDisjoint(h);
    ItemsInOrder(h.entries);
    if Movable(blocks, budget) {
      PassesPack(blocks, budget, |blocks| + 1);
      CompactionsArePasses(h, budget, |blocks| + 1);
    } else {
      var j :| PackedCount(blocks) <= j < |blocks| && blocks[j].size > budget;
      forall count: nat | count > 0 ensures !FullyPacked(Compactions(h, budget, count)) {
        PassesStuck(blocks, budget, j, count);
        CompactionsArePasses(h, budget, count);
      }
    }
  }

  /** In a packed heap the next allocation goes right behind the live bytes. */
  lemma AllocatedAtFront(h: Heap, size: nat)
    requires Valid(h) && size > 0 && FullyPacked(h)
    ensures h.freeEntry < |h.entries|
    ensures var (h', id) := Allocate(h, size);
            && (id.Some? <==> LiveBytes(h) + size <= SPACE)
            && (id.Some? ==> h'.Live(id.value) && h'.entries[id.value].offset == LiveBytes(h))
  {
    ChainHeadInTable(h);
    ItemsList(h.entries);
    ItemsInSpace(h.entries);
    TotalInSpace(Items(h.entries));
    var i := FirstFit(h.free, 0, size);
    if i < |h.free| {
      PushedEntry(h.(free := Carve(h.free, i, h.free[i].offset, size)), h.free[i].offset, size);
    }
  }

  // ---- The tracked buffer ----

  /** The byte an allocation is filled with at index i. */
  function Pattern(id: nat, i: nat): Byte {
    (id * 31 + i * 7 + 5) % 256
  }

  function PatternBytes(id: nat, size: nat): seq<Byte> {
    seq(size, i requires 0 <= i => Pattern(id, i))
  }

  const FILLER: Byte := 0x17

  /** The buffer grown to hold the range and the range overwritten. */
  function Fill(buffer: seq<Byte>, offset: nat, bytes: seq<Byte>): seq<Byte> {
    var grown := if offset + |bytes| > |buffer| then buffer + seq(offset + |bytes| - |buffer|, _ => FILLER) else buffer;
    grown[..offset] + bytes + grown[offset + |bytes|..]
  }

  datatype World = World(heap: Heap, buffer: seq<Byte>, sizes: map<nat, nat>)

  const START := World(INITIAL, [], map[])

  /** Every tracked allocation reads back its pattern: what verify_all checks. */
  ghost predicate Verified(w: World) {
    forall id :: id in w.sizes ==>
      && w.heap.Live(id) && w.heap.entries[id].size == w.sizes[id]
      && w.heap.entries[id].offset + w.sizes[id] <= |w.buffer|
      && BytesOf(w.buffer, BlockOf(w.heap.entries, id)) == PatternBytes(id, w.sizes[id])
  }

  ghost predicate Tracked(w: World) {
    && Valid(w.heap) && Verified(w)
    && (forall id :: 0 <= id < |w.heap.entries| && w.heap.entries[id].live ==> id in w.sizes)
  }

  datatype Op = Alloc(size: nat) | Free(id: nat) | Pack(budget: nat)

  predicate Allowed(w: World, op: Op) {
    match op
    case Alloc(size) => size > 0
    case Free(id) => w.heap.Live(id)
    case Pack(_) => true
  }

  function Step(w: World, op: Op): World
    requires Tracked(w) && Allowed(w, op)
  {
    match op
    case Alloc(size) =>
      AllocateKeeps(w.heap, size);
      var (heap, id) := Allocate(w.heap, size);
      if id.None? then w.(heap := heap)
      else World(heap, Fill(w.buffer, heap.entries[id.value].offset, PatternBytes(id.value, size)), w.sizes[id.value := size])
    case Free(id) => World(Deallocate(w.heap, id), w.buffer, w.sizes - {id})
    case Pack(budget) =>
      TrackedInside(w);
      var items := Items(w.heap.entries);
      SlideCarriesBytes(items, budget, w.buffer);
      World(Compact(w.heap, budget), Replay(w.buffer, Slide(items, budget).moves), w.sizes)
  }

  lemma TrackedInside(w: World)
    requires Tracked(w)
    ensures InOrder(Items(w.heap.entries)) && Inside(Items(w.heap.entries), |w.buffer|)
  {
    ValidDisjoint(w.heap);
    hide Valid, Items;
    ItemsList(w.heap.entries);
  }

  lemma FillElsewhere(buffer: seq<Byte>, offset: nat, bytes: seq<Byte>, b: Block)
    requires b.End() <= |buffer| && (b.End() <= offset || offset + |bytes| <= b.offset)
    ensures b.End() <= |Fill(buffer, offset, bytes)|
    ensures BytesOf(Fill(buffer, offset, bytes), b) == BytesOf(buffer, b)
  {
  }

  lemma FillThere(buffer: seq<Byte>, offset: nat, bytes: seq<Byte>)
    ensures offset + |bytes| <= |Fill(buffer, offset, bytes)|
    ensures Fill(buffer, offset, bytes)[offset..offset + |bytes|] == bytes
  {
  }

  /** The new block is apart from all that were there. */
  lemma AllocatedApart(h: Heap, size: nat, other: nat)
    requires Valid(h) && size > 0 && h.Live(other)
    ensures h.freeEntry < |h.entries|
    ensures var (h', id) := Allocate(h, size);
            id.Some? ==>
              && id.value < |h'.entries| && other != id.value && other < |h'.entries|
              && h'.entries[other] == h.entries[other] && Separate(h.entries[other], h'.entries[id.value])
  {
    hide Allocate, Separate;
    AllocateKeeps(h, size);
    var (h', id) := Allocate(h, size);
    if id.Some? {
      assert h'.entries[other] == h.entries[other];
      ApartInHeap(h', other, id.value);
    }
  }

  lemma ApartInHeap(h: Heap, i: nat, j: nat)
    requires Valid(h) && h.Live(i) && h.Live(j) && i != j
    ensures Separate(h.entries[i], h.entries[j])
  {
    ValidDisjoint(h);
    assert Separate(h.entries[if i < j then i else j], h.entries[if i < j then j else i]);
  }

  lemma AllocTracked(w: World, size: nat)
    requires Tracked(w) && size > 0
    ensures Tracked(Step(w, Alloc(size)))
  {
    hide Valid, Allocate, Fill, PatternBytes, BytesOf;
    AllocateKeeps(w.heap, size);
    var (heap, id) := Allocate(w.heap, size);
    if id.Some? {
      var e := heap.entries[id.value];
      FilledThere(w.buffer, heap.entries, id.value);
      forall other | other in w.sizes
        ensures other != id.value && heap.entries[other] == w.heap.entries[other]
        ensures BlockOf(heap.entries, other).End() <= |Step(w, Alloc(size)).buffer|
        ensures BytesOf(Step(w, Alloc(size)).buffer, BlockOf(heap.entries, other)) == PatternBytes(other, w.sizes[other])
      {
        AllocatedApart(w.heap, size, other);
        PatternLength(id.value, size);
        FillElsewhere(w.buffer, e.offset, PatternBytes(id.value, size), BlockOf(w.heap.entries, other));
      }
    }
  }

  lemma PatternLength(id: nat, size: nat)
    ensures |PatternBytes(id, size)| == size
  {
  }

  lemma FilledThere(buffer: seq<Byte>, entries: seq<Entry>, id: nat)
    requires id < |entries|
    ensures var after := Fill(buffer, entries[id].offset, PatternBytes(id, entries[id].size));
            && BlockOf(entries, id).End() <= |after|
            && BytesOf(after, BlockOf(entries, id)) == PatternBytes(id, entries[id].size)
  {
    FillThere(buffer, entries[id].offset, PatternBytes(id, entries[id].size));
  }

  lemma FreeTracked(w: World, id: nat)
    requires Tracked(w) && w.heap.Live(id)
    ensures Tracked(Step(w, Free(id)))
  {
    DeallocateKeeps(w.heap, id);
    var heap := Deallocate(w.heap, id);
    assert forall other :: 0 <= other < |heap.entries| && other != id ==> heap.entries[other] == w.heap.entries[other];
  }

  /** Each live block of a compacted heap comes from one, which it replaces. */
  lemma PackedFrom(h: Heap, budget: nat, id: nat) returns (i: nat)
    requires Valid(h)
    ensures InOrder(Items(h.entries)) && Valid(Compact(h, budget))
    ensures var h' := Compact(h, budget);
            var items, placed := Items(h.entries), Slide(Items(h.entries), budget).placed;
            && |placed| == |items| && h'.Live(id) == h.Live(id)
            && (h.Live(id) ==>
                  && i < |items| && items[i] == BlockOf(h.entries, id) && placed[i] == BlockOf(h'.entries, id)
                  && h'.entries[id].size == h.entries[id].size)
  {
    hide Slide, Items, Compact, Valid;
    ValidDisjoint(h);
    ItemsList(h.entries);
    SlidePlaces(Items(h.entries), budget);
    CompactKeeps(h, budget);
    var h' := Compact(h, budget);
    ValidDisjoint(h');
    ItemsList(h'.entries);
    var items, placed := Items(h.entries), Slide(Items(h.entries), budget).placed;
    i := 0;
    if h.Live(id) {
      i :| 0 <= i < |items| && items[i] == BlockOf(h.entries, id);
      assert placed[i].id == id;
    }
    if h'.Live(id) {
      var j :| 0 <= j < |placed| && placed[j] == BlockOf(h'.entries, id);
      assert items[j].id == id;
    }
  }

  lemma PackTracked(w: World, budget: nat)
    requires Tracked(w)
    ensures Tracked(Step(w, Pack(budget)))
  {
    hide Slide, Items, Compact, Replay, Valid, PatternBytes, BytesOf;
    var items := Items(w.heap.entries);
    TrackedInside(w);
    SlideCarriesBytes(items, budget, w.buffer);
    var w' := Step(w, Pack(budget));
    var any := PackedFrom(w.heap, budget, 0);
    forall id | id in w.sizes
      ensures w'.heap.Live(id) && w'.heap.entries[id].size == w.sizes[id]
      ensures BlockOf(w'.heap.entries, id).End() <= |w'.buffer|
      ensures BytesOf(w'.buffer, BlockOf(w'.heap.entries, id)) == PatternBytes(id, w.sizes[id])
    {
      var i := PackedFrom(w.heap, budget, id);
      assert BytesOf(w'.buffer, Slide(items, budget).placed[i]) == BytesOf(w.buffer, items[i]);
    }
    forall id | 0 <= id < |w'.heap.entries| && w'.heap.entries[id].live ensures id in w.sizes {
      var i := PackedFrom(w.heap, budget, id);
    }
  }

  lemma StepTracked(w: World, op: Op)
    requires Tracked(w) && Allowed(w, op)
    ensures Tracked(Step(w, op))
  {
    match op
    case Alloc(size) => AllocTracked(w, size);
    case Free(id) => FreeTracked(w, id);
    case Pack(budget) => PackTracked(w, budget);
  }

  /** A run of operations; one that its caller may not make is left out.

      Whatever the sizes, the order of frees and the budgets, after every run
      every live allocation reads back its pattern, and free and live blocks tile
      the space. */
  function Run(ops: seq<Op>): (w: World)
    ensures Tracked(w)
  {
    if ops == [] then
      InitialValid();
      START
    else
      var w := Run(ops[..|ops| - 1]);
      var op := ops[|ops| - 1];
      if Allowed(w, op) then
        StepTracked(w, op);
        Step(w, op)
      else w
  }
}
