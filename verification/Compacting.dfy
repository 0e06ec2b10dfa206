/** The compacting allocator: one arena of fixed space, a sorted free list and a
    table of allocations whose ids survive compaction. */
module Compacting {
  import opened Wrappers
  import opened FreeList
  import opened Sliding
  import opened EntryTable

  /** The end of the offset space: the largest 32-bit value. */
  const SPACE := 0xFFFF_FFFF

  datatype Entry = Entry(offset: nat, size: nat, live: bool) {
    predicate Covers(p: nat) { live && offset <= p < offset + size }
  }

  ghost function OffsetOf(): Entry -> nat {
    (e: Entry) => e.offset
  }

  ghost function IsLive(): Entry -> bool {
    (e: Entry) => e.live
  }

  function BlockOf(entries: seq<Entry>, id: nat): Block
    requires id < |entries|
  {
    Block(id, entries[id].offset, entries[id].size)
  }

  datatype Heap = Heap(free: seq<Range>, entries: seq<Entry>, freeEntry: nat) {
    predicate Live(id: nat) {
      id < |entries| && entries[id].live
    }
  }

  const INITIAL := Heap([Range(0, SPACE)], [Entry(0, 0, false)], 0)

  // ---- Operations ----

  /** The first range, from `i` on, of at least `size` bytes. */
  function FirstFit(free: seq<Range>, i: nat, size: nat): (k: nat)
    requires i <= |free|
    ensures i <= k <= |free|
    ensures k < |free| ==> size <= free[k].size
    ensures forall j :: i <= j < k ==> free[j].size < size
    decreases |free| - i
  {
    if i == |free| || size <= free[i].size then i else FirstFit(free, i + 1, size)
  }

  /** A slot for a new allocation: the head of the chain, or a new one at the end. */
  function PushEntry(h: Heap, offset: nat, size: nat): (Heap, nat)
    requires h.freeEntry < |h.entries|
  {
    if h.freeEntry != 0 then
      (h.(entries := h.entries[h.freeEntry := Entry(offset, size, true)],
          freeEntry := h.entries[h.freeEntry].offset), h.freeEntry)
    else
      (h.(entries := h.entries + [Entry(offset, size, true)]), |h.entries|)
  }

  function Allocate(h: Heap, size: nat): (Heap, Option<nat>)
    requires h.freeEntry < |h.entries|
  {
    var i := FirstFit(h.free, 0, size);
    if i == |h.free| then (h, None)
    else
      var offset := h.free[i].offset;
      var (h', id) := PushEntry(h.(free := Carve(h.free, i, offset, size)), offset, size);
      (h', Some(id))
  }

  function Deallocate(h: Heap, id: nat): Heap
    requires h.Live(id)
  {
    var e := h.entries[id];
    Heap(Release(h.free, e.offset, e.size), h.entries[id := Entry(h.freeEntry, e.size, false)], id)
  }

  /** The live blocks with ids below `n`. */
  function LiveBlocks(entries: seq<Entry>, n: nat): seq<Block>
    requires n <= |entries|
  {
    if n == 0 then []
    else if entries[n - 1].live then
      LiveBlocks(entries, n - 1) + [BlockOf(entries, n - 1)]
    else LiveBlocks(entries, n - 1)
  }

  function Insert(blocks: seq<Block>, b: Block): seq<Block> {
    if blocks == [] || blocks[|blocks| - 1].offset <= b.offset then blocks + [b]
    else Insert(blocks[..|blocks| - 1], b) + [blocks[|blocks| - 1]]
  }

  /** Sorting by offset. */
  function SortByOffset(blocks: seq<Block>): seq<Block> {
    if blocks == [] then [] else Insert(SortByOffset(blocks[..|blocks| - 1]), blocks[|blocks| - 1])
  }

  function Items(entries: seq<Entry>): seq<Block> {
    SortByOffset(LiveBlocks(entries, |entries|))
  }

  function Rebind(entries: seq<Entry>, placed: seq<Block>): (r: seq<Entry>)
    requires forall i :: 0 <= i < |placed| ==> placed[i].id < |entries|
    ensures |r| == |entries|
  {
    if placed == [] then entries
    else
      var b := placed[|placed| - 1];
      var r := Rebind(entries, placed[..|placed| - 1]);
      r[b.id := r[b.id].(offset := b.offset)]
  }

  /** The gaps and whatever lies past the cursor. */
  function FreeAfter(p: Pass): seq<Range> {
    if p.cursor < SPACE then p.gaps + [Range(p.cursor, SPACE - p.cursor)] else p.gaps
  }

  /** The heap once a pass has placed its blocks. */
  function AfterPass(h: Heap, p: Pass): Heap
    requires forall i :: 0 <= i < |p.placed| ==> p.placed[i].id < |h.entries|
  {
    Heap(FreeAfter(p), Rebind(h.entries, p.placed), h.freeEntry)
  }

  function Compact(h: Heap, budget: nat): Heap
    requires Valid(h)
  {
    PlacedInTable(h, budget);
    AfterPass(h, Slide(Items(h.entries), budget))
  }

  lemma PlacedInTable(h: Heap, budget: nat)
    requires Valid(h)
    ensures var p := Slide(Items(h.entries), budget);
            && Placed(Items(h.entries), budget, p)
            && forall i :: 0 <= i < |p.placed| ==> p.placed[i].id < |h.entries|
  {
    ItemsList(h.entries);
    SlidePlaces(Items(h.entries), budget);
  }

  // ---- The invariant ----

  ghost predicate Held(entries: seq<Entry>, p: nat) {
    exists id :: 0 <= id < |entries| && entries[id].Covers(p)
  }

  ghost predicate InSpace(e: Entry) {
    e.live ==> e.size > 0 && e.offset + e.size <= SPACE
  }

  ghost predicate Separate(a: Entry, b: Entry) {
    a.live && b.live ==> a.offset + a.size <= b.offset || b.offset + b.size <= a.offset
  }

  /** Live blocks are non-empty, inside the space and disjoint. */
  ghost predicate Disjoint(entries: seq<Entry>) {
    && (forall id :: 0 <= id < |entries| ==> InSpace(entries[id]))
    && (forall i, j :: 0 <= i < j < |entries| ==> Separate(entries[i], entries[j]))
  }

  /** What validate_integrity asserts: free and live blocks tile the space, and
      adjacent free blocks have been merged. */
  ghost predicate Tiled(h: Heap) {
    && WellFormed(h.free, SPACE)
    && Disjoint(h.entries)
    && (forall p: nat :: FreeAt(h.free, p) <==> p < SPACE && !Held(h.entries, p))
  }

  ghost predicate Valid(h: Heap) {
    && Tiled(h)
    && exists chain :: Threaded(h.entries, OffsetOf(), IsLive(), h.freeEntry, chain)
  }

  lemma InitialValid()
    ensures Valid(INITIAL)
  {
    assert Threaded(INITIAL.entries, OffsetOf(), IsLive(), 0, []);
    forall p: nat ensures FreeAt(INITIAL.free, p) <==> p < SPACE && !Held(INITIAL.entries, p) {
      FreeOne(Range(0, SPACE), p);
    }
  }

  lemma HeldAfterUpdate(entries: seq<Entry>, id: nat, e: Entry, p: nat)
    requires id < |entries| && (entries[id].Covers(p) ==> e.Covers(p))
    ensures Held(entries[id := e], p) <==> Held(entries, p) || e.Covers(p)
  {
    var after := entries[id := e];
    if Held(entries, p) {
      var i :| 0 <= i < |entries| && entries[i].Covers(p);
      assert after[i].Covers(p);
    }
    if e.Covers(p) {
      assert after[id].Covers(p);
    }
  }

  lemma HeldAfterAppend(entries: seq<Entry>, e: Entry, p: nat)
    ensures Held(entries + [e], p) <==> Held(entries, p) || e.Covers(p)
  {
    var after := entries + [e];
    if Held(entries, p) {
      var i :| 0 <= i < |entries| && entries[i].Covers(p);
      assert after[i].Covers(p);
    }
    if e.Covers(p) {
      assert after[|entries|].Covers(p);
    }
  }

  /** The slot is a new one, it holds the allocation, and no other changes. */
  lemma PushedEntry(h: Heap, offset: nat, size: nat)
    requires exists chain :: Threaded(h.entries, OffsetOf(), IsLive(), h.freeEntry, chain)
    ensures h.freeEntry < |h.entries|
    ensures var (h', id) := PushEntry(h, offset, size);
            && h'.free == h.free
            && id > 0 && !h.Live(id) && h'.Live(id) && h'.entries[id] == Entry(offset, size, true)
            && |h.entries| <= |h'.entries|
            && (forall i :: 0 <= i < |h'.entries| && i != id ==> i < |h.entries| && h'.entries[i] == h.entries[i])
            && exists chain :: Threaded(h'.entries, OffsetOf(), IsLive(), h'.freeEntry, chain)
  {
    var e := Entry(offset, size, true);
    var chain :| Threaded(h.entries, OffsetOf(), IsLive(), h.freeEntry, chain);
    if h.freeEntry != 0 {
      PopKeeps(h.entries, OffsetOf(), IsLive(), h.freeEntry, chain, e);
    } else {
      AppendKeeps(h.entries, OffsetOf(), IsLive(), h.freeEntry, chain, e);
    }
  }

  lemma DisjointUpdate(entries: seq<Entry>, id: nat, e: Entry)
    requires Disjoint(entries) && id < |entries| && InSpace(e)
    requires forall i :: 0 <= i < |entries| && i != id ==> Separate(entries[i], e)
    ensures Disjoint(entries[id := e])
  {
  }

  lemma DisjointAppend(entries: seq<Entry>, e: Entry)
    requires Disjoint(entries) && InSpace(e)
    requires forall i :: 0 <= i < |entries| ==> Separate(entries[i], e)
    ensures Disjoint(entries + [e])
  {
  }

  /** A new entry over unheld bytes is apart from the others. */
  lemma PushKeepsDisjoint(h: Heap, offset: nat, size: nat)
    requires Valid(h) && size > 0 && offset + size <= SPACE
    requires forall p :: offset <= p < offset + size ==> !Held(h.entries, p)
    ensures h.freeEntry < |h.entries|
    ensures Disjoint(PushEntry(h, offset, size).0.entries)
  {
    ChainHeadInTable(h);
    var e := Entry(offset, size, true);
    forall i | 0 <= i < |h.entries| ensures Separate(h.entries[i], e) {
      if h.entries[i].live {
        ApartFromUnheld(h.entries, i, offset, size);
      }
    }
    if h.freeEntry != 0 {
      DisjointUpdate(h.entries, h.freeEntry, e);
    } else {
      DisjointAppend(h.entries, e);
    }
  }

  lemma ApartFromUnheld(entries: seq<Entry>, i: nat, offset: nat, size: nat)
    requires i < |entries| && entries[i].live && entries[i].size > 0 && size > 0
    requires forall p :: offset <= p < offset + size ==> !Held(entries, p)
    ensures entries[i].offset + entries[i].size <= offset || offset + size <= entries[i].offset
  {
    var e := entries[i];
    var p := if e.offset < offset then offset else e.offset;
    assert e.Covers(p) <==> p < e.offset + e.size;
    assert offset <= p < offset + size ==> !Held(entries, p);
  }

  // ---- Sorting the live blocks ----

  /** `blocks` are the live blocks in offset order. */
  ghost predicate Lists(entries: seq<Entry>, blocks: seq<Block>) {
    && InOrder(blocks)
    && (forall i :: 0 <= i < |blocks| ==>
          blocks[i].id < |entries| && entries[blocks[i].id].live && blocks[i] == BlockOf(entries, blocks[i].id))
    && (forall id :: 0 <= id < |entries| && entries[id].live ==> BlockOf(entries, id) in blocks)
  }

  lemma {:induction false} LiveBlocksAre(entries: seq<Entry>, n: nat)
    requires n <= |entries|
    ensures forall b :: b in LiveBlocks(entries, n) <==> b.id < n && entries[b.id].live && b == BlockOf(entries, b.id)
    ensures forall i, j :: 0 <= i < j < |LiveBlocks(entries, n)| ==> LiveBlocks(entries, n)[i].id < LiveBlocks(entries, n)[j].id
  {
    if n > 0 {
      LiveBlocksAre(entries, n - 1);
      var before := LiveBlocks(entries, n - 1);
      assert forall i :: 0 <= i < |before| ==> before[i] in before;
    }
  }

  ghost predicate Apart(a: Block, b: Block) {
    a.End() <= b.offset || b.End() <= a.offset
  }

  /** Inserting a block into blocks it is apart from. */
  lemma {:induction false} InsertKeepsOrder(blocks: seq<Block>, b: Block)
    requires InOrder(blocks) && b.size > 0
    requires forall x :: x in blocks ==> Apart(x, b)
    ensures InOrder(Insert(blocks, b))
    ensures forall x :: x in Insert(blocks, b) <==> x in blocks || x == b
  {
    if blocks != [] {
      var last, init := blocks[|blocks| - 1], blocks[..|blocks| - 1];
      assert last in blocks;
      assert blocks == init + [last];
      if last.offset <= b.offset {
        InOrderAppend(blocks, b);
      } else {
        InsertKeepsOrder(init, b);
        LastAfter(blocks);
        InOrderExtend(Insert(init, b), last);
      }
    }
  }

  lemma LastAfter(blocks: seq<Block>)
    requires InOrder(blocks) && blocks != []
    ensures forall x :: x in blocks[..|blocks| - 1] ==> x.End() <= blocks[|blocks| - 1].offset
  {
  }

  lemma InOrderExtend(blocks: seq<Block>, last: Block)
    requires InOrder(blocks) && last.size > 0 && forall x :: x in blocks ==> x.End() <= last.offset
    ensures InOrder(blocks + [last])
  {
    assert forall i :: 0 <= i < |blocks| ==> blocks[i] in blocks;
    InOrderAppend(blocks, last);
  }

  lemma {:induction false} SortKeepsBlocks(blocks: seq<Block>)
    requires forall i :: 0 <= i < |blocks| ==> blocks[i].size > 0
    requires forall i, j :: 0 <= i < j < |blocks| ==> Apart(blocks[i], blocks[j])
    ensures InOrder(SortByOffset(blocks))
    ensures forall x :: x in SortByOffset(blocks) <==> x in blocks
  {
    if blocks != [] {
      var last, init := blocks[|blocks| - 1], blocks[..|blocks| - 1];
      assert blocks == init + [last];
      SortKeepsBlocks(init);
      forall x | x in SortByOffset(init) ensures Apart(x, last) {
        var k :| 0 <= k < |init| && init[k] == x;
        assert Apart(blocks[k], blocks[|blocks| - 1]);
      }
      InsertKeepsOrder(SortByOffset(init), last);
    }
  }

  lemma ItemsList(entries: seq<Entry>)
    requires Disjoint(entries)
    ensures Lists(entries, Items(entries))
  {
    var blocks := LiveBlocks(entries, |entries|);
    LiveBlocksAre(entries, |entries|);
    forall i, j | 0 <= i < j < |blocks| ensures Apart(blocks[i], blocks[j]) {
      assert blocks[i] in blocks && blocks[j] in blocks;
    }
    forall i | 0 <= i < |blocks| ensures blocks[i].size > 0 {
      assert blocks[i] in blocks;
    }
    SortKeepsBlocks(blocks);
    var items := Items(entries);
    forall i | 0 <= i < |items|
      ensures items[i].id < |entries| && entries[items[i].id].live && items[i] == BlockOf(entries, items[i].id)
    {
      assert items[i] in items;
    }
  }

  /** There is only one list of the live blocks in offset order. */
  lemma {:induction false} OrderIsUnique(a: seq<Block>, b: seq<Block>)
    requires InOrder(a) && InOrder(b) && forall x :: x in a <==> x in b
    ensures a == b
  {
    if a == [] {
      if b != [] {
        HasFirst(b);
      }
    } else {
      FirstIsSame(a, b);
      TailInOrder(a);
      TailInOrder(b);
      hide InOrder;
      forall x ensures x in a[1..] <==> x in b[1..] {
        TailHas(a, x);
        TailHas(b, x);
      }
      OrderIsUnique(a[1..], b[1..]);
      assert a == [a[0]] + a[1..] && b == [b[0]] + b[1..];
    }
  }

  lemma TailInOrder(a: seq<Block>)
    requires InOrder(a) && a != []
    ensures InOrder(a[1..])
  {
  }

  lemma FirstIsSame(a: seq<Block>, b: seq<Block>)
    requires InOrder(a) && InOrder(b) && a != [] && forall x :: x in a <==> x in b
    ensures b != [] && a[0] == b[0]
  {
    assert a[0] in a;
    var j :| 0 <= j < |b| && b[j] == a[0];
    assert b[0] in b;
    var k :| 0 <= k < |a| && a[k] == b[0];
  }

  lemma HasFirst(a: seq<Block>)
    requires a != []
    ensures a[0] in a
  {
  }

  lemma TailHas(a: seq<Block>, x: Block)
    requires InOrder(a) && a != []
    ensures x in a[1..] <==> x in a && x != a[0]
  {
    if x in a[1..] {
      var i :| 0 <= i < |a[1..]| && a[1..][i] == x;
      assert a[i + 1] == x;
    }
    if x in a && x != a[0] {
      var i :| 0 <= i < |a| && a[i] == x;
      assert a[1..][i - 1] == x;
    }
  }

  lemma ItemsUnique(entries: seq<Entry>, blocks: seq<Block>)
    requires Disjoint(entries) && Lists(entries, blocks)
    ensures Items(entries) == blocks
  {
    ItemsList(entries);
    forall x ensures x in Items(entries) <==> x in blocks {
      ListsHas(entries, blocks, x);
      ListsHas(entries, Items(entries), x);
    }
    OrderIsUnique(Items(entries), blocks);
  }

  lemma ListsHas(entries: seq<Entry>, blocks: seq<Block>, x: Block)
    requires Lists(entries, blocks)
    ensures x in blocks <==> x.id < |entries| && entries[x.id].live && x == BlockOf(entries, x.id)
  {
  }

  // ---- Allocating and freeing keep the invariant ----

  lemma ChainHeadInTable(h: Heap)
    requires Valid(h)
    ensures h.freeEntry < |h.entries|
  {
  }

  /** Allocation takes the lowest place where so many bytes are free, and nothing else;
      it fails only if there is none. */
  lemma AllocateKeeps(h: Heap, size: nat)
    requires Valid(h) && size > 0
    ensures h.freeEntry < |h.entries|
    ensures var (h', id) := Allocate(h, size);
            && Valid(h')
            && (id.None? <==> forall offset: nat :: !AllFree(h.free, offset, size))
            && (id.None? ==> h' == h)
            && (id.Some? ==>
                  && id.value > 0 && !h.Live(id.value) && h'.Live(id.value) && h'.entries[id.value].size == size
                  && AllFree(h.free, h'.entries[id.value].offset, size)
                  && (forall lower: nat :: lower < h'.entries[id.value].offset ==> !AllFree(h.free, lower, size))
                  && id.value == (if h.freeEntry != 0 then h.freeEntry else |h.entries|)
                  && |h.entries| <= |h'.entries|
                  && (forall i :: 0 <= i < |h'.entries| && i != id.value ==>
                        i < |h.entries| && h'.entries[i] == h.entries[i]))
  {
    ChainHeadInTable(h);
    var i := FirstFit(h.free, 0, size);
    FirstIsLowest(h.free, SPACE, i, size);
    if i < |h.free| {
      var offset := h.free[i].offset;
      forall p | offset <= p < offset + size ensures !Held(h.entries, p) {
        assert h.free[i].Has(p);
        assert FreeAt(h.free, p);
      }
      var h1 := h.(free := Carve(h.free, i, offset, size));
      PushedEntry(h1, offset, size);
      PushKeepsDisjoint(h, offset, size);
      AllocateTiles(h, i, size);
    }
  }

  lemma AllocateTiles(h: Heap, i: nat, size: nat)
    requires Valid(h) && size > 0 && i < |h.free| && size <= h.free[i].size
    requires h.freeEntry < |h.entries|
    requires h.freeEntry != 0 ==> !h.entries[h.freeEntry].live
    ensures var offset := h.free[i].offset;
            var (h', id) := PushEntry(h.(free := Carve(h.free, i, offset, size)), offset, size);
            && WellFormed(h'.free, SPACE)
            && forall p: nat :: FreeAt(h'.free, p) <==> p < SPACE && !Held(h'.entries, p)
  {
    var offset := h.free[i].offset;
    var e := Entry(offset, size, true);
    var (h', id) := PushEntry(h.(free := Carve(h.free, i, offset, size)), offset, size);
    CarveWellFormed(h.free, i, offset, size, SPACE);
    forall p: nat ensures FreeAt(h'.free, p) <==> p < SPACE && !Held(h'.entries, p) {
      CarveFree(h.free, i, offset, size, SPACE, p);
      if h.freeEntry != 0 {
        HeldAfterUpdate(h.entries, id, e, p);
      } else {
        HeldAfterAppend(h.entries, e, p);
      }
    }
  }

  lemma DeallocateKeeps(h: Heap, id: nat)
    requires Valid(h) && h.Live(id)
    ensures Valid(Deallocate(h, id))
    ensures var h' := Deallocate(h, id);
            && !h'.Live(id) && |h'.entries| == |h.entries| && h'.freeEntry == id
            && forall i :: 0 <= i < |h.entries| && i != id ==> h'.entries[i] == h.entries[i]
  {
    var h' := Deallocate(h, id);
    var e := h.entries[id];
    var chain :| Threaded(h.entries, OffsetOf(), IsLive(), h.freeEntry, chain);
    PushKeeps(h.entries, OffsetOf(), IsLive(), h.freeEntry, chain, id, Entry(h.freeEntry, e.size, false));
    assert Unclaimed(h.free, e.offset, e.size) by {
      forall p | e.offset <= p < e.offset + e.size ensures !FreeAt(h.free, p) {
        assert e.Covers(p);
        assert Held(h.entries, p);
      }
    }
    ReleaseWellFormed(h.free, e.offset, e.size, SPACE);
    forall p: nat ensures FreeAt(h'.free, p) <==> p < SPACE && !Held(h'.entries, p) {
      ReleaseFree(h.free, e.offset, e.size, p);
      HeldAfterFree(h.entries, id, h'.entries[id], p);
    }
  }

  lemma HeldAfterFree(entries: seq<Entry>, id: nat, dead: Entry, p: nat)
    requires Disjoint(entries) && id < |entries| && entries[id].live && !dead.live
    ensures Held(entries[id := dead], p) <==> Held(entries, p) && !entries[id].Covers(p)
  {
    var after := entries[id := dead];
    if Held(after, p) {
      var i :| 0 <= i < |after| && after[i].Covers(p);
      assert entries[i].Covers(p);
    }
    if Held(entries, p) && !entries[id].Covers(p) {
      var i :| 0 <= i < |entries| && entries[i].Covers(p);
      assert after[i].Covers(p);
    }
  }

  /** Freeing the newest allocation undoes the allocation: the free list is
      restored range for range. */
  lemma AllocateThenDeallocate(h: Heap, size: nat)
    requires Valid(h) && size > 0
    ensures h.freeEntry < |h.entries|
    ensures Allocate(h, size).1.Some? ==>
              var (h', id) := Allocate(h, size);
              h'.Live(id.value) && Deallocate(h', id.value).free == h.free
  {
    var i := FirstFit(h.free, 0, size);
    ChainHeadInTable(h);
    if i < |h.free| {
      PushedEntry(h.(free := Carve(h.free, i, h.free[i].offset, size)), h.free[i].offset, size);
      CarveThenRelease(h.free, i, h.free[i].offset, size, SPACE);
    }
  }

  // ---- Compaction keeps the invariant ----

  /** Only the offsets of the placed blocks change. */
  lemma {:induction false} RebindAt(entries: seq<Entry>, placed: seq<Block>, id: nat)
    requires InOrder(placed) && forall i :: 0 <= i < |placed| ==> placed[i].id < |entries|
    requires id < |entries|
    requires forall i, j :: 0 <= i < j < |placed| ==> placed[i].id != placed[j].id
    ensures Rebind(entries, placed)[id].size == entries[id].size
    ensures Rebind(entries, placed)[id].live == entries[id].live
    ensures forall i :: 0 <= i < |placed| && placed[i].id == id ==> Rebind(entries, placed)[id].offset == placed[i].offset
    ensures (forall i :: 0 <= i < |placed| ==> placed[i].id != id) ==> Rebind(entries, placed)[id] == entries[id]
  {
    if placed != [] {
      RebindAt(entries, placed[..|placed| - 1], id);
    }
  }

  ghost predicate DistinctIds(blocks: seq<Block>) {
    forall i, j :: 0 <= i < j < |blocks| ==> blocks[i].id != blocks[j].id
  }

  lemma ListedIdsDistinct(entries: seq<Entry>, blocks: seq<Block>)
    requires Lists(entries, blocks)
    ensures DistinctIds(blocks)
  {
    forall i, j | 0 <= i < j < |blocks| ensures blocks[i].id != blocks[j].id {
      assert blocks[i].End() <= blocks[j].offset;
    }
  }

  /** Rebinding the placed blocks leaves exactly them as the live blocks. */
  lemma RebindLists(entries: seq<Entry>, blocks: seq<Block>, placed: seq<Block>, cursor: nat)
    requires Lists(entries, blocks) && Follows(blocks, placed, cursor)
    ensures forall i :: 0 <= i < |placed| ==> placed[i].id < |entries|
    ensures Lists(Rebind(entries, placed), placed)
  {
    ListedIdsDistinct(entries, blocks);
    assert forall i :: 0 <= i < |placed| ==> placed[i].id == blocks[i].id && placed[i].size == blocks[i].size;
    var after := Rebind(entries, placed);
    forall i | 0 <= i < |placed|
      ensures after[placed[i].id].live && placed[i] == BlockOf(after, placed[i].id)
    {
      RebindAt(entries, placed, placed[i].id);
    }
    forall id | 0 <= id < |after| && after[id].live ensures BlockOf(after, id) in placed {
      RebindAt(entries, placed, id);
      assert BlockOf(entries, id) in blocks;
      var i :| 0 <= i < |blocks| && blocks[i] == BlockOf(entries, id);
      assert placed[i] == BlockOf(after, id);
    }
  }

  lemma ListedDisjoint(entries: seq<Entry>, blocks: seq<Block>)
    requires Lists(entries, blocks)
    requires forall i :: 0 <= i < |blocks| ==> blocks[i].End() <= SPACE
    ensures Disjoint(entries)
  {
    forall id | 0 <= id < |entries| && entries[id].live ensures InSpace(entries[id]) {
      var k :| 0 <= k < |blocks| && blocks[k] == BlockOf(entries, id);
    }
    forall i, j | 0 <= i < j < |entries| && entries[i].live && entries[j].live
      ensures Separate(entries[i], entries[j])
    {
      var k :| 0 <= k < |blocks| && blocks[k] == BlockOf(entries, i);
      var l :| 0 <= l < |blocks| && blocks[l] == BlockOf(entries, j);
      assert k < l ==> blocks[k].End() <= blocks[l].offset;
      assert l < k ==> blocks[l].End() <= blocks[k].offset;
    }
  }

  lemma HeldMeansCovered(entries: seq<Entry>, blocks: seq<Block>, p: nat)
    requires Lists(entries, blocks)
    ensures Held(entries, p) <==> Covered(blocks, p)
  {
    if Held(entries, p) {
      var id :| 0 <= id < |entries| && entries[id].Covers(p);
      var k :| 0 <= k < |blocks| && blocks[k] == BlockOf(entries, id);
      assert blocks[k].Covers(p);
    }
    if Covered(blocks, p) {
      var k :| 0 <= k < |blocks| && blocks[k].Covers(p);
      assert entries[blocks[k].id].Covers(p);
    }
  }

  /** The blocks of a valid heap all end inside the space. */
  lemma ItemsInSpace(entries: seq<Entry>)
    requires Disjoint(entries)
    ensures forall i :: 0 <= i < |Items(entries)| ==> Items(entries)[i].End() <= SPACE
  {
    ItemsList(entries);
  }

  lemma FreeAfterTiles(blocks: seq<Block>, budget: nat)
    requires InOrder(blocks) && forall i :: 0 <= i < |blocks| ==> blocks[i].End() <= SPACE
    ensures var p := Slide(blocks, budget);
            && WellFormed(FreeAfter(p), SPACE)
            && forall x: nat :: FreeAt(FreeAfter(p), x) <==> x < SPACE && !Covered(p.placed, x)
  {
    var p := Slide(blocks, budget);
    SlidePlaces(blocks, budget);
    SlideGaps(blocks, budget);
    assert p.cursor <= SPACE;
    forall x: nat ensures FreeAt(FreeAfter(p), x) <==> x < SPACE && !Covered(p.placed, x) {
      GapsAreUncovered(blocks, budget, x);
      FreeConcat(p.gaps, [Range(p.cursor, SPACE - p.cursor)], x);
      FreeOne(Range(p.cursor, SPACE - p.cursor), x);
      assert Covered(p.placed, x) ==> x < p.cursor;
    }
  }

  lemma {:induction false} RebindThreads(entries: seq<Entry>, placed: seq<Block>, head: nat, chain: seq<nat>)
    requires Threaded(entries, OffsetOf(), IsLive(), head, chain)
    requires forall i :: 0 <= i < |placed| ==> placed[i].id < |entries| && entries[placed[i].id].live
    ensures Threaded(Rebind(entries, placed), OffsetOf(), IsLive(), head, chain)
    ensures forall id :: 0 <= id < |entries| ==> Rebind(entries, placed)[id].live == entries[id].live
  {
    if placed != [] {
      var b, init := placed[|placed| - 1], placed[..|placed| - 1];
      RebindThreads(entries, init, head, chain);
      var r := Rebind(entries, init);
      UpdateKeeps(r, OffsetOf(), IsLive(), head, chain, b.id, r[b.id].(offset := b.offset));
    }
  }

  /** Compaction keeps the invariant, and the live blocks in offset order are
      afterwards the ones the pass placed. */
  lemma CompactKeeps(h: Heap, budget: nat)
    requires Valid(h)
    ensures Valid(Compact(h, budget))
    ensures Items(Compact(h, budget).entries) == Slide(Items(h.entries), budget).placed
  {
    var blocks := Items(h.entries);
    var p, h' := Slide(blocks, budget), Compact(h, budget);
    ItemsList(h.entries);
    ItemsInSpace(h.entries);
    SlidePlaces(blocks, budget);
    RebindLists(h.entries, blocks, p.placed, p.cursor);
    ListedDisjoint(h'.entries, p.placed);
    ItemsUnique(h'.entries, p.placed);
    FreeAfterTiles(blocks, budget);
    forall x: nat ensures FreeAt(h'.free, x) <==> x < SPACE && !Held(h'.entries, x) {
      HeldMeansCovered(h'.entries, p.placed, x);
    }
    var chain :| Threaded(h.entries, OffsetOf(), IsLive(), h.freeEntry, chain);
    RebindThreads(h.entries, p.placed, h.freeEntry, chain);
  }

  /** If every live block lies in a buffer, so does every item. */
  lemma ItemsInside(entries: seq<Entry>, length: nat)
    requires Disjoint(entries)
    requires forall id :: 0 <= id < |entries| && entries[id].live ==> entries[id].offset + entries[id].size <= length
    ensures Inside(Items(entries), length)
    ensures forall i :: 0 <= i < |Items(entries)| ==> Items(entries)[i].id < |entries|
  {
    ItemsList(entries);
  }

  lemma ItemsInOrder(entries: seq<Entry>)
    requires Disjoint(entries)
    ensures InOrder(Items(entries))
  {
    ItemsList(entries);
  }

  lemma ValidDisjoint(h: Heap)
    requires Valid(h)
    ensures Disjoint(h.entries)
  {
  }

  lemma CompactIsAfterPass(h: Heap, budget: nat)
    requires Valid(h)
    ensures var p := Slide(Items(h.entries), budget);
            && p.bytes <= budget && p.cursor <= SPACE
            && (forall i :: 0 <= i < |p.placed| ==> p.placed[i].id < |h.entries|)
            && Compact(h, budget) == AfterPass(h, p)
  {
    hide Slide, Items, Lists;
    ItemsInSpace(h.entries);
    PlacedInTable(h, budget);
  }
}
