/** The compacting allocator's class, and the buffer that a user moves along
    with it. Each method is tied to the operation on heaps it carries out. */
module CompactingAllocator {
  import opened Wrappers
  import opened FreeList
  import opened Sliding
  import opened Packing
  import opened Merging
  import opened Compacting
  import opened CompactingRuns

  /** A growable buffer in which every allocation is filled with its pattern. */
  class CompactMem {
    var buffer: seq<Byte>
    var sizes: map<nat, nat>

    constructor ()
      ensures buffer == [] && sizes == map[]
    {
      buffer, sizes := [], map[];
    }

    /** Fill a new allocation. */
    method Track(offset: nat, id: nat, size: nat)
      modifies this
      ensures buffer == Fill(old(buffer), offset, PatternBytes(id, size))
      ensures sizes == old(sizes)[id := size]
    {
      if offset + size > |buffer| {
        buffer := buffer + seq(offset + size - |buffer|, _ => FILLER);
      }
      ghost var grown := buffer;
      for i := 0 to size
        invariant |buffer| == |grown| && sizes == old(sizes)
        invariant forall k :: 0 <= k < offset || offset + i <= k < |grown| ==> buffer[k] == grown[k]
        invariant forall k :: offset <= k < offset + i ==> buffer[k] == Pattern(id, k - offset)
      {
        buffer := buffer[offset + i := Pattern(id, i)];
      }
      assert buffer == grown[..offset] + PatternBytes(id, size) + grown[offset + size..];
      sizes := sizes[id := size];
    }

    /** The callback given to the allocator. The move goes left, so copying from
        the first byte on never reads one already overwritten. */
    method MoveMemory(from: nat, to: nat, size: nat)
      requires from + size <= |buffer| && to < from
      modifies this`buffer
      ensures buffer == Memmove(old(buffer), Move(from, to, size))
    {
      for i := 0 to size
        invariant |buffer| == |old(buffer)|
        invariant forall k :: 0 <= k < to || to + i <= k < |buffer| ==> buffer[k] == old(buffer)[k]
        invariant forall k :: to <= k < to + i ==> buffer[k] == old(buffer)[k - to + from]
      {
        buffer := buffer[to + i := buffer[from + i]];
      }
      assert buffer == Memmove(old(buffer), Move(from, to, size));
    }

    /** Whether every tracked allocation still holds its pattern where the
        allocator now says it is. */
    method VerifyAll(entries: seq<Entry>) returns (ok: bool)
      requires forall id :: id in sizes ==> id < |entries|
      ensures ok <==>
              forall id :: id in sizes ==>
                && entries[id].offset + sizes[id] <= |buffer|
                && buffer[entries[id].offset..entries[id].offset + sizes[id]] == PatternBytes(id, sizes[id])
    {
      ok := true;
      var pending := sizes.Keys;
      while pending != {}
        invariant pending <= sizes.Keys
        invariant ok <==>
                  forall id :: id in sizes && id !in pending ==>
                    && entries[id].offset + sizes[id] <= |buffer|
                    && buffer[entries[id].offset..entries[id].offset + sizes[id]] == PatternBytes(id, sizes[id])
        decreases pending
      {
        var id :| id in pending;
        var offset, size := entries[id].offset, sizes[id];
        pending := pending - {id};
        if offset + size > |buffer| {
          ok := false;
        } else {
          var same := true;
          for i := 0 to size
            invariant same <==> buffer[offset..offset + i] == PatternBytes(id, size)[..i]
          {
            ghost var slice, bytes := buffer[offset..offset + i + 1], PatternBytes(id, size)[..i + 1];
            assert slice == buffer[offset..offset + i] + [buffer[offset + i]];
            assert bytes == PatternBytes(id, size)[..i] + [Pattern(id, i)];
            same := same && buffer[offset + i] == Pattern(id, i);
          }
          assert PatternBytes(id, size)[..size] == PatternBytes(id, size);
          ok := ok && same;
        }
      }
    }
  }

  datatype CompactResult = CompactResult(bytesMoved: nat, moves: nat, allocationsMoved: nat, completed: bool)

  class Allocator {
    var free: seq<Range>
    var entries: seq<Entry>
    var freeEntry: nat

    ghost function Value(): Heap
      reads this
    {
      Heap(free, entries, freeEntry)
    }

    constructor ()
      ensures Value() == INITIAL && Valid(Value())
    {
      free, entries, freeEntry := [Range(0, SPACE)], [Entry(0, 0, false)], 0;
      new;
      InitialValid();
    }

    method PushEntry(offset: nat, size: nat) returns (id: nat)
      requires freeEntry < |entries|
      modifies this
      ensures (Value(), id) == Compacting.PushEntry(old(Value()), offset, size)
    {
      if freeEntry != 0 {
        id := freeEntry;
        freeEntry := entries[id].offset;
      } else {
        id := |entries|;
        entries := entries + [Entry(0, 0, false)];
      }
      entries := entries[id := Entry(offset, size, true)];
      assert entries == if id < |old(entries)| then old(entries)[id := Entry(offset, size, true)]
                        else old(entries) + [Entry(offset, size, true)];
    }

    /** Take the first `size` bytes of a range that has them. */
    method TakeFront(i: nat, size: nat)
      requires i < |free| && size <= free[i].size
      modifies this`free
      ensures free == Carve(old(free), i, old(free)[i].offset, size)
    {
      if free[i].size == size {
        free := free[..i] + free[i + 1..];
      } else {
        free := free[i := Range(free[i].offset + size, free[i].size - size)];
      }
    }

    /** First fit. */
    method Allocate(size: nat) returns (id: Option<nat>)
      requires Valid(Value()) && size > 0
      modifies this
      ensures old(freeEntry) < |old(entries)|
      ensures (Value(), id) == Compacting.Allocate(old(Value()), size)
      ensures Valid(Value())
    {
      hide Valid;
      AllocateKeeps(Value(), size);
      var i := 0;
      while i < |free| && free[i].size < size
        invariant 0 <= i <= |free| && Value() == old(Value())
        invariant FirstFit(free, 0, size) == FirstFit(free, i, size)
      {
        i := i + 1;
      }
      if i < |free| {
        var offset := free[i].offset;
        TakeFront(i, size);
        var slot := PushEntry(offset, size);
        id := Some(slot);
      } else {
        id := None;
      }
    }

    /** Put a range back in the free list, merging it with its neighbours. */
    method GiveBack(offset: nat, size: nat)
      modifies this`free
      ensures free == Release(old(free), offset, size)
    {
      var k := LowerBound(free, offset);
      var mergeLeft := k > 0 && free[k - 1].End() == offset;
      var mergeRight := k < |free| && offset + size == free[k].offset;
      if mergeLeft && mergeRight {
        free := free[k - 1 := Range(free[k - 1].offset, free[k - 1].size + size + free[k].size)];
        free := free[..k] + free[k + 1..];
      } else if mergeLeft {
        free := free[k - 1 := Range(free[k - 1].offset, free[k - 1].size + size)];
      } else if mergeRight {
        free := free[k := Range(offset, free[k].size + size)];
      } else {
        free := free[..k] + [Range(offset, size)] + free[k..];
      }
    }

    method Deallocate(id: nat)
      requires Valid(Value()) && Value().Live(id)
      modifies this
      ensures Value() == Compacting.Deallocate(old(Value()), id)
      ensures Valid(Value())
    {
      DeallocateKeeps(Value(), id);
      var offset, size := entries[id].offset, entries[id].size;
      entries := entries[id := Entry(freeEntry, size, false)];
      freeEntry := id;
      GiveBack(offset, size);
    }

    /** Slide the live allocations down within the budget, then report every
        range to move to the callback. */
    method Compact(mem: CompactMem, budget: nat) returns (result: CompactResult)
      requires Valid(Value())
      requires forall id :: 0 <= id < |entries| && entries[id].live ==> entries[id].offset + entries[id].size <= |mem.buffer|
      modifies this, mem`buffer
      ensures Value() == Compacting.Compact(old(Value()), budget) && Valid(Value())
      ensures var p := Slide(Items(old(entries)), budget);
              && AllFit(p.moves, |old(mem.buffer)|)
              && mem.buffer == Replay(old(mem.buffer), p.moves)
              && result == CompactResult(p.bytes, |p.moves|, p.moved, p.completed)
      ensures result.bytesMoved <= budget
      ensures var blocks := Items(old(entries));
              var placed := Slide(blocks, budget).placed;
              && |placed| == |blocks| && result.moves == Runs(blocks, placed)
              && exists stop: nat :: StopsAt(blocks, budget, Slide(blocks, budget), stop)
    {
      hide Slide, Items, Rebind, Compacting.Compact, Valid, Replay, Lists, Runs, StopsAt;
      ghost var p := Slide(Items(entries), budget);
      ValidDisjoint(Value());
      ItemsInside(entries, |mem.buffer|);
      ItemsInside(entries, SPACE);
      ItemsInOrder(entries);
      SlideCarriesBytes(Items(entries), budget, mem.buffer);
      MovesAreRuns(Items(entries), budget);
      SlideStops(Items(entries), budget);
      CompactIsAfterPass(Value(), budget);
      CompactKeeps(Value(), budget);
      ghost var after := AfterPass(Value(), p);
      var items := CollectItems();
      var moves, cursor;
      result, moves, cursor := PassOver(items, budget);
      assert moves == p.moves && free == p.gaps && cursor == p.cursor;
      if cursor != SPACE {
        free := free + [Range(cursor, SPACE - cursor)];
      }
      result := result.(moves := |moves|);
      ReportMoves(mem, moves);
      assert Value() == after;
    }

    /** The loop over the blocks: decide where each goes, rebind it, and collect
        the moves and the gaps. */
    method PassOver(items: seq<Block>, budget: nat) returns (result: CompactResult, moves: seq<Move>, cursor: nat)
      requires InOrder(items) && IdsIn(items, entries)
      requires forall k :: 0 <= k < |items| ==> items[k].End() <= SPACE
      modifies this`entries, this`free
      ensures PassIs(Slide(items, budget), cursor, result.completed, result, moves, free)
      ensures IdsIn(Slide(items, budget).placed, old(entries))
      ensures entries == Rebind(old(entries), Slide(items, budget).placed)
      ensures |Slide(items, budget).placed| == |items|
      ensures NoneTouch(moves) && |moves| == Runs(items, Slide(items, budget).placed)
    {
      ghost var entries0, p := entries, Sliding.START;
      var budgetLeft := true;
      moves, cursor := [], 0;
      result := CompactResult(0, 0, 0, true);
      free := [];
      for i := 0 to |items|
        invariant p == Slide(items[..i], budget)
        invariant IdsIn(p.placed, entries0) && entries == Rebind(entries0, p.placed)
        invariant PassIs(p, cursor, budgetLeft, result, moves, free)
      {
        assert items[..i + 1][..i] == items[..i];
        BudgetSumFits(items, budget, i);
        cursor, budgetLeft, result, moves := PlaceItem(items[i], budget, cursor, budgetLeft, result, moves, p);
        RebindOne(entries0, p.placed, items[i].At(Target(p, items[i], budget)));
        p := Place(p, items[i], budget);
      }
      assert items[..|items|] == items;
      MovesAreRuns(items, budget);
    }

    ghost predicate IdsIn(blocks: seq<Block>, table: seq<Entry>) {
      forall k :: 0 <= k < |blocks| ==> blocks[k].id < |table|
    }

    /** The loop's variables hold the pass so far. */
    ghost predicate PassIs(p: Pass, cursor: nat, budgetLeft: bool, result: CompactResult, moves: seq<Move>, gaps: seq<Range>) {
      && p.cursor == cursor && p.completed == budgetLeft == result.completed
      && p.bytes == result.bytesMoved && p.moved == result.allocationsMoved
      && p.moves == moves && p.gaps == gaps
    }

    lemma RebindOne(table: seq<Entry>, placed: seq<Block>, b: Block)
      requires IdsIn(placed, table) && b.id < |table|
      ensures IdsIn(placed + [b], table)
      ensures Rebind(table, placed + [b]) ==
              Rebind(table, placed)[b.id := Rebind(table, placed)[b.id].(offset := b.offset)]
    {
      assert (placed + [b])[..|placed|] == placed;
    }

    /** One round of the pass. */
    method PlaceItem(it: Block, budget: nat, cursor: nat, budgetLeft: bool, result: CompactResult, moves: seq<Move>, ghost p: Pass)
      returns (cursor': nat, budgetLeft': bool, result': CompactResult, moves': seq<Move>)
      requires PassIs(p, cursor, budgetLeft, result, moves, free)
      requires it.id < |entries| && result.bytesMoved + it.size <= SPACE
      modifies this`entries, this`free
      ensures entries == old(entries)[it.id := old(entries)[it.id].(offset := Target(p, it, budget))]
      ensures PassIs(Place(p, it, budget), cursor', budgetLeft', result', moves', free)
      ensures NoneTouch(moves) ==> NoneTouch(moves')
    {
      result', budgetLeft', moves' := result, budgetLeft, moves;
      var to := if budgetLeft then cursor else it.offset;
      if to != it.offset && result.bytesMoved + it.size > budget {
        result' := result'.(completed := false);
        budgetLeft' := false;
        to := it.offset;
      }
      if to != it.offset {
        result' := result'.(bytesMoved := result.bytesMoved + it.size, allocationsMoved := result.allocationsMoved + 1);
        var last := |moves| - 1;
        if moves != [] && moves[last].from + moves[last].size == it.offset && moves[last].to + moves[last].size == to {
          moves' := moves[..last] + [moves[last].(size := moves[last].size + it.size)];
        } else {
          moves' := moves + [Move(it.offset, to, it.size)];
        }
      }
      entries := entries[it.id := entries[it.id].(offset := to)];
      if to > cursor {
        free := free + [Range(cursor, to - cursor)];
      }
      cursor' := to + it.size;
      if NoneTouch(moves) {
        NoneTouchPush(moves, Move(it.offset, to, it.size));
      }
    }

    /** No 32-bit sum of the pass wraps. */
    lemma BudgetSumFits(items: seq<Block>, budget: nat, i: nat)
      requires InOrder(items) && (forall k :: 0 <= k < |items| ==> items[k].End() <= SPACE) && i < |items|
      ensures Slide(items[..i], budget).bytes + items[i].size <= SPACE
    {
      MovedAtMostAll(items[..i], budget);
      TightBelow(items, i + 1);
      TightBelow(items, i);
      if i > 0 {
        assert items[i - 1].End() <= items[i].offset;
      }
    }

    method CollectItems() returns (items: seq<Block>)
      requires Valid(Value())
      ensures items == Items(entries)
    {
      items := [];
      for id := 1 to |entries|
        invariant items == LiveBlocks(entries, id)
      {
        if entries[id].live {
          items := items + [BlockOf(entries, id)];
        }
      }
      items := SortByOffset(items);
    }

    method ReportMoves(mem: CompactMem, moves: seq<Move>)
      requires AllFit(moves, |mem.buffer|)
      modifies mem`buffer
      ensures mem.buffer == Replay(old(mem.buffer), moves)
    {
      for i := 0 to |moves|
        invariant |mem.buffer| == |old(mem.buffer)|
        invariant mem.buffer == Replay(old(mem.buffer), moves[..i])
      {
        assert moves[..i + 1][..i] == moves[..i];
        mem.MoveMemory(moves[i].from, moves[i].to, moves[i].size);
      }
      assert moves[..|moves|] == moves;
    }
  }
}
