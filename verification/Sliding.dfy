/** The compaction pass, as it acts on the live blocks in offset order.

    Slide is the loop of compacting_allocator::compact: one block at a time it
    decides where the block goes, merges its move with the one before if they
    touch, and notes the gap it leaves. The lemmas say where the blocks end up,
    that replaying the merged moves in a buffer carries every byte along although
    moves overlap themselves and old blocks, and how far a budget reaches. */
module Sliding {
  import opened Wrappers
  import opened FreeList
  import opened Sums

  datatype Block = Block(id: nat, offset: nat, size: nat) {
    function End(): nat { offset + size }

    function At(to: nat): Block { Block(id, to, size) }

    predicate Covers(p: nat) { offset <= p < End() }
  }

  datatype Move = Move(from: nat, to: nat, size: nat)

  /** Non-empty blocks in offset order, none overlapping the next. */
  ghost predicate InOrder(blocks: seq<Block>) {
    && (forall i :: 0 <= i < |blocks| ==> blocks[i].size > 0)
    && (forall i, j :: 0 <= i < j < |blocks| ==> blocks[i].End() <= blocks[j].offset)
  }

  ghost function Weight(): Block -> nat {
    (b: Block) => b.size
  }

  ghost function Bytes(blocks: seq<Block>): nat {
    Sum(blocks, Weight())
  }

  datatype Pass = Pass(cursor: nat, bytes: nat, moved: nat, completed: bool,
                       moves: seq<Move>, placed: seq<Block>, gaps: seq<Range>)

  const START := Pass(0, 0, 0, true, [], [], [])

  /** The move starts, on both sides, where the last one ends. */
  predicate Continues(moves: seq<Move>, m: Move) {
    && moves != []
    && moves[|moves| - 1].from + moves[|moves| - 1].size == m.from
    && moves[|moves| - 1].to + moves[|moves| - 1].size == m.to
  }

  /** Add a move, or lengthen the last one if the new one continues it. */
  function Push(moves: seq<Move>, m: Move): seq<Move> {
    if Continues(moves, m) then moves[..|moves| - 1] + [Move(moves[|moves| - 1].from, moves[|moves| - 1].to, moves[|moves| - 1].size + m.size)]
    else moves + [m]
  }

  function Target(p: Pass, it: Block, budget: nat): nat {
    if p.completed && (p.cursor == it.offset || p.bytes + it.size <= budget) then p.cursor else it.offset
  }

  function Place(p: Pass, it: Block, budget: nat): Pass {
    var to := Target(p, it, budget);
    var gaps := if to > p.cursor then p.gaps + [Range(p.cursor, to - p.cursor)] else p.gaps;
    if to == it.offset then
      Pass(to + it.size, p.bytes, p.moved, p.completed && p.cursor == it.offset, p.moves, p.placed + [it.At(to)], gaps)
    else
      Pass(to + it.size, p.bytes + it.size, p.moved + 1, p.completed,
           Push(p.moves, Move(it.offset, to, it.size)), p.placed + [it.At(to)], gaps)
  }

  function Slide(blocks: seq<Block>, budget: nat): Pass {
    if blocks == [] then START
    else Place(Slide(blocks[..|blocks| - 1], budget), blocks[|blocks| - 1], budget)
  }

  // ---- Where the blocks end up ----

  /** Each block kept its identity and place in the order, none went up, and the
      cursor is the end of the last. */
  ghost predicate Follows(blocks: seq<Block>, placed: seq<Block>, cursor: nat) {
    && |placed| == |blocks|
    && (forall i :: 0 <= i < |blocks| ==>
          placed[i] == blocks[i].At(placed[i].offset) && placed[i].offset <= blocks[i].offset)
    && (forall i :: 0 <= i < |blocks| ==> placed[i].End() <= cursor)
    && InOrder(placed)
    && cursor == (if placed == [] then 0 else placed[|placed| - 1].End())
  }

  ghost predicate Placed(blocks: seq<Block>, budget: nat, p: Pass) {
    && Follows(blocks, p.placed, p.cursor)
    && p.bytes <= budget
    && (p.completed ==> p.cursor == Bytes(blocks))
  }

  lemma {:induction false} SlidePlaces(blocks: seq<Block>, budget: nat)
    requires InOrder(blocks)
    ensures Placed(blocks, budget, Slide(blocks, budget))
  {
    if blocks != [] {
      var last := |blocks| - 1;
      SlidePlaces(blocks[..last], budget);
      assert blocks[..last] + [blocks[last]] == blocks;
      PlaceStep(blocks[..last], blocks[last], budget, Slide(blocks[..last], budget));
    }
  }

  lemma TargetBetween(p: Pass, it: Block, budget: nat)
    requires p.cursor <= it.offset
    ensures p.cursor <= Target(p, it, budget) <= it.offset
    ensures Place(p, it, budget).completed ==> p.completed && Target(p, it, budget) == p.cursor
  {
  }

  lemma PlaceStep(blocks: seq<Block>, it: Block, budget: nat, before: Pass)
    requires InOrder(blocks + [it]) && Placed(blocks, budget, before)
    ensures before.cursor <= it.offset
    ensures Placed(blocks + [it], budget, Place(before, it, budget))
  {
    var all, n := blocks + [it], |blocks|;
    assert all[n] == it && it.size > 0;
    if n > 0 {
      assert all[n - 1] == blocks[n - 1];
      assert all[n - 1].End() <= all[n].offset;
    }
    TargetBetween(before, it, budget);
    SumAppend(blocks, it, Weight());
    FollowsAppend(blocks, before.placed, before.cursor, it, Target(before, it, budget));
  }

  lemma FollowsAppend(blocks: seq<Block>, placed: seq<Block>, cursor: nat, it: Block, to: nat)
    requires Follows(blocks, placed, cursor) && cursor <= to <= it.offset && it.size > 0
    ensures Follows(blocks + [it], placed + [it.At(to)], to + it.size)
  {
    InOrderAppend(placed, it.At(to));
  }

  lemma InOrderAppend(blocks: seq<Block>, b: Block)
    requires InOrder(blocks) && b.size > 0
    requires forall i :: 0 <= i < |blocks| ==> blocks[i].End() <= b.offset
    ensures InOrder(blocks + [b])
  {
  }

  /** A prefix of the blocks is placed as it would be alone. */
  lemma {:induction false} SlidePrefix(blocks: seq<Block>, budget: nat, n: nat)
    requires n <= |blocks|
    ensures n <= |Slide(blocks, budget).placed| == |blocks|
    ensures Slide(blocks, budget).placed[..n] == Slide(blocks[..n], budget).placed
    ensures Slide(blocks, budget).completed ==> Slide(blocks[..n], budget).completed
    ensures Slide(blocks[..n], budget).bytes <= Slide(blocks, budget).bytes
  {
    if n == |blocks| {
      assert blocks[..n] == blocks;
      SlideLength(blocks, budget);
    } else {
      var init := blocks[..|blocks| - 1];
      SlidePrefix(init, budget, n);
      assert init[..n] == blocks[..n];
    }
  }

  lemma {:induction false} SlideLength(blocks: seq<Block>, budget: nat)
    ensures |Slide(blocks, budget).placed| == |blocks|
  {
    if blocks != [] {
      SlideLength(blocks[..|blocks| - 1], budget);
    }
  }

  /** The free bytes below the cursor are the ones no placed block covers, and
      the gaps list them as a well-formed free list. */
  ghost predicate Covered(blocks: seq<Block>, p: nat) {
    exists i :: 0 <= i < |blocks| && blocks[i].Covers(p)
  }

  ghost predicate GapsFit(p: Pass) {
    && WellFormed(p.gaps, p.cursor)
    && (forall i :: 0 <= i < |p.gaps| ==> p.gaps[i].End() < p.cursor)
  }

  lemma {:induction false} SlideGaps(blocks: seq<Block>, budget: nat)
    requires InOrder(blocks)
    ensures GapsFit(Slide(blocks, budget))
  {
    if blocks != [] {
      var last := |blocks| - 1;
      SlideGaps(blocks[..last], budget);
      CursorBehind(blocks, budget);
      PlaceGapsFit(Slide(blocks[..last], budget), blocks[last], budget);
    }
  }

  lemma PlaceGapsFit(p: Pass, it: Block, budget: nat)
    requires GapsFit(p) && p.cursor <= it.offset && it.size > 0
    ensures GapsFit(Place(p, it, budget))
  {
    TargetBetween(p, it, budget);
    var to := Target(p, it, budget);
    if to > p.cursor {
      WellFormedConcat(p.gaps, [Range(p.cursor, to - p.cursor)], to + it.size);
    }
  }

  /** The cursor never passes the next block. */
  lemma CursorBehind(blocks: seq<Block>, budget: nat)
    requires InOrder(blocks) && blocks != []
    ensures Slide(blocks[..|blocks| - 1], budget).cursor <= blocks[|blocks| - 1].offset
  {
    SlidePlaces(blocks[..|blocks| - 1], budget);
  }

  lemma {:induction false} GapsAreUncovered(blocks: seq<Block>, budget: nat, x: nat)
    requires InOrder(blocks)
    ensures var p := Slide(blocks, budget);
            FreeAt(p.gaps, x) <==> x < p.cursor && !Covered(p.placed, x)
  {
    if blocks != [] {
      var last := |blocks| - 1;
      GapsAreUncovered(blocks[..last], budget, x);
      SlidePlaces(blocks[..last], budget);
      CursorBehind(blocks, budget);
      PlaceGaps(Slide(blocks[..last], budget), blocks[last], budget, x);
    }
  }

  lemma PlaceGaps(p: Pass, it: Block, budget: nat, x: nat)
    requires p.cursor <= it.offset
    requires forall i :: 0 <= i < |p.placed| ==> p.placed[i].End() <= p.cursor
    requires FreeAt(p.gaps, x) <==> x < p.cursor && !Covered(p.placed, x)
    ensures var q := Place(p, it, budget);
            FreeAt(q.gaps, x) <==> x < q.cursor && !Covered(q.placed, x)
  {
    TargetBetween(p, it, budget);
    var to := Target(p, it, budget);
    var gap := Range(p.cursor, to - p.cursor);
    FreeConcat(p.gaps, [gap], x);
    FreeOne(gap, x);
    CoveredByAppend(p.placed, it.At(to), x);
    assert Covered(p.placed, x) ==> x < p.cursor;
  }

  lemma CoveredByAppend(blocks: seq<Block>, b: Block, x: nat)
    ensures Covered(blocks + [b], x) <==> Covered(blocks, x) || b.Covers(x)
  {
    var all := blocks + [b];
    if Covered(blocks, x) {
      var i :| 0 <= i < |blocks| && blocks[i].Covers(x);
      assert all[i].Covers(x);
    }
    if b.Covers(x) {
      assert all[|blocks|].Covers(x);
    }
  }

  // ---- The bytes ----

  /** std::memmove within one buffer: the ranges may overlap. */
  function Memmove(buffer: seq<Byte>, m: Move): seq<Byte>
    requires m.to <= m.from && m.from + m.size <= |buffer|
  {
    buffer[..m.to] + buffer[m.from..m.from + m.size] + buffer[m.to + m.size..]
  }

  /** What the callback demands of a move: strictly leftward and inside the buffer. */
  predicate Fits(m: Move, length: nat) {
    m.to < m.from && m.from + m.size <= length
  }

  predicate AllFit(moves: seq<Move>, length: nat) {
    forall i :: 0 <= i < |moves| ==> Fits(moves[i], length)
  }

  function Replay(buffer: seq<Byte>, moves: seq<Move>): (after: seq<Byte>)
    requires AllFit(moves, |buffer|)
    ensures |after| == |buffer|
  {
    if moves == [] then buffer
    else Memmove(Replay(buffer, moves[..|moves| - 1]), moves[|moves| - 1])
  }

  /** Sliding one block at a time: a move for every block that changes place. */
  function Singles(blocks: seq<Block>, placed: seq<Block>): seq<Move>
    requires |blocks| == |placed|
  {
    if blocks == [] then []
    else
      var last := |blocks| - 1;
      var before := Singles(blocks[..last], placed[..last]);
      if placed[last].offset == blocks[last].offset then before
      else before + [Move(blocks[last].offset, placed[last].offset, blocks[last].size)]
  }

  /** Two moves that touch, one after the other, are their union at once. */
  lemma MergedMove(buffer: seq<Byte>, m: Move, size: nat)
    requires Fits(m, |buffer|) && m.from + m.size + size <= |buffer|
    ensures Memmove(Memmove(buffer, m), Move(m.from + m.size, m.to + m.size, size)) ==
            Memmove(buffer, Move(m.from, m.to, m.size + size))
  {
  }

  lemma ReplayOne(buffer: seq<Byte>, moves: seq<Move>, m: Move)
    requires AllFit(moves, |buffer|) && Fits(m, |buffer|)
    ensures AllFit(moves + [m], |buffer|)
    ensures Replay(buffer, moves + [m]) == Memmove(Replay(buffer, moves), m)
  {
    assert (moves + [m])[..|moves|] == moves;
  }

  lemma PushReplays(buffer: seq<Byte>, moves: seq<Move>, m: Move)
    requires AllFit(moves, |buffer|) && Fits(m, |buffer|)
    ensures AllFit(Push(moves, m), |buffer|)
    ensures Replay(buffer, Push(moves, m)) == Memmove(Replay(buffer, moves), m)
  {
    hide Replay, Memmove;
    if Continues(moves, m) {
      var init, last := moves[..|moves| - 1], moves[|moves| - 1];
      assert moves == init + [last];
      ReplayOne(buffer, init, last);
      ReplayOne(buffer, init, Move(last.from, last.to, last.size + m.size));
      MergedMove(Replay(buffer, init), last, m.size);
    } else {
      ReplayOne(buffer, moves, m);
    }
  }

  lemma SinglesStep(blocks: seq<Block>, placed: seq<Block>, it: Block, to: nat)
    requires |blocks| == |placed|
    ensures Singles(blocks + [it], placed + [it.At(to)]) ==
            if to == it.offset then Singles(blocks, placed)
            else Singles(blocks, placed) + [Move(it.offset, to, it.size)]
  {
    assert (blocks + [it])[..|blocks|] == blocks;
    assert (placed + [it.At(to)])[..|placed|] == placed;
  }

  /** The merged moves do to a buffer what the single ones do. There are no more
      of them than blocks moved. */
  ghost predicate SameReplay(blocks: seq<Block>, p: Pass, buffer: seq<Byte>) {
    && |p.placed| == |blocks|
    && AllFit(p.moves, |buffer|) && AllFit(Singles(blocks, p.placed), |buffer|)
    && Replay(buffer, p.moves) == Replay(buffer, Singles(blocks, p.placed))
    && |p.moves| <= p.moved == |Singles(blocks, p.placed)|
  }

  lemma {:induction false} MergedMovesReplay(blocks: seq<Block>, budget: nat, buffer: seq<Byte>)
    requires InOrder(blocks) && Inside(blocks, |buffer|)
    ensures SameReplay(blocks, Slide(blocks, budget), buffer)
  {
    hide SameReplay, Place, Replay;
    if blocks == [] {
      NothingReplays(buffer);
    } else {
      var last := |blocks| - 1;
      MergedMovesReplay(blocks[..last], budget, buffer);
      CursorBehind(blocks, budget);
      assert blocks == blocks[..last] + [blocks[last]];
      PlaceReplays(blocks[..last], Slide(blocks[..last], budget), blocks[last], budget, buffer);
    }
  }

  lemma NothingReplays(buffer: seq<Byte>)
    ensures SameReplay([], START, buffer)
  {
  }

  lemma PlaceReplays(blocks: seq<Block>, p: Pass, it: Block, budget: nat, buffer: seq<Byte>)
    requires SameReplay(blocks, p, buffer) && p.cursor <= it.offset && it.End() <= |buffer|
    ensures SameReplay(blocks + [it], Place(p, it, budget), buffer)
  {
    hide Replay, Memmove, Singles;
    TargetBetween(p, it, budget);
    var to := Target(p, it, budget);
    SinglesStep(blocks, p.placed, it, to);
    if to != it.offset {
      var m := Move(it.offset, to, it.size);
      PushReplays(buffer, p.moves, m);
      ReplayOne(buffer, Singles(blocks, p.placed), m);
    }
  }

  ghost function MoveWeight(): Move -> nat {
    (m: Move) => m.size
  }

  ghost predicate CountsBytes(blocks: seq<Block>, p: Pass) {
    && |p.placed| == |blocks|
    && Sum(p.moves, MoveWeight()) == p.bytes
    && Sum(Singles(blocks, p.placed), MoveWeight()) == p.bytes
  }

  /** Merged or not, the moves carry as many bytes as the pass reports. */
  lemma {:induction false} MovesCountBytes(blocks: seq<Block>, budget: nat)
    ensures CountsBytes(blocks, Slide(blocks, budget))
  {
    hide CountsBytes, Place;
    if blocks == [] {
      NothingWeighs();
    } else {
      var last := |blocks| - 1;
      MovesCountBytes(blocks[..last], budget);
      assert blocks == blocks[..last] + [blocks[last]];
      PlaceWeighs(blocks[..last], Slide(blocks[..last], budget), blocks[last], budget);
    }
  }

  lemma NothingWeighs()
    ensures CountsBytes([], START)
  {
  }

  lemma PlaceWeighs(blocks: seq<Block>, p: Pass, it: Block, budget: nat)
    requires CountsBytes(blocks, p)
    ensures CountsBytes(blocks + [it], Place(p, it, budget))
  {
    var to := Target(p, it, budget);
    SinglesStep(blocks, p.placed, it, to);
    if to != it.offset {
      var m := Move(it.offset, to, it.size);
      PushWeighs(p.moves, m);
      SumAppend(Singles(blocks, p.placed), m, MoveWeight());
    }
  }

  lemma PushWeighs(moves: seq<Move>, m: Move)
    ensures Sum(Push(moves, m), MoveWeight()) == Sum(moves, MoveWeight()) + m.size
  {
    if Continues(moves, m) {
      var last := |moves| - 1;
      var longer := Move(moves[last].from, moves[last].to, moves[last].size + m.size);
      assert Push(moves, m) == moves[last := longer];
      SumUpdate(moves, last, longer, MoveWeight());
    } else {
      SumAppend(moves, m, MoveWeight());
    }
  }

  function BytesOf(buffer: seq<Byte>, b: Block): seq<Byte>
    requires b.End() <= |buffer|
  {
    buffer[b.offset..b.End()]
  }

  ghost predicate Inside(blocks: seq<Block>, length: nat) {
    forall i :: 0 <= i < |blocks| ==> blocks[i].End() <= length
  }

  /** Every block's bytes are at its new place, and nothing at or past the
      cursor has been touched. */
  ghost predicate Carried(blocks: seq<Block>, p: Pass, before: seq<Byte>, after: seq<Byte>) {
    && |after| == |before| && |p.placed| == |blocks|
    && Inside(blocks, |before|) && Inside(p.placed, |after|)
    && (forall i :: 0 <= i < |blocks| ==> BytesOf(after, p.placed[i]) == BytesOf(before, blocks[i]))
    && p.cursor <= |after| && after[p.cursor..] == before[p.cursor..]
  }

  lemma {:induction false} SlideCarriesBytes(blocks: seq<Block>, budget: nat, buffer: seq<Byte>)
    requires InOrder(blocks) && Inside(blocks, |buffer|)
    ensures AllFit(Slide(blocks, budget).moves, |buffer|)
    ensures Carried(blocks, Slide(blocks, budget), buffer, Replay(buffer, Slide(blocks, budget).moves))
  {
    if blocks != [] {
      var last := |blocks| - 1;
      var p, it := Slide(blocks[..last], budget), blocks[last];
      SlideCarriesBytes(blocks[..last], budget, buffer);
      SlidePlaces(blocks[..last], budget);
      CursorBehind(blocks, budget);
      TargetBetween(p, it, budget);
      assert blocks[..last] + [it] == blocks;
      var m := Move(it.offset, Target(p, it, budget), it.size);
      if m.to == m.from {
        StayCarries(blocks[..last], it, buffer, p, Slide(blocks, budget), Replay(buffer, p.moves));
      } else {
        PushReplays(buffer, p.moves, m);
        MoveCarries(blocks[..last], it, buffer, p, Slide(blocks, budget), Replay(buffer, p.moves), m);
      }
    }
  }

  lemma StayCarries(blocks: seq<Block>, it: Block, buffer: seq<Byte>, p: Pass, q: Pass, b: seq<Byte>)
    requires it.End() <= |buffer| && p.cursor <= it.offset
    requires Carried(blocks, p, buffer, b)
    requires q.placed == p.placed + [it] && q.cursor == it.End()
    ensures Carried(blocks + [it], q, buffer, b)
  {
    SameTail(buffer, b, p.cursor, it);
  }

  lemma MoveCarries(blocks: seq<Block>, it: Block, buffer: seq<Byte>, p: Pass, q: Pass, b: seq<Byte>, m: Move)
    requires it.End() <= |buffer| && p.cursor <= m.to < it.offset
    requires Follows(blocks, p.placed, p.cursor)
    requires Carried(blocks, p, buffer, b)
    requires m.from == it.offset && m.size == it.size
    requires q.placed == p.placed + [it.At(m.to)] && q.cursor == m.to + m.size
    ensures Carried(blocks + [it], q, buffer, Memmove(b, m))
  {
    var a := Memmove(b, m);
    SameTail(buffer, b, p.cursor, it);
    MemmoveMoves(b, m);
    SuffixSame(buffer, b, p.cursor, q.cursor);
    forall i | 0 <= i < |blocks| ensures BytesOf(a, p.placed[i]) == BytesOf(buffer, blocks[i]) {
      MemmoveKeeps(b, m, p.placed[i]);
    }
  }

  lemma SuffixSame(before: seq<Byte>, after: seq<Byte>, cursor: nat, later: nat)
    requires |before| == |after| && cursor <= later <= |before|
    requires before[cursor..] == after[cursor..]
    ensures after[later..] == before[later..]
  {
    assert before[later..] == before[cursor..][later - cursor..];
    assert after[later..] == after[cursor..][later - cursor..];
  }

  lemma SameTail(before: seq<Byte>, after: seq<Byte>, cursor: nat, it: Block)
    requires |before| == |after| && cursor <= it.offset && it.End() <= |before|
    requires before[cursor..] == after[cursor..]
    ensures BytesOf(after, it) == BytesOf(before, it)
    ensures after[it.End()..] == before[it.End()..]
  {
    assert BytesOf(before, it) == before[cursor..][it.offset - cursor..it.End() - cursor];
    assert BytesOf(after, it) == after[cursor..][it.offset - cursor..it.End() - cursor];
    assert before[it.End()..] == before[cursor..][it.End() - cursor..];
    assert after[it.End()..] == after[cursor..][it.End() - cursor..];
  }

  lemma MemmoveMoves(buffer: seq<Byte>, m: Move)
    requires Fits(m, |buffer|)
    ensures Memmove(buffer, m)[m.to..m.to + m.size] == buffer[m.from..m.from + m.size]
    ensures Memmove(buffer, m)[m.to + m.size..] == buffer[m.to + m.size..]
  {
  }

  lemma MemmoveKeeps(buffer: seq<Byte>, m: Move, b: Block)
    requires Fits(m, |buffer|) && b.End() <= m.to
    ensures BytesOf(Memmove(buffer, m), b) == BytesOf(buffer, b)
  {
  }
}
