/** What a compaction pass comes to, counted from the blocks alone: how far it gets,
    where every block goes, and how many moves are reported once those that touch have
    been merged. */
module Merging {
  import opened Sliding

  // ---- Where a pass stops ----

  /** The bytes of the blocks that are not where packing would put them. */
  ghost function BytesOutOfPlace(blocks: seq<Block>): nat {
    if blocks == [] then 0
    else
      var init, it := blocks[..|blocks| - 1], blocks[|blocks| - 1];
      BytesOutOfPlace(init) + if it.offset == Bytes(init) then 0 else it.size
  }

  ghost function CountOutOfPlace(blocks: seq<Block>): nat {
    if blocks == [] then 0
    else
      var init, it := blocks[..|blocks| - 1], blocks[|blocks| - 1];
      CountOutOfPlace(init) + if it.offset == Bytes(init) then 0 else 1
  }

  /** The pass packs the blocks before `stop` and leaves the others alone: either there
      are none, or the block there would have to move and the budget does not cover it
      any more. */
  ghost predicate StopsAt(blocks: seq<Block>, budget: nat, p: Pass, stop: nat) {
    && stop <= |blocks| == |p.placed|
    && (forall i :: 0 <= i < stop ==> p.placed[i] == blocks[i].At(Bytes(blocks[..i])))
    && (forall i :: stop <= i < |blocks| ==> p.placed[i] == blocks[i])
    && (stop < |blocks| ==>
          blocks[stop].offset != Bytes(blocks[..stop])
          && BytesOutOfPlace(blocks[..stop]) + blocks[stop].size > budget)
    && p.bytes == BytesOutOfPlace(blocks[..stop]) <= budget
    && p.moved == CountOutOfPlace(blocks[..stop])
    && (p.completed <==> stop == |blocks|)
  }

  lemma Prefixes(blocks: seq<Block>, it: Block)
    ensures forall i :: 0 <= i <= |blocks| ==> (blocks + [it])[..i] == blocks[..i]
    ensures (blocks + [it])[..|blocks|] == blocks && (blocks + [it])[..|blocks| + 1] == blocks + [it]
  {
  }

  lemma StopsLater(blocks: seq<Block>, it: Block, budget: nat, p: Pass, stop: nat) returns (later: nat)
    requires StopsAt(blocks, budget, p, stop) && (stop == |blocks| ==> p.cursor == Bytes(blocks))
    ensures StopsAt(blocks + [it], budget, Place(p, it, budget), later)
  {
    var all, n, q := blocks + [it], |blocks|, Place(p, it, budget);
    Prefixes(blocks, it);
    hide Bytes;
    later := if stop == n && q.completed then n + 1 else stop;
  }

  /** Where every block goes, and what a pass reports, from offsets, sizes and the
      budget. */
  lemma {:induction false} SlideStops(blocks: seq<Block>, budget: nat)
    requires InOrder(blocks)
    ensures exists stop: nat :: StopsAt(blocks, budget, Slide(blocks, budget), stop)
  {
    hide InOrder, BytesOutOfPlace, CountOutOfPlace, Bytes, Place, StopsAt;
    if blocks == [] {
      StopsAtOnce(blocks, budget);
    } else {
      var init := blocks[..|blocks| - 1];
      InOrderInit(blocks);
      SlideStops(init, budget);
      var it := blocks[|blocks| - 1];
      assert init + [it] == blocks;
      assert Slide(blocks, budget) == Place(Slide(init, budget), it, budget);
      StopsNext(init, it, budget, Slide(init, budget));
    }
  }

  lemma StopsAtOnce(blocks: seq<Block>, budget: nat)
    requires blocks == []
    ensures exists stop: nat :: StopsAt(blocks, budget, Slide(blocks, budget), stop)
  {
    assert StopsAt(blocks, budget, Slide(blocks, budget), 0);
  }

  lemma StopsNext(blocks: seq<Block>, it: Block, budget: nat, p: Pass)
    requires InOrder(blocks) && p == Slide(blocks, budget) && exists stop: nat :: StopsAt(blocks, budget, p, stop)
    ensures exists stop: nat :: StopsAt(blocks + [it], budget, Place(p, it, budget), stop)
  {
    hide InOrder, Follows, BytesOutOfPlace, CountOutOfPlace, Bytes, Place, Slide, StopsAt;
    SlidePlaces(blocks, budget);
    var stop: nat :| StopsAt(blocks, budget, p, stop);
    CompletedAtEnd(blocks, budget, p, stop);
    var later := StopsLater(blocks, it, budget, p, stop);
  }

  lemma InOrderInit(blocks: seq<Block>)
    requires InOrder(blocks) && blocks != []
    ensures InOrder(blocks[..|blocks| - 1])
  {
  }

  lemma CompletedAtEnd(blocks: seq<Block>, budget: nat, p: Pass, stop: nat)
    requires StopsAt(blocks, budget, p, stop)
    ensures stop == |blocks| <==> p.completed
  {
  }

  // ---- How many moves are reported ----

  /** The block changes its place. */
  predicate Changed(blocks: seq<Block>, placed: seq<Block>, i: nat) {
    i < |blocks| && i < |placed| && placed[i].offset != blocks[i].offset
  }

  /** The block moves, but not as one piece with the block before it. */
  predicate StartsRun(blocks: seq<Block>, placed: seq<Block>, i: nat) {
    && Changed(blocks, placed, i)
    && !(i > 0 && Changed(blocks, placed, i - 1)
         && blocks[i - 1].End() == blocks[i].offset && placed[i - 1].End() == placed[i].offset)
  }

  /** The number of maximal runs of blocks that move as one piece: neighbours before
      and neighbours after. */
  function Runs(blocks: seq<Block>, placed: seq<Block>): nat
    requires |blocks| == |placed|
  {
    if blocks == [] then 0
    else
      var last := |blocks| - 1;
      Runs(blocks[..last], placed[..last]) + if StartsRun(blocks, placed, last) then 1 else 0
  }

  /** No move goes on where the one before it ends, on both sides. */
  ghost predicate NoneTouch(moves: seq<Move>) {
    forall i :: 0 <= i < |moves| - 1 ==>
      !(moves[i].from + moves[i].size == moves[i + 1].from && moves[i].to + moves[i].size == moves[i + 1].to)
  }

  /** The last move ends, on both sides, with the last block that moves. */
  ghost predicate EndsWith(blocks: seq<Block>, placed: seq<Block>, moves: seq<Move>)
    requires |blocks| == |placed|
  {
    if moves == [] then forall i :: 0 <= i < |blocks| ==> !Changed(blocks, placed, i)
    else
      var m := moves[|moves| - 1];
      exists i: nat :: EndsAt(blocks, placed, m, i)
  }

  ghost predicate EndsAt(blocks: seq<Block>, placed: seq<Block>, m: Move, i: nat)
    requires |blocks| == |placed|
  {
    && Changed(blocks, placed, i) && m.from + m.size == blocks[i].End() && m.to + m.size == placed[i].End()
    && forall k :: i < k < |blocks| ==> !Changed(blocks, placed, k)
  }

  ghost predicate Merged(blocks: seq<Block>, p: Pass) {
    && |p.placed| == |blocks| && NoneTouch(p.moves)
    && |p.moves| == Runs(blocks, p.placed) && EndsWith(blocks, p.placed, p.moves)
  }

  lemma RunsStep(blocks: seq<Block>, placed: seq<Block>, it: Block, to: nat)
    requires |blocks| == |placed|
    ensures var all, after := blocks + [it], placed + [it.At(to)];
            Runs(all, after) == Runs(blocks, placed) + if StartsRun(all, after, |blocks|) then 1 else 0
  {
    assert (blocks + [it])[..|blocks|] == blocks;
    assert (placed + [it.At(to)])[..|placed|] == placed;
  }

  /** A move continues the last one exactly when its block starts no run. */
  lemma ContinuesIff(blocks: seq<Block>, placed: seq<Block>, moves: seq<Move>, it: Block, to: nat)
    requires |blocks| == |placed| && InOrder(blocks + [it]) && to != it.offset && EndsWith(blocks, placed, moves)
    ensures Continues(moves, Move(it.offset, to, it.size)) <==>
            !StartsRun(blocks + [it], placed + [it.At(to)], |blocks|)
  {
    var all, after, n := blocks + [it], placed + [it.At(to)], |blocks|;
    assert all[n] == it && after[n] == it.At(to);
    if moves == [] {
      assert n > 0 ==> !Changed(blocks, placed, n - 1);
    } else {
      var i: nat :| EndsAt(blocks, placed, moves[|moves| - 1], i);
      if i < n - 1 {
        assert all[i] == blocks[i] && all[n - 1] == blocks[n - 1];
        assert all[i].End() <= all[n - 1].offset && all[n - 1].End() <= all[n].offset && all[n - 1].size > 0;
        assert !Changed(blocks, placed, n - 1);
        assert !Changed(all, after, n - 1);
      }
    }
  }

  /** The block does not move. */
  lemma EndsAsBefore(blocks: seq<Block>, placed: seq<Block>, moves: seq<Move>, it: Block)
    requires |blocks| == |placed| && EndsWith(blocks, placed, moves)
    ensures EndsWith(blocks + [it], placed + [it.At(it.offset)], moves)
  {
    var all, after, n := blocks + [it], placed + [it.At(it.offset)], |blocks|;
    assert all[n] == it && after[n] == it;
    forall k | 0 <= k < n ensures Changed(all, after, k) == Changed(blocks, placed, k) {
      assert all[k] == blocks[k] && after[k] == placed[k];
    }
    assert !Changed(all, after, n);
    if moves != [] {
      var i: nat :| EndsAt(blocks, placed, moves[|moves| - 1], i);
      assert all[i] == blocks[i] && after[i] == placed[i];
      assert EndsAt(all, after, moves[|moves| - 1], i);
    }
  }

  lemma PushEndsAt(moves: seq<Move>, m: Move)
    ensures var pushed := Push(moves, m);
            && pushed != []
            && pushed[|pushed| - 1].from + pushed[|pushed| - 1].size == m.from + m.size
            && pushed[|pushed| - 1].to + pushed[|pushed| - 1].size == m.to + m.size
  {
  }

  /** The block moves. */
  lemma EndsLater(blocks: seq<Block>, placed: seq<Block>, moves: seq<Move>, it: Block, to: nat)
    requires |blocks| == |placed| && to != it.offset
    ensures EndsWith(blocks + [it], placed + [it.At(to)], Push(moves, Move(it.offset, to, it.size)))
  {
    hide Push;
    var all, after, n := blocks + [it], placed + [it.At(to)], |blocks|;
    var pushed := Push(moves, Move(it.offset, to, it.size));
    assert all[n] == it && after[n] == it.At(to);
    PushEndsAt(moves, Move(it.offset, to, it.size));
    assert EndsAt(all, after, pushed[|pushed| - 1], n);
  }

  lemma NoneTouchPush(moves: seq<Move>, m: Move)
    requires NoneTouch(moves)
    ensures NoneTouch(Push(moves, m))
    ensures |Push(moves, m)| == |moves| + if Continues(moves, m) then 0 else 1
  {
    var pushed := Push(moves, m);
    assert forall i :: 0 <= i < |moves| - 1 ==> pushed[i] == moves[i];
    assert moves != [] ==> pushed[|moves| - 1].from == moves[|moves| - 1].from
                           && pushed[|moves| - 1].to == moves[|moves| - 1].to;
  }

  lemma PlaceMerges(blocks: seq<Block>, p: Pass, it: Block, budget: nat)
    requires InOrder(blocks + [it]) && Merged(blocks, p)
    ensures Merged(blocks + [it], Place(p, it, budget))
  {
    hide InOrder, Continues, Push, StartsRun, EndsWith, NoneTouch, Runs;
    var to := Target(p, it, budget);
    RunsStep(blocks, p.placed, it, to);
    if to == it.offset {
      EndsAsBefore(blocks, p.placed, p.moves, it);
      NoStart(blocks, p.placed, it);
    } else {
      EndsLater(blocks, p.placed, p.moves, it, to);
      ContinuesIff(blocks, p.placed, p.moves, it, to);
      NoneTouchPush(p.moves, Move(it.offset, to, it.size));
    }
  }

  lemma NoStart(blocks: seq<Block>, placed: seq<Block>, it: Block)
    requires |blocks| == |placed|
    ensures !StartsRun(blocks + [it], placed + [it.At(it.offset)], |blocks|)
  {
  }

  /** As many moves are reported as there are maximal runs of blocks that move as one
      piece, and no two of them could have been one. */
  lemma {:induction false} MovesAreRuns(blocks: seq<Block>, budget: nat)
    requires InOrder(blocks)
    ensures var p := Slide(blocks, budget);
            && |p.placed| == |blocks| && NoneTouch(p.moves) && |p.moves| == Runs(blocks, p.placed)
  {
    SlideMerges(blocks, budget);
  }

  lemma {:induction false} SlideMerges(blocks: seq<Block>, budget: nat)
    requires InOrder(blocks)
    ensures Merged(blocks, Slide(blocks, budget))
  {
    if blocks != [] {
      hide Place, Merged;
      var init := blocks[..|blocks| - 1];
      SlideMerges(init, budget);
      assert init + [blocks[|blocks| - 1]] == blocks;
      PlaceMerges(init, Slide(init, budget), blocks[|blocks| - 1], budget);
    } else {
      assert Merged([], START);
    }
  }
}
