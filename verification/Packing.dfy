/** How far compaction gets: when a pass completes, what a budget lets it do, and
    when repeated passes pack the arena. */
module Packing {
  import opened Sums
  import opened Sliding

  /** The first `n` blocks lie one behind the other from offset zero. */
  ghost predicate PackedUpTo(blocks: seq<Block>, n: nat) {
    && n <= |blocks|
    && forall i :: 0 <= i < n ==> blocks[i].offset == Bytes(blocks[..i])
  }

  ghost predicate Packed(blocks: seq<Block>) {
    PackedUpTo(blocks, |blocks|)
  }

  /** The number of blocks before the first one out of place. */
  ghost function PackedCount(blocks: seq<Block>): (n: nat)
    ensures n <= |blocks|
  {
    if blocks == [] then 0
    else
      var init := blocks[..|blocks| - 1];
      var n := PackedCount(init);
      if n == |init| && blocks[n].offset == Bytes(init) then n + 1 else n
  }

  lemma {:induction false} PackedCountMeaning(blocks: seq<Block>, n: nat)
    requires n <= |blocks|
    ensures n <= PackedCount(blocks) <==> PackedUpTo(blocks, n)
  {
    if blocks != [] {
      var init := blocks[..|blocks| - 1];
      PackedCountMeaning(init, if n <= |init| then n else |init|);
      assert forall i :: 0 <= i <= |init| ==> init[..i] == blocks[..i];
      if n == |blocks| {
        assert PackedUpTo(blocks, n) <==> PackedUpTo(init, |init|) && blocks[|init|].offset == Bytes(init);
      } else {
        assert PackedUpTo(blocks, n) <==> PackedUpTo(init, n);
      }
    }
  }

  /** Moving blocks does not change how many bytes they are. */
  lemma SameBytes(blocks: seq<Block>, placed: seq<Block>)
    requires |blocks| == |placed|
    requires forall i :: 0 <= i < |blocks| ==> placed[i].size == blocks[i].size
    ensures Bytes(blocks) == Bytes(placed)
  {
    SumSame(blocks, placed, Weight(), Weight());
  }

  /** A pass reports completion exactly when it leaves the blocks packed. */
  lemma {:induction false} CompletedMeansPacked(blocks: seq<Block>, budget: nat)
    requires InOrder(blocks)
    ensures Slide(blocks, budget).completed <==> Packed(Slide(blocks, budget).placed)
  {
    if blocks != [] {
      var last := |blocks| - 1;
      CompletedMeansPacked(blocks[..last], budget);
      SlidePlaces(blocks[..last], budget);
      CursorBehind(blocks, budget);
      CompletedStep(blocks[..last], blocks[last], budget, Slide(blocks[..last], budget));
    }
  }

  lemma CompletedStep(blocks: seq<Block>, it: Block, budget: nat, p: Pass)
    requires Placed(blocks, budget, p) && p.cursor <= it.offset
    requires p.completed <==> Packed(p.placed)
    ensures Place(p, it, budget).completed <==> Packed(Place(p, it, budget).placed)
  {
    SameBytes(blocks, p.placed);
    PackedAppend(p.placed, it.At(Target(p, it, budget)));
    TargetBetween(p, it, budget);
  }

  lemma PackedAppend(blocks: seq<Block>, b: Block)
    ensures Packed(blocks + [b]) <==> Packed(blocks) && b.offset == Bytes(blocks)
  {
    var all := blocks + [b];
    assert forall i :: 0 <= i <= |blocks| ==> all[..i] == blocks[..i];
    assert blocks[..|blocks|] == blocks;
    if Packed(all) {
      assert all[|blocks|].offset == Bytes(all[..|blocks|]);
      assert forall i :: 0 <= i < |blocks| ==> all[i].offset == Bytes(all[..i]);
    }
  }

  // ---- One pass ----

  /** A packed layout stays as it is: nothing moves, within any budget. */
  lemma {:induction false} PackedIsIdle(blocks: seq<Block>, budget: nat)
    requires Packed(blocks)
    ensures Slide(blocks, budget) == Pass(Bytes(blocks), 0, 0, true, [], blocks, [])
  {
    if blocks != [] {
      var last := |blocks| - 1;
      var init, it := blocks[..last], blocks[last];
      assert blocks == init + [it];
      PackedAppend(init, it);
      PackedIsIdle(init, budget);
      SumAppend(init, it, Weight());
    }
  }

  /** A pass never moves more bytes than there are. */
  lemma {:induction false} MovedAtMostAll(blocks: seq<Block>, budget: nat)
    ensures Slide(blocks, budget).bytes <= Bytes(blocks)
  {
    if blocks != [] {
      var last := |blocks| - 1;
      MovedAtMostAll(blocks[..last], budget);
    }
  }

  /** So a budget of all the live bytes, or no budget at all, always completes. */
  lemma {:induction false} AmpleBudgetCompletes(blocks: seq<Block>, budget: nat)
    requires InOrder(blocks) && Bytes(blocks) <= budget
    ensures Slide(blocks, budget).completed
  {
    if blocks != [] {
      var last := |blocks| - 1;
      AmpleBudgetCompletes(blocks[..last], budget);
      MovedAtMostAll(blocks[..last], budget);
    }
  }

  ghost function OffsetWeight(): Block -> nat {
    (b: Block) => b.offset
  }

  /** The sum of the offsets falls by at least one for every block moved. */
  lemma {:induction false} OffsetsFall(blocks: seq<Block>, budget: nat)
    requires InOrder(blocks)
    ensures Sum(Slide(blocks, budget).placed, OffsetWeight()) + Slide(blocks, budget).moved
            <= Sum(blocks, OffsetWeight())
  {
    if blocks != [] {
      var last := |blocks| - 1;
      var p, it := Slide(blocks[..last], budget), blocks[last];
      OffsetsFall(blocks[..last], budget);
      CursorBehind(blocks, budget);
      TargetBetween(p, it, budget);
      SumAppend(p.placed, it.At(Target(p, it, budget)), OffsetWeight());
    }
  }

  lemma PackedNext(blocks: seq<Block>, n: nat)
    requires n < |blocks| && PackedUpTo(blocks, n) && blocks[n].offset == Bytes(blocks[..n])
    ensures PackedUpTo(blocks, n + 1)
  {
    hide Bytes;
  }

  lemma GapAt(blocks: seq<Block>)
    requires PackedCount(blocks) < |blocks|
    ensures var n := PackedCount(blocks);
            PackedUpTo(blocks, n) && blocks[n].offset != Bytes(blocks[..n])
  {
    hide PackedUpTo, PackedCount, Bytes;
    var n := PackedCount(blocks);
    PackedCountMeaning(blocks, n);
    PackedCountMeaning(blocks, n + 1);
    if blocks[n].offset == Bytes(blocks[..n]) {
      PackedNext(blocks, n);
    }
  }

  /** The pass as far as the first block out of place, if the budget covers it
      and if it does not. */
  lemma FirstGap(blocks: seq<Block>, budget: nat, n: nat)
    requires n < |blocks| && PackedUpTo(blocks, n) && blocks[n].offset != Bytes(blocks[..n])
    ensures var p := Slide(blocks[..n + 1], budget);
            && p.completed == (blocks[n].size <= budget)
            && (!p.completed ==> p.moved == 0 && p.placed == blocks[..n + 1])
  {
    hide Slide, Packed, PackedUpTo, Bytes;
    PackedPrefix(blocks, n);
    PackedIsIdle(blocks[..n], budget);
    assert blocks[..n + 1] == blocks[..n] + [blocks[n]];
    SlideStep(blocks[..n], blocks[n], budget);
  }

  lemma SlideStep(blocks: seq<Block>, it: Block, budget: nat)
    ensures Slide(blocks + [it], budget) == Place(Slide(blocks, budget), it, budget)
  {
    assert (blocks + [it])[..|blocks|] == blocks;
  }

  lemma PackedPrefix(blocks: seq<Block>, n: nat)
    requires PackedUpTo(blocks, n)
    ensures Packed(blocks[..n])
  {
    assert forall i :: 0 <= i < n ==> blocks[..n][..i] == blocks[..i];
  }

  lemma {:induction false} StoppedStays(blocks: seq<Block>, budget: nat, n: nat)
    requires n <= |blocks| && !Slide(blocks[..n], budget).completed
    ensures Slide(blocks, budget).moved == Slide(blocks[..n], budget).moved
    ensures !Slide(blocks, budget).completed
    ensures Slide(blocks, budget).placed == Slide(blocks[..n], budget).placed + blocks[n..]
  {
    if n == |blocks| {
      assert blocks[..n] == blocks;
    } else {
      var last := |blocks| - 1;
      assert blocks[..last][..n] == blocks[..n];
      StoppedStays(blocks[..last], budget, n);
      assert blocks[n..] == blocks[..last][n..] + [blocks[last]];
    }
  }

  /** If the first block out of place is larger than the budget the pass changes
      nothing; otherwise at least that block is packed by it. */
  lemma PassProgress(blocks: seq<Block>, budget: nat)
    requires InOrder(blocks) && PackedCount(blocks) < |blocks|
    ensures blocks[PackedCount(blocks)].size > budget ==>
              Slide(blocks, budget).placed == blocks && Slide(blocks, budget).moved == 0
    ensures blocks[PackedCount(blocks)].size <= budget ==>
              PackedCount(Slide(blocks, budget).placed) > PackedCount(blocks)
  {
    var n := PackedCount(blocks);
    GapAt(blocks);
    FirstGap(blocks, budget, n);
    if blocks[n].size > budget {
      PassStops(blocks, budget, n + 1);
    } else {
      PrefixPacked(blocks, budget, n + 1);
    }
  }

  lemma PassStops(blocks: seq<Block>, budget: nat, n: nat)
    requires n <= |blocks|
    requires var p := Slide(blocks[..n], budget); !p.completed && p.moved == 0 && p.placed == blocks[..n]
    ensures Slide(blocks, budget).placed == blocks && Slide(blocks, budget).moved == 0
  {
    StoppedStays(blocks, budget, n);
    assert blocks == blocks[..n] + blocks[n..];
  }

  lemma PrefixPacked(blocks: seq<Block>, budget: nat, n: nat)
    requires InOrder(blocks) && n <= |blocks| && Slide(blocks[..n], budget).completed
    ensures n <= PackedCount(Slide(blocks, budget).placed)
  {
    var placed := Slide(blocks, budget).placed;
    SlidePrefix(blocks, budget, n);
    CompletedMeansPacked(blocks[..n], budget);
    UnpackPrefix(placed, n);
    PackedCountMeaning(placed, n);
  }

  lemma UnpackPrefix(blocks: seq<Block>, n: nat)
    requires n <= |blocks| && Packed(blocks[..n])
    ensures PackedUpTo(blocks, n)
  {
    forall i | 0 <= i < n ensures blocks[i].offset == Bytes(blocks[..i]) {
      assert blocks[..n][..i] == blocks[..i] && blocks[..n][i] == blocks[i];
    }
  }

  // ---- Repeated passes ----

  function Passes(blocks: seq<Block>, budget: nat, count: nat): seq<Block>
    decreases count
  {
    if count == 0 then blocks else Passes(Slide(blocks, budget).placed, budget, count - 1)
  }

  /** Every block that has to move fits in the budget. */
  ghost predicate Movable(blocks: seq<Block>, budget: nat) {
    forall i :: PackedCount(blocks) <= i < |blocks| ==> blocks[i].size <= budget
  }

  /** Then as many passes as there are blocks pack them. */
  lemma {:induction false} PassesPack(blocks: seq<Block>, budget: nat, count: nat)
    requires InOrder(blocks) && Movable(blocks, budget) && |blocks| <= PackedCount(blocks) + count
    ensures Packed(Passes(blocks, budget, count))
    decreases count
  {
    PackedCountMeaning(blocks, |blocks|);
    if count > 0 {
      SlidePlaces(blocks, budget);
      if Packed(blocks) {
        PackedIsIdle(blocks, budget);
      } else {
        PassProgress(blocks, budget);
      }
      var placed := Slide(blocks, budget).placed;
      StaysMovable(blocks, placed, budget);
      PassesPack(placed, budget, count - 1);
    }
  }

  lemma StaysMovable(blocks: seq<Block>, placed: seq<Block>, budget: nat)
    requires Movable(blocks, budget) && |placed| == |blocks| && PackedCount(blocks) <= PackedCount(placed)
    requires forall i :: 0 <= i < |blocks| ==> placed[i].size == blocks[i].size
    ensures Movable(placed, budget)
  {
  }

  lemma {:induction false} PassesKeepOrder(blocks: seq<Block>, budget: nat, count: nat)
    requires InOrder(blocks)
    ensures InOrder(Passes(blocks, budget, count)) && |Passes(blocks, budget, count)| == |blocks|
    decreases count
  {
    if count > 0 {
      SlidePlaces(blocks, budget);
      PassesKeepOrder(Slide(blocks, budget).placed, budget, count - 1);
    }
  }

  /** A block larger than the budget stays where it is. */
  lemma LargeBlockStays(blocks: seq<Block>, budget: nat, j: nat)
    requires InOrder(blocks) && j < |blocks| && blocks[j].size > budget
    ensures |Slide(blocks, budget).placed| == |blocks|
    ensures Slide(blocks, budget).placed[j] == blocks[j]
  {
    SlidePrefix(blocks, budget, j + 1);
    var init := blocks[..j + 1];
    assert init[..j] == blocks[..j] && init[j] == blocks[j];
    var p := Slide(blocks[..j], budget);
    SlideLength(blocks[..j], budget);
    assert Slide(init, budget).placed[j] == blocks[j].At(Target(p, blocks[j], budget));
    assert Slide(blocks, budget).placed[j] == Slide(blocks, budget).placed[..j + 1][j];
  }

  /** Blocks in order that fill the space up to a block are packed up to it. */
  lemma {:induction false} TightBelow(blocks: seq<Block>, j: nat)
    requires InOrder(blocks) && j <= |blocks|
    ensures forall i :: 0 <= i < j ==> Bytes(blocks[..j]) <= Bytes(blocks[..i]) + blocks[j - 1].End() - blocks[i].offset
    ensures j > 0 ==> Bytes(blocks[..j]) <= blocks[j - 1].End()
  {
    if j > 0 {
      TightBelow(blocks, j - 1);
      assert blocks[..j] == blocks[..j - 1] + [blocks[j - 1]];
      SumAppend(blocks[..j - 1], blocks[j - 1], Weight());
    }
  }

  lemma PlacedTight(blocks: seq<Block>, j: nat)
    requires InOrder(blocks) && j < |blocks| && blocks[j].offset == Bytes(blocks[..j])
    ensures PackedUpTo(blocks, j + 1)
  {
    forall i | 0 <= i < j ensures blocks[i].offset == Bytes(blocks[..i]) {
      TightBelow(blocks, j);
      TightBelow(blocks, i);
    }
  }

  lemma PackedBehind(blocks: seq<Block>, placed: seq<Block>, j: nat)
    requires InOrder(blocks) && |placed| == |blocks| && j < |blocks|
    requires forall i :: 0 <= i < |blocks| ==> placed[i].size == blocks[i].size
    requires placed[j] == blocks[j] && PackedUpTo(placed, j + 1)
    ensures PackedUpTo(blocks, j + 1)
  {
    SameBytes(blocks[..j], placed[..j]);
    PlacedTight(blocks, j);
  }

  /** While a block that large is out of place it stays out of place. */
  lemma LargeBlockStuck(blocks: seq<Block>, budget: nat, j: nat)
    requires InOrder(blocks) && PackedCount(blocks) <= j < |blocks| && blocks[j].size > budget
    ensures var placed := Slide(blocks, budget).placed;
            && InOrder(placed) && |placed| == |blocks|
            && placed[j].size > budget && PackedCount(placed) <= j
  {
    var placed := Slide(blocks, budget).placed;
    SlidePlaces(blocks, budget);
    LargeBlockStays(blocks, budget, j);
    if PackedCount(placed) > j {
      PackedCountMeaning(placed, j + 1);
      PackedBehind(blocks, placed, j);
      PackedCountMeaning(blocks, j + 1);
    }
  }

  lemma {:induction false} PassesStuck(blocks: seq<Block>, budget: nat, j: nat, count: nat)
    requires InOrder(blocks) && PackedCount(blocks) <= j < |blocks| && blocks[j].size > budget
    ensures !Packed(Passes(blocks, budget, count))
    decreases count
  {
    if count == 0 {
      PackedCountMeaning(blocks, |blocks|);
    } else {
      hide Slide, Packed, PackedCount;
      LargeBlockStuck(blocks, budget, j);
      PassesStuck(Slide(blocks, budget).placed, budget, j, count - 1);
    }
  }

  /** Repeated passes pack the arena if and only if every block out of place fits
      in the budget, and then no more passes are needed than there are blocks. */
  lemma PassesPackExactly(blocks: seq<Block>, budget: nat)
    requires InOrder(blocks)
    ensures Movable(blocks, budget) <==> exists count: nat :: Packed(Passes(blocks, budget, count))
    ensures Movable(blocks, budget) ==> Packed(Passes(blocks, budget, |blocks|))
  {
    if Movable(blocks, budget) {
      PassesPack(blocks, budget, |blocks|);
      assert exists count: nat :: Packed(Passes(blocks, budget, count));
    } else {
      var j :| PackedCount(blocks) <= j < |blocks| && blocks[j].size > budget;
      forall count: nat ensures !Packed(Passes(blocks, budget, count)) {
        PassesStuck(blocks, budget, j, count);
      }
    }
  }
}
