/** The sorted list of free ranges that both allocators keep.

    A list is given its meaning byte by byte: FreeAt says which bytes it calls
    free. Carving a block out of a range and giving a block back are then set
    difference and set union, and a well-formed list is the only one with its
    meaning, so the two undo each other exactly. */
module FreeList {

  datatype Range = Range(offset: nat, size: nat) {
    function End(): nat { offset + size }

    predicate Has(p: nat) { offset <= p < End() }
  }

  predicate FreeAt(ranges: seq<Range>, p: nat) {
    exists i :: 0 <= i < |ranges| && ranges[i].Has(p)
  }

  /** Non-empty ranges, in offset order, with a gap between neighbours
      (adjacent free ranges have been merged), all below `limit`. */
  predicate WellFormed(ranges: seq<Range>, limit: nat) {
    && (forall i :: 0 <= i < |ranges| ==> ranges[i].size > 0 && ranges[i].End() <= limit)
    && (forall i, j :: 0 <= i < j < |ranges| ==> ranges[i].End() < ranges[j].offset)
  }

  function Total(ranges: seq<Range>): nat {
    if ranges == [] then 0 else Total(ranges[..|ranges| - 1]) + ranges[|ranges| - 1].size
  }

  predicate Contains(range: Range, offset: nat, size: nat) {
    range.offset <= offset && offset + size <= range.End()
  }

  /** What is left of a range when [offset, offset + size) is taken out of it. */
  function Remainder(range: Range, offset: nat, size: nat): seq<Range>
    requires Contains(range, offset, size)
  {
    (if offset > range.offset then [Range(range.offset, offset - range.offset)] else []) +
    (if offset + size < range.End() then [Range(offset + size, range.End() - (offset + size))] else [])
  }

  /** Take [offset, offset + size) out of range `i`. */
  function Carve(ranges: seq<Range>, i: nat, offset: nat, size: nat): seq<Range>
    requires i < |ranges| && Contains(ranges[i], offset, size)
  {
    ranges[..i] + Remainder(ranges[i], offset, size) + ranges[i + 1..]
  }

  /** The first range, from `i` on, that contains the block; |ranges| if none does. */
  function FindRange(ranges: seq<Range>, i: nat, offset: nat, size: nat): (k: nat)
    requires i <= |ranges|
    ensures i <= k <= |ranges|
    ensures k < |ranges| ==> Contains(ranges[k], offset, size)
    ensures forall j :: i <= j < k ==> !Contains(ranges[j], offset, size)
    decreases |ranges| - i
  {
    if i == |ranges| || Contains(ranges[i], offset, size) then i
    else FindRange(ranges, i + 1, offset, size)
  }

  /** The number of ranges that start before `offset`: where the standard
      library's lower bound lands in a list in offset order. */
  function LowerBound(ranges: seq<Range>, offset: nat): (k: nat)
    ensures k <= |ranges|
    ensures forall j :: 0 <= j < k ==> ranges[j].offset < offset
    ensures k < |ranges| ==> ranges[k].offset >= offset
  {
    if ranges == [] || ranges[0].offset >= offset then 0
    else 1 + LowerBound(ranges[1..], offset)
  }

  /** The ranges next to the block, as a slice [left, right) of the list. */
  function Neighbours(ranges: seq<Range>, offset: nat, size: nat): (slice: (nat, nat))
    ensures slice.0 <= slice.1 <= |ranges|
  {
    var k := LowerBound(ranges, offset);
    (if k > 0 && ranges[k - 1].End() == offset then k - 1 else k,
     if k < |ranges| && offset + size == ranges[k].offset then k + 1 else k)
  }

  /** The block together with the neighbours it touches. */
  function Merged(ranges: seq<Range>, offset: nat, size: nat): Range {
    var (left, right) := Neighbours(ranges, offset, size);
    var k := LowerBound(ranges, offset);
    var start := if left < k then ranges[left].offset else offset;
    var grown := if left < k then ranges[left].size + size else size;
    Range(start, if k < right then grown + ranges[k].size else grown)
  }

  /** Give [offset, offset + size) back, merging it with either neighbour. */
  function Release(ranges: seq<Range>, offset: nat, size: nat): seq<Range> {
    var (left, right) := Neighbours(ranges, offset, size);
    ranges[..left] + [Merged(ranges, offset, size)] + ranges[right..]
  }

  // ---- Lists in three pieces ----

  lemma {:induction false} TotalConcat(a: seq<Range>, b: seq<Range>)
    ensures Total(a + b) == Total(a) + Total(b)
  {
    if b == [] {
      assert a + b == a;
    } else {
      var init := b[..|b| - 1];
      assert (a + b)[..|a + b| - 1] == a + init;
      TotalConcat(a, init);
    }
  }

  lemma TotalOne(r: Range)
    ensures Total([r]) == r.size
  {
    assert [r][..0] == [];
  }

  lemma FreeConcat(a: seq<Range>, b: seq<Range>, p: nat)
    ensures FreeAt(a + b, p) <==> FreeAt(a, p) || FreeAt(b, p)
  {
    if FreeAt(a, p) {
      var i :| 0 <= i < |a| && a[i].Has(p);
      assert (a + b)[i].Has(p);
    }
    if FreeAt(b, p) {
      var i :| 0 <= i < |b| && b[i].Has(p);
      assert (a + b)[|a| + i].Has(p);
    }
  }

  lemma FreeOne(r: Range, p: nat)
    ensures FreeAt([r], p) <==> r.Has(p)
  {
    if r.Has(p) {
      assert [r][0].Has(p);
    }
  }

  /** Every range of `a` ends before every range of `b` begins. */
  ghost predicate Precedes(a: seq<Range>, b: seq<Range>) {
    forall i, j :: 0 <= i < |a| && 0 <= j < |b| ==> a[i].End() < b[j].offset
  }

  lemma WellFormedConcat(a: seq<Range>, b: seq<Range>, limit: nat)
    requires WellFormed(a, limit) && WellFormed(b, limit) && Precedes(a, b)
    ensures WellFormed(a + b, limit)
  {
  }

  lemma Thirds(ranges: seq<Range>, left: nat, right: nat, p: nat)
    requires left <= right <= |ranges|
    ensures FreeAt(ranges, p) <==>
            FreeAt(ranges[..left], p) || FreeAt(ranges[left..right], p) || FreeAt(ranges[right..], p)
    ensures Total(ranges) == Total(ranges[..left]) + Total(ranges[left..right]) + Total(ranges[right..])
  {
    assert ranges == ranges[..left] + ranges[left..right] + ranges[right..];
    FreeConcat(ranges[..left] + ranges[left..right], ranges[right..], p);
    FreeConcat(ranges[..left], ranges[left..right], p);
    TotalConcat(ranges[..left] + ranges[left..right], ranges[right..]);
    TotalConcat(ranges[..left], ranges[left..right]);
  }

  lemma ThreeParts(a: seq<Range>, m: seq<Range>, b: seq<Range>, p: nat)
    ensures FreeAt(a + m + b, p) <==> FreeAt(a, p) || FreeAt(m, p) || FreeAt(b, p)
    ensures Total(a + m + b) == Total(a) + Total(m) + Total(b)
  {
    FreeConcat(a + m, b, p);
    FreeConcat(a, m, p);
    TotalConcat(a + m, b);
    TotalConcat(a, m);
  }

  // ---- Carving is set difference ----

  lemma RemainderMeaning(range: Range, offset: nat, size: nat, p: nat)
    requires Contains(range, offset, size)
    ensures FreeAt(Remainder(range, offset, size), p) <==> range.Has(p) && !Range(offset, size).Has(p)
    ensures Total(Remainder(range, offset, size)) + size == range.size
  {
    var before := if offset > range.offset then [Range(range.offset, offset - range.offset)] else [];
    var after := if offset + size < range.End() then [Range(offset + size, range.End() - (offset + size))] else [];
    FreeConcat(before, after, p);
    TotalConcat(before, after);
    if before != [] { TotalOne(before[0]); FreeOne(before[0], p); }
    if after != [] { TotalOne(after[0]); FreeOne(after[0], p); }
  }

  lemma CarveTotal(ranges: seq<Range>, i: nat, offset: nat, size: nat)
    requires i < |ranges| && Contains(ranges[i], offset, size)
    ensures Total(Carve(ranges, i, offset, size)) + size == Total(ranges)
  {
    Thirds(ranges, i, i + 1, 0);
    assert ranges[i..i + 1] == [ranges[i]];
    TotalOne(ranges[i]);
    RemainderMeaning(ranges[i], offset, size, 0);
    ThreeParts(ranges[..i], Remainder(ranges[i], offset, size), ranges[i + 1..], 0);
  }

  /** In a well-formed list the byte of one range is in no other. */
  lemma OnlyInMiddle(a: seq<Range>, r: Range, b: seq<Range>, limit: nat, p: nat)
    requires WellFormed(a + [r] + b, limit) && r.Has(p)
    ensures !FreeAt(a, p) && !FreeAt(b, p)
  {
    var all := a + [r] + b;
    assert all[|a|] == r;
    forall i | 0 <= i < |a| ensures !a[i].Has(p) {
      assert all[i] == a[i];
    }
    forall i | 0 <= i < |b| ensures !b[i].Has(p) {
      assert all[|a| + 1 + i] == b[i];
    }
  }

  lemma Around(ranges: seq<Range>, i: nat)
    requires i < |ranges|
    ensures ranges == ranges[..i] + [ranges[i]] + ranges[i + 1..]
  {
  }

  lemma CarveWellFormed(ranges: seq<Range>, i: nat, offset: nat, size: nat, limit: nat)
    requires WellFormed(ranges, limit)
    requires i < |ranges| && Contains(ranges[i], offset, size) && size > 0
    ensures WellFormed(Carve(ranges, i, offset, size), limit)
  {
    var before, rest, after := ranges[..i], Remainder(ranges[i], offset, size), ranges[i + 1..];
    RemainderWithin(ranges[i], offset, size);
    assert forall j :: 0 <= j < |before| ==> before[j] == ranges[j] && ranges[j].End() < ranges[i].offset;
    assert forall j :: 0 <= j < |after| ==> after[j] == ranges[i + 1 + j] && ranges[i].End() < after[j].offset;
    WellFormedConcat(before, rest, limit);
    assert Precedes(before, after);
    PrecedesConcat(before, rest, after);
    WellFormedConcat(before + rest, after, limit);
  }

  lemma RemainderWithin(range: Range, offset: nat, size: nat)
    requires Contains(range, offset, size) && size > 0
    ensures var rest := Remainder(range, offset, size);
            && (forall k :: 0 <= k < |rest| ==> range.offset <= rest[k].offset && rest[k].End() <= range.End())
            && WellFormed(rest, range.End())
  {
  }

  lemma PrecedesConcat(a: seq<Range>, b: seq<Range>, c: seq<Range>)
    requires Precedes(a, c) && Precedes(b, c)
    ensures Precedes(a + b, c)
  {
  }

  lemma CarveFree(ranges: seq<Range>, i: nat, offset: nat, size: nat, limit: nat, p: nat)
    requires WellFormed(ranges, limit)
    requires i < |ranges| && Contains(ranges[i], offset, size)
    ensures FreeAt(Carve(ranges, i, offset, size), p) <==> FreeAt(ranges, p) && !Range(offset, size).Has(p)
  {
    var a, r, b := ranges[..i], ranges[i], ranges[i + 1..];
    Around(ranges, i);
    if r.Has(p) {
      OnlyInMiddle(a, r, b, limit, p);
    }
    ThreeParts(a, [r], b, p);
    FreeOne(r, p);
    RemainderMeaning(r, offset, size, p);
    ThreeParts(a, Remainder(r, offset, size), b, p);
  }

  // ---- Releasing is set union ----

  /** No byte of the block is free. */
  ghost predicate Unclaimed(ranges: seq<Range>, offset: nat, size: nat) {
    forall p {:trigger FreeAt(ranges, p)} :: offset <= p < offset + size ==> !FreeAt(ranges, p)
  }

  lemma EndsAreFree(ranges: seq<Range>, i: nat)
    requires i < |ranges| && ranges[i].size > 0
    ensures FreeAt(ranges, ranges[i].offset) && FreeAt(ranges, ranges[i].End() - 1)
  {
    assert ranges[i].Has(ranges[i].offset) && ranges[i].Has(ranges[i].End() - 1);
  }

  /** Around an unclaimed block the list splits at LowerBound: everything before
      ends by its start, everything after begins past its end. */
  lemma SplitsAround(ranges: seq<Range>, offset: nat, size: nat, limit: nat)
    requires WellFormed(ranges, limit) && size > 0 && Unclaimed(ranges, offset, size)
    ensures var k := LowerBound(ranges, offset);
            && (forall j :: 0 <= j < k ==> ranges[j].End() <= offset)
            && (forall j :: k <= j < |ranges| ==> offset + size <= ranges[j].offset)
  {
    var k := LowerBound(ranges, offset);
    forall j | 0 <= j < k ensures ranges[j].End() <= offset {
      assert ranges[j].Has(offset) <==> ranges[j].End() > offset;
      assert !FreeAt(ranges, offset);
    }
    forall j | k <= j < |ranges| ensures offset + size <= ranges[j].offset {
      EndsAreFree(ranges, j);
      assert ranges[k].offset <= ranges[j].offset;
    }
  }

  /** The neighbours and the block are, byte for byte, the merged range. */
  lemma MergedIs(ranges: seq<Range>, offset: nat, size: nat)
    ensures var (left, right) := Neighbours(ranges, offset, size);
            var k := LowerBound(ranges, offset);
            var before := if left < k then [ranges[left]] else [];
            var after := if k < right then [ranges[k]] else [];
            && ranges[left..right] == before + after
            && (left < k ==> left == k - 1 && ranges[left].End() == offset)
            && (k < right ==> right == k + 1 && ranges[k].offset == offset + size)
  {
  }

  lemma ClearBefore(ranges: seq<Range>, offset: nat, size: nat, limit: nat, i: nat)
    requires WellFormed(ranges, limit) && size > 0 && Unclaimed(ranges, offset, size)
    requires i < Neighbours(ranges, offset, size).0
    ensures ranges[i].End() < Merged(ranges, offset, size).offset
  {
    var k := LowerBound(ranges, offset);
    SplitsAround(ranges, offset, size, limit);
    assert i < k - 1 ==> ranges[i].End() < ranges[k - 1].offset;
  }

  lemma ClearAfter(ranges: seq<Range>, offset: nat, size: nat, limit: nat, i: nat)
    requires WellFormed(ranges, limit) && size > 0 && Unclaimed(ranges, offset, size)
    requires Neighbours(ranges, offset, size).1 <= i < |ranges|
    ensures Merged(ranges, offset, size).End() < ranges[i].offset
  {
    var k := LowerBound(ranges, offset);
    SplitsAround(ranges, offset, size, limit);
    MergedEnd(ranges, offset, size);
    assert i > k ==> ranges[k].End() < ranges[i].offset;
  }

  lemma MergedEnd(ranges: seq<Range>, offset: nat, size: nat)
    ensures var (left, right) := Neighbours(ranges, offset, size);
            var k := LowerBound(ranges, offset);
            Merged(ranges, offset, size).End() == if k < right then ranges[k].End() else offset + size
  {
    MergedIs(ranges, offset, size);
  }

  lemma MergedSpan(ranges: seq<Range>, offset: nat, size: nat, limit: nat)
    requires WellFormed(ranges, limit) && size > 0 && Unclaimed(ranges, offset, size)
    requires offset + size <= limit
    ensures var (left, right) := Neighbours(ranges, offset, size);
            var merged := Merged(ranges, offset, size);
            && merged.size > 0 && merged.End() <= limit
            && Precedes(ranges[..left], [merged]) && Precedes([merged], ranges[right..])
  {
    var (left, right) := Neighbours(ranges, offset, size);
    var merged := Merged(ranges, offset, size);
    MergedEnd(ranges, offset, size);
    forall i | 0 <= i < left ensures ranges[i].End() < merged.offset {
      ClearBefore(ranges, offset, size, limit, i);
    }
    forall i | right <= i < |ranges| ensures merged.End() < ranges[i].offset {
      ClearAfter(ranges, offset, size, limit, i);
    }
  }

  lemma MergedTotal(ranges: seq<Range>, offset: nat, size: nat)
    ensures var (left, right) := Neighbours(ranges, offset, size);
            Total(ranges[left..right]) + size == Merged(ranges, offset, size).size
  {
    MergedIs(ranges, offset, size);
    var (left, right) := Neighbours(ranges, offset, size);
    var k := LowerBound(ranges, offset);
    if left < k { TotalOne(ranges[left]); }
    if k < right { TotalOne(ranges[k]); }
    TotalConcat(if left < k then [ranges[left]] else [], if k < right then [ranges[k]] else []);
  }

  lemma ReleaseWellFormed(ranges: seq<Range>, offset: nat, size: nat, limit: nat)
    requires WellFormed(ranges, limit) && size > 0 && Unclaimed(ranges, offset, size)
    requires offset + size <= limit
    ensures WellFormed(Release(ranges, offset, size), limit)
    ensures Total(Release(ranges, offset, size)) == Total(ranges) + size
  {
    var (left, right) := Neighbours(ranges, offset, size);
    var merged := Merged(ranges, offset, size);
    MergedSpan(ranges, offset, size, limit);
    MergedTotal(ranges, offset, size);
    WellFormedConcat(ranges[..left], [merged], limit);
    assert Precedes(ranges[..left], ranges[right..]);
    PrecedesConcat(ranges[..left], [merged], ranges[right..]);
    WellFormedConcat(ranges[..left] + [merged], ranges[right..], limit);
    Thirds(ranges, left, right, 0);
    ThreeParts(ranges[..left], [merged], ranges[right..], 0);
    TotalOne(merged);
  }

  lemma ReleaseFree(ranges: seq<Range>, offset: nat, size: nat, p: nat)
    ensures FreeAt(Release(ranges, offset, size), p) <==> FreeAt(ranges, p) || Range(offset, size).Has(p)
  {
    var (left, right) := Neighbours(ranges, offset, size);
    var merged := Merged(ranges, offset, size);
    MergedMeaning(ranges, offset, size, p);
    Thirds(ranges, left, right, p);
    ThreeParts(ranges[..left], [merged], ranges[right..], p);
    FreeOne(merged, p);
  }

  lemma MergedMeaning(ranges: seq<Range>, offset: nat, size: nat, p: nat)
    ensures var (left, right) := Neighbours(ranges, offset, size);
            Merged(ranges, offset, size).Has(p) <==> FreeAt(ranges[left..right], p) || Range(offset, size).Has(p)
  {
    MergedIs(ranges, offset, size);
    var (left, right) := Neighbours(ranges, offset, size);
    var k := LowerBound(ranges, offset);
    if left < k { FreeOne(ranges[left], p); }
    if k < right { FreeOne(ranges[k], p); }
    FreeConcat(if left < k then [ranges[left]] else [], if k < right then [ranges[k]] else [], p);
  }

  // ---- The meaning determines the list ----

  lemma FirstByte(ranges: seq<Range>, limit: nat, p: nat)
    requires WellFormed(ranges, limit) && FreeAt(ranges, p)
    ensures ranges != [] && ranges[0].offset <= p
    ensures FreeAt(ranges, ranges[0].offset)
  {
    var i :| 0 <= i < |ranges| && ranges[i].Has(p);
    assert ranges[0].Has(ranges[0].offset);
  }

  lemma EndIsUsed(ranges: seq<Range>, limit: nat)
    requires WellFormed(ranges, limit) && ranges != []
    ensures !FreeAt(ranges, ranges[0].End())
  {
  }

  /** Two well-formed lists that call the same bytes free are the same list. */
  lemma {:induction false} Canonical(a: seq<Range>, b: seq<Range>, limit: nat)
    requires WellFormed(a, limit) && WellFormed(b, limit)
    requires forall p {:trigger FreeAt(a, p)} {:trigger FreeAt(b, p)} :: FreeAt(a, p) <==> FreeAt(b, p)
    ensures a == b
  {
    if a == [] {
      if b != [] {
        EndsAreFree(b, 0);
      }
    } else {
      assert a[0].Has(a[0].offset);
      assert FreeAt(a, a[0].offset);
      FirstByte(b, limit, a[0].offset);
      FirstByte(a, limit, b[0].offset);
      EndIsUsed(a, limit);
      EndIsUsed(b, limit);
      assert b[0].Has(a[0].End()) <==> a[0].End() < b[0].End();
      assert a[0].Has(b[0].End()) <==> b[0].End() < a[0].End();
      assert a[0] == b[0];
      forall p ensures FreeAt(a[1..], p) <==> FreeAt(b[1..], p) {
        TailFree(a, limit, p);
        TailFree(b, limit, p);
      }
      Canonical(a[1..], b[1..], limit);
      assert a == [a[0]] + a[1..] && b == [b[0]] + b[1..];
    }
  }

  lemma TailFree(ranges: seq<Range>, limit: nat, p: nat)
    requires WellFormed(ranges, limit) && ranges != []
    ensures FreeAt(ranges[1..], p) <==> FreeAt(ranges, p) && !ranges[0].Has(p)
  {
    if FreeAt(ranges[1..], p) {
      var i :| 0 <= i < |ranges[1..]| && ranges[1..][i].Has(p);
      assert ranges[i + 1].Has(p);
    }
    if FreeAt(ranges, p) && !ranges[0].Has(p) {
      var i :| 0 <= i < |ranges| && ranges[i].Has(p);
      assert ranges[1..][i - 1].Has(p);
    }
  }

  /** Carving a block and giving it back restores the list, range for range. */
  lemma CarveThenRelease(ranges: seq<Range>, i: nat, offset: nat, size: nat, limit: nat)
    requires WellFormed(ranges, limit)
    requires i < |ranges| && Contains(ranges[i], offset, size) && size > 0
    ensures Release(Carve(ranges, i, offset, size), offset, size) == ranges
  {
    var carved := Carve(ranges, i, offset, size);
    CarveWellFormed(ranges, i, offset, size, limit);
    forall p ensures FreeAt(carved, p) <==> FreeAt(ranges, p) && !Range(offset, size).Has(p) {
      CarveFree(ranges, i, offset, size, limit, p);
    }
    ReleaseWellFormed(carved, offset, size, limit);
    var back := Release(carved, offset, size);
    forall p ensures FreeAt(back, p) <==> FreeAt(ranges, p) {
      ReleaseFree(carved, offset, size, p);
      if Range(offset, size).Has(p) {
        assert ranges[i].Has(p);
      }
    }
    Canonical(back, ranges, limit);
  }

  /** A list whose total is the whole space is the whole space. */
  lemma {:induction false} TotalWithin(ranges: seq<Range>, limit: nat)
    requires WellFormed(ranges, limit)
    ensures Total(ranges) <= limit
    ensures ranges != [] ==> Total(ranges) <= limit - ranges[0].offset - (|ranges| - 1)
  {
    if |ranges| == 1 {
      TotalOne(ranges[0]);
      assert ranges == [ranges[0]];
    } else if ranges != [] {
      var last := |ranges| - 1;
      assert ranges[last - 1].End() < ranges[last].offset;
      TotalWithin(ranges[..last], ranges[last].offset - 1);
    }
  }

  lemma FullTotal(ranges: seq<Range>, limit: nat)
    requires WellFormed(ranges, limit) && limit > 0
    ensures Total(ranges) == limit <==> ranges == [Range(0, limit)]
  {
    TotalWithin(ranges, limit);
    if Total(ranges) == limit {
      assert |ranges| == 1 && ranges[0].offset == 0;
      TotalOne(ranges[0]);
      assert ranges == [ranges[0]];
    } else if ranges == [Range(0, limit)] {
      TotalOne(Range(0, limit));
    }
  }

  // ---- Room for a block ----

  /** All bytes of the block are free. */
  ghost predicate AllFree(ranges: seq<Range>, offset: nat, size: nat) {
    forall p: nat {:trigger FreeAt(ranges, p)} :: offset <= p < offset + size ==> FreeAt(ranges, p)
  }

  /** In a well-formed list the byte behind a range is not free. */
  lemma EndIsTaken(ranges: seq<Range>, limit: nat, k: nat)
    requires WellFormed(ranges, limit) && k < |ranges|
    ensures !FreeAt(ranges, ranges[k].End())
  {
  }

  /** In a well-formed list a free block lies within one range. */
  lemma InOneRange(ranges: seq<Range>, limit: nat, offset: nat, size: nat) returns (k: nat)
    requires WellFormed(ranges, limit) && size > 0 && AllFree(ranges, offset, size)
    ensures k < |ranges| && Contains(ranges[k], offset, size)
  {
    assert FreeAt(ranges, offset);
    k :| 0 <= k < |ranges| && ranges[k].Has(offset);
    EndIsTaken(ranges, limit, k);
  }

  lemma ContainedIsFree(ranges: seq<Range>, k: nat, offset: nat, size: nat)
    requires k < |ranges| && Contains(ranges[k], offset, size)
    ensures AllFree(ranges, offset, size)
  {
    forall p: nat | offset <= p < offset + size ensures FreeAt(ranges, p) {
      assert ranges[k].Has(p);
    }
  }

  lemma {:induction false} TotalAtLeast(ranges: seq<Range>, k: nat)
    requires k < |ranges|
    ensures ranges[k].size <= Total(ranges)
  {
    if k < |ranges| - 1 {
      TotalAtLeast(ranges[..|ranges| - 1], k);
    }
  }

  /** The first range that is large enough starts at the lowest place there is. */
  lemma FirstIsLowest(ranges: seq<Range>, limit: nat, k: nat, size: nat)
    requires WellFormed(ranges, limit) && k <= |ranges| && size > 0
    requires k < |ranges| ==> size <= ranges[k].size
    requires forall j :: 0 <= j < k ==> ranges[j].size < size
    ensures k < |ranges| ==> AllFree(ranges, ranges[k].offset, size)
    ensures forall lower: nat :: (k < |ranges| ==> lower < ranges[k].offset) ==> !AllFree(ranges, lower, size)
  {
    if k < |ranges| {
      ContainedIsFree(ranges, k, ranges[k].offset, size);
    }
    forall lower: nat | k < |ranges| ==> lower < ranges[k].offset ensures !AllFree(ranges, lower, size) {
      if AllFree(ranges, lower, size) {
        var l := InOneRange(ranges, limit, lower, size);
      }
    }
  }
}
