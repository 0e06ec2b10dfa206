/** Planning an evacuation: which arena is worth it, and where everything in it
    would go. Nothing is changed until a whole plan has been found. */
module GpuPlanner {
  import opened Wrappers
  import opened Alignment
  import opened Sums
  import opened FreeList
  import opened GpuCore
  import opened GpuState
  import opened GpuInvariant
  import opened GpuAllocate
  import opened GpuPlan
  import opened GpuConservation

  // ---- How much an arena holds ----

  datatype Usage = Usage(live: nat, count: nat, pinned: bool)

  predicate PinnedIn(e: Entry, a: nat) {
    e.live && e.arena == a && !e.movable
  }

  /** Bytes and number of the arena's allocations, and whether one is pinned. */
  ghost predicate Measures(usage: Usage, entries: seq<Entry>, a: nat) {
    && usage.live == Sum(entries, LiveSize(a)) && usage.count == Sum(entries, LiveIn(a))
    && (usage.pinned <==> exists id :: 0 <= id < |entries| && PinnedIn(entries[id], a))
  }

  function Including(usage: Usage, e: Entry, a: nat): Usage {
    if e.live && e.arena == a then Usage(usage.live + e.size, usage.count + 1, usage.pinned || !e.movable) else usage
  }

  lemma MeasuresOneMore(usage: Usage, entries: seq<Entry>, a: nat, e: Entry)
    requires Measures(usage, entries, a)
    ensures Measures(Including(usage, e, a), entries + [e], a)
  {
    SumAppend(entries, e, LiveSize(a));
    SumAppend(entries, e, LiveIn(a));
    var after := entries + [e];
    if PinnedIn(e, a) {
      assert PinnedIn(after[|entries|], a);
    }
    if usage.pinned {
      var id :| 0 <= id < |entries| && PinnedIn(entries[id], a);
      assert PinnedIn(after[id], a);
    }
  }

  method MeasureArena(entries: seq<Entry>, a: nat) returns (usage: Usage)
    requires entries != [] && !entries[0].live
    ensures Measures(usage, entries, a)
  {
    usage := Usage(0, 0, false);
    assert Measures(usage, [], a);
    MeasuresOneMore(usage, [], a, entries[0]);
    assert entries[..1] == [] + [entries[0]];
    hide Measures;
    for id := 1 to |entries|
      invariant Measures(usage, entries[..id], a)
    {
      MeasuresOneMore(usage, entries[..id], a, entries[id]);
      assert entries[..id + 1] == entries[..id] + [entries[id]];
      if entries[id].live && entries[id].arena == a {
        usage := Usage(usage.live + entries[id].size, usage.count + 1, usage.pinned || !entries[id].movable);
      }
    }
    assert entries[..|entries|] == entries;
  }

  // ---- Ranking ----

  datatype Candidate = Candidate(arena: nat, capacity: nat, live: nat, count: nat) {
    function Recovery(): int { capacity - live }
  }

  predicate RecoversMore(lhs: Candidate, rhs: Candidate) {
    if lhs.Recovery() != rhs.Recovery() then lhs.Recovery() > rhs.Recovery()
    else if lhs.live != rhs.live then lhs.live < rhs.live
    else if lhs.count != rhs.count then lhs.count < rhs.count
    else lhs.arena < rhs.arena
  }

  /** The one recovers at least as much; if no more, it has no more live bytes; if as
      many, no more allocations; and if as many, the lower number. */
  predicate RanksAbove(c: Candidate, d: Candidate) {
    && c.capacity - c.live >= d.capacity - d.live
    && (c.capacity - c.live == d.capacity - d.live ==>
          && c.live <= d.live
          && (c.live == d.live ==> c.count <= d.count && (c.count == d.count ==> c.arena < d.arena)))
  }

  /** The ranking is that one, a strict order that tells any two arenas apart. */
  lemma RankingIsTotal(a: Candidate, b: Candidate, c: Candidate)
    ensures RecoversMore(a, b) <==> RanksAbove(a, b)
    ensures !RecoversMore(a, a)
    ensures a.arena != b.arena ==> RecoversMore(a, b) || RecoversMore(b, a)
    ensures RecoversMore(a, b) && RecoversMore(b, c) ==> RecoversMore(a, c)
  {
  }

  ghost predicate Ranked(candidates: seq<Candidate>) {
    forall i, j :: 0 <= i < j < |candidates| ==> RanksAbove(candidates[i], candidates[j])
  }

  ghost predicate DistinctArenas(candidates: seq<Candidate>) {
    forall i, j :: 0 <= i < j < |candidates| ==> candidates[i].arena != candidates[j].arena
  }

  /** The library's sort. */
  method RankCandidates(candidates: seq<Candidate>) returns (ranked: seq<Candidate>)
    requires DistinctArenas(candidates)
    ensures multiset(ranked) == multiset(candidates) && Ranked(ranked)
  {
    ranked := [];
    for i := 0 to |candidates|
      invariant multiset(ranked) == multiset(candidates[..i]) && Ranked(ranked)
    {
      var c := candidates[i];
      assert candidates[..i + 1] == candidates[..i] + [c];
      forall k | 0 <= k < |ranked| ensures ranked[k].arena != c.arena {
        assert ranked[k] in multiset(ranked);
        assert ranked[k] in candidates[..i];
      }
      var k := 0;
      while k < |ranked| && RecoversMore(ranked[k], c)
        invariant 0 <= k <= |ranked| && forall j :: 0 <= j < k ==> RecoversMore(ranked[j], c)
      {
        k := k + 1;
      }
      ghost var was := ranked;
      assert ranked == ranked[..k] + ranked[k..];
      if k < |ranked| {
        RankingIsTotal(c, ranked[k], c);
      }
      ranked := ranked[..k] + [c] + ranked[k..];
      InsertRanked(was, k, c);
    }
    assert candidates[..|candidates|] == candidates;
  }

  lemma InsertRanked(ranked: seq<Candidate>, k: nat, c: Candidate)
    requires Ranked(ranked) && k <= |ranked| && (forall j :: 0 <= j < k ==> RecoversMore(ranked[j], c))
    requires k < |ranked| ==> RanksAbove(c, ranked[k])
    ensures Ranked(ranked[..k] + [c] + ranked[k..])
  {
    var after := ranked[..k] + [c] + ranked[k..];
    forall i, j | 0 <= i < j < |after| ensures RanksAbove(after[i], after[j]) {
      if i == k {
        assert after[j] == ranked[j - 1];
        assert j - 1 > k ==> RanksAbove(ranked[k], ranked[j - 1]);
      }
    }
  }

  // ---- Destinations as the planner sees them ----

  datatype Simulated = Simulated(arena: nat, free: int, ranges: seq<Range>)

  /** The simulated arenas are different ones and have the free space they have. */
  ghost predicate Simulates(destinations: seq<Simulated>, arenas: seq<Arena>) {
    && (forall j :: 0 <= j < |destinations| ==>
          var d := destinations[j];
          d.arena < |arenas| && d.ranges == arenas[d.arena].ranges && d.free == arenas[d.arena].free)
    && (forall i, j :: 0 <= i < j < |destinations| ==> destinations[i].arena != destinations[j].arena)
  }

  /** An arena that a move out of `source` may go to. */
  predicate Receives(arenas: seq<Arena>, source: nat, a: nat)
    requires a < |arenas| && source < |arenas|
  {
    a != source && arenas[a].role == Normal && !arenas[a].dedicated && arenas[a].memoryClass == arenas[source].memoryClass
  }

  /** They stand in the order of the arenas. */
  ghost predicate InArenaOrder(destinations: seq<Simulated>, order: seq<nat>) {
    forall i, j :: 0 <= i < j < |destinations| ==>
      IndexOf(order, 0, destinations[i].arena) < IndexOf(order, 0, destinations[j].arena)
  }

  lemma InArenaOrderOneMore(destinations: seq<Simulated>, order: seq<nat>, i: nat, x: Simulated)
    requires NoRepeats(order) && i < |order| && x.arena == order[i] && InArenaOrder(destinations, order)
    requires forall j :: 0 <= j < |destinations| ==> destinations[j].arena in order[..i]
    ensures InArenaOrder(destinations + [x], order)
  {
    hide IndexOf;
    var after := destinations + [x];
    forall p, q | 0 <= p < q < |after| ensures IndexOf(order, 0, after[p].arena) < IndexOf(order, 0, after[q].arena) {
      if q == |destinations| {
        var k :| 0 <= k < i && order[k] == after[p].arena;
        assert IndexOf(order, 0, order[i]) == i && IndexOf(order, 0, order[k]) == k;
      }
    }
  }

  method CollectDestinations(arenas: seq<Arena>, order: seq<nat>, source: nat) returns (destinations: seq<Simulated>)
    requires source < |arenas| && NoRepeats(order) && forall k :: 0 <= k < |order| ==> order[k] < |arenas|
    ensures Simulates(destinations, arenas)
    ensures forall a :: a in order ==>
              (Receives(arenas, source, a) <==> exists j :: 0 <= j < |destinations| && destinations[j].arena == a)
    ensures forall j :: 0 <= j < |destinations| ==> destinations[j].arena in order
    ensures InArenaOrder(destinations, order)
  {
    destinations := [];
    assert InArenaOrder(destinations, order);
    hide InArenaOrder;
    for i := 0 to |order|
      invariant Simulates(destinations, arenas) && InArenaOrder(destinations, order)
      invariant forall k :: 0 <= k < i ==>
                  (Receives(arenas, source, order[k]) <==> exists j :: 0 <= j < |destinations| && destinations[j].arena == order[k])
      invariant forall j :: 0 <= j < |destinations| ==> destinations[j].arena in order[..i]
    {
      var a := order[i];
      var x := arenas[a];
      ghost var was := destinations;
      if a != source && x.role == Normal && !x.dedicated && x.memoryClass == arenas[source].memoryClass {
        forall j | 0 <= j < |destinations| ensures destinations[j].arena != a {
          assert destinations[j].arena in order[..i];
        }
        InArenaOrderOneMore(destinations, order, i, Simulated(a, x.free, x.ranges));
        destinations := destinations + [Simulated(a, x.free, x.ranges)];
        assert destinations[|was|].arena == a;
      }
      forall k | 0 <= k < i + 1
        ensures Receives(arenas, source, order[k]) <==> exists j :: 0 <= j < |destinations| && destinations[j].arena == order[k]
      {
        if k < i && Receives(arenas, source, order[k]) {
          var j :| 0 <= j < |was| && was[j].arena == order[k];
          assert destinations[j].arena == order[k];
        }
        if k == i && !Receives(arenas, source, a) {
          forall j | 0 <= j < |destinations| ensures destinations[j].arena != a {
            assert destinations[j].arena in order[..i];
          }
        }
      }
    }
  }

  // ---- Best fit ----

  datatype Fit = Fit(destination: nat, range: nat, offset: nat)

  /** Where in that range of that arena the block could go. */
  predicate FitsIn(destinations: seq<Simulated>, d: nat, k: nat, size: nat, alignment: nat) {
    && d < |destinations| && destinations[d].free >= size && k < |destinations[d].ranges|
    && AlignedFit(destinations[d].ranges[k], size, alignment).Some?
  }

  function Waste(destinations: seq<Simulated>, d: nat, k: nat, size: nat): int
    requires d < |destinations| && k < |destinations[d].ranges|
  {
    destinations[d].ranges[k].size - size
  }

  predicate Before(d: nat, k: nat, e: nat, l: nat) {
    d < e || (d == e && k < l)
  }

  /** No worse than the other range: less wasted, or as little in an arena with less
      free space, or with as little and not after it. */
  predicate NoWorse(destinations: seq<Simulated>, d: nat, k: nat, e: nat, l: nat, size: nat)
    requires d < |destinations| && k < |destinations[d].ranges| && e < |destinations| && l < |destinations[e].ranges|
  {
    var waste, other := Waste(destinations, d, k, size), Waste(destinations, e, l, size);
    || waste < other
    || (waste == other && destinations[d].free < destinations[e].free)
    || (waste == other && destinations[d].free == destinations[e].free && !Before(e, l, d, k))
  }

  /** The best of the ranges before range l of arena e. */
  ghost predicate BestBefore(destinations: seq<Simulated>, fit: Option<Fit>, e: nat, l: nat, size: nat, alignment: nat) {
    match fit
    case None => forall d: nat, k: nat {:trigger FitsIn(destinations, d, k, size, alignment)} ::
                   Before(d, k, e, l) ==> !FitsIn(destinations, d, k, size, alignment)
    case Some(f) =>
      && FitsIn(destinations, f.destination, f.range, size, alignment) && Before(f.destination, f.range, e, l)
      && f.offset == AlignedFit(destinations[f.destination].ranges[f.range], size, alignment).value
      && forall d: nat, k: nat {:trigger FitsIn(destinations, d, k, size, alignment)} ::
           Before(d, k, e, l) && FitsIn(destinations, d, k, size, alignment) ==>
             NoWorse(destinations, f.destination, f.range, d, k, size)
  }

  ghost predicate Best(destinations: seq<Simulated>, fit: Option<Fit>, size: nat, alignment: nat) {
    match fit
    case None => forall d: nat, k: nat :: !FitsIn(destinations, d, k, size, alignment)
    case Some(f) =>
      && FitsIn(destinations, f.destination, f.range, size, alignment)
      && f.offset == AlignedFit(destinations[f.destination].ranges[f.range], size, alignment).value
      && forall d: nat, k: nat :: FitsIn(destinations, d, k, size, alignment) ==>
           NoWorse(destinations, f.destination, f.range, d, k, size)
  }

  /** The range is passed over. */
  lemma BestKeeps(destinations: seq<Simulated>, fit: Option<Fit>, d: nat, k: nat, size: nat, alignment: nat)
    requires BestBefore(destinations, fit, d, k, size, alignment) && d < |destinations| && k < |destinations[d].ranges|
    requires !FitsIn(destinations, d, k, size, alignment)
             || (fit.Some? && NoWorse(destinations, fit.value.destination, fit.value.range, d, k, size))
    ensures BestBefore(destinations, fit, d, k + 1, size, alignment)
  {
    hide AlignedFit;
  }

  /** The range is taken. */
  lemma BestTakes(destinations: seq<Simulated>, fit: Option<Fit>, d: nat, k: nat, size: nat, alignment: nat)
    requires BestBefore(destinations, fit, d, k, size, alignment) && FitsIn(destinations, d, k, size, alignment)
    requires fit.Some? ==> !NoWorse(destinations, fit.value.destination, fit.value.range, d, k, size)
    ensures BestBefore(destinations, Some(Fit(d, k, AlignedFit(destinations[d].ranges[k], size, alignment).value)),
                       d, k + 1, size, alignment)
  {
    hide AlignedFit;
  }

  /** The arena is done with, or has not the space. */
  lemma BestArena(destinations: seq<Simulated>, fit: Option<Fit>, d: nat, k: nat, size: nat, alignment: nat)
    requires BestBefore(destinations, fit, d, k, size, alignment) && d < |destinations|
    requires destinations[d].free < size || k == |destinations[d].ranges|
    ensures BestBefore(destinations, fit, d + 1, 0, size, alignment)
  {
    hide AlignedFit;
  }

  lemma BestAll(destinations: seq<Simulated>, fit: Option<Fit>, size: nat, alignment: nat)
    requires BestBefore(destinations, fit, |destinations|, 0, size, alignment)
    ensures Best(destinations, fit, size, alignment)
  {
    hide AlignedFit;
  }

  lemma BestInRange(destinations: seq<Simulated>, fit: Option<Fit>, d: nat, k: nat, size: nat, alignment: nat)
    requires BestBefore(destinations, fit, d, k, size, alignment) && fit.Some?
    ensures var f := fit.value;
            f.destination < |destinations| && f.range < |destinations[f.destination].ranges| && Before(f.destination, f.range, d, k)
  {
  }

  /** Of all ranges that can hold the aligned block, the first among those that waste
      least and lie in an arena with least free space; none only if there is none. */
  method FindBestFit(destinations: seq<Simulated>, size: nat, alignment: nat) returns (fit: Option<Fit>)
    ensures Best(destinations, fit, size, alignment)
  {
    fit := None;
    assert BestBefore(destinations, fit, 0, 0, size, alignment);
    hide BestBefore, Best, AlignedFit;
    var bestWaste := 0;
    for d := 0 to |destinations|
      invariant BestBefore(destinations, fit, d, 0, size, alignment)
      invariant fit.Some? ==> fit.value.destination < |destinations|
                              && fit.value.range < |destinations[fit.value.destination].ranges|
                              && bestWaste == Waste(destinations, fit.value.destination, fit.value.range, size)
    {
      var ranges := destinations[d].ranges;
      if destinations[d].free >= size {
        for index := 0 to |ranges|
          invariant BestBefore(destinations, fit, d, index, size, alignment)
          invariant fit.Some? ==> fit.value.destination < |destinations|
                                  && fit.value.range < |destinations[fit.value.destination].ranges|
                                  && bestWaste == Waste(destinations, fit.value.destination, fit.value.range, size)
        {
          var aligned := AlignedFit(ranges[index], size, alignment);
          if fit.Some? {
            BestInRange(destinations, fit, d, index, size, alignment);
          }
          if aligned.Some? {
            var waste := ranges[index].size - size;
            if fit.None? || waste < bestWaste
               || (waste == bestWaste && destinations[d].free < destinations[fit.value.destination].free) {
              BestTakes(destinations, fit, d, index, size, alignment);
              fit := Some(Fit(d, index, aligned.value));
              bestWaste := waste;
            } else {
              BestKeeps(destinations, fit, d, index, size, alignment);
            }
          } else {
            BestKeeps(destinations, fit, d, index, size, alignment);
          }
        }
        BestArena(destinations, fit, d, |ranges|, size, alignment);
      } else {
        BestArena(destinations, fit, d, 0, size, alignment);
      }
    }
    BestAll(destinations, fit, size, alignment);
  }

  // ---- Placing one move after the other ----

  /** The block is carved out of the chosen range. */
  function OccupyRange(d: Simulated, index: nat, offset: nat, size: nat): Simulated
    requires index < |d.ranges| && Contains(d.ranges[index], offset, size)
  {
    var range := d.ranges[index];
    var without := d.ranges[..index] + d.ranges[index + 1..];
    var front := if offset > range.offset then [Range(range.offset, offset - range.offset)] else [];
    var end := offset + size;
    var back := if end < range.offset + range.size then [Range(end, range.offset + range.size - end)] else [];
    d.(ranges := without[..index] + (front + back) + without[index..], free := d.free - size)
  }

  /** In a well-formed list the range that contains a block is the first that does. */
  lemma OnlyContainer(ranges: seq<Range>, limit: nat, k: nat, offset: nat, size: nat)
    requires WellFormed(ranges, limit) && k < |ranges| && Contains(ranges[k], offset, size) && size > 0
    ensures FindRange(ranges, 0, offset, size) == k
  {
    assert forall j :: 0 <= j < k ==> !Contains(ranges[j], offset, size);
  }

  ghost predicate AllOk(arenas: seq<Arena>) {
    forall a :: 0 <= a < |arenas| ==> ArenaOk(arenas[a])
  }

  /** Occupying a range in the simulation is reserving the block in the arena. */
  lemma OccupySimulates(destinations: seq<Simulated>, arenas: seq<Arena>, fit: Fit, m: Move)
    requires Simulates(destinations, arenas) && AllOk(arenas)
    requires fit.destination < |destinations| && fit.range < |destinations[fit.destination].ranges|
    requires Contains(destinations[fit.destination].ranges[fit.range], fit.offset, m.size) && m.size > 0
    requires m.destination == destinations[fit.destination].arena && m.destinationOffset == fit.offset
    ensures m.destination < |arenas| && Available(arenas[m.destination], m.destinationOffset, m.size)
    ensures AllOk(Booked(arenas, m))
    ensures Simulates(destinations[fit.destination := OccupyRange(destinations[fit.destination], fit.range, fit.offset, m.size)],
                      Booked(arenas, m))
  {
    var d, x := destinations[fit.destination], arenas[m.destination];
    hide FindRange, Carve;
    OnlyContainer(x.ranges, x.capacity, fit.range, fit.offset, m.size);
    OccupyOk(x, fit.offset, m.size);
    OccupyIsCarve(d, fit.range, fit.offset, m.size);
    hide ArenaOk;
  }

  lemma OccupyIsCarve(d: Simulated, index: nat, offset: nat, size: nat)
    requires index < |d.ranges| && Contains(d.ranges[index], offset, size)
    ensures OccupyRange(d, index, offset, size) == d.(ranges := Carve(d.ranges, index, offset, size), free := d.free - size)
  {
    var without := d.ranges[..index] + d.ranges[index + 1..];
    assert without[..index] == d.ranges[..index] && without[index..] == d.ranges[index + 1..];
  }

  // ---- The order of the moves ----

  /** The library's sort puts the most aligned first, and the largest among those. */
  predicate GoesBefore(entries: seq<Entry>, lhs: Move, rhs: Move)
    requires lhs.allocation < |entries| && rhs.allocation < |entries|
  {
    if entries[lhs.allocation].alignment != entries[rhs.allocation].alignment then
      entries[lhs.allocation].alignment > entries[rhs.allocation].alignment
    else lhs.size > rhs.size
  }

  ghost predicate InTable(moves: seq<Move>, entries: seq<Entry>) {
    forall i :: 0 <= i < |moves| ==> moves[i].allocation < |entries|
  }

  /** No later move is of a more aligned allocation, nor of a larger one as aligned. */
  ghost predicate InMoveOrder(moves: seq<Move>, entries: seq<Entry>)
    requires InTable(moves, entries)
  {
    forall i, j :: 0 <= i < j < |moves| ==> InTurn(entries, moves[i], moves[j])
  }

  predicate InTurn(entries: seq<Entry>, m: Move, n: Move)
    requires m.allocation < |entries| && n.allocation < |entries|
  {
    && entries[m.allocation].alignment >= entries[n.allocation].alignment
    && (entries[m.allocation].alignment == entries[n.allocation].alignment ==> m.size >= n.size)
  }

  ghost predicate DistinctMoves(moves: seq<Move>) {
    forall i, j :: 0 <= i < j < |moves| ==> moves[i].allocation != moves[j].allocation
  }

  /** The same moves in another order. */
  ghost predicate Rearranged(before: seq<Move>, after: seq<Move>) {
    multiset(before) == multiset(after)
  }

  lemma InsertInOrder(moves: seq<Move>, entries: seq<Entry>, k: nat, m: Move)
    requires InTable(moves, entries) && InMoveOrder(moves, entries) && k <= |moves| && m.allocation < |entries|
    requires forall j :: 0 <= j < k ==> !GoesBefore(entries, m, moves[j])
    requires k < |moves| ==> GoesBefore(entries, m, moves[k])
    ensures var after := moves[..k] + [m] + moves[k..]; InTable(after, entries) && InMoveOrder(after, entries)
  {
    var after := moves[..k] + [m] + moves[k..];
    forall i, j | 0 <= i < j < |after| ensures InTurn(entries, after[i], after[j]) {
      if i == k {
        assert after[j] == moves[j - 1];
        assert j - 1 > k ==> InTurn(entries, moves[k], moves[j - 1]);
      }
    }
  }

  method SortMoves(moves: seq<Move>, entries: seq<Entry>) returns (sorted: seq<Move>)
    requires InTable(moves, entries)
    ensures Rearranged(moves, sorted) && InTable(sorted, entries) && InMoveOrder(sorted, entries)
  {
    sorted := [];
    assert InMoveOrder(sorted, entries);
    hide InMoveOrder, GoesBefore;
    for i := 0 to |moves|
      invariant Rearranged(moves[..i], sorted) && InTable(sorted, entries) && InMoveOrder(sorted, entries)
    {
      var m := moves[i];
      var k := 0;
      while k < |sorted| && !GoesBefore(entries, m, sorted[k])
        invariant 0 <= k <= |sorted| && forall j :: 0 <= j < k ==> !GoesBefore(entries, m, sorted[j])
      {
        k := k + 1;
      }
      InsertInOrder(sorted, entries, k, m);
      assert moves[..i + 1] == moves[..i] + [m];
      assert sorted == sorted[..k] + sorted[k..];
      sorted := sorted[..k] + [m] + sorted[k..];
    }
    assert moves[..|moves|] == moves;
  }

  lemma RearrangedMembers(before: seq<Move>, after: seq<Move>)
    requires Rearranged(before, after)
    ensures |before| == |after|
    ensures forall m :: m in before <==> m in after
  {
    assert |multiset(before)| == |before| && |multiset(after)| == |after|;
    forall m ensures m in before <==> m in after {
      assert m in before <==> m in multiset(before);
      assert m in after <==> m in multiset(after);
    }
  }

  lemma RearrangedDistinct(before: seq<Move>, after: seq<Move>)
    requires Rearranged(before, after) && DistinctMoves(before)
    ensures DistinctMoves(after)
  {
    RearrangedMembers(before, after);
    forall i, j | 0 <= i < j < |after| ensures after[i].allocation != after[j].allocation {
      OneForEach(before, after[i], after[j]);
      OnceAtMost(before, after[i]);
      CountedTwice(after, i, j);
    }
  }

  lemma OneForEach(moves: seq<Move>, m: Move, n: Move)
    requires DistinctMoves(moves) && m in moves && n in moves
    ensures m.allocation == n.allocation ==> m == n
  {
    var p :| 0 <= p < |moves| && moves[p] == m;
    var q :| 0 <= q < |moves| && moves[q] == n;
  }

  lemma CountedTwice(moves: seq<Move>, i: nat, j: nat)
    requires i < j < |moves|
    ensures moves[i] == moves[j] ==> multiset(moves)[moves[i]] >= 2
  {
    var front := moves[..j];
    assert moves == front + [moves[j]] + moves[j + 1..];
    assert front[i] in front;
    assert front[i] in multiset(front);
  }

  lemma {:induction false} OnceAtMost(moves: seq<Move>, m: Move)
    requires DistinctMoves(moves)
    ensures multiset(moves)[m] <= 1
  {
    if moves != [] {
      var last := |moves| - 1;
      var init := moves[..last];
      OnceAtMost(init, m);
      assert moves == init + [moves[last]];
      assert forall p :: 0 <= p < last ==> init[p] != moves[last];
      assert moves[last] !in multiset(init);
    }
  }

  // ---- Simulating an evacuation ----

  /** A move out of the source, not yet told where to go. */
  function Unplaced(entries: seq<Entry>, id: nat): Move
    requires id < |entries|
  {
    Move(U32_MAX, id, entries[id].arena, 0, entries[id].offset, 0, entries[id].size, Reserved, 0, 0)
  }

  ghost predicate FromSource(entries: seq<Entry>, source: nat, m: Move) {
    && m.allocation < |entries| && entries[m.allocation].live && entries[m.allocation].arena == source
    && m == Unplaced(entries, m.allocation).(destination := m.destination, destinationOffset := m.destinationOffset)
  }

  /** Everything in the source, each once. */
  ghost predicate Evacuates(entries: seq<Entry>, source: nat, moves: seq<Move>) {
    && (forall i :: 0 <= i < |moves| ==> FromSource(entries, source, moves[i]))
    && DistinctMoves(moves)
    && (forall id :: 0 <= id < |entries| && entries[id].live && entries[id].arena == source ==> Moves(moves, id))
  }

  method CollectMoves(entries: seq<Entry>, source: nat) returns (moves: seq<Move>)
    requires entries != [] && !entries[0].live
    ensures Evacuates(entries, source, moves)
  {
    moves := [];
    for id := 1 to |entries|
      invariant forall i :: 0 <= i < |moves| ==> FromSource(entries, source, moves[i]) && moves[i].allocation < id
      invariant DistinctMoves(moves)
      invariant forall k :: 0 <= k < id && entries[k].live && entries[k].arena == source ==> Moves(moves, k)
    {
      if entries[id].live && entries[id].arena == source {
        ghost var was := moves;
        moves := moves + [Unplaced(entries, id)];
        assert moves[|was|].allocation == id;
        forall k | 0 <= k < id && entries[k].live && entries[k].arena == source ensures Moves(moves, k) {
          var i :| 0 <= i < |was| && was[i].allocation == k;
          assert moves[i].allocation == k;
        }
      }
    }
  }

  lemma RearrangedEvacuates(entries: seq<Entry>, source: nat, before: seq<Move>, after: seq<Move>)
    requires Evacuates(entries, source, before) && Rearranged(before, after)
    ensures Evacuates(entries, source, after)
  {
    RearrangedMembers(before, after);
    RearrangedDistinct(before, after);
    forall i | 0 <= i < |after| ensures FromSource(entries, source, after[i]) {
      assert after[i] in before;
    }
    forall id | 0 <= id < |entries| && entries[id].live && entries[id].arena == source ensures Moves(after, id) {
      assert Moves(before, id);
      var i :| 0 <= i < |before| && before[i].allocation == id;
      assert before[i] in after;
    }
  }

  /** The source may be planned for: it may be evacuated and holds no pinned block. */
  ghost predicate Plannable(s: State, source: nat) {
    && Sound(s) && source in s.order && source < |s.arenas| && CanEvacuate(s.arenas[source])
    && forall id :: 0 <= id < |s.entries| ==> !PinnedIn(s.entries[id], source)
  }

  // ---- What the planner finds ----

  /** The aligned block goes into that range of that arena. */
  predicate RangeFits(arenas: seq<Arena>, a: nat, k: nat, size: nat, alignment: nat) {
    && a < |arenas| && k < |arenas[a].ranges| && arenas[a].free >= size
    && AlignedFit(arenas[a].ranges[k], size, alignment).Some?
  }

  /** Of two ranges the better one leaves less over, or as much in an arena with less
      free space, or with as much in an arena that stands before, or is the earlier one
      in the same arena. */
  ghost predicate NotBehind(order: seq<nat>, arenas: seq<Arena>, a: nat, k: nat, b: nat, l: nat)
    requires a < |arenas| && k < |arenas[a].ranges| && b < |arenas| && l < |arenas[b].ranges|
  {
    var x, y := arenas[a].ranges[k].size, arenas[b].ranges[l].size;
    || x < y
    || (x == y && arenas[a].free < arenas[b].free)
    || (x == y && arenas[a].free == arenas[b].free
        && (IndexOf(order, 0, a) < IndexOf(order, 0, b) || (a == b && k <= l)))
  }

  predicate MayReceive(s: State, source: nat, a: nat)
    requires source < |s.arenas|
  {
    && a in s.order && a < |s.arenas| && a != source
    && s.arenas[a].role == Normal && !s.arenas[a].dedicated && s.arenas[a].memoryClass == s.arenas[source].memoryClass
  }

  /** The move leads to the start of the best range that any receiving arena has. */
  ghost predicate BestRange(s: State, source: nat, arenas: seq<Arena>, m: Move, k: nat)
    requires source < |s.arenas| && m.allocation < |s.entries|
  {
    var alignment := Pow2(s.entries[m.allocation].alignment);
    && MayReceive(s, source, m.destination) && RangeFits(arenas, m.destination, k, m.size, alignment)
    && m.destinationOffset == AlignedFit(arenas[m.destination].ranges[k], m.size, alignment).value
    && forall b: nat, l: nat {:trigger RangeFits(arenas, b, l, m.size, alignment)} ::
         MayReceive(s, source, b) && RangeFits(arenas, b, l, m.size, alignment) ==>
           NotBehind(s.order, arenas, m.destination, k, b, l)
  }

  ghost predicate NoRange(s: State, source: nat, arenas: seq<Arena>, m: Move)
    requires source < |s.arenas| && m.allocation < |s.entries|
  {
    forall b: nat, l: nat {:trigger RangeFits(arenas, b, l, m.size, Pow2(s.entries[m.allocation].alignment))} ::
      MayReceive(s, source, b) ==> !RangeFits(arenas, b, l, m.size, Pow2(s.entries[m.allocation].alignment))
  }

  /** The k-th move is placed best in what the moves before it leave. */
  ghost predicate PlacedBest(s: State, source: nat, moves: seq<Move>, k: nat) {
    && k < |moves| && source < |s.arenas| && moves[k].allocation < |s.entries|
    && ReserveAll(s.arenas, moves[..k]).Some?
    && exists r: nat :: BestRange(s, source, ReserveAll(s.arenas, moves[..k]).value, moves[k], r)
  }

  /** Everything in the source, ordered, and the first i of the moves placed best one
      after the other. */
  ghost predicate BestSoFar(s: State, source: nat, moves: seq<Move>, i: nat) {
    && i <= |moves| && source < |s.arenas| && Evacuates(s.entries, source, moves)
    && InTable(moves, s.entries) && InMoveOrder(moves, s.entries)
    && ReserveAll(s.arenas, moves[..i]).Some?
    && forall k :: 0 <= k < i ==> PlacedBest(s, source, moves, k)
  }

  /** There is no room for the i-th move where the moves before it leave any. */
  ghost predicate Stuck(s: State, source: nat, moves: seq<Move>, i: nat) {
    && i < |moves| && BestSoFar(s, source, moves, i)
    && NoRange(s, source, ReserveAll(s.arenas, moves[..i]).value, moves[i])
  }

  /** Placing the source's allocations best, one after the other, gets stuck. */
  ghost predicate Unplannable(s: State, source: nat) {
    exists moves, i :: Stuck(s, source, moves, i)
  }

  /** How far the simulation has come: the first i moves are placed, and the
      simulated arenas are what reserving them would leave. */
  ghost predicate Simulation(s: State, source: nat, moves: seq<Move>, i: nat, destinations: seq<Simulated>) {
    && i <= |moves| && Evacuates(s.entries, source, moves)
    && (forall k :: 0 <= k < i ==> MovePlanned(s, source, moves[k]))
    && ReserveAll(s.arenas, moves[..i]).Some?
    && AllOk(ReserveAll(s.arenas, moves[..i]).value)
    && Simulates(destinations, ReserveAll(s.arenas, moves[..i]).value)
  }

  ghost predicate Eligible(s: State, source: nat, destinations: seq<Simulated>)
    requires source < |s.arenas|
  {
    && (forall j :: 0 <= j < |destinations| ==>
          destinations[j].arena in s.order && destinations[j].arena < |s.arenas|
          && Receives(s.arenas, source, destinations[j].arena))
    && (forall a :: a in s.order && a < |s.arenas| && Receives(s.arenas, source, a) ==>
          exists j :: 0 <= j < |destinations| && destinations[j].arena == a)
    && InArenaOrder(destinations, s.order)
  }

  lemma FitAt(range: Range, size: nat, k: nat)
    requires k < WORD_BITS && range.offset <= U32_MAX && AlignedFit(range, size, Pow2(k)).Some?
    ensures var offset := AlignedFit(range, size, Pow2(k)).value;
            offset % Pow2(k) == 0 && Contains(range, offset, size)
  {
    WordIs();
    AlignOffsetExact(WORD_BITS, range.offset, k);
  }

  lemma RangeInWord(arenas: seq<Arena>, a: nat, k: nat)
    requires AllOk(arenas) && a < |arenas| && k < |arenas[a].ranges|
    ensures arenas[a].ranges[k].offset <= U32_MAX
  {
    assert ArenaOk(arenas[a]);
  }

  /** The move with the place found for it. */
  function PlacedAt(m: Move, destinations: seq<Simulated>, fit: Fit): Move
    requires fit.destination < |destinations|
  {
    m.(destination := destinations[fit.destination].arena, destinationOffset := fit.offset)
  }

  lemma FitIsGood(s: State, source: nat, moves: seq<Move>, i: nat, destinations: seq<Simulated>, fit: Fit)
    requires Plannable(s, source) && Simulation(s, source, moves, i, destinations) && Eligible(s, source, destinations)
    requires i < |moves| && moves[i].allocation < |s.entries|
    requires FitsIn(destinations, fit.destination, fit.range, moves[i].size, Pow2(s.entries[moves[i].allocation].alignment))
    requires fit.offset == AlignedFit(destinations[fit.destination].ranges[fit.range], moves[i].size,
                                      Pow2(s.entries[moves[i].allocation].alignment)).value
    ensures Contains(destinations[fit.destination].ranges[fit.range], fit.offset, moves[i].size) && moves[i].size > 0
    ensures MovePlanned(s, source, PlacedAt(moves[i], destinations, fit))
  {
    var m, d := moves[i], destinations[fit.destination];
    assert FromSource(s.entries, source, m);
    LiveArena(s, m.allocation);
    assert !PinnedIn(s.entries[m.allocation], source);
    var arenas := ReserveAll(s.arenas, moves[..i]).value;
    RangeInWord(arenas, d.arena, fit.range);
    FitAt(d.ranges[fit.range], m.size, s.entries[m.allocation].alignment);
    hide Sound, AlignedFit, ReserveAll, Pow2;
  }

  lemma ReserveOneMore(arenas: seq<Arena>, moves: seq<Move>, m: Move)
    requires ReserveAll(arenas, moves).Some?
    requires var before := ReserveAll(arenas, moves).value;
             m.destination < |before| && Available(before[m.destination], m.destinationOffset, m.size)
    ensures ReserveAll(arenas, moves + [m]) == Some(Booked(ReserveAll(arenas, moves).value, m))
  {
    assert (moves + [m])[..|moves|] == moves;
  }

  lemma PlacedEvacuates(entries: seq<Entry>, source: nat, moves: seq<Move>, i: nat, m: Move)
    requires Evacuates(entries, source, moves) && i < |moves|
    requires m == moves[i].(destination := m.destination, destinationOffset := m.destinationOffset)
    ensures Evacuates(entries, source, moves[i := m])
  {
    var after := moves[i := m];
    forall k | 0 <= k < |after| ensures FromSource(entries, source, after[k]) {
      assert FromSource(entries, source, moves[k]);
    }
    forall id | 0 <= id < |entries| && entries[id].live && entries[id].arena == source ensures Moves(after, id) {
      assert Moves(moves, id);
      var k :| 0 <= k < |moves| && moves[k].allocation == id;
      assert after[k].allocation == id;
    }
  }

  lemma PlaceNext(s: State, source: nat, moves: seq<Move>, i: nat, destinations: seq<Simulated>, fit: Fit)
    requires Plannable(s, source) && Simulation(s, source, moves, i, destinations) && Eligible(s, source, destinations)
    requires i < |moves| && moves[i].allocation < |s.entries|
    requires FitsIn(destinations, fit.destination, fit.range, moves[i].size, Pow2(s.entries[moves[i].allocation].alignment))
    requires fit.offset == AlignedFit(destinations[fit.destination].ranges[fit.range], moves[i].size,
                                      Pow2(s.entries[moves[i].allocation].alignment)).value
    ensures Contains(destinations[fit.destination].ranges[fit.range], fit.offset, moves[i].size)
    ensures var d := destinations[fit.destination];
            var after := destinations[fit.destination := OccupyRange(d, fit.range, fit.offset, moves[i].size)];
            && Simulation(s, source, moves[i := PlacedAt(moves[i], destinations, fit)], i + 1, after)
            && Eligible(s, source, after)
    ensures ReserveAll(s.arenas, moves[..i] + [PlacedAt(moves[i], destinations, fit)]).Some?
  {
    hide Sound, PinnedIn, Evacuates, MovePlanned, ReserveAll, AllOk, Simulates, FitsIn, AlignedFit, Available, Pow2, Eligible;
    FitRange(destinations, fit, moves[i].size, Pow2(s.entries[moves[i].allocation].alignment));
    var m := PlacedAt(moves[i], destinations, fit);
    FitIsGood(s, source, moves, i, destinations, fit);
    var arenas := ReserveAll(s.arenas, moves[..i]).value;
    OccupySimulates(destinations, arenas, fit, m);
    ReserveOneMore(s.arenas, moves[..i], m);
    PlacedEvacuates(s.entries, source, moves, i, m);
    var after := moves[i := m];
    assert after[..i + 1] == moves[..i] + [m];
    EligibleAfter(s, source, destinations, fit.destination,
                  OccupyRange(destinations[fit.destination], fit.range, fit.offset, m.size));
  }

  lemma FitRange(destinations: seq<Simulated>, fit: Fit, size: nat, alignment: nat)
    requires FitsIn(destinations, fit.destination, fit.range, size, alignment)
    ensures fit.destination < |destinations| && fit.range < |destinations[fit.destination].ranges|
  {
  }

  lemma EligibleAfter(s: State, source: nat, destinations: seq<Simulated>, d: nat, x: Simulated)
    requires source < |s.arenas| && Eligible(s, source, destinations) && d < |destinations| && x.arena == destinations[d].arena
    ensures Eligible(s, source, destinations[d := x])
  {
    var after := destinations[d := x];
    forall a | a in s.order && a < |s.arenas| && Receives(s.arenas, source, a)
      ensures exists j :: 0 <= j < |after| && after[j].arena == a
    {
      var j :| 0 <= j < |destinations| && destinations[j].arena == a;
      assert after[j].arena == a;
    }
  }

  /** Nothing fits the move: there is no room for it anywhere. */
  lemma NothingFits(s: State, source: nat, moves: seq<Move>, i: nat, destinations: seq<Simulated>)
    requires source < |s.arenas| && Simulation(s, source, moves, i, destinations) && Eligible(s, source, destinations)
    requires i < |moves| && moves[i].allocation < |s.entries| && BestSoFar(s, source, moves, i)
    requires Best(destinations, None, moves[i].size, Pow2(s.entries[moves[i].allocation].alignment))
    ensures Stuck(s, source, moves, i)
  {
    hide AlignedFit, ReserveAll, Pow2, BestSoFar;
    var arenas, m, alignment := ReserveAll(s.arenas, moves[..i]).value, moves[i], Pow2(s.entries[moves[i].allocation].alignment);
    forall b: nat, l: nat | MayReceive(s, source, b) ensures !RangeFits(arenas, b, l, m.size, alignment) {
      var j :| 0 <= j < |destinations| && destinations[j].arena == b;
      assert !FitsIn(destinations, j, l, m.size, alignment);
    }
  }

  /** The best fit in the simulation is the best range of the arenas. */
  lemma BestIsBest(s: State, source: nat, moves: seq<Move>, i: nat, destinations: seq<Simulated>, fit: Fit)
    requires source < |s.arenas| && Simulation(s, source, moves, i, destinations) && Eligible(s, source, destinations)
    requires i < |moves| && moves[i].allocation < |s.entries|
    requires Best(destinations, Some(fit), moves[i].size, Pow2(s.entries[moves[i].allocation].alignment))
    ensures fit.destination < |destinations|
    ensures BestRange(s, source, ReserveAll(s.arenas, moves[..i]).value, PlacedAt(moves[i], destinations, fit), fit.range)
  {
    hide AlignedFit, ReserveAll, Pow2, Evacuates, MovePlanned, AllOk, IndexOf;
    var arenas, size, alignment :=
      ReserveAll(s.arenas, moves[..i]).value, moves[i].size, Pow2(s.entries[moves[i].allocation].alignment);
    var m := PlacedAt(moves[i], destinations, fit);
    forall b: nat, l: nat | MayReceive(s, source, b) && RangeFits(arenas, b, l, size, alignment)
      ensures NotBehind(s.order, arenas, m.destination, fit.range, b, l)
    {
      var j :| 0 <= j < |destinations| && destinations[j].arena == b;
      assert FitsIn(destinations, j, l, size, alignment);
      assert NoWorse(destinations, fit.destination, fit.range, j, l, size);
    }
  }

  /** Placing the next move leaves those before it as they are. */
  lemma BestOneMore(s: State, source: nat, moves: seq<Move>, i: nat, m: Move, r: nat)
    requires BestSoFar(s, source, moves, i) && i < |moves|
    requires m == moves[i].(destination := m.destination, destinationOffset := m.destinationOffset)
    requires BestRange(s, source, ReserveAll(s.arenas, moves[..i]).value, m, r)
    requires ReserveAll(s.arenas, moves[..i] + [m]).Some?
    ensures BestSoFar(s, source, moves[i := m], i + 1)
  {
    var after := moves[i := m];
    PlacedEvacuates(s.entries, source, moves, i, m);
    PlacedInOrder(moves, s.entries, i, m);
    assert after[..i + 1] == moves[..i] + [m];
    hide ReserveAll, BestRange, Evacuates, InMoveOrder;
    forall k | 0 <= k < i + 1 ensures PlacedBest(s, source, after, k) {
      assert after[..k] == moves[..k];
      if k < i {
        assert PlacedBest(s, source, moves, k);
      }
    }
  }

  lemma SimulationStarts(s: State, source: nat, moves: seq<Move>, destinations: seq<Simulated>)
    requires Plannable(s, source) && Evacuates(s.entries, source, moves) && Simulates(destinations, s.arenas)
    ensures Simulation(s, source, moves, 0, destinations)
  {
    SoundCore(s);
    assert moves[..0] == [];
  }

  lemma SimulationEnds(s: State, source: nat, moves: seq<Move>, destinations: seq<Simulated>)
    requires Plannable(s, source) && Simulation(s, source, moves, |moves|, destinations)
    ensures PlanOk(s, Plan(source, moves))
  {
    assert moves[..|moves|] == moves;
  }

  lemma NeverTheFirst(s: State)
    requires Sound(s)
    ensures s.entries != [] && !s.entries[0].live
  {
  }

  lemma EvacuatesInTable(entries: seq<Entry>, source: nat, moves: seq<Move>)
    requires Evacuates(entries, source, moves)
    ensures InTable(moves, entries)
  {
    assert forall i :: 0 <= i < |moves| ==> FromSource(entries, source, moves[i]);
  }

  /** The order of the moves does not depend on where they go. */
  lemma PlacedInOrder(moves: seq<Move>, entries: seq<Entry>, i: nat, m: Move)
    requires InTable(moves, entries) && InMoveOrder(moves, entries) && i < |moves|
    requires m == moves[i].(destination := m.destination, destinationOffset := m.destinationOffset)
    ensures InTable(moves[i := m], entries) && InMoveOrder(moves[i := m], entries)
  {
    var after := moves[i := m];
    forall j, k | 0 <= j < k < |after| ensures InTurn(entries, after[j], after[k]) {
      assert InTurn(entries, moves[j], moves[k]);
    }
  }

  lemma BestFits(destinations: seq<Simulated>, fit: Option<Fit>, size: nat, alignment: nat)
    requires Best(destinations, fit, size, alignment) && fit.Some?
    ensures FitsIn(destinations, fit.value.destination, fit.value.range, size, alignment)
    ensures fit.value.offset ==
            AlignedFit(destinations[fit.value.destination].ranges[fit.value.range], size, alignment).value
  {
  }

  lemma BestStarts(s: State, source: nat, moves: seq<Move>)
    requires source < |s.arenas| && Evacuates(s.entries, source, moves)
    requires InTable(moves, s.entries) && InMoveOrder(moves, s.entries)
    ensures BestSoFar(s, source, moves, 0)
  {
    assert moves[..0] == [];
  }

  /** The destination of every allocation in the source, the moves being placed one
      after the other, each best; nothing only if one of them finds no room. */
  method SimulateEvacuation(s: State, source: nat) returns (plan: Option<Plan>)
    requires Plannable(s, source)
    ensures plan.Some? ==> plan.value.source == source && PlanOk(s, plan.value)
    ensures plan.Some? ==> BestSoFar(s, source, plan.value.moves, |plan.value.moves|)
    ensures plan.None? ==> Unplannable(s, source)
  {
    NeverTheFirst(s);
    OrderInPool(s);
    var collected := CollectMoves(s.entries, source);
    EvacuatesInTable(s.entries, source, collected);
    var moves := SortMoves(collected, s.entries);
    RearrangedEvacuates(s.entries, source, collected, moves);
    var destinations := CollectDestinations(s.arenas, s.order, source);
    SimulationStarts(s, source, moves, destinations);
    BestStarts(s, source, moves);
    var count := |moves|;
    hide Plannable, Simulation, Best, BestSoFar, BestRange, Stuck, PlanOk, InMoveOrder, FitsIn, AlignedFit, Pow2, OccupyRange, ReserveAll;
    for i := 0 to count
      invariant |moves| == count && InTable(moves, s.entries) && BestSoFar(s, source, moves, i)
      invariant Simulation(s, source, moves, i, destinations) && Eligible(s, source, destinations)
    {
      var m := moves[i];
      var fit := FindBestFit(destinations, m.size, Pow2(s.entries[m.allocation].alignment));
      if fit.None? {
        NothingFits(s, source, moves, i, destinations);
        return None;
      }
      BestFits(destinations, fit, m.size, Pow2(s.entries[m.allocation].alignment));
      FitRange(destinations, fit.value, m.size, Pow2(s.entries[m.allocation].alignment));
      PlaceNext(s, source, moves, i, destinations, fit.value);
      BestIsBest(s, source, moves, i, destinations, fit.value);
      BestOneMore(s, source, moves, i, PlacedAt(m, destinations, fit.value), fit.value.range);
      moves := moves[i := m.(destination := destinations[fit.value.destination].arena,
                             destinationOffset := fit.value.offset)];
      destinations := destinations[fit.value.destination :=
        OccupyRange(destinations[fit.value.destination], fit.value.range, fit.value.offset, m.size)];
    }
    SimulationEnds(s, source, moves, destinations);
    plan := Some(Plan(source, moves));
  }

  // ---- Candidates ----

  /** An arena that may be planned for, with what it holds. */
  ghost predicate CandidateOf(s: State, c: Candidate) {
    && Plannable(s, c.arena) && c.capacity == s.arenas[c.arena].capacity
    && Measures(Usage(c.live, c.count, false), s.entries, c.arena)
  }

  /** Every arena of the order, up to the i-th, that may be planned for, once. */
  ghost predicate Collected(s: State, candidates: seq<Candidate>, i: nat) {
    && i <= |s.order|
    && (forall k :: 0 <= k < |candidates| ==> CandidateOf(s, candidates[k]) && candidates[k].arena in s.order[..i])
    && DistinctArenas(candidates)
    && (forall k :: 0 <= k < i && Plannable(s, s.order[k]) ==>
          exists j :: 0 <= j < |candidates| && candidates[j].arena == s.order[k])
  }

  lemma PinnedOrPlannable(s: State, a: nat, usage: Usage)
    requires Sound(s) && a in s.order && a < |s.arenas| && Measures(usage, s.entries, a)
    ensures Plannable(s, a) <==> CanEvacuate(s.arenas[a]) && !usage.pinned
  {
  }

  lemma CollectedNext(s: State, candidates: seq<Candidate>, i: nat)
    requires Collected(s, candidates, i) && i < |s.order| && !Plannable(s, s.order[i])
    ensures Collected(s, candidates, i + 1)
  {
    assert s.order[..i + 1] == s.order[..i] + [s.order[i]];
  }

  lemma CollectedOneMore(s: State, candidates: seq<Candidate>, i: nat, c: Candidate)
    requires Collected(s, candidates, i) && i < |s.order| && NoRepeats(s.order) && c.arena == s.order[i] && CandidateOf(s, c)
    ensures Collected(s, candidates + [c], i + 1)
  {
    hide CandidateOf, Plannable;
    var after := candidates + [c];
    assert s.order[..i + 1] == s.order[..i] + [s.order[i]];
    forall j | 0 <= j < |candidates| ensures candidates[j].arena != c.arena {
      assert candidates[j].arena in s.order[..i];
    }
    assert after[|candidates|].arena == s.order[i];
    forall k | 0 <= k < i + 1 && Plannable(s, s.order[k])
      ensures exists j :: 0 <= j < |after| && after[j].arena == s.order[k]
    {
      if k < i {
        var j :| 0 <= j < |candidates| && candidates[j].arena == s.order[k];
        assert after[j].arena == s.order[k];
      }
    }
  }

  /** The arenas that may be evacuated and hold nothing pinned, the one that
      recovers most first. */
  ghost predicate Ranking(s: State, ranked: seq<Candidate>) {
    && Ranked(ranked)
    && (forall k :: 0 <= k < |ranked| ==> CandidateOf(s, ranked[k]))
    && (forall a: nat :: Plannable(s, a) ==> exists j :: 0 <= j < |ranked| && ranked[j].arena == a)
  }

  lemma RankingOf(s: State, candidates: seq<Candidate>, ranked: seq<Candidate>)
    requires Collected(s, candidates, |s.order|) && multiset(ranked) == multiset(candidates) && Ranked(ranked)
    ensures Ranking(s, ranked)
  {
    hide CandidateOf;
    forall k | 0 <= k < |ranked| ensures CandidateOf(s, ranked[k]) {
      assert ranked[k] in multiset(ranked);
      assert ranked[k] in candidates;
    }
    forall a: nat | Plannable(s, a) ensures exists j :: 0 <= j < |ranked| && ranked[j].arena == a {
      var k :| 0 <= k < |s.order| && s.order[k] == a;
      var j :| 0 <= j < |candidates| && candidates[j].arena == s.order[k];
      assert candidates[j] in multiset(candidates);
      assert candidates[j] in ranked;
    }
  }

  method RankArenas(s: State) returns (ranked: seq<Candidate>)
    requires Sound(s)
    ensures Ranking(s, ranked)
  {
    NeverTheFirst(s);
    OrderInPool(s);
    SoundOrder(s);
    hide Sound, Plannable, CandidateOf, Measures, Collected, Ranking;
    var candidates: seq<Candidate> := [];
    CollectedNone(s);
    for i := 0 to |s.order|
      invariant Collected(s, candidates, i)
    {
      var a := s.order[i];
      if CanEvacuate(s.arenas[a]) {
        var usage := MeasureArena(s.entries, a);
        PinnedOrPlannable(s, a, usage);
        if !usage.pinned {
          var c := Candidate(a, s.arenas[a].capacity, usage.live, usage.count);
          IsCandidate(s, c, usage);
          CollectedOneMore(s, candidates, i, c);
          candidates := candidates + [c];
        } else {
          CollectedNext(s, candidates, i);
        }
      } else {
        NotPlannable(s, a);
        CollectedNext(s, candidates, i);
      }
    }
    CollectedDistinct(s, candidates);
    ranked := RankCandidates(candidates);
    RankingOf(s, candidates, ranked);
  }

  lemma SoundOrder(s: State)
    requires Sound(s)
    ensures NoRepeats(s.order)
  {
  }

  lemma CollectedNone(s: State)
    ensures Collected(s, [], 0)
  {
  }

  lemma IsCandidate(s: State, c: Candidate, usage: Usage)
    requires Plannable(s, c.arena) && !usage.pinned && Measures(usage, s.entries, c.arena)
    requires c == Candidate(c.arena, s.arenas[c.arena].capacity, usage.live, usage.count)
    ensures CandidateOf(s, c)
  {
    assert usage == Usage(c.live, c.count, false);
  }

  lemma NotPlannable(s: State, a: nat)
    requires a < |s.arenas| && !CanEvacuate(s.arenas[a])
    ensures !Plannable(s, a)
  {
  }

  lemma CollectedDistinct(s: State, candidates: seq<Candidate>)
    requires Collected(s, candidates, |s.order|)
    ensures DistinctArenas(candidates)
  {
  }

  /** The plan for the best-ranked arena that can be planned for among the first few,
      every move placed best; for the arenas ranked before it that gets stuck. */
  ghost predicate Chosen(s: State, ranked: seq<Candidate>, scanned: nat, plan: Option<Plan>) {
    && Ranking(s, ranked)
    && (forall k :: 0 <= k < scanned && k < |ranked| ==> Unplannable(s, ranked[k].arena))
    && (plan.Some? ==>
          && scanned < |ranked| && plan.value.source == ranked[scanned].arena && PlanOk(s, plan.value)
          && BestSoFar(s, plan.value.source, plan.value.moves, |plan.value.moves|))
  }

  /** What begin_evacuation may come up with when it looks at no more than so many
      arenas; nothing only if it gets stuck with all of those. */
  ghost predicate MayPlan(s: State, maxBlocksScanned: nat, plan: Option<Plan>) {
    exists ranked: seq<Candidate>, scanned: nat {:trigger Chosen(s, ranked, scanned, plan)} ::
      && Chosen(s, ranked, scanned, plan)
      && (plan.Some? ==> scanned < maxBlocksScanned)
      && (plan.None? ==> scanned == if |ranked| < maxBlocksScanned then |ranked| else maxBlocksScanned)
  }
}
