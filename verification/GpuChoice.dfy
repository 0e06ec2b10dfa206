/** Which arena is evacuated, in terms of what the arenas hold. */
module GpuChoice {
  import opened Wrappers
  import opened Alignment
  import opened Sums
  import opened GpuCore
  import opened GpuState
  import opened GpuInvariant
  import opened GpuPlan
  import opened GpuConservation
  import opened GpuOutcomes
  import opened GpuPlanner

  /** The arena holds something and has free space, is not dedicated, and all that it
      holds may move. */
  ghost predicate MayLeave(s: State, a: nat) {
    && a in s.order && a < |s.arenas| && !s.arenas[a].dedicated
    && s.arenas[a].allocations > 0 && s.arenas[a].free > 0
    && forall id :: 0 <= id < |s.entries| && s.entries[id].live && s.entries[id].arena == a ==> s.entries[id].movable
  }

  /** Between evacuations an arena recovers what is free in it. */
  lemma RecoversFree(s: State, a: nat)
    requires Sound(s) && s.target.None? && a < |s.arenas| && s.arenas[a].active
    ensures s.arenas[a].free + Sum(s.entries, LiveSize(a)) == s.arenas[a].capacity
    ensures s.arenas[a].allocations == Sum(s.entries, LiveIn(a))
  {
    SoundCore(s);
    Sizes(s);
    SpaceIsConserved(s.Tables(), a);
    assert Counted(s.Tables(), a);
    assert s.Moves() == [];
  }

  /** Between evacuations those, and no others, may be planned for. */
  lemma PlannableMayLeave(s: State, a: nat)
    requires Sound(s) && s.target.None?
    ensures Plannable(s, a) <==> MayLeave(s, a)
  {
    if a in s.order && a < |s.arenas| {
      SoundCore(s);
      AllNormal(s);
      OrderActive(s, a);
      assert ArenaOk(s.arenas[a]) && Counted(s.Tables(), a);
      assert s.Moves() == [];
      RecoversFree(s, a);
      hide CoreOk, Sound, LiveSize, LiveIn;
    }
  }

  /** The one has no less free space; if no more, it is no larger; if as large, it holds
      no more allocations; and if as many, it has the lower number. */
  predicate Preferred(s: State, a: nat, b: nat)
    requires a < |s.arenas| && b < |s.arenas|
  {
    var x, y := s.arenas[a], s.arenas[b];
    && x.free >= y.free
    && (x.free == y.free ==>
          && x.capacity <= y.capacity
          && (x.capacity == y.capacity ==>
                x.allocations <= y.allocations && (x.allocations == y.allocations ==> a < b)))
  }

  lemma CandidateFields(s: State, c: Candidate)
    requires s.target.None? && CandidateOf(s, c)
    ensures c.arena < |s.arenas| && MayLeave(s, c.arena)
    ensures var x := s.arenas[c.arena];
            c.capacity == x.capacity && c.capacity - c.live == x.free && c.count == x.allocations
  {
    PlannableMayLeave(s, c.arena);
    OrderActive(s, c.arena);
    RecoversFree(s, c.arena);
  }

  /** The arena that is evacuated may be left, and is preferred to every other one that
      may be, but for those with which planning gets stuck. */
  lemma ChosenArena(s: State, maxBlocksScanned: nat, plan: Plan)
    requires Sound(s) && s.target.None? && MayPlan(s, maxBlocksScanned, Some(plan))
    ensures plan.source < |s.arenas| && MayLeave(s, plan.source)
    ensures forall b: nat {:trigger Unplannable(s, b)} ::
              MayLeave(s, b) && b != plan.source && !Unplannable(s, b) ==> Preferred(s, plan.source, b)
  {
    hide Sound, PlanOk, BestSoFar, Unplannable, CandidateOf, Plannable, MayLeave;
    var ranked: seq<Candidate>, scanned: nat :|
      Chosen(s, ranked, scanned, Some(plan)) && scanned < maxBlocksScanned;
    CandidateFields(s, ranked[scanned]);
    forall b: nat {:trigger Unplannable(s, b)} | MayLeave(s, b) && b != plan.source && !Unplannable(s, b)
      ensures b < |s.arenas| && Preferred(s, plan.source, b)
    {
      PlannableMayLeave(s, b);
      var j :| 0 <= j < |ranked| && ranked[j].arena == b;
      CandidateFields(s, ranked[j]);
      assert scanned < j;
      assert RanksAbove(ranked[scanned], ranked[j]);
    }
  }

  lemma {:induction false} NoMoreThan(some: seq<nat>, all: seq<nat>)
    requires NoRepeats(some) && NoRepeats(all) && forall a :: a in some ==> a in all
    ensures |some| <= |all|
  {
    if some != [] {
      var init, a := some[..|some| - 1], some[|some| - 1];
      assert a in some;
      var k :| 0 <= k < |all| && all[k] == a;
      NoRepeatsRemove(all, k);
      forall b | b in init ensures b in all[..k] + all[k + 1..] {
        var i :| 0 <= i < |init| && init[i] == b;
        assert some[i] == b && b != a;
        OtherStays(all, k, b);
      }
      NoMoreThan(init, all[..k] + all[k + 1..]);
    }
  }

  lemma OtherStays(all: seq<nat>, k: nat, b: nat)
    requires k < |all| && b in all && b != all[k]
    ensures b in all[..k] + all[k + 1..]
  {
    assert all == all[..k] + [all[k]] + all[k + 1..];
  }

  function ArenasOf(ranked: seq<Candidate>): (arenas: seq<nat>)
    ensures |arenas| == |ranked| && forall i :: 0 <= i < |ranked| ==> arenas[i] == ranked[i].arena
  {
    if ranked == [] then [] else ArenasOf(ranked[..|ranked| - 1]) + [ranked[|ranked| - 1].arena]
  }

  lemma RankedOnce(s: State, ranked: seq<Candidate>)
    requires Ranking(s, ranked)
    ensures NoRepeats(ArenasOf(ranked)) && forall a :: a in ArenasOf(ranked) ==> a in s.order
  {
    hide ArenasOf, CandidateOf, RanksAbove;
    var arenas := ArenasOf(ranked);
    forall a | a in arenas ensures a in s.order {
      var i :| 0 <= i < |ranked| && arenas[i] == a;
      InOrderOf(s, ranked[i]);
    }
    forall i, j | 0 <= i < j < |arenas| ensures arenas[i] != arenas[j] {
      SameCandidate(s, ranked[i], ranked[j]);
    }
  }

  lemma InOrderOf(s: State, c: Candidate)
    requires CandidateOf(s, c)
    ensures c.arena in s.order
  {
  }

  /** When none is chosen although all may be looked at, planning gets stuck with every
      arena that may be left. */
  lemma NoneChosen(s: State, maxBlocksScanned: nat)
    requires Sound(s) && s.target.None? && MayPlan(s, maxBlocksScanned, None) && maxBlocksScanned >= |s.order|
    ensures forall b: nat {:trigger Unplannable(s, b)} :: MayLeave(s, b) ==> Unplannable(s, b)
  {
    hide PlanOk, BestSoFar, Unplannable, MayLeave, CoreOk, ChainOk, EntriesOk, RolesOk, TargetOk, CanEvacuate, Measures;
    var ranked: seq<Candidate>, scanned: nat :|
      Chosen(s, ranked, scanned, None) && (scanned >= |ranked| || scanned >= maxBlocksScanned);
    RankedOnce(s, ranked);
    NoMoreThan(ArenasOf(ranked), s.order);
    forall b: nat | MayLeave(s, b) ensures Unplannable(s, b) {
      PlannableMayLeave(s, b);
      var j :| 0 <= j < |ranked| && ranked[j].arena == b;
      assert j < scanned;
    }
  }

  /** An arena is ranked once. */
  lemma SameCandidate(s: State, c: Candidate, d: Candidate)
    requires CandidateOf(s, c) && CandidateOf(s, d) && RanksAbove(c, d)
    ensures c.arena != d.arena
  {
    hide Plannable;
  }

  // ---- Where everything goes ----

  /** Of two places that are both best for a move neither is another. */
  lemma OnePlace(s: State, source: nat, arenas: seq<Arena>, m: Move, k: nat, n: Move, l: nat)
    requires NoRepeats(s.order) && source < |s.arenas| && m.allocation < |s.entries|
    requires n == m.(destination := n.destination, destinationOffset := n.destinationOffset)
    requires BestRange(s, source, arenas, m, k) && BestRange(s, source, arenas, n, l)
    ensures n == m
  {
    hide IndexOf, AlignedFit, Pow2;
    assert NotBehind(s.order, arenas, m.destination, k, n.destination, l);
    assert NotBehind(s.order, arenas, n.destination, l, m.destination, k);
  }

  ghost predicate SameTurns(moves: seq<Move>, others: seq<Move>) {
    |moves| == |others| && forall k :: 0 <= k < |moves| ==> moves[k].allocation == others[k].allocation
  }

  lemma PlacedAlike(s: State, source: nat, moves: seq<Move>, others: seq<Move>, k: nat)
    requires NoRepeats(s.order) && SameTurns(moves, others) && k < |moves|
    requires Evacuates(s.entries, source, moves) && Evacuates(s.entries, source, others)
    requires PlacedBest(s, source, moves, k) && PlacedBest(s, source, others, k) && moves[..k] == others[..k]
    ensures moves[k] == others[k]
  {
    assert FromSource(s.entries, source, moves[k]) && FromSource(s.entries, source, others[k]);
    hide ReserveAll, BestRange, Evacuates;
    var arenas := ReserveAll(s.arenas, moves[..k]).value;
    var r: nat :| BestRange(s, source, arenas, moves[k], r);
    var q: nat :| BestRange(s, source, arenas, others[k], q);
    OnePlace(s, source, arenas, moves[k], r, others[k], q);
  }

  /** The order in which the allocations have their turn determines where they go. */
  lemma {:induction false} OnePlacing(s: State, source: nat, moves: seq<Move>, others: seq<Move>, i: nat)
    requires NoRepeats(s.order) && SameTurns(moves, others)
    requires BestSoFar(s, source, moves, i) && BestSoFar(s, source, others, i)
    ensures moves[..i] == others[..i]
  {
    hide ReserveAll, PlacedBest, Evacuates, InMoveOrder;
    if i > 0 {
      BestBefore(s, source, moves, i);
      BestBefore(s, source, others, i);
      OnePlacing(s, source, moves, others, i - 1);
      assert PlacedBest(s, source, moves, i - 1) && PlacedBest(s, source, others, i - 1);
      PlacedAlike(s, source, moves, others, i - 1);
      assert moves[..i] == moves[..i - 1] + [moves[i - 1]] && others[..i] == others[..i - 1] + [others[i - 1]];
    }
  }

  lemma BestBefore(s: State, source: nat, moves: seq<Move>, i: nat)
    requires BestSoFar(s, source, moves, i) && i > 0
    ensures BestSoFar(s, source, moves, i - 1)
  {
    hide Evacuates, InMoveOrder, BestRange;
    assert moves[..i][..i - 1] == moves[..i - 1];
  }

  /** It also determines whether there is room for all of them. */
  lemma StuckOrPlaced(s: State, source: nat, moves: seq<Move>, others: seq<Move>, i: nat)
    requires NoRepeats(s.order) && SameTurns(moves, others) && Stuck(s, source, moves, i)
    ensures !BestSoFar(s, source, others, i + 1)
  {
    hide ReserveAll, PlacedBest, Evacuates, InMoveOrder, Stuck;
    StuckBest(s, source, moves, i);
    if BestSoFar(s, source, others, i + 1) {
      BestBefore(s, source, others, i + 1);
    }
    if BestSoFar(s, source, others, i) {
      OnePlacing(s, source, moves, others, i);
      NoRoomNoPlace(s, source, moves, others, i);
    }
  }

  lemma StuckBest(s: State, source: nat, moves: seq<Move>, i: nat)
    requires Stuck(s, source, moves, i)
    ensures BestSoFar(s, source, moves, i) && i < |moves|
  {
    hide BestSoFar;
  }

  lemma NoRoomNoPlace(s: State, source: nat, moves: seq<Move>, others: seq<Move>, i: nat)
    requires Stuck(s, source, moves, i) && SameTurns(moves, others) && moves[..i] == others[..i]
    requires Evacuates(s.entries, source, others)
    ensures !PlacedBest(s, source, others, i)
  {
    assert FromSource(s.entries, source, moves[i]) && FromSource(s.entries, source, others[i]);
    hide ReserveAll, AlignedFit, Pow2, Evacuates, MayReceive;
  }
}
