/** Reserving a list of blocks and then giving them all back, first to last, is the
    same as not having reserved them. */
module GpuRollback {
  import opened Sums
  import opened FreeList
  import opened GpuCore
  import opened GpuState

  ghost function Into(a: nat): Move -> nat {
    (m: Move) => Bit(m.destination == a)
  }

  predicate Lands(m: Move, a: nat, p: nat) {
    m.destination == a && InBlock(p, m.destinationOffset, m.size)
  }

  /** Some move from the j-th up to the k-th would land on the byte. */
  ghost predicate Taken(moves: seq<Move>, j: nat, k: nat, a: nat, p: nat)
    requires k <= |moves|
  {
    exists i :: j <= i < k && Lands(moves[i], a, p)
  }

  /** The arenas with the destinations of the moves from the j-th up to the k-th
      reserved; they were free before, and no two share a byte. */
  ghost predicate Held(before: seq<Arena>, arenas: seq<Arena>, moves: seq<Move>, j: nat, k: nat) {
    && j <= k <= |moves| && |arenas| == |before|
    && (forall a :: 0 <= a < |arenas| ==>
          && ArenaOk(arenas[a]) && ArenaOk(before[a])
          && arenas[a] == before[a].(ranges := arenas[a].ranges, free := arenas[a].free, reservations := arenas[a].reservations)
          && arenas[a].reservations == before[a].reservations + Sum(moves[j..k], Into(a)))
    && (forall a: nat, p: nat {:trigger FreeAt(arenas[a].ranges, p)} :: a < |arenas| ==>
          (FreeAt(arenas[a].ranges, p) <==> FreeAt(before[a].ranges, p) && !Taken(moves, j, k, a, p)))
    && (forall i :: j <= i < k ==> moves[i].destination < |before| && moves[i].size > 0)
    && (forall i: nat, p: nat {:trigger Lands(moves[i], moves[i].destination, p)} ::
          j <= i < k && Lands(moves[i], moves[i].destination, p) ==> FreeAt(before[moves[i].destination].ranges, p))
    && (forall i: nat, l: nat, p: nat {:trigger Lands(moves[i], moves[l].destination, p), Lands(moves[l], moves[l].destination, p)} ::
          j <= i < l < k ==> !(Lands(moves[i], moves[l].destination, p) && Lands(moves[l], moves[l].destination, p)))
  }

  lemma HeldNothing(arenas: seq<Arena>, moves: seq<Move>)
    requires forall a :: 0 <= a < |arenas| ==> ArenaOk(arenas[a])
    ensures Held(arenas, arenas, moves, 0, 0)
  {
    assert moves[0..0] == [];
  }

  lemma HeldOneMore(before: seq<Arena>, arenas: seq<Arena>, moves: seq<Move>, k: nat)
    requires Held(before, arenas, moves, 0, k) && k < |moves|
    requires moves[k].destination < |arenas| && moves[k].size > 0
    requires Available(arenas[moves[k].destination], moves[k].destinationOffset, moves[k].size)
    ensures Held(before, Booked(arenas, moves[k]), moves, 0, k + 1)
  {
    var m := moves[k];
    OccupyOk(arenas[m.destination], m.destinationOffset, m.size);
    forall a | 0 <= a < |arenas| ensures Sum(moves[0..k + 1], Into(a)) == Sum(moves[0..k], Into(a)) + Bit(m.destination == a) {
      assert moves[0..k + 1] == moves[0..k] + [m];
      SumAppend(moves[0..k], m, Into(a));
    }
    forall a: nat, p: nat ensures Taken(moves, 0, k + 1, a, p) <==> Taken(moves, 0, k, a, p) || Lands(m, a, p) {
    }
    forall i: nat, p: nat | i < k && Lands(moves[i], m.destination, p) ensures !Lands(m, m.destination, p) {
      assert Taken(moves, 0, k, m.destination, p);
    }
  }

  lemma FreeWithin(x: Arena, p: nat)
    requires ArenaOk(x) && FreeAt(x.ranges, p)
    ensures x.active && p < x.capacity
  {
  }

  /** The j-th block lies within its arena, and none of it is free. */
  lemma HeldBlockUsed(before: seq<Arena>, arenas: seq<Arena>, moves: seq<Move>, j: nat, k: nat)
    requires Held(before, arenas, moves, j, k) && j < k
    ensures var m := moves[j];
            && m.destination < |arenas| && arenas[m.destination].active && m.size > 0
            && m.destinationOffset + m.size <= arenas[m.destination].capacity
            && Unclaimed(arenas[m.destination].ranges, m.destinationOffset, m.size)
  {
    var m := moves[j];
    assert Lands(m, m.destination, m.destinationOffset + m.size - 1);
    FreeWithin(before[m.destination], m.destinationOffset + m.size - 1);
    forall p | m.destinationOffset <= p < m.destinationOffset + m.size
      ensures !FreeAt(arenas[m.destination].ranges, p)
    {
      assert Lands(moves[j], m.destination, p);
      assert Taken(moves, j, k, m.destination, p);
    }
  }

  lemma TakenSplits(moves: seq<Move>, j: nat, k: nat, a: nat, p: nat)
    requires j < k <= |moves|
    ensures Taken(moves, j, k, a, p) <==> Lands(moves[j], a, p) || Taken(moves, j + 1, k, a, p)
  {
  }

  /** Giving the j-th block back frees its bytes, which no later one has. */
  lemma HeldOneLess(before: seq<Arena>, arenas: seq<Arena>, moves: seq<Move>, j: nat, k: nat)
    requires Held(before, arenas, moves, j, k) && j < k
    ensures moves[j].destination < |arenas|
    ensures var m := moves[j];
            var x := arenas[m.destination];
            Held(before, arenas[m.destination := Vacate(x, m.destinationOffset, m.size).(reservations := x.reservations - 1)],
                 moves, j + 1, k)
  {
    var m := moves[j];
    var x := arenas[m.destination];
    HeldBlockUsed(before, arenas, moves, j, k);
    VacateOk(x, m.destinationOffset, m.size);
    var y := Vacate(x, m.destinationOffset, m.size).(reservations := x.reservations - 1);
    var after := arenas[m.destination := y];
    VacateOnly(x, m.destinationOffset, m.size);
    hide Vacate, ArenaOk;
    forall a | 0 <= a < |arenas|
      ensures Sum(moves[j..k], Into(a)) == Sum(moves[j + 1..k], Into(a)) + Bit(m.destination == a)
    {
      assert moves[j..k] == [m] + moves[j + 1..k];
      SumSplit([m], moves[j + 1..k], Into(a));
      assert [m] == [] + [m];
      SumAppend([], m, Into(a));
    }
    forall a: nat, p: nat | a < |after|
      ensures FreeAt(after[a].ranges, p) <==> FreeAt(before[a].ranges, p) && !Taken(moves, j + 1, k, a, p)
    {
      TakenSplits(moves, j, k, a, p);
      assert a == m.destination ==> (Lands(m, a, p) <==> InBlock(p, m.destinationOffset, m.size));
      LaterElsewhere(before, arenas, moves, j, k, a, p);
    }
  }

  lemma VacateOnly(x: Arena, offset: nat, size: nat)
    ensures var y := Vacate(x, offset, size); y == x.(ranges := y.ranges, free := y.free)
  {
  }

  lemma LaterElsewhere(before: seq<Arena>, arenas: seq<Arena>, moves: seq<Move>, j: nat, k: nat, a: nat, p: nat)
    requires Held(before, arenas, moves, j, k) && j < k
    ensures Lands(moves[j], a, p) ==> a < |before| && FreeAt(before[a].ranges, p) && !Taken(moves, j + 1, k, a, p)
  {
    if Lands(moves[j], a, p) {
      assert Lands(moves[j], moves[j].destination, p);
      forall l | j + 1 <= l < k ensures !Lands(moves[l], a, p) {
        assert moves[l].destination == a ==> Lands(moves[j], moves[l].destination, p);
      }
    }
  }

  lemma HeldNoMore(before: seq<Arena>, arenas: seq<Arena>, moves: seq<Move>, k: nat)
    requires Held(before, arenas, moves, k, k)
    ensures arenas == before
  {
    assert moves[k..k] == [];
    forall a | 0 <= a < |arenas| ensures arenas[a] == before[a] {
      if before[a].active {
        forall p: nat ensures FreeAt(arenas[a].ranges, p) <==> FreeAt(before[a].ranges, p) {
          assert !Taken(moves, k, k, a, p);
        }
        Canonical(arenas[a].ranges, before[a].ranges, before[a].capacity);
      }
    }
  }
}
