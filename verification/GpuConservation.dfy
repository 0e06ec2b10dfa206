/** Space is neither lost nor gained, and the free lists hold no history: they are
    what the blocks in use leave over. */
module GpuConservation {
  import opened Sums
  import opened FreeList
  import opened GpuCore

  // ---- Counting bytes below a bound ----

  /** How many bytes of the block lie below n. */
  ghost function Below(n: nat, offset: nat, size: nat): nat {
    if n <= offset then 0 else if n >= offset + size then size else n - offset
  }

  ghost function LiveBelow(a: nat, n: nat): Entry -> nat {
    (e: Entry) => if e.live && e.arena == a then Below(n, e.offset, e.size) else 0
  }

  ghost function HeldBelow(a: nat, n: nat): Move -> nat {
    (m: Move) =>
      if m.Pending() then if m.destination == a then Below(n, m.destinationOffset, m.size) else 0
      else if m.state == ReferencesSwitched then if m.source == a then Below(n, m.sourceOffset, m.size) else 0
      else 0
  }

  ghost function FreeBelow(n: nat): Range -> nat {
    (r: Range) => Below(n, r.offset, r.size)
  }

  ghost function RangeAt(p: nat): Range -> nat {
    (r: Range) => Bit(r.Has(p))
  }

  lemma {:induction false} SumPlus<T>(s: seq<T>, w: T -> nat, v: T -> nat, both: T -> nat)
    requires forall i :: 0 <= i < |s| ==> both(s[i]) == w(s[i]) + v(s[i])
    ensures Sum(s, both) == Sum(s, w) + Sum(s, v)
  {
    if s != [] {
      SumPlus(s[..|s| - 1], w, v, both);
    }
  }

  /** In a well-formed list a byte is in at most one range. */
  lemma {:induction false} RangesAt(ranges: seq<Range>, limit: nat, p: nat)
    requires WellFormed(ranges, limit)
    ensures Sum(ranges, RangeAt(p)) == Bit(FreeAt(ranges, p))
  {
    if ranges != [] {
      var last := |ranges| - 1;
      assert ranges == ranges[..last] + [ranges[last]];
      FreeConcat(ranges[..last], [ranges[last]], p);
      FreeOne(ranges[last], p);
      RangesAt(ranges[..last], limit, p);
      if ranges[last].Has(p) {
        forall i | 0 <= i < last ensures !ranges[..last][i].Has(p) {
          assert ranges[i].End() < ranges[last].offset;
        }
      }
    }
  }

  lemma {:induction false} TotalIsSum(ranges: seq<Range>, limit: nat)
    requires WellFormed(ranges, limit)
    ensures Total(ranges) == Sum(ranges, FreeBelow(limit))
  {
    if ranges != [] {
      TotalIsSum(ranges[..|ranges| - 1], limit);
    }
  }

  /** One byte further. */
  lemma OneByte(c: Core, a: nat, n: nat)
    requires CoreOk(c) && a < |c.arenas| && c.arenas[a].active
    ensures Sum(c.entries, LiveBelow(a, n + 1)) == Sum(c.entries, LiveBelow(a, n)) + Sum(c.entries, LiveAt(a, n))
    ensures Sum(c.moves, HeldBelow(a, n + 1)) == Sum(c.moves, HeldBelow(a, n)) + Sum(c.moves, HeldAt(a, n))
    ensures Sum(c.arenas[a].ranges, FreeBelow(n + 1)) ==
            Sum(c.arenas[a].ranges, FreeBelow(n)) + Bit(FreeAt(c.arenas[a].ranges, n))
  {
    SumPlus(c.entries, LiveBelow(a, n), LiveAt(a, n), LiveBelow(a, n + 1));
    SumPlus(c.moves, HeldBelow(a, n), HeldAt(a, n), HeldBelow(a, n + 1));
    SumPlus(c.arenas[a].ranges, FreeBelow(n), RangeAt(n), FreeBelow(n + 1));
    RangesAt(c.arenas[a].ranges, c.arenas[a].capacity, n);
  }

  lemma {:induction false} ConservedBelow(c: Core, a: nat, n: nat)
    requires CoreOk(c) && a < |c.arenas| && c.arenas[a].active && n <= c.arenas[a].capacity
    ensures Sum(c.entries, LiveBelow(a, n)) + Sum(c.moves, HeldBelow(a, n)) + Sum(c.arenas[a].ranges, FreeBelow(n)) == n
  {
    if n == 0 {
      SumZero(c.entries, LiveBelow(a, 0));
      SumZero(c.moves, HeldBelow(a, 0));
      SumZero(c.arenas[a].ranges, FreeBelow(0));
    } else {
      hide Sum, CoreOk, LiveBelow, HeldBelow, FreeBelow, LiveAt, HeldAt, FreeAt;
      ConservedBelow(c, a, n - 1);
      OneByte(c, a, n - 1);
      CoverIs(c, a, n - 1);
    }
  }

  ghost function LiveSize(a: nat): Entry -> nat {
    (e: Entry) => if e.live && e.arena == a then e.size else 0
  }

  ghost function HeldSize(a: nat): Move -> nat {
    (m: Move) => if Holds(m) && HeldArena(m) == a then m.size else 0
  }

  /** In every active arena the free bytes, the bytes of live allocations and the
      bytes held by moves add up to the capacity. */
  lemma SpaceIsConserved(c: Core, a: nat)
    requires CoreOk(c) && a < |c.arenas| && c.arenas[a].active
    requires forall i :: 0 <= i < |c.entries| && c.entries[i].live ==> c.entries[i].size > 0
    requires forall i :: 0 <= i < |c.moves| ==> c.moves[i].size > 0
    ensures c.arenas[a].free + Sum(c.entries, LiveSize(a)) + Sum(c.moves, HeldSize(a)) == c.arenas[a].capacity
  {
    var n := c.arenas[a].capacity;
    ConservedBelow(c, a, n);
    TotalIsSum(c.arenas[a].ranges, n);
    forall i | 0 <= i < |c.entries| ensures LiveSize(a)(c.entries[i]) == LiveBelow(a, n)(c.entries[i]) {
      if c.entries[i].live && c.entries[i].arena == a {
        LiveBlockFits(c, i);
      }
    }
    forall i | 0 <= i < |c.moves| ensures HeldSize(a)(c.moves[i]) == HeldBelow(a, n)(c.moves[i]) {
      if Holds(c.moves[i]) && HeldArena(c.moves[i]) == a {
        HeldBlockFits(c, i);
      }
    }
    SumSame(c.entries, c.entries, LiveSize(a), LiveBelow(a, n));
    SumSame(c.moves, c.moves, HeldSize(a), HeldBelow(a, n));
  }

  // ---- The blocks determine the arenas ----

  ghost predicate NothingHeld(c: Core) {
    forall i :: 0 <= i < |c.moves| ==> !Holds(c.moves[i])
  }

  /** The same arenas with the same role, whatever their free space. */
  ghost predicate SameShells(c: Core, d: Core) {
    && |c.arenas| == |d.arenas|
    && forall a :: 0 <= a < |c.arenas| ==>
         var x, y := c.arenas[a], d.arenas[a];
         && x.capacity == y.capacity && x.memoryClass == y.memoryClass && x.role == y.role
         && x.active == y.active && x.dedicated == y.dedicated
  }

  lemma NothingHeldSums(c: Core, a: nat, p: nat)
    requires NothingHeld(c)
    ensures Sum(c.moves, HeldAt(a, p)) == 0 && Sum(c.moves, ReservedIn(a)) == 0 && Sum(c.moves, RetiringIn(a)) == 0
  {
    SumZero(c.moves, HeldAt(a, p));
    SumZero(c.moves, ReservedIn(a));
    SumZero(c.moves, RetiringIn(a));
  }

  /** When no move holds a block, the live allocations determine every arena down
      to the order of its free ranges: no trace is left of how they came to be. */
  lemma BlocksDetermineArenas(c: Core, d: Core)
    requires CoreOk(c) && CoreOk(d) && NothingHeld(c) && NothingHeld(d)
    requires c.entries == d.entries && SameShells(c, d)
    ensures c.arenas == d.arenas
  {
    forall a | 0 <= a < |c.arenas| ensures c.arenas[a] == d.arenas[a] {
      OneArenaDetermined(c, d, a);
    }
  }

  lemma OneArenaDetermined(c: Core, d: Core, a: nat)
    requires CoreOk(c) && CoreOk(d) && NothingHeld(c) && NothingHeld(d)
    requires c.entries == d.entries && SameShells(c, d) && a < |c.arenas|
    ensures c.arenas[a] == d.arenas[a]
  {
    var x, y := c.arenas[a], d.arenas[a];
    assert ArenaOk(x) && ArenaOk(y) && Counted(c, a) && Counted(d, a);
    NothingHeldSums(c, a, 0);
    NothingHeldSums(d, a, 0);
    if x.active {
      forall p: nat ensures FreeAt(x.ranges, p) <==> FreeAt(y.ranges, p) {
        CoverIs(c, a, p);
        CoverIs(d, a, p);
        NothingHeldSums(c, a, p);
        NothingHeldSums(d, a, p);
      }
      Canonical(x.ranges, y.ranges, x.capacity);
    }
  }
}
