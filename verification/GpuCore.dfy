/** The GPU allocator's tables and the invariant that ties them together.

    Three kinds of block occupy an arena: live allocations, destinations reserved
    by a pending move, and sources that a move has switched away from but not yet
    retired. Together with the free ranges they cover every byte of an active
    arena exactly once. That is stated by counting, for every arena and byte, who
    covers it; each change to the tables is then shown to leave the counts alone. */
module GpuCore {
  import opened Sums
  import opened FreeList

  const U32_MAX := 0xFFFF_FFFF

  datatype Role = Normal | EvacuationSource

  datatype Arena = Arena(ranges: seq<Range>, capacity: nat, free: int,
                         allocations: int, reservations: int, retiring: int,
                         memoryClass: nat, role: Role, active: bool, dedicated: bool)

  const NO_ARENA := Arena([], 0, 0, 0, 0, 0, 0, Normal, false, false)

  /** An allocation; `alignment` is the exponent of the power of two. */
  datatype Entry = Entry(offset: nat, size: nat, arena: nat, alignment: nat,
                         memoryClass: nat, resourceClass: nat, live: bool, movable: bool)

  datatype MoveState = Reserved | CopyScheduled | ReferencesSwitched | SourceRetired | Cancelled

  datatype Move = Move(id: nat, allocation: nat, source: nat, destination: nat,
                       sourceOffset: nat, destinationOffset: nat, size: nat,
                       state: MoveState, copyCompletion: nat, sourceRetirement: nat) {
    /** Still holding its reserved destination. */
    predicate Pending() { state == Reserved || state == CopyScheduled }
  }

  datatype Core = Core(arenas: seq<Arena>, entries: seq<Entry>, moves: seq<Move>)

  // ---- Who covers a byte ----

  predicate InBlock(p: nat, offset: nat, size: nat) {
    offset <= p < offset + size
  }

  ghost function Bit(b: bool): nat {
    if b then 1 else 0
  }

  ghost function LiveAt(a: nat, p: nat): Entry -> nat {
    (e: Entry) => Bit(e.live && e.arena == a && InBlock(p, e.offset, e.size))
  }

  ghost function HeldAt(a: nat, p: nat): Move -> nat {
    (m: Move) =>
      if m.Pending() then Bit(m.destination == a && InBlock(p, m.destinationOffset, m.size))
      else if m.state == ReferencesSwitched then Bit(m.source == a && InBlock(p, m.sourceOffset, m.size))
      else 0
  }

  ghost function Cover(c: Core, a: nat, p: nat): nat
    requires a < |c.arenas|
  {
    Sum(c.entries, LiveAt(a, p)) + Sum(c.moves, HeldAt(a, p)) + Bit(FreeAt(c.arenas[a].ranges, p))
  }

  // ---- How many blocks of each kind ----

  ghost function LiveIn(a: nat): Entry -> nat {
    (e: Entry) => Bit(e.live && e.arena == a)
  }

  ghost function ReservedIn(a: nat): Move -> nat {
    (m: Move) => Bit(m.Pending() && m.destination == a)
  }

  ghost function RetiringIn(a: nat): Move -> nat {
    (m: Move) => Bit(m.state == ReferencesSwitched && m.source == a)
  }

  // ---- The invariant ----

  ghost predicate ArenaOk(x: Arena) {
    if x.active then
      && 0 < x.capacity <= U32_MAX
      && WellFormed(x.ranges, x.capacity)
      && x.free == Total(x.ranges)
    else x == NO_ARENA
  }

  ghost predicate Counted(c: Core, a: nat)
    requires a < |c.arenas|
  {
    && c.arenas[a].allocations == Sum(c.entries, LiveIn(a))
    && c.arenas[a].reservations == Sum(c.moves, ReservedIn(a))
    && c.arenas[a].retiring == Sum(c.moves, RetiringIn(a))
  }

  ghost predicate Tiled(c: Core, a: nat)
    requires a < |c.arenas|
  {
    forall p: nat {:trigger Cover(c, a, p)} :: Cover(c, a, p) == Bit(p < c.arenas[a].capacity)
  }

  /** What validate_integrity asserts of every arena. */
  ghost predicate CoreOk(c: Core) {
    forall a :: 0 <= a < |c.arenas| ==> ArenaOk(c.arenas[a]) && Counted(c, a) && Tiled(c, a)
  }

  // ---- Consequences ----

  lemma CoverIs(c: Core, a: nat, p: nat)
    requires CoreOk(c) && a < |c.arenas|
    ensures Cover(c, a, p) == Bit(p < c.arenas[a].capacity)
  {
  }

  /** A live block lies inside its arena and has its bytes to itself. */
  lemma LiveBlock(c: Core, id: nat, p: nat)
    requires CoreOk(c) && id < |c.entries| && c.entries[id].live && c.entries[id].arena < |c.arenas|
    requires InBlock(p, c.entries[id].offset, c.entries[id].size)
    ensures p < c.arenas[c.entries[id].arena].capacity
    ensures !FreeAt(c.arenas[c.entries[id].arena].ranges, p)
    ensures Sum(c.moves, HeldAt(c.entries[id].arena, p)) == 0
    ensures Sum(c.entries, LiveAt(c.entries[id].arena, p)) == 1
  {
    var a := c.entries[id].arena;
    CoverIs(c, a, p);
    SumAtLeast(c.entries, id, LiveAt(a, p));
  }

  lemma LiveBlockFits(c: Core, id: nat)
    requires CoreOk(c) && id < |c.entries| && c.entries[id].live && c.entries[id].arena < |c.arenas|
    requires c.entries[id].size > 0
    ensures c.entries[id].offset + c.entries[id].size <= c.arenas[c.entries[id].arena].capacity
    ensures c.arenas[c.entries[id].arena].active
    ensures Unclaimed(c.arenas[c.entries[id].arena].ranges, c.entries[id].offset, c.entries[id].size)
  {
    var e := c.entries[id];
    LiveBlock(c, id, e.offset + e.size - 1);
    forall p | e.offset <= p < e.offset + e.size ensures !FreeAt(c.arenas[e.arena].ranges, p) {
      LiveBlock(c, id, p);
    }
  }

  /** Two live blocks share no byte. */
  lemma LiveBlocksApart(c: Core, i: nat, j: nat, p: nat)
    requires CoreOk(c) && i < |c.entries| && j < |c.entries| && i != j
    requires c.entries[i].live && c.entries[j].live && c.entries[i].arena == c.entries[j].arena < |c.arenas|
    ensures !(InBlock(p, c.entries[i].offset, c.entries[i].size) && InBlock(p, c.entries[j].offset, c.entries[j].size))
  {
    var a := c.entries[i].arena;
    CoverIs(c, a, p);
    if i < j {
      SumAtLeastTwo(c.entries, i, j, LiveAt(a, p));
    } else {
      SumAtLeastTwo(c.entries, j, i, LiveAt(a, p));
    }
  }

  /** Where a move holds a block. */
  function HeldArena(m: Move): nat {
    if m.Pending() then m.destination else m.source
  }

  function HeldOffset(m: Move): nat {
    if m.Pending() then m.destinationOffset else m.sourceOffset
  }

  predicate Holds(m: Move) {
    m.Pending() || m.state == ReferencesSwitched
  }

  lemma HeldBlock(c: Core, i: nat, p: nat)
    requires CoreOk(c) && i < |c.moves| && Holds(c.moves[i]) && HeldArena(c.moves[i]) < |c.arenas|
    requires InBlock(p, HeldOffset(c.moves[i]), c.moves[i].size)
    ensures p < c.arenas[HeldArena(c.moves[i])].capacity
    ensures !FreeAt(c.arenas[HeldArena(c.moves[i])].ranges, p)
    ensures Sum(c.entries, LiveAt(HeldArena(c.moves[i]), p)) == 0
    ensures Sum(c.moves, HeldAt(HeldArena(c.moves[i]), p)) == 1
  {
    var a := HeldArena(c.moves[i]);
    CoverIs(c, a, p);
    SumAtLeast(c.moves, i, HeldAt(a, p));
  }

  lemma HeldBlockFits(c: Core, i: nat)
    requires CoreOk(c) && i < |c.moves| && Holds(c.moves[i]) && HeldArena(c.moves[i]) < |c.arenas|
    requires c.moves[i].size > 0
    ensures HeldOffset(c.moves[i]) + c.moves[i].size <= c.arenas[HeldArena(c.moves[i])].capacity
    ensures c.arenas[HeldArena(c.moves[i])].active
    ensures Unclaimed(c.arenas[HeldArena(c.moves[i])].ranges, HeldOffset(c.moves[i]), c.moves[i].size)
  {
    var m := c.moves[i];
    var offset := HeldOffset(m);
    HeldBlock(c, i, offset + m.size - 1);
    forall p | offset <= p < offset + m.size ensures !FreeAt(c.arenas[HeldArena(m)].ranges, p) {
      HeldBlock(c, i, p);
    }
  }

  /** A live block and a block a move holds share no byte. */
  lemma LiveAndHeldApart(c: Core, id: nat, i: nat, p: nat)
    requires CoreOk(c) && id < |c.entries| && i < |c.moves|
    requires c.entries[id].live && Holds(c.moves[i]) && c.entries[id].arena == HeldArena(c.moves[i]) < |c.arenas|
    ensures !(InBlock(p, c.entries[id].offset, c.entries[id].size)
              && InBlock(p, HeldOffset(c.moves[i]), c.moves[i].size))
  {
    var a := c.entries[id].arena;
    CoverIs(c, a, p);
    SumAtLeast(c.entries, id, LiveAt(a, p));
    SumAtLeast(c.moves, i, HeldAt(a, p));
  }

  lemma HeldBlocksApart(c: Core, i: nat, j: nat, p: nat)
    requires CoreOk(c) && i < |c.moves| && j < |c.moves| && i != j
    requires Holds(c.moves[i]) && Holds(c.moves[j]) && HeldArena(c.moves[i]) == HeldArena(c.moves[j]) < |c.arenas|
    ensures !(InBlock(p, HeldOffset(c.moves[i]), c.moves[i].size) && InBlock(p, HeldOffset(c.moves[j]), c.moves[j].size))
  {
    var a := HeldArena(c.moves[i]);
    CoverIs(c, a, p);
    if i < j {
      SumAtLeastTwo(c.moves, i, j, HeldAt(a, p));
    } else {
      SumAtLeastTwo(c.moves, j, i, HeldAt(a, p));
    }
  }

  // ---- Taking and returning a range ----

  predicate Available(x: Arena, offset: nat, size: nat) {
    FindRange(x.ranges, 0, offset, size) < |x.ranges|
  }

  function Occupy(x: Arena, offset: nat, size: nat): Arena
    requires Available(x, offset, size)
  {
    x.(ranges := Carve(x.ranges, FindRange(x.ranges, 0, offset, size), offset, size), free := x.free - size)
  }

  function Vacate(x: Arena, offset: nat, size: nat): Arena {
    x.(ranges := Release(x.ranges, offset, size), free := x.free + size)
  }

  lemma OccupyOk(x: Arena, offset: nat, size: nat)
    requires ArenaOk(x) && Available(x, offset, size) && size > 0
    ensures x.active && ArenaOk(Occupy(x, offset, size))
    ensures offset + size <= x.capacity
    ensures forall p: nat {:trigger FreeAt(Occupy(x, offset, size).ranges, p)} ::
              FreeAt(Occupy(x, offset, size).ranges, p) <==> FreeAt(x.ranges, p) && !InBlock(p, offset, size)
    ensures forall p: nat :: InBlock(p, offset, size) ==> FreeAt(x.ranges, p)
  {
    var k := FindRange(x.ranges, 0, offset, size);
    CarveWellFormed(x.ranges, k, offset, size, x.capacity);
    CarveTotal(x.ranges, k, offset, size);
    forall p: nat
      ensures FreeAt(Occupy(x, offset, size).ranges, p) <==> FreeAt(x.ranges, p) && !InBlock(p, offset, size)
    {
      CarveFree(x.ranges, k, offset, size, x.capacity, p);
    }
    forall p: nat | InBlock(p, offset, size) ensures FreeAt(x.ranges, p) {
      assert x.ranges[k].Has(p);
    }
  }

  lemma VacateOk(x: Arena, offset: nat, size: nat)
    requires ArenaOk(x) && x.active && Unclaimed(x.ranges, offset, size) && size > 0 && offset + size <= x.capacity
    ensures ArenaOk(Vacate(x, offset, size))
    ensures forall p: nat {:trigger FreeAt(Vacate(x, offset, size).ranges, p)} ::
              FreeAt(Vacate(x, offset, size).ranges, p) <==> FreeAt(x.ranges, p) || InBlock(p, offset, size)
  {
    ReleaseWellFormed(x.ranges, offset, size, x.capacity);
    forall p: nat
      ensures FreeAt(Vacate(x, offset, size).ranges, p) <==> FreeAt(x.ranges, p) || InBlock(p, offset, size)
    {
      ReleaseFree(x.ranges, offset, size, p);
    }
  }

  /** Only the range list of an arena and who covers its bytes matter for the
      tiling: if each byte keeps its count the new tables are tiled too. */
  ghost predicate SameCover(c: Core, d: Core) {
    && |c.arenas| == |d.arenas|
    && forall a: nat, p: nat {:trigger Cover(d, a, p)} :: a < |c.arenas| ==>
         Cover(d, a, p) == Cover(c, a, p) && d.arenas[a].capacity == c.arenas[a].capacity
  }

  lemma SameCoverTiles(c: Core, d: Core)
    requires CoreOk(c) && SameCover(c, d)
    requires forall a :: 0 <= a < |d.arenas| ==> ArenaOk(d.arenas[a]) && Counted(d, a)
    ensures CoreOk(d)
  {
    forall a | 0 <= a < |d.arenas| ensures Tiled(d, a) {
      forall p: nat ensures Cover(d, a, p) == Bit(p < d.arenas[a].capacity) {
        CoverIs(c, a, p);
      }
    }
  }

  // ---- A new live block ----

  /** `after` holds `e` in a slot that was not live, or in a new one. */
  ghost predicate Gains(before: seq<Entry>, after: seq<Entry>, id: nat, e: Entry) {
    || (id < |before| && !before[id].live && after == before[id := e])
    || (id == |before| && after == before + [e])
  }

  lemma GainsSum(before: seq<Entry>, after: seq<Entry>, id: nat, e: Entry, weight: Entry -> nat)
    requires Gains(before, after, id, e)
    requires id < |before| ==> weight(before[id]) == 0
    ensures Sum(after, weight) == Sum(before, weight) + weight(e)
  {
    if id < |before| {
      SumUpdate(before, id, e, weight);
    } else {
      SumAppend(before, e, weight);
    }
  }

  lemma PlaceOk(c: Core, d: Core, id: nat, e: Entry)
    requires CoreOk(c) && e.live && e.size > 0 && e.arena < |c.arenas|
    requires Available(c.arenas[e.arena], e.offset, e.size)
    requires Gains(c.entries, d.entries, id, e) && d.moves == c.moves
    requires var x := c.arenas[e.arena];
             d.arenas == c.arenas[e.arena := Occupy(x, e.offset, e.size).(allocations := x.allocations + 1)]
    ensures CoreOk(d)
  {
    var x := c.arenas[e.arena];
    OccupyOk(x, e.offset, e.size);
    forall a | 0 <= a < |d.arenas| ensures ArenaOk(d.arenas[a]) && Counted(d, a) {
      GainsSum(c.entries, d.entries, id, e, LiveIn(a));
    }
    forall a: nat, p: nat | a < |d.arenas|
      ensures Cover(d, a, p) == Cover(c, a, p) && d.arenas[a].capacity == c.arenas[a].capacity
    {
      GainsSum(c.entries, d.entries, id, e, LiveAt(a, p));
    }
    SameCoverTiles(c, d);
  }

  // ---- A live block less ----

  lemma RemoveOk(c: Core, d: Core, id: nat, dead: Entry)
    requires CoreOk(c) && id < |c.entries| && !dead.live
    requires var e := c.entries[id]; e.live && e.size > 0 && e.arena < |c.arenas|
    requires d.entries == c.entries[id := dead] && d.moves == c.moves
    requires var e := c.entries[id];
             var x := c.arenas[e.arena];
             d.arenas == c.arenas[e.arena := Vacate(x, e.offset, e.size).(allocations := x.allocations - 1)]
    ensures CoreOk(d)
  {
    var e := c.entries[id];
    LiveBlockFits(c, id);
    VacateOk(c.arenas[e.arena], e.offset, e.size);
    forall a | 0 <= a < |d.arenas| ensures ArenaOk(d.arenas[a]) && Counted(d, a) {
      SumUpdate(c.entries, id, dead, LiveIn(a));
      SumAtLeast(c.entries, id, LiveIn(a));
    }
    forall a: nat, p: nat | a < |d.arenas|
      ensures Cover(d, a, p) == Cover(c, a, p) && d.arenas[a].capacity == c.arenas[a].capacity
    {
      SumUpdate(c.entries, id, dead, LiveAt(a, p));
      if a == e.arena && InBlock(p, e.offset, e.size) {
        LiveBlock(c, id, p);
      }
    }
    SameCoverTiles(c, d);
  }

  // ---- A move's reservation ----

  lemma ReserveOk(c: Core, d: Core, m: Move)
    requires CoreOk(c) && m.Pending() && m.size > 0 && m.destination < |c.arenas|
    requires Available(c.arenas[m.destination], m.destinationOffset, m.size)
    requires d.entries == c.entries && d.moves == c.moves + [m]
    requires var x := c.arenas[m.destination];
             d.arenas == c.arenas[m.destination := Occupy(x, m.destinationOffset, m.size).(reservations := x.reservations + 1)]
    ensures CoreOk(d)
  {
    OccupyOk(c.arenas[m.destination], m.destinationOffset, m.size);
    forall a | 0 <= a < |d.arenas| ensures ArenaOk(d.arenas[a]) && Counted(d, a) {
      SumAppend(c.moves, m, ReservedIn(a));
      SumAppend(c.moves, m, RetiringIn(a));
    }
    forall a: nat, p: nat | a < |d.arenas|
      ensures Cover(d, a, p) == Cover(c, a, p) && d.arenas[a].capacity == c.arenas[a].capacity
    {
      SumAppend(c.moves, m, HeldAt(a, p));
    }
    SameCoverTiles(c, d);
  }

  /** A move that held a block gives it back, from either end. */
  lemma ReturnOk(c: Core, d: Core, i: nat, after: Move)
    requires CoreOk(c) && i < |c.moves| && Holds(c.moves[i]) && !Holds(after)
    requires c.moves[i].size > 0 && HeldArena(c.moves[i]) < |c.arenas|
    requires d.entries == c.entries && d.moves == c.moves[i := after]
    requires var m := c.moves[i];
             var x := c.arenas[HeldArena(m)];
             var y := Vacate(x, HeldOffset(m), m.size);
             d.arenas == c.arenas[HeldArena(m) :=
               if m.Pending() then y.(reservations := x.reservations - 1) else y.(retiring := x.retiring - 1)]
    ensures CoreOk(d)
  {
    var m := c.moves[i];
    HeldBlockFits(c, i);
    VacateOk(c.arenas[HeldArena(m)], HeldOffset(m), m.size);
    forall a | 0 <= a < |d.arenas| ensures ArenaOk(d.arenas[a]) && Counted(d, a) {
      SumUpdate(c.moves, i, after, ReservedIn(a));
      SumUpdate(c.moves, i, after, RetiringIn(a));
    }
    forall a: nat, p: nat | a < |d.arenas|
      ensures Cover(d, a, p) == Cover(c, a, p) && d.arenas[a].capacity == c.arenas[a].capacity
    {
      SumUpdate(c.moves, i, after, HeldAt(a, p));
      if a == HeldArena(m) && InBlock(p, HeldOffset(m), m.size) {
        HeldBlock(c, i, p);
      }
    }
    SameCoverTiles(c, d);
  }

  // ---- Switching references ----

  /** The allocation and the move trade blocks: the allocation takes over the
      reserved destination and the move keeps the source until it is retired. */
  lemma SwitchOk(c: Core, d: Core, i: nat, after: Move)
    requires CoreOk(c) && i < |c.moves| && c.moves[i].Pending() && c.moves[i].allocation < |c.entries|
    requires var m := c.moves[i];
             var e := c.entries[m.allocation];
             && e.live && e.arena == m.source && e.offset == m.sourceOffset && e.size == m.size
             && m.source != m.destination && m.source < |c.arenas| && m.destination < |c.arenas|
             && after.state == ReferencesSwitched && after.source == m.source
             && after.sourceOffset == m.sourceOffset && after.size == m.size
             && d.entries == c.entries[m.allocation := e.(arena := m.destination, offset := m.destinationOffset)]
    requires d.moves == c.moves[i := after]
    requires var m := c.moves[i];
             var s, x := c.arenas[m.source], c.arenas[m.destination];
             d.arenas == c.arenas[m.source := s.(allocations := s.allocations - 1, retiring := s.retiring + 1)]
                                 [m.destination := x.(reservations := x.reservations - 1, allocations := x.allocations + 1)]
    ensures CoreOk(d)
  {
    var m := c.moves[i];
    var e := d.entries[m.allocation];
    SwitchKeepsArenas(c, d, i);
    forall a | 0 <= a < |d.arenas| ensures Counted(d, a) {
      SwitchCounts(c, d, i, e, after, a);
      assert Counted(c, a);
    }
    forall a: nat, p: nat | a < |d.arenas|
      ensures Cover(d, a, p) == Cover(c, a, p) && d.arenas[a].capacity == c.arenas[a].capacity
    {
      SwitchCounts(c, d, i, e, after, a);
    }
    SameCoverTiles(c, d);
  }

  lemma SwitchKeepsArenas(c: Core, d: Core, i: nat)
    requires CoreOk(c) && i < |c.moves| && c.moves[i].Pending() && c.moves[i].allocation < |c.entries|
    requires var m := c.moves[i];
             && c.entries[m.allocation].live && c.entries[m.allocation].arena == m.source < |c.arenas|
             && m.source != m.destination < |c.arenas|
    requires var m := c.moves[i];
             var s, x := c.arenas[m.source], c.arenas[m.destination];
             d.arenas == c.arenas[m.source := s.(allocations := s.allocations - 1, retiring := s.retiring + 1)]
                                 [m.destination := x.(reservations := x.reservations - 1, allocations := x.allocations + 1)]
    ensures forall a :: 0 <= a < |d.arenas| ==>
              ArenaOk(d.arenas[a]) && d.arenas[a].ranges == c.arenas[a].ranges && d.arenas[a].capacity == c.arenas[a].capacity
  {
    var m := c.moves[i];
    SumAtLeast(c.entries, m.allocation, LiveIn(m.source));
    SumAtLeast(c.moves, i, ReservedIn(m.destination));
    assert Counted(c, m.source) && Counted(c, m.destination);
    assert c.arenas[m.source].active && c.arenas[m.destination].active;
  }

  lemma SwitchCounts(c: Core, d: Core, i: nat, e: Entry, after: Move, a: nat)
    requires i < |c.moves| && c.moves[i].Pending() && c.moves[i].allocation < |c.entries|
    requires var m := c.moves[i];
             var was := c.entries[m.allocation];
             && was.live && was.arena == m.source && was.offset == m.sourceOffset && was.size == m.size
             && e == was.(arena := m.destination, offset := m.destinationOffset)
             && after.state == ReferencesSwitched && after.source == m.source
             && after.sourceOffset == m.sourceOffset && after.size == m.size
             && d.entries == c.entries[m.allocation := e] && d.moves == c.moves[i := after]
    ensures Sum(d.entries, LiveIn(a)) == Sum(c.entries, LiveIn(a)) + Bit(a == c.moves[i].destination) - Bit(a == c.moves[i].source)
    ensures Sum(d.moves, ReservedIn(a)) == Sum(c.moves, ReservedIn(a)) - Bit(a == c.moves[i].destination)
    ensures Sum(d.moves, RetiringIn(a)) == Sum(c.moves, RetiringIn(a)) + Bit(a == c.moves[i].source)
    ensures forall p: nat :: Sum(d.entries, LiveAt(a, p)) + Sum(d.moves, HeldAt(a, p)) ==
                             Sum(c.entries, LiveAt(a, p)) + Sum(c.moves, HeldAt(a, p))
  {
    SumUpdate(c.entries, c.moves[i].allocation, e, LiveIn(a));
    SumUpdate(c.moves, i, after, ReservedIn(a));
    SumUpdate(c.moves, i, after, RetiringIn(a));
    forall p: nat
      ensures Sum(d.entries, LiveAt(a, p)) + Sum(d.moves, HeldAt(a, p)) ==
              Sum(c.entries, LiveAt(a, p)) + Sum(c.moves, HeldAt(a, p))
    {
      SumUpdate(c.entries, c.moves[i].allocation, e, LiveAt(a, p));
      SumUpdate(c.moves, i, after, HeldAt(a, p));
    }
  }

  // ---- Changes that cover nothing new ----

  ghost predicate SameWeights(before: Move, after: Move) {
    && (before.state != after.state ==> before.Pending() && after.Pending())
    && after.source == before.source && after.sourceOffset == before.sourceOffset
    && after.destination == before.destination && after.destinationOffset == before.destinationOffset
    && after.size == before.size
  }

  /** A move goes on without changing what it holds. */
  lemma MoveOnOk(c: Core, i: nat, after: Move)
    requires CoreOk(c) && i < |c.moves| && SameWeights(c.moves[i], after)
    ensures CoreOk(c.(moves := c.moves[i := after]))
  {
    var d := c.(moves := c.moves[i := after]);
    forall a | 0 <= a < |d.arenas| ensures Counted(d, a) {
      SumUpdate(c.moves, i, after, ReservedIn(a));
      SumUpdate(c.moves, i, after, RetiringIn(a));
    }
    forall a: nat, p: nat | a < |d.arenas| ensures Cover(d, a, p) == Cover(c, a, p) {
      SumUpdate(c.moves, i, after, HeldAt(a, p));
    }
    SameCoverTiles(c, d);
  }

  lemma EntryTagOk(c: Core, id: nat, movable: bool)
    requires CoreOk(c) && id < |c.entries|
    ensures CoreOk(c.(entries := c.entries[id := c.entries[id].(movable := movable)]))
  {
    var e := c.entries[id].(movable := movable);
    var d := c.(entries := c.entries[id := e]);
    forall a | 0 <= a < |d.arenas| ensures Counted(d, a) {
      SumUpdate(c.entries, id, e, LiveIn(a));
    }
    forall a: nat, p: nat | a < |d.arenas| ensures Cover(d, a, p) == Cover(c, a, p) {
      SumUpdate(c.entries, id, e, LiveAt(a, p));
    }
    SameCoverTiles(c, d);
  }

  lemma RoleOk(c: Core, a: nat, role: Role)
    requires CoreOk(c) && a < |c.arenas| && c.arenas[a].active
    ensures CoreOk(c.(arenas := c.arenas[a := c.arenas[a].(role := role)]))
  {
    var d := c.(arenas := c.arenas[a := c.arenas[a].(role := role)]);
    forall b: nat, p: nat | b < |d.arenas| ensures Cover(d, b, p) == Cover(c, b, p) {
    }
    assert forall b :: 0 <= b < |d.arenas| ==> Counted(c, b) ==> Counted(d, b);
    SameCoverTiles(c, d);
  }

  /** Once nothing is held any more the moves can be forgotten. */
  lemma ForgetOk(c: Core)
    requires CoreOk(c) && forall i :: 0 <= i < |c.moves| ==> !Holds(c.moves[i])
    ensures CoreOk(c.(moves := []))
  {
    var d := c.(moves := []);
    forall a | 0 <= a < |d.arenas| ensures Counted(d, a) {
      assert Counted(c, a);
      SumZero(c.moves, ReservedIn(a));
      SumZero(c.moves, RetiringIn(a));
    }
    forall a: nat, p: nat | a < |d.arenas| ensures Cover(d, a, p) == Cover(c, a, p) {
      SumZero(c.moves, HeldAt(a, p));
    }
    SameCoverTiles(c, d);
  }

  // ---- Arenas come and go ----

  function NewArena(capacity: nat, memoryClass: nat, dedicated: bool): Arena {
    Arena([Range(0, capacity)], capacity, capacity, 0, 0, 0, memoryClass, Normal, true, dedicated)
  }

  lemma NewArenaOk(capacity: nat, memoryClass: nat, dedicated: bool)
    requires 0 < capacity <= U32_MAX
    ensures ArenaOk(NewArena(capacity, memoryClass, dedicated))
    ensures forall p: nat {:trigger FreeAt(NewArena(capacity, memoryClass, dedicated).ranges, p)} ::
              FreeAt(NewArena(capacity, memoryClass, dedicated).ranges, p) <==> p < capacity
  {
    TotalOne(Range(0, capacity));
    forall p: nat ensures FreeAt([Range(0, capacity)], p) <==> p < capacity {
      FreeOne(Range(0, capacity), p);
    }
  }

  /** No block lies in an arena that holds none; then each byte is free or past
      the end. */
  ghost predicate Untouched(c: Core, a: nat) {
    && Sum(c.entries, LiveIn(a)) == 0 && Sum(c.moves, ReservedIn(a)) == 0 && Sum(c.moves, RetiringIn(a)) == 0
  }

  lemma UntouchedCover(c: Core, a: nat, p: nat)
    requires Untouched(c, a)
    ensures Sum(c.entries, LiveAt(a, p)) == 0 && Sum(c.moves, HeldAt(a, p)) == 0
  {
    forall i | 0 <= i < |c.entries| ensures LiveAt(a, p)(c.entries[i]) == 0 {
      SumAtLeast(c.entries, i, LiveIn(a));
    }
    forall i | 0 <= i < |c.moves| ensures HeldAt(a, p)(c.moves[i]) == 0 {
      SumAtLeast(c.moves, i, ReservedIn(a));
      SumAtLeast(c.moves, i, RetiringIn(a));
    }
    SumZero(c.entries, LiveAt(a, p));
    SumZero(c.moves, HeldAt(a, p));
  }

  /** Replacing an arena that holds nothing by another that holds nothing, or
      adding one. */
  lemma ReplaceArenaOk(c: Core, a: nat, x: Arena)
    requires CoreOk(c) && a < |c.arenas| && Untouched(c, a) && ArenaOk(x)
    requires x.allocations == x.reservations == x.retiring == 0
    requires forall p: nat {:trigger FreeAt(x.ranges, p)} :: FreeAt(x.ranges, p) <==> p < x.capacity
    ensures CoreOk(c.(arenas := c.arenas[a := x]))
  {
    var d := c.(arenas := c.arenas[a := x]);
    forall b | 0 <= b < |d.arenas| ensures ArenaOk(d.arenas[b]) && Counted(d, b) && Tiled(d, b) {
      assert Counted(c, b) && ArenaOk(c.arenas[b]);
      forall p: nat ensures Cover(d, b, p) == Bit(p < d.arenas[b].capacity) {
        if b == a {
          UntouchedCover(c, a, p);
        } else {
          CoverIs(c, b, p);
        }
      }
    }
  }

  lemma AddArenaOk(c: Core, x: Arena)
    requires CoreOk(c) && Untouched(c, |c.arenas|) && ArenaOk(x)
    requires x.allocations == x.reservations == x.retiring == 0
    requires forall p: nat {:trigger FreeAt(x.ranges, p)} :: FreeAt(x.ranges, p) <==> p < x.capacity
    ensures CoreOk(c.(arenas := c.arenas + [x]))
  {
    var d := c.(arenas := c.arenas + [x]);
    forall b | 0 <= b < |d.arenas| ensures ArenaOk(d.arenas[b]) && Counted(d, b) && Tiled(d, b) {
      assert b < |c.arenas| ==> Counted(c, b) && ArenaOk(c.arenas[b]);
      forall p: nat ensures Cover(d, b, p) == Bit(p < d.arenas[b].capacity) {
        if b == |c.arenas| {
          UntouchedCover(c, b, p);
        } else {
          CoverIs(c, b, p);
        }
      }
    }
  }

  /** All of an arena is free exactly when no block of any kind lies in it: this
      is when the source may release it. */
  lemma EmptyMeansFree(c: Core, a: nat)
    requires CoreOk(c) && a < |c.arenas| && c.arenas[a].active
    requires forall i :: 0 <= i < |c.entries| && c.entries[i].live ==> c.entries[i].size > 0
    requires forall i :: 0 <= i < |c.moves| ==> c.moves[i].size > 0
    ensures c.arenas[a].free == c.arenas[a].capacity <==> Untouched(c, a)
  {
    var x := c.arenas[a];
    FullTotal(x.ranges, x.capacity);
    if x.free == x.capacity {
      FullIsUntouched(c, a);
    }
    if Untouched(c, a) {
      forall p: nat ensures FreeAt(x.ranges, p) <==> FreeAt([Range(0, x.capacity)], p) {
        UntouchedCover(c, a, p);
        CoverIs(c, a, p);
        FreeOne(Range(0, x.capacity), p);
      }
      Canonical(x.ranges, [Range(0, x.capacity)], x.capacity);
    }
  }

  lemma FullIsUntouched(c: Core, a: nat)
    requires CoreOk(c) && a < |c.arenas| && c.arenas[a].active && c.arenas[a].ranges == [Range(0, c.arenas[a].capacity)]
    requires forall i :: 0 <= i < |c.entries| && c.entries[i].live ==> c.entries[i].size > 0
    requires forall i :: 0 <= i < |c.moves| ==> c.moves[i].size > 0
    ensures Untouched(c, a)
  {
    var x := c.arenas[a];
    forall i | 0 <= i < |c.entries| ensures LiveIn(a)(c.entries[i]) == 0 {
      if c.entries[i].live && c.entries[i].arena == a {
        LiveBlock(c, i, c.entries[i].offset);
        FreeOne(Range(0, x.capacity), c.entries[i].offset);
      }
    }
    forall i | 0 <= i < |c.moves| ensures ReservedIn(a)(c.moves[i]) == 0 && RetiringIn(a)(c.moves[i]) == 0 {
      if Holds(c.moves[i]) && HeldArena(c.moves[i]) == a {
        HeldBlock(c, i, HeldOffset(c.moves[i]));
        FreeOne(Range(0, x.capacity), HeldOffset(c.moves[i]));
      }
    }
    SumZero(c.entries, LiveIn(a));
    SumZero(c.moves, ReservedIn(a));
    SumZero(c.moves, RetiringIn(a));
  }
}
