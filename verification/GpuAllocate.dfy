/** Where an allocation goes: first fit over the arenas in order, and an arena of
    its own kind when none has room. */
module GpuAllocate {
  import opened Wrappers
  import opened Alignment
  import opened FreeList
  import opened GpuCore
  import opened GpuState
  import opened GpuInvariant

  /** What allocate asserts of its arguments: a size, and a power of two (or
      nothing) to align to; both are 32-bit words. */
  predicate OptionsOk(size: nat, options: Options) {
    && 0 < size <= U32_MAX && options.alignment <= U32_MAX
    && (options.alignment > 0 ==> IsPowerOfTwo(options.alignment))
  }

  predicate Dedicated(s: State, size: nat, options: Options) {
    options.dedicated || size >= s.arenaSize
  }

  /** The options with no alignment read as alignment one. */
  function Normalised(options: Options): Options {
    options.(alignment := if options.alignment < 1 then 1 else options.alignment)
  }

  function Capacity(s: State, size: nat, options: Options): nat {
    if Dedicated(s, size, options) then size else s.arenaSize
  }

  /** A block in a new arena: pinned if the arena is dedicated. */
  function ForNewArena(s: State, size: nat, options: Options): Options {
    options.(dedicated := Dedicated(s, size, options), movable := options.movable && !Dedicated(s, size, options))
  }

  // ---- Alignment ----

  lemma WordIs()
    ensures Pow2(WORD_BITS) == U32_MAX + 1
  {
    Pow2Add(16, 16);
    assert Pow2(8) == 256;
    Pow2Add(8, 8);
  }

  lemma AlignmentExponent(alignment: nat) returns (k: nat)
    requires IsPowerOfTwo(alignment) && alignment <= U32_MAX
    ensures k < WORD_BITS && alignment == Pow2(k) && Log2(alignment) == k
  {
    k := PowerOfTwoExponent(alignment);
    Log2Meaning(alignment);
    WordIs();
    if k >= WORD_BITS {
      Pow2Monotone(WORD_BITS, k);
    }
    Log2Bounds(alignment);
    Pow2Injective(k, Log2(alignment));
  }

  /** A fit is inside the range and aligned. */
  lemma FitIsAligned(range: Range, size: nat, alignment: nat)
    requires IsPowerOfTwo(alignment) && alignment <= U32_MAX && range.offset <= U32_MAX
    requires AlignedFit(range, size, alignment).Some?
    ensures Log2(alignment) >= 0
    ensures AlignedFit(range, size, alignment).value % Pow2(Log2(alignment)) == 0
  {
    var k := AlignmentExponent(alignment);
    WordIs();
    AlignOffsetExact(WORD_BITS, range.offset, k);
  }

  /** An aligned block of this size may lie there: all its bytes are free. */
  ghost predicate RoomAt(ranges: seq<Range>, offset: nat, size: nat, alignment: nat) {
    alignment > 0 && offset % alignment == 0 && AllFree(ranges, offset, size)
  }

  /** The lowest place where an aligned block of this size may lie. */
  ghost predicate LowestRoom(ranges: seq<Range>, offset: nat, size: nat, alignment: nat) {
    && RoomAt(ranges, offset, size, alignment)
    && forall lower: nat :: lower < offset ==> !RoomAt(ranges, lower, size, alignment)
  }

  /** A fit is the lowest aligned place in its range, and there is one if any aligned
      block lies in the range. */
  lemma FitIsLeast(range: Range, size: nat, alignment: nat, offset: nat)
    requires IsPowerOfTwo(alignment) && alignment <= U32_MAX && range.End() <= U32_MAX
    requires alignment > 0 && offset % alignment == 0 && Contains(range, offset, size)
    ensures AlignedFit(range, size, alignment).Some? && AlignedFit(range, size, alignment).value <= offset
  {
    hide IsPowerOfTwo, AlignOffset, Ceiling, Pow2, RoundsUp;
    var k := AlignmentExponent(alignment);
    WordIs();
    AlignOffsetExact(WORD_BITS, range.offset, k);
    CeilingRounds(range.offset, alignment);
    LeastIsBelow(range.offset, alignment, Ceiling(range.offset, alignment), offset);
    if r: nat :| AlignOffset(WORD_BITS, range.offset, alignment) == Some(r) {
      LeastIsBelow(range.offset, alignment, r, offset);
    }
  }

  lemma LeastIsBelow(x: nat, d: nat, r: nat, multiple: nat)
    requires d > 0 && RoundsUp(x, d, r) && multiple % d == 0 && x <= multiple
    ensures x <= r <= multiple
  {
    assert IsMultiple(multiple, d);
  }

  /** The start of an arena fits everything that the arena can hold. */
  lemma StartFits(capacity: nat, size: nat, alignment: nat)
    requires IsPowerOfTwo(alignment) && alignment <= U32_MAX && size <= capacity
    ensures AlignedFit(Range(0, capacity), size, alignment) == Some(0)
  {
    hide Pow2, IsPowerOfTwo, AlignOffset, Ceiling, Log2;
    var k := AlignmentExponent(alignment);
    WordIs();
    AlignOffsetIs(WORD_BITS, 0, k);
    ZeroIsRounded(alignment);
  }

  lemma ZeroIsRounded(d: nat)
    requires d > 0
    ensures Ceiling(0, d) == 0
  {
    RemainderIs(d - 1, d, 0, d - 1);
  }

  // ---- One arena ----

  lemma RangesInWord(s: State, a: nat, k: nat)
    requires Sound(s) && a < |s.arenas| && k < |s.arenas[a].ranges|
    ensures s.arenas[a].ranges[k].offset <= U32_MAX
  {
    assert ArenaOk(s.arenas[a]);
  }

  /** The first range with a fit has the lowest room of the arena; if none has one
      there is no room. */
  lemma FirstFitIsLowest(x: Arena, size: nat, alignment: nat)
    requires ArenaOk(x) && size > 0 && IsPowerOfTwo(alignment) && alignment <= U32_MAX
    ensures var k := FirstAlignedFit(x.ranges, 0, size, alignment);
            if k == |x.ranges| then forall offset: nat :: !RoomAt(x.ranges, offset, size, alignment)
            else size <= x.free && LowestRoom(x.ranges, AlignedFit(x.ranges[k], size, alignment).value, size, alignment)
  {
    hide AlignedFit, IsPowerOfTwo, AllFree, Total, FirstAlignedFit;
    var k := FirstAlignedFit(x.ranges, 0, size, alignment);
    if k < |x.ranges| {
      FitIsRoom(x, k, size, alignment);
    }
    forall offset: nat | RoomAt(x.ranges, offset, size, alignment)
      ensures k < |x.ranges| && AlignedFit(x.ranges[k], size, alignment).value <= offset
    {
      var j := InOneRange(x.ranges, x.capacity, offset, size);
      FitIsLeast(x.ranges[j], size, alignment, offset);
      if k < j {
        FitIsInside(x.ranges[k], size, alignment);
      }
    }
  }

  lemma FitIsInside(range: Range, size: nat, alignment: nat)
    requires AlignedFit(range, size, alignment).Some?
    ensures Contains(range, AlignedFit(range, size, alignment).value, size)
  {
  }

  lemma FitIsRoom(x: Arena, k: nat, size: nat, alignment: nat)
    requires ArenaOk(x) && k < |x.ranges| && IsPowerOfTwo(alignment) && alignment <= U32_MAX
    requires AlignedFit(x.ranges[k], size, alignment).Some?
    ensures size <= x.free && RoomAt(x.ranges, AlignedFit(x.ranges[k], size, alignment).value, size, alignment)
  {
    hide AlignedFit, IsPowerOfTwo, Total, Pow2, Log2;
    var j := AlignmentExponent(alignment);
    FitIsAligned(x.ranges[k], size, alignment);
    FitIsInside(x.ranges[k], size, alignment);
    ContainedIsFree(x.ranges, k, AlignedFit(x.ranges[k], size, alignment).value, size);
    TotalAtLeast(x.ranges, k);
  }

  /** The entry of the allocation asked for. */
  ghost predicate EntryAsAsked(e: Entry, a: nat, size: nat, options: Options) {
    && e.live && e.arena == a && e.size == size && Pow2(e.alignment) == options.alignment
    && e.memoryClass == options.memoryClass && e.resourceClass == options.resourceClass && e.movable == options.movable
  }

  lemma NewEntryAsAsked(a: nat, offset: nat, size: nat, options: Options)
    requires IsPowerOfTwo(options.alignment) && options.alignment <= U32_MAX
    ensures EntryAsAsked(NewEntry(a, offset, size, options), a, size, options)
  {
    hide Pow2, Log2, IsPowerOfTwo;
    var k := AlignmentExponent(options.alignment);
  }

  /** The block is placed in the arena, as low as there is room for it. */
  ghost predicate PlacedIn(s: State, s': State, id: nat, a: nat, size: nat, options: Options) {
    && id < |s'.entries| && a < |s.arenas|
    && var e := s'.entries[id];
       && EntryAsAsked(e, a, size, options)
       && LowestRoom(s.arenas[a].ranges, e.offset, size, options.alignment)
       && Placed(s, s', id, a, e)
  }

  lemma TryInArenaSound(s: State, a: nat, size: nat, options: Options)
    requires Sound(s) && a < |s.arenas| && OptionsOk(size, options) && options.alignment > 0
    requires s.arenas[a].memoryClass == options.memoryClass && (s.arenas[a].dedicated ==> !options.movable)
    ensures s.freeEntry < |s.entries|
    ensures var (s', id) := TryAllocateInArena(s, a, size, options);
            && Sound(s')
            && (id.None? ==> s' == s)
            && (id.Some? ==> PlacedIn(s, s', id.value, a, size, options))
            && (id.None? <==> forall offset: nat :: !RoomAt(s.arenas[a].ranges, offset, size, options.alignment))
            && (id.Some? ==> size <= s.arenas[a].free)
  {
    PushGains(s, NewEntry(a, 0, size, options));
    var x := s.arenas[a];
    var k := FirstAlignedFit(x.ranges, 0, size, options.alignment);
    ArenaIsOk(s, a);
    FirstFitIsLowest(x, size, options.alignment);
    hide LowestRoom, EntryAsAsked;
    if k < |x.ranges| {
      var offset := AlignedFit(x.ranges[k], size, options.alignment).value;
      RoomOfLowest(x.ranges, offset, size, options.alignment);
      NewEntryAsAsked(a, offset, size, options);
      RangesInWord(s, a, k);
      FitIsAligned(x.ranges[k], size, options.alignment);
      FitIsAvailable(x, k, size, options.alignment);
      var j := AlignmentExponent(options.alignment);
      hide Sound, AlignedFit, Available, FindRange, Gains, Placed;
      PlaceSound(s, a, offset, size, options);
      PlacedEntry(s, Place(s, a, offset, size, options).0, Place(s, a, offset, size, options).1, a, NewEntry(a, offset, size, options));
    }
  }

  lemma ArenaIsOk(s: State, a: nat)
    requires Sound(s) && a < |s.arenas|
    ensures ArenaOk(s.arenas[a])
  {
  }

  lemma RoomOfLowest(ranges: seq<Range>, offset: nat, size: nat, alignment: nat)
    requires LowestRoom(ranges, offset, size, alignment)
    ensures RoomAt(ranges, offset, size, alignment)
  {
  }

  lemma PlacedEntry(s: State, s': State, id: nat, a: nat, e: Entry)
    requires Placed(s, s', id, a, e)
    ensures id < |s'.entries| && s'.entries[id] == e
  {
    GainsElsewhere(s.entries, s'.entries, id, e);
  }

  // ---- The arenas in order ----

  /** The k-th arena of the order is not frozen or dedicated, is of the memory class
      asked for, and has room for the block. */
  ghost predicate HasRoom(s: State, k: nat, size: nat, options: Options) {
    && k < |s.order| && s.order[k] < |s.arenas|
    && var x := s.arenas[s.order[k]];
       && x.role == Normal && !x.dedicated && x.memoryClass == options.memoryClass
       && exists offset: nat :: RoomAt(x.ranges, offset, size, options.alignment)
  }

  ghost predicate NoRoomBefore(s: State, i: nat, k: nat, size: nat, options: Options) {
    forall j :: i <= j < k ==> !HasRoom(s, j, size, options)
  }

  /** Either nothing happened, no arena from the i-th on having room, or the block
      was placed in the first that has. */
  ghost predicate Entered(s: State, i: nat, size: nat, options: Options, s': State, id: Option<nat>) {
    if id.None? then s' == s && NoRoomBefore(s, i, |s.order|, size, options)
    else exists k :: i <= k < |s.order| && EnteredAt(s, i, k, size, options, s', id.value)
  }

  ghost predicate EnteredAt(s: State, i: nat, k: nat, size: nat, options: Options, s': State, id: nat) {
    && HasRoom(s, k, size, options) && NoRoomBefore(s, i, k, size, options)
    && PlacedIn(s, s', id, s.order[k], size, options)
  }

  lemma EnterOne(s: State, i: nat, size: nat, options: Options)
    requires Sound(s) && i < |s.order| && OptionsOk(size, options) && options.alignment > 0
    ensures s.freeEntry < |s.entries| && s.order[i] < |s.arenas|
    ensures var (s', id) := TryAllocateInArena(s, s.order[i], size, options);
            && (Admits(s.arenas[s.order[i]], size, options) && id.Some? ==>
                  Sound(s') && EnteredAt(s, i, i, size, options, s', id.value))
            && (HasRoom(s, i, size, options) <==> Admits(s.arenas[s.order[i]], size, options) && id.Some?)
  {
    OrderInPool(s);
    PushGains(s, NewEntry(0, 0, size, options));
    hide Sound, PlacedIn, TryAllocateInArena, OptionsOk, RoomAt;
    var x := s.arenas[s.order[i]];
    if x.role == Normal && !x.dedicated && x.memoryClass == options.memoryClass {
      TryInArenaSound(s, s.order[i], size, options);
    }
  }

  lemma EnterLater(s: State, i: nat, size: nat, options: Options, s': State, id: Option<nat>)
    requires Entered(s, i + 1, size, options, s', id) && !HasRoom(s, i, size, options)
    ensures Entered(s, i, size, options, s', id)
  {
    hide HasRoom, PlacedIn, Admits;
    if id.Some? {
      var k :| i + 1 <= k < |s.order| && EnteredAt(s, i + 1, k, size, options, s', id.value);
      assert EnteredAt(s, i, k, size, options, s', id.value);
    }
  }

  lemma EnterNone(s: State, size: nat, options: Options)
    ensures Entered(s, |s.order|, size, options, s, None)
  {
  }

  lemma EnterHere(s: State, i: nat, size: nat, options: Options, s': State, id: nat)
    requires i < |s.order| && EnteredAt(s, i, i, size, options, s', id)
    ensures Entered(s, i, size, options, s', Some(id))
  {
  }

  lemma SlotFor(s: State)
    requires Sound(s)
    ensures s.freeEntry < |s.entries|
  {
    PushGains(s, Entry(0, 1, 0, 0, 0, 0, true, false));
  }

  lemma TryAllocateStep(s: State, i: nat, size: nat, options: Options)
    requires i < |s.order| && s.freeEntry < |s.entries|
    requires forall k :: 0 <= k < |s.order| ==> s.order[k] < |s.arenas|
    ensures var here := TryAllocateInArena(s, s.order[i], size, options);
            TryAllocate(s, i, size, options) ==
            if Admits(s.arenas[s.order[i]], size, options) && here.1.Some? then here
            else TryAllocate(s, i + 1, size, options)
  {
    hide TryAllocateInArena, Admits;
  }

  lemma {:induction false} TryAllocateSound(s: State, i: nat, size: nat, options: Options)
    requires Sound(s) && i <= |s.order| && OptionsOk(size, options) && options.alignment > 0
    ensures s.freeEntry < |s.entries|
    ensures forall k :: 0 <= k < |s.order| ==> s.order[k] < |s.arenas|
    ensures var (s', id) := TryAllocate(s, i, size, options);
            Sound(s') && Entered(s, i, size, options, s', id)
    decreases |s.order| - i
  {
    hide Sound, Entered, EnteredAt, HasRoom, TryAllocateInArena, OptionsOk, Admits;
    OrderInPool(s);
    SlotFor(s);
    if i == |s.order| {
      EnterNone(s, size, options);
    } else {
      hide TryAllocate;
      TryAllocateStep(s, i, size, options);
      EnterOne(s, i, size, options);
      if HasRoom(s, i, size, options) {
        var (s', id) := TryAllocateInArena(s, s.order[i], size, options);
        EnterHere(s, i, size, options, s', id.value);
      } else {
        TryAllocateSound(s, i + 1, size, options);
        var (s', id) := TryAllocate(s, i + 1, size, options);
        EnterLater(s, i, size, options, s', id);
      }
    }
  }

  lemma OrderInPool(s: State)
    requires Sound(s)
    ensures forall k :: 0 <= k < |s.order| ==> 0 < s.order[k] < |s.arenas| && s.arenas[s.order[k]].active
  {
    forall k | 0 <= k < |s.order| ensures 0 < s.order[k] < |s.arenas| && s.arenas[s.order[k]].active {
      assert s.order[k] in s.order;
    }
  }

  // ---- A new arena ----

  /** The block at the front of a new arena. */
  lemma FreshSound(s: State, size: nat, options: Options)
    requires Sound(s) && OptionsOk(size, options) && options.alignment > 0
    ensures s.freeArenas != [] ==> s.freeArenas[|s.freeArenas| - 1] < |s.arenas|
    ensures var capacity := Capacity(s, size, options);
            var x := NewArena(capacity, options.memoryClass, Dedicated(s, size, options));
            var (s1, a) := CreateArena(s, capacity, options.memoryClass, Dedicated(s, size, options));
            && Sound(s1) && Created(s, s1, a, x) && s1.freeEntry < |s1.entries|
            && var (s2, id) := TryAllocateInArena(s1, a, size, ForNewArena(s, size, options));
               && Sound(s2) && id.Some? && PlacedIn(s1, s2, id.value, a, size, ForNewArena(s, size, options))
               && s2.entries[id.value].offset == 0
  {
    var capacity, dedicated := Capacity(s, size, options), Dedicated(s, size, options);
    assert 0 < capacity <= U32_MAX && size <= capacity;
    hide Sound, Created, TryAllocateInArena, PlacedIn, CreateArena, AlignedFit, IsPowerOfTwo;
    CreateSound(s, capacity, options.memoryClass, dedicated);
    var (s1, a) := CreateArena(s, capacity, options.memoryClass, dedicated);
    CreatedArena(s, s1, a, NewArena(capacity, options.memoryClass, dedicated));
    TryInArenaSound(s1, a, size, ForNewArena(s, size, options));
    StartFits(capacity, size, options.alignment);
    FirstRangeTaken(s1, a, size, ForNewArena(s, size, options));
  }

  lemma CreatedArena(s: State, s': State, a: nat, x: Arena)
    requires Created(s, s', a, x)
    ensures a < |s'.arenas| && s'.arenas[a] == x
  {
  }

  lemma FirstRangeTaken(s: State, a: nat, size: nat, options: Options)
    requires a < |s.arenas| && s.freeEntry < |s.entries| && Sound(s)
    requires |s.arenas[a].ranges| > 0 && AlignedFit(s.arenas[a].ranges[0], size, options.alignment) == Some(0)
    ensures var (s', id) := TryAllocateInArena(s, a, size, options);
            id.Some? && id.value < |s'.entries| && s'.entries[id.value].offset == 0
  {
    var x := s.arenas[a];
    assert FirstAlignedFit(x.ranges, 0, size, options.alignment) == 0;
    FitIsAvailable(x, 0, size, options.alignment);
    PushGains(s, NewEntry(a, 0, size, options));
  }
}
