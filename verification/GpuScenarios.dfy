/** A run on which more than one story is told: two arenas of sixteen bytes, with a
    block of four in the first, one of eight in the second, and an evacuation of the
    first begun. */
module GpuScenarios {
  import opened Wrappers
  import opened Alignment
  import opened FreeList
  import opened GpuCore
  import opened GpuState
  import opened GpuAllocate
  import opened GpuPlan
  import opened GpuWorld
  import opened GpuSchedule
  import opened GpuRuns

  const PLAIN := Options(1, 0, 0, true, false)

  function Block(offset: nat, size: nat, arena: nat): Entry {
    Entry(offset, size, arena, 0, 0, 0, true, true)
  }

  function Gone(next: nat, size: nat, arena: nat): Entry {
    Entry(next, size, arena, 0, 0, 0, false, true)
  }

  function Half(ranges: seq<Range>, free: int, allocations: int, reservations: int): Arena {
    Arena(ranges, 16, free, allocations, reservations, 0, 0, Normal, true, false)
  }

  const ZEROS: seq<Byte> := [0, 0, 0, 0, 0, 0, 0, 0, 0, 0, 0, 0, 0, 0, 0, 0]
  const ONE_BUFFER := Memory([[], ZEROS], [0, 0], 1)
  const TWO_BUFFERS := Memory([[], ZEROS, ZEROS], [0, 0, 0], 2)
  const IDLE_EXECUTOR := Executor(0, 1, {}, {}, [], [])
  const NO_STATISTICS := Statistics(0, 0, 0, 0, 0, 0)

  function Plainly(arenas: seq<Arena>, order: seq<nat>, entries: seq<Entry>, freeEntry: nat, memory: Memory): World {
    World(State(arenas, order, [], entries, freeEntry, None, NO_STATISTICS, 16, 0), memory, IDLE_EXECUTOR)
  }

  /** Blocks of 4, 8 and 8 bytes: the third needs an arena of its own. */
  const W1 := Plainly([NO_ARENA, Half([Range(4, 12)], 12, 1, 0)], [1], [EMPTY_ENTRY, Block(0, 4, 1)], 0, ONE_BUFFER)
  const W2 := Plainly([NO_ARENA, Half([Range(12, 4)], 4, 2, 0)], [1],
                      [EMPTY_ENTRY, Block(0, 4, 1), Block(4, 8, 1)], 0, ONE_BUFFER)
  const W3 := Plainly([NO_ARENA, Half([Range(12, 4)], 4, 2, 0), Half([Range(8, 8)], 8, 1, 0)], [1, 2],
                      [EMPTY_ENTRY, Block(0, 4, 1), Block(4, 8, 1), Block(0, 8, 2)], 0, TWO_BUFFERS)

  /** The second block is released. */
  const W4 := Plainly([NO_ARENA, Half([Range(4, 12)], 12, 1, 0), Half([Range(8, 8)], 8, 1, 0)], [1, 2],
                      [EMPTY_ENTRY, Block(0, 4, 1), Gone(0, 8, 1), Block(0, 8, 2)], 2, TWO_BUFFERS)

  /** The first block is to move behind the third. */
  const MOVE := Move(0, 1, 1, 2, 0, 8, 4, Reserved, 0, 0)
  const PLAN := Plan(1, [MOVE.(id := U32_MAX)])

  function Evacuating(arenas: seq<Arena>, entries: seq<Entry>, freeEntry: nat, move: Move): State {
    State(arenas, [1, 2], [], entries, freeEntry, Some(Target(1, [move], false)), NO_STATISTICS, 16, 1)
  }

  const FROZEN := Arena([Range(4, 12)], 16, 12, 1, 0, 0, 0, EvacuationSource, true, false)
  const BEGUN := Evacuating([NO_ARENA, FROZEN, Half([Range(12, 4)], 4, 1, 1)],
                            [EMPTY_ENTRY, Block(0, 4, 1), Gone(0, 8, 1), Block(0, 8, 2)], 2, MOVE)

  lemma FitsAt(range: Range, size: nat)
    requires range.offset < 16 && size <= range.size
    ensures AlignedFit(range, size, 1) == Some(range.offset)
  {
    WordIs();
    AlignOffsetIs(WORD_BITS, range.offset, 0);
  }

  lemma PlainEntry(offset: nat, size: nat, a: nat)
    ensures NewEntry(a, offset, size, PLAIN) == Block(offset, size, a)
  {
    assert Log2(0) == -1;
    assert Log2(1) == 0;
  }

  /** A block at the front of an arena's only free range. */
  lemma InOnlyRange(s: State, a: nat, offset: nat, room: nat, size: nat)
    requires a < |s.arenas| && s.arenas[a].ranges == [Range(offset, room)] && offset < 16 && 0 < size < room
    requires s.freeEntry == 0 < |s.entries|
    ensures var x := s.arenas[a];
            TryAllocateInArena(s, a, size, PLAIN) ==
            (s.(arenas := s.arenas[a := x.(ranges := [Range(offset + size, room - size)], free := x.free - size,
                                           allocations := x.allocations + 1)],
                entries := s.entries + [Block(offset, size, a)]),
             Some(|s.entries|))
  {
    var x, range := s.arenas[a], Range(offset, room);
    hide AlignedFit, NewEntry;
    FitsAt(range, size);
    PlainEntry(offset, size, a);
    assert FirstAlignedFit(x.ranges, 0, size, 1) == 0;
    assert FindRange(x.ranges, 0, offset, size) == 0;
    assert Remainder(range, offset, size) == [Range(offset + size, room - size)];
    assert Carve(x.ranges, 0, offset, size) == [Range(offset + size, room - size)];
  }

  lemma NewBuffer(m: Memory, a: nat, m': Memory)
    requires |m.classes| == |m.arenas| <= a && m'.active == m.active + 1
    requires m'.arenas == m.arenas + seq(a - |m.arenas|, _ => []) + [ZEROS] && m'.classes == seq(a + 1, _ => 0)
    requires forall i :: 0 <= i < |m.classes| ==> m.classes[i] == 0
    ensures AddArena(m, a, 16, 0) == m'
  {
    var bytes: seq<Byte> := seq(16, _ => 0);
    assert bytes == ZEROS;
  }

  lemma FirstStep(w: World)
    requires w == Initial(16) && Ready(w) && OptionsOk(4, PLAIN)
    ensures Allocate(w, 4, PLAIN) == (W1, 1)
  {
    hide Ready, OptionsOk, TryAllocateInArena;
    var (s1, a) := CreateArena(w.gpu, 16, 0, false);
    assert a == 1 && s1.arenas == [NO_ARENA, Half([Range(0, 16)], 16, 0, 0)];
    InOnlyRange(s1, 1, 0, 16, 4);
    assert s1.arenas[1 := Half([Range(4, 12)], 12, 1, 0)] == W1.gpu.arenas;
    assert s1.order == [1] && s1.entries + [Block(0, 4, 1)] == W1.gpu.entries;
    NewBuffer(w.memory, 1, ONE_BUFFER);
  }

  lemma SecondStep(w: World)
    requires w == W1 && Ready(w) && OptionsOk(8, PLAIN)
    ensures Allocate(w, 8, PLAIN) == (W2, 2)
  {
    hide Ready, OptionsOk, TryAllocateInArena;
    InOnlyRange(W1.gpu, 1, 4, 12, 8);
    assert W1.gpu.arenas[1 := Half([Range(12, 4)], 4, 2, 0)] == W2.gpu.arenas;
    assert W1.gpu.entries + [Block(4, 8, 1)] == W2.gpu.entries;
  }

  lemma ThirdStep(w: World)
    requires w == W2 && Ready(w) && OptionsOk(8, PLAIN)
    ensures Allocate(w, 8, PLAIN) == (W3, 3)
  {
    hide Ready, OptionsOk, TryAllocateInArena;
    assert TryAllocate(W2.gpu, 0, 8, PLAIN) == (W2.gpu, None);
    var (s1, a) := CreateArena(W2.gpu, 16, 0, false);
    assert a == 2 && s1.arenas == W2.gpu.arenas + [Half([Range(0, 16)], 16, 0, 0)];
    InOnlyRange(s1, 2, 0, 16, 8);
    assert s1.arenas[2 := Half([Range(8, 8)], 8, 1, 0)] == W3.gpu.arenas;
    assert s1.order == [1, 2] && s1.entries + [Block(0, 8, 2)] == W3.gpu.entries;
    NewBuffer(W2.memory, 2, TWO_BUFFERS);
  }

  lemma FourthStep(w: World)
    requires w == W3 && Ready(w)
    ensures TryDeallocate(w, 2) == (W4, true)
  {
    hide Ready;
    assert Release([Range(12, 4)], 4, 8) == [Range(4, 12)];
    var s := Remove(W3.gpu, 2);
    assert s.arenas == W4.gpu.arenas && s.entries == W4.gpu.entries;
  }

  /** The plan can be begun. */
  lemma BeginStep(w: World)
    requires w == W4 && Ready(w)
    ensures PlanOk(w.gpu, PLAN) && Begin(w.gpu, PLAN) == BEGUN
  {
    hide Ready;
    var m := PLAN.moves[0];
    assert MovePlanned(W4.gpu, 1, m);
    assert ReserveAll(W4.gpu.arenas, []) == Some(W4.gpu.arenas);
    assert Carve([Range(8, 8)], 0, 8, 4) == [Range(12, 4)];
    assert FindRange([Range(8, 8)], 0, 8, 4) == 0;
    assert PLAN.moves[..0] == [];
    var arenas := Booked(W4.gpu.arenas, m);
    assert ReserveAll(W4.gpu.arenas, PLAN.moves) == Some(arenas);
    assert Moves(PLAN.moves, 1) by { assert PLAN.moves[0].allocation == 1; }
    assert Numbered(PLAN.moves, 0) == [MOVE];
    assert Frozen(arenas, 1) == BEGUN.arenas;
  }

  // ---- Runs ----

  ghost function WorldAfter(ops: seq<Op>): (w: World)
    ensures Ready(w) && w == Run(16, ops).world
  {
    Run(16, ops).world
  }

  lemma OneMore(ops: seq<Op>, op: Op)
    requires Allowed(Run(16, ops).world, op)
    ensures Run(16, ops + [op]) == Step(Run(16, ops), op)
  {
    assert (ops + [op])[..|ops|] == ops;
  }

  lemma ThenAlloc(ops: seq<Op>, size: nat, w: World, w': World, id: nat)
    requires Run(16, ops).world == w && Ready(w) && OptionsOk(size, PLAIN) && Allocate(w, size, PLAIN) == (w', id)
    ensures Run(16, ops + [Alloc(size, PLAIN)]).world == w'
  {
    hide Ready, Allocate, OptionsOk, Run;
    OneMore(ops, Alloc(size, PLAIN));
  }

  lemma ThenFree(ops: seq<Op>, id: nat, w: World, w': World)
    requires Run(16, ops).world == w && Ready(w) && w.gpu.Live(id) && TryDeallocate(w, id) == (w', true)
    ensures Run(16, ops + [Free(id)]).world == w'
  {
    hide Ready, TryDeallocate, Run;
    OneMore(ops, Free(id));
  }

  lemma ThenDefrag(ops: seq<Op>, budget: Budget, plan: Plan, w: World, w': World)
    requires Run(16, ops).world == w && Ready(w) && Defragment(w, budget, Some(plan)).0 == w'
    ensures Run(16, ops + [Defrag(budget, Some(plan))]).world == w'
  {
    hide Ready, Defragment, Run;
    OneMore(ops, Defrag(budget, Some(plan)));
  }

  lemma PlainIsOk(size: nat)
    requires 0 < size <= 16
    ensures OptionsOk(size, PLAIN)
  {
    assert And(1, 0) == 0;
  }

  /** Three allocations, of which the second is released. */
  function OpAt(n: nat): Op {
    if n == 0 then Alloc(4, PLAIN)
    else if n == 1 || n == 2 then Alloc(8, PLAIN)
    else Free(2)
  }

  /** The first n of the four operations. */
  function Ops(n: nat): seq<Op> {
    if n == 0 then [] else Ops(n - 1) + [OpAt(n - 1)]
  }

  lemma NextOp(n: nat)
    ensures Ops(n + 1) == Ops(n) + [OpAt(n)]
  {
  }

  lemma After0()
    ensures Run(16, Ops(0)).world == Initial(16)
  {
  }

  lemma After1(n: nat)
    requires n == 0
    ensures Run(16, Ops(n + 1)).world == W1
  {
    hide Ready, Allocate, OptionsOk, Run, Ops, Safe, WorldAfter;
    After0();
    PlainIsOk(4);
    var w := WorldAfter(Ops(n));
    FirstStep(w);
    ThenAlloc(Ops(n), 4, w, W1, 1);
    NextOp(n);
  }

  lemma After2(n: nat)
    requires n == 1
    ensures Run(16, Ops(n + 1)).world == W2
  {
    hide Ready, Allocate, OptionsOk, Run, Ops, Safe, WorldAfter;
    After1(n - 1);
    PlainIsOk(8);
    var w := WorldAfter(Ops(n));
    SecondStep(w);
    ThenAlloc(Ops(n), 8, w, W2, 2);
    NextOp(n);
  }

  lemma After3(n: nat)
    requires n == 2
    ensures Run(16, Ops(n + 1)).world == W3
  {
    hide Ready, Allocate, OptionsOk, Run, Ops, Safe, WorldAfter;
    After2(n - 1);
    PlainIsOk(8);
    var w := WorldAfter(Ops(n));
    ThirdStep(w);
    ThenAlloc(Ops(n), 8, w, W3, 3);
    NextOp(n);
  }

  lemma After4(n: nat)
    requires n == 3
    ensures Run(16, Ops(n + 1)).world == W4
  {
    hide Ready, TryDeallocate, Run, Ops, Safe, WorldAfter;
    After3(n - 1);
    var w := WorldAfter(Ops(n));
    FourthStep(w);
    ThenFree(Ops(n), 2, w, W4);
    NextOp(n);
  }

  lemma OpsAre()
    ensures Ops(4) == [Alloc(4, PLAIN), Alloc(8, PLAIN), Alloc(8, PLAIN), Free(2)]
  {
    assert Ops(3) == [Alloc(4, PLAIN), Alloc(8, PLAIN), Alloc(8, PLAIN)];
  }

  lemma AfterFour(ops: seq<Op>)
    requires ops == [Alloc(4, PLAIN), Alloc(8, PLAIN), Alloc(8, PLAIN), Free(2)]
    ensures Run(16, ops).world == W4
  {
    hide Run, Ops, Safe;
    OpsAre();
    After4(3);
  }
}
