/** The GPU allocator's state and the operations on it that touch no memory. */
module GpuState {
  import opened Wrappers
  import opened Alignment
  import opened FreeList
  import opened GpuCore

  const WORD_BITS := 32

  datatype Target = Target(source: nat, moves: seq<Move>, aborted: bool)

  datatype Statistics = Statistics(bytesScheduled: nat, bytesCopied: nat, bytesReleased: nat,
                                   blocksReleased: nat, movesScheduled: nat, movesCompleted: nat)

  datatype State = State(arenas: seq<Arena>, order: seq<nat>, freeArenas: seq<nat>,
                         entries: seq<Entry>, freeEntry: nat, target: Option<Target>,
                         statistics: Statistics, arenaSize: nat, nextMoveId: nat) {
    function Moves(): seq<Move> {
      if target.Some? then target.value.moves else []
    }

    function Tables(): Core {
      Core(arenas, entries, Moves())
    }

    predicate Live(id: nat) {
      id < |entries| && entries[id].live
    }

    /** The same state with other moves for its target. */
    function WithMoves(moves: seq<Move>): State
      requires target.Some?
    {
      this.(target := Some(target.value.(moves := moves)))
    }
  }

  datatype Options = Options(alignment: nat, memoryClass: nat, resourceClass: nat, movable: bool, dedicated: bool)

  // ---- Placing an allocation ----

  /** Where in the range an aligned block of this size would start, if it fits. */
  function AlignedFit(range: Range, size: nat, alignment: nat): Option<nat> {
    match AlignOffset(WORD_BITS, range.offset, alignment)
    case None => None
    case Some(aligned) =>
      if aligned < range.offset || aligned - range.offset > range.size
         || size > range.size - (aligned - range.offset) then None
      else Some(aligned)
  }

  /** The first range, from `i` on, with room for the block. */
  function FirstAlignedFit(ranges: seq<Range>, i: nat, size: nat, alignment: nat): (k: nat)
    requires i <= |ranges|
    ensures i <= k <= |ranges|
    ensures k < |ranges| ==> AlignedFit(ranges[k], size, alignment).Some?
    ensures forall j :: i <= j < k ==> AlignedFit(ranges[j], size, alignment).None?
    decreases |ranges| - i
  {
    if i == |ranges| || AlignedFit(ranges[i], size, alignment).Some? then i
    else FirstAlignedFit(ranges, i + 1, size, alignment)
  }

  function NewEntry(a: nat, offset: nat, size: nat, options: Options): Entry {
    Entry(offset, size, a, if Log2(options.alignment) < 0 then 0 else Log2(options.alignment),
          options.memoryClass, options.resourceClass, true, options.movable)
  }

  /** A slot of the table for a new allocation. */
  function PushEntry(s: State, e: Entry): (State, nat)
    requires s.freeEntry < |s.entries|
  {
    if s.freeEntry != 0 then
      (s.(entries := s.entries[s.freeEntry := e], freeEntry := s.entries[s.freeEntry].offset), s.freeEntry)
    else
      (s.(entries := s.entries + [e]), |s.entries|)
  }

  /** Reserve the range, count the allocation and give it a slot. */
  function Place(s: State, a: nat, offset: nat, size: nat, options: Options): (State, nat)
    requires a < |s.arenas| && Available(s.arenas[a], offset, size) && s.freeEntry < |s.entries|
  {
    var x := s.arenas[a];
    var arenas := s.arenas[a := Occupy(x, offset, size).(allocations := x.allocations + 1)];
    PushEntry(s.(arenas := arenas), NewEntry(a, offset, size, options))
  }

  lemma FitIsAvailable(x: Arena, k: nat, size: nat, alignment: nat)
    requires k < |x.ranges| && AlignedFit(x.ranges[k], size, alignment).Some?
    ensures Available(x, AlignedFit(x.ranges[k], size, alignment).value, size)
  {
  }

  function TryAllocateInArena(s: State, a: nat, size: nat, options: Options): (State, Option<nat>)
    requires a < |s.arenas| && s.freeEntry < |s.entries|
  {
    var x := s.arenas[a];
    var k := FirstAlignedFit(x.ranges, 0, size, options.alignment);
    if k == |x.ranges| then (s, None)
    else
      FitIsAvailable(x, k, size, options.alignment);
      var (s', id) := Place(s, a, AlignedFit(x.ranges[k], size, options.alignment).value, size, options);
      (s', Some(id))
  }

  /** An arena that new allocations of this kind may enter. */
  predicate Admits(x: Arena, size: nat, options: Options) {
    x.role == Normal && !x.dedicated && x.memoryClass == options.memoryClass && x.free >= size
  }

  /** The arenas in order, from the i-th on. */
  function TryAllocate(s: State, i: nat, size: nat, options: Options): (State, Option<nat>)
    requires i <= |s.order| && s.freeEntry < |s.entries|
    requires forall k :: 0 <= k < |s.order| ==> s.order[k] < |s.arenas|
    decreases |s.order| - i
  {
    if i == |s.order| then (s, None)
    else if Admits(s.arenas[s.order[i]], size, options) && TryAllocateInArena(s, s.order[i], size, options).1.Some? then
      TryAllocateInArena(s, s.order[i], size, options)
    else TryAllocate(s, i + 1, size, options)
  }

  function CreateArena(s: State, capacity: nat, memoryClass: nat, dedicated: bool): (State, nat)
    requires s.freeArenas != [] ==> s.freeArenas[|s.freeArenas| - 1] < |s.arenas|
  {
    var x := NewArena(capacity, memoryClass, dedicated);
    if s.freeArenas != [] then
      var a := s.freeArenas[|s.freeArenas| - 1];
      (s.(arenas := s.arenas[a := x], freeArenas := s.freeArenas[..|s.freeArenas| - 1], order := s.order + [a]), a)
    else
      (s.(arenas := s.arenas + [x], order := s.order + [|s.arenas|]), |s.arenas|)
  }

  // ---- Releasing an allocation ----

  function Remove(s: State, id: nat): State
    requires s.Live(id) && s.entries[id].arena < |s.arenas|
  {
    var e := s.entries[id];
    var x := s.arenas[e.arena];
    s.(arenas := s.arenas[e.arena := Vacate(x, e.offset, e.size).(allocations := x.allocations - 1)],
       entries := s.entries[id := e.(live := false, offset := s.freeEntry)],
       freeEntry := id)
  }

  /** The first move of the allocation; the number of moves if there is none. */
  function FindMove(moves: seq<Move>, i: nat, id: nat): (k: nat)
    requires i <= |moves|
    ensures i <= k <= |moves|
    ensures k < |moves| ==> moves[k].allocation == id
    ensures forall j :: i <= j < k ==> moves[j].allocation != id
    decreases |moves| - i
  {
    if i == |moves| || moves[i].allocation == id then i else FindMove(moves, i + 1, id)
  }

  predicate CanRelease(x: Arena) {
    x.active && x.role == Normal && x.allocations == 0 && x.reservations == 0 && x.retiring == 0 && x.free == x.capacity
  }

  /** The position of an arena in the order; the length if it is not there. */
  function IndexOf(order: seq<nat>, i: nat, a: nat): (k: nat)
    requires i <= |order|
    ensures i <= k <= |order|
    ensures k < |order| ==> order[k] == a
    ensures forall j :: i <= j < k ==> order[j] != a
    decreases |order| - i
  {
    if i == |order| || order[i] == a then i else IndexOf(order, i + 1, a)
  }

  function DropArena(s: State, a: nat): State
    requires a < |s.arenas| && a in s.order
  {
    var k := IndexOf(s.order, 0, a);
    s.(arenas := s.arenas[a := NO_ARENA], order := s.order[..k] + s.order[k + 1..], freeArenas := s.freeArenas + [a])
  }

  // ---- The moves of an evacuation ----

  predicate HasMove(s: State, i: nat) {
    && i < |s.Moves()|
    && s.Moves()[i].source < |s.arenas| && s.Moves()[i].destination < |s.arenas|
  }

  predicate HasMoves(s: State) {
    s.target.Some? && forall k :: 0 <= k < |s.Moves()| ==> HasMove(s, k)
  }

  /** Give a pending move's destination back; whatever its state, it is cancelled. */
  function CancelMove(s: State, i: nat): State
    requires HasMove(s, i)
  {
    var m := s.Moves()[i];
    var s' := s.WithMoves(s.Moves()[i := m.(state := Cancelled)]);
    if m.Pending() then
      var x := s.arenas[m.destination];
      s'.(arenas := s.arenas[m.destination :=
            Vacate(x, m.destinationOffset, m.size).(reservations := x.reservations - 1)])
    else s'
  }

  lemma CancelKeepsMoves(s: State, i: nat)
    requires HasMoves(s) && HasMove(s, i)
    ensures HasMoves(CancelMove(s, i)) && |CancelMove(s, i).Moves()| == |s.Moves()|
  {
    var s' := CancelMove(s, i);
    forall k | 0 <= k < |s'.Moves()| ensures HasMove(s', k) {
      assert HasMove(s, k);
    }
  }

  /** Cancel the moves, from the i-th on, that are still only reserved. */
  function CancelReserved(s: State, i: nat): State
    requires HasMoves(s) && i <= |s.Moves()|
    decreases |s.Moves()| - i
  {
    if i == |s.Moves()| then s
    else if s.Moves()[i].state == Reserved then
      CancelKeepsMoves(s, i);
      CancelReserved(CancelMove(s, i), i + 1)
    else CancelReserved(s, i + 1)
  }

  function MarkAborted(s: State): State
    requires s.target.Some?
  {
    s.(target := Some(s.target.value.(aborted := true)))
  }

  function Abort(s: State): State
    requires HasMoves(s)
  {
    assert forall k :: 0 <= k < |s.Moves()| ==> HasMove(s, k) ==> HasMove(MarkAborted(s), k);
    CancelReserved(MarkAborted(s), 0)
  }

  /** The executor accepted the copy. */
  function ScheduleMove(s: State, i: nat, timeline: nat): State
    requires s.target.Some? && i < |s.Moves()|
  {
    var m := s.Moves()[i];
    s.WithMoves(s.Moves()[i := m.(state := CopyScheduled, copyCompletion := timeline)])
     .(statistics := s.statistics.(bytesScheduled := s.statistics.bytesScheduled + m.size,
                                   movesScheduled := s.statistics.movesScheduled + 1))
  }

  /** The copy's timeline has been reached. */
  function CountCopied(s: State, i: nat): State
    requires i < |s.Moves()|
  {
    s.(statistics := s.statistics.(bytesCopied := s.statistics.bytesCopied + s.Moves()[i].size))
  }

  /** The executor switched the references: the allocation is bound to the
      destination and the source starts retiring. */
  function SwitchMove(s: State, i: nat, timeline: nat): State
    requires HasMove(s, i) && s.Moves()[i].source != s.Moves()[i].destination
    requires s.Moves()[i].allocation < |s.entries|
  {
    var m := s.Moves()[i];
    var from, to := s.arenas[m.source], s.arenas[m.destination];
    var e := s.entries[m.allocation];
    s.WithMoves(s.Moves()[i := m.(state := ReferencesSwitched, sourceRetirement := timeline)])
     .(arenas := s.arenas[m.source := from.(allocations := from.allocations - 1, retiring := from.retiring + 1)]
                         [m.destination := to.(reservations := to.reservations - 1, allocations := to.allocations + 1)],
       entries := s.entries[m.allocation := e.(arena := m.destination, offset := m.destinationOffset)])
  }

  function RetireMove(s: State, i: nat): State
    requires HasMove(s, i)
  {
    var m := s.Moves()[i];
    var x := s.arenas[m.source];
    s.WithMoves(s.Moves()[i := m.(state := SourceRetired)])
     .(arenas := s.arenas[m.source := Vacate(x, m.sourceOffset, m.size).(retiring := x.retiring - 1)],
       statistics := s.statistics.(movesCompleted := s.statistics.movesCompleted + 1))
  }

  predicate Finished(moves: seq<Move>) {
    forall i :: 0 <= i < |moves| ==> moves[i].state == SourceRetired || moves[i].state == Cancelled
  }

  /** Unfreeze the source and forget the evacuation. */
  function EndTarget(s: State): State
    requires s.target.Some? && s.target.value.source < |s.arenas|
  {
    var a := s.target.value.source;
    s.(arenas := s.arenas[a := s.arenas[a].(role := Normal)], target := None)
  }

  /** The first reserved move, from the i-th on, that the remaining bytes cover. */
  function FindSchedulable(moves: seq<Move>, i: nat, bytes: nat): (k: nat)
    requires i <= |moves|
    ensures i <= k <= |moves|
    ensures k < |moves| ==> moves[k].state == Reserved && moves[k].size <= bytes
    ensures forall j :: i <= j < k ==> !(moves[j].state == Reserved && moves[j].size <= bytes)
    decreases |moves| - i
  {
    if i == |moves| || (moves[i].state == Reserved && moves[i].size <= bytes) then i
    else FindSchedulable(moves, i + 1, bytes)
  }

  predicate HasReserved(moves: seq<Move>) {
    exists i :: 0 <= i < |moves| && moves[i].state == Reserved
  }

  /** is_relocating: some move of the id is neither retired nor cancelled. */
  predicate IsRelocating(s: State, id: nat) {
    exists i :: 0 <= i < |s.Moves()| &&
      s.Moves()[i].allocation == id && s.Moves()[i].state != SourceRetired && s.Moves()[i].state != Cancelled
  }

  function SetMovable(s: State, id: nat, movable: bool): State
    requires id < |s.entries|
  {
    s.(entries := s.entries[id := s.entries[id].(movable := movable)])
  }

  /** set_arena_size: the size of arenas to come only grows. */
  function Enlarged(s: State, size: nat): State {
    s.(arenaSize := if s.arenaSize < size then size else s.arenaSize)
  }

  // ---- Planning ----

  predicate CanEvacuate(x: Arena) {
    x.role == Normal && !x.dedicated && x.allocations != 0 && x.free != 0 && x.reservations == 0 && x.retiring == 0
  }

  /** The arenas with the destination of a move reserved. */
  function Booked(arenas: seq<Arena>, m: Move): seq<Arena>
    requires m.destination < |arenas| && Available(arenas[m.destination], m.destinationOffset, m.size)
  {
    var x := arenas[m.destination];
    arenas[m.destination := Occupy(x, m.destinationOffset, m.size).(reservations := x.reservations + 1)]
  }

  /** One more move, numbered, with its destination reserved. */
  function ReserveMove(s: State, m: Move): State
    requires s.target.Some? && m.destination < |s.arenas|
    requires Available(s.arenas[m.destination], m.destinationOffset, m.size)
  {
    s.WithMoves(s.Moves() + [m.(id := s.nextMoveId)])
     .(arenas := Booked(s.arenas, m), nextMoveId := s.nextMoveId + 1)
  }

  /** Freeze the source, with no moves yet. */
  function StartTarget(s: State, source: nat): State
    requires source < |s.arenas|
  {
    s.(arenas := s.arenas[source := s.arenas[source].(role := EvacuationSource)],
       target := Some(Target(source, [], false)))
  }
}
