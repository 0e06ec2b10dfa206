/** What becomes of every move in one call, of the executor's logs, and of what the
    call reports. */
module GpuFates {
  import opened Wrappers
  import opened GpuCore
  import opened GpuState
  import opened GpuInvariant
  import opened GpuMoves
  import opened GpuPlan
  import opened GpuWorld
  import opened GpuSchedule
  import opened GpuTally

  // ---- Completing ----

  predicate Accepts(x: Executor, m: Move) {
    m.state == CopyScheduled && m.copyCompletion <= x.completed && m.id !in x.refuseSwitch
  }

  predicate Rejects(x: Executor, m: Move) {
    m.state == CopyScheduled && m.copyCompletion <= x.completed && m.id in x.refuseSwitch
  }

  /** What becomes of the move when its turn comes, a switch being answered with that
      value of the timeline. */
  function Outcome(x: Executor, m: Move, timeline: nat): Move {
    if Accepts(x, m) then
      m.(sourceRetirement := timeline, state := if timeline <= x.completed then SourceRetired else ReferencesSwitched)
    else if Rejects(x, m) then m.(state := Cancelled)
    else if m.state == ReferencesSwitched && m.sourceRetirement <= x.completed then m.(state := SourceRetired)
    else m
  }

  /** How many switches are accepted among the moves from the i-th up to the k-th. */
  function Accepted(x: Executor, moves: seq<Move>, i: nat, k: nat): nat
    requires k <= |moves|
    decreases k - i
  {
    if i >= k then 0 else (if Accepts(x, moves[i]) then 1 else 0) + Accepted(x, moves, i + 1, k)
  }

  /** How many bytes have been copied for them. */
  function CopiedBytes(x: Executor, moves: seq<Move>, i: nat): nat
    decreases |moves| - i
  {
    if i >= |moves| then 0
    else (if Accepts(x, moves[i]) || Rejects(x, moves[i]) then moves[i].size else 0) + CopiedBytes(x, moves, i + 1)
  }

  /** How many of them are retired, the first switch being answered with that value. */
  function RetiredMoves(x: Executor, moves: seq<Move>, timeline: nat, i: nat): nat
    decreases |moves| - i
  {
    if i >= |moves| then 0
    else
      (if moves[i].state != SourceRetired && Outcome(x, moves[i], timeline).state == SourceRetired then 1 else 0)
      + RetiredMoves(x, moves, timeline + if Accepts(x, moves[i]) then 1 else 0, i + 1)
  }

  /** What becomes of the k-th move when it is the i-th one's turn: those that are only
      reserved are withdrawn if any switch is rejected. */
  ghost function Fate(x: Executor, moves: seq<Move>, i: nat, k: nat): Move
    requires k < |moves|
  {
    if moves[k].state == Reserved then
      if exists j :: i <= j < |moves| && Rejects(x, moves[j]) then moves[k].(state := Cancelled) else moves[k]
    else if k < i then moves[k]
    else Outcome(x, moves[k], x.next + Accepted(x, moves, i, k))
  }

  /** What the executor is told of the move. */
  predicate Tells(r: Relocation, m: Move, e: Entry) {
    && r.move == m.id && r.allocation == m.allocation && r.size == m.size
    && r.sourceArena == m.source && r.sourceOffset == m.sourceOffset
    && r.destinationArena == m.destination && r.destinationOffset == m.destinationOffset
    && r.memoryClass == e.memoryClass && r.resourceClass == e.resourceClass
  }

  /** One more relocation is logged, of that move, and the timeline goes one on. */
  predicate Logged(before: seq<Relocation>, after: seq<Relocation>, m: Move, entries: seq<Entry>) {
    && |after| == |before| + 1 && after[..|before|] == before
    && m.allocation < |entries| && Tells(after[|before|], m, entries[m.allocation])
  }

  /** The turn of the i-th move. */
  ghost predicate Turn(w: World, i: nat, w': World) {
    && i < |w.gpu.Moves()| == |w'.gpu.Moves()|
    && var x, x', m := w.executor, w'.executor, w.gpu.Moves()[i];
       && w'.gpu.Moves()[i] == Outcome(x, m, x.next)
       && (forall k :: 0 <= k < |w.gpu.Moves()| && k != i ==>
             w'.gpu.Moves()[k] == if w.gpu.Moves()[k].state == Reserved && Rejects(x, m)
                                  then w.gpu.Moves()[k].(state := Cancelled) else w.gpu.Moves()[k])
       && x'.completed == x.completed && x'.refuseSwitch == x.refuseSwitch && x'.refuseCopy == x.refuseCopy
       && x'.copies == x.copies && w'.memory == w.memory
       && (if Accepts(x, m) then x'.next == x.next + 1 && Logged(x.switches, x'.switches, m, w.gpu.entries) else x' == x)
  }

  lemma RejectTurn(w: World, i: nat)
    requires Ready(w) && i < |w.gpu.Moves()| && Rejects(w.executor, w.gpu.Moves()[i])
    ensures Turn(w, i, CompleteCopy(w, i))
  {
    hide Sound, MemoryOk, GiveUp;
    var s := CountCopied(w.gpu, i);
    StatisticsAside(w.gpu, s.statistics);
    GiveUpIs(s, i);
  }

  lemma AcceptTurn(w: World, i: nat)
    requires Ready(w) && i < |w.gpu.Moves()| && Accepts(w.executor, w.gpu.Moves()[i])
    ensures var w', m, x := CompleteCopy(w, i), w.gpu.Moves()[i], w.executor;
            && w'.gpu.target.Some? && m.allocation < |w.gpu.entries| && w'.memory == w.memory
            && w'.gpu.Moves() == w.gpu.Moves()[i := m.(state := ReferencesSwitched, sourceRetirement := x.next)]
            && w'.executor == x.(next := x.next + 1, switches := w'.executor.switches)
            && Logged(x.switches, w'.executor.switches, m, w.gpu.entries)
  {
    hide Sound, MemoryOk, GiveUp;
    var s := CountCopied(w.gpu, i);
    StatisticsAside(w.gpu, s.statistics);
    SwitchSound(w.gpu, i, w.executor.next);
  }

  lemma RetireTurn(w: World, i: nat)
    requires Ready(w) && i < |w.gpu.Moves()| && w.gpu.Moves()[i].state == ReferencesSwitched
    ensures var w' := CompleteRetirement(w, i);
            && w'.gpu.target.Some? && w'.executor == w.executor && w'.memory == w.memory
            && w'.gpu.Moves() == w.gpu.Moves()[i := w.gpu.Moves()[i].(state := SourceRetired)]
  {
    hide Sound, MemoryOk;
    RetireSound(w.gpu, i);
  }

  /** The i-th move has its outcome, and what is reported goes up by what happened. */
  lemma MoveTurn(w: World, i: nat, r: Result)
    requires Ready(w) && w.gpu.target.Some? && i < |w.gpu.Moves()|
    ensures var (w', r') := CompleteMove(w, i, r);
            var m, x := w.gpu.Moves()[i], w.executor;
            && Turn(w, i, w')
            && r'.bytesCopied == r.bytesCopied + (if Accepts(x, m) || Rejects(x, m) then m.size else 0)
            && r'.movesCompleted ==
                 r.movesCompleted + (if m.state != SourceRetired && Outcome(x, m, x.next).state == SourceRetired then 1 else 0)
  {
    hide Ready, CompleteCopy, CompleteRetirement, Logged;
    CopyRoundReady(w, i, r);
    if Accepts(w.executor, w.gpu.Moves()[i]) {
      AcceptTurn(w, i);
    } else if Rejects(w.executor, w.gpu.Moves()[i]) {
      RejectTurn(w, i);
    }
    var w1 := CopyRound(w, i, r).0;
    if RetirementDone(w1, w1.gpu.Moves()[i]) {
      RetireTurn(w1, i);
    }
  }

  // ---- All turns ----

  lemma {:induction false} SameAccepted(w: World, i: nat, w': World, j: nat, k: nat)
    requires Turn(w, i, w') && i < j && k <= |w.gpu.Moves()|
    ensures Accepted(w'.executor, w'.gpu.Moves(), j, k) == Accepted(w.executor, w.gpu.Moves(), j, k)
    decreases k - j
  {
    hide Logged;
    if j < k {
      SameAccepted(w, i, w', j + 1, k);
    }
  }

  lemma {:induction false} SameCopied(w: World, i: nat, w': World, j: nat)
    requires Turn(w, i, w') && i < j
    ensures CopiedBytes(w'.executor, w'.gpu.Moves(), j) == CopiedBytes(w.executor, w.gpu.Moves(), j)
    decreases |w.gpu.Moves()| - j
  {
    hide Logged;
    if j < |w.gpu.Moves()| {
      SameCopied(w, i, w', j + 1);
    }
  }

  lemma {:induction false} SameRetired(w: World, i: nat, w': World, timeline: nat, j: nat)
    requires Turn(w, i, w') && i < j
    ensures RetiredMoves(w'.executor, w'.gpu.Moves(), timeline, j) == RetiredMoves(w.executor, w.gpu.Moves(), timeline, j)
    decreases |w.gpu.Moves()| - j
  {
    hide Logged;
    if j < |w.gpu.Moves()| {
      SameRetired(w, i, w', timeline + if Accepts(w.executor, w.gpu.Moves()[j]) then 1 else 0, j + 1);
    }
  }

  /** With the i-th turn taken every move still has its fate before it. */
  lemma SameFate(w: World, i: nat, w': World, k: nat)
    requires Turn(w, i, w') && k < |w.gpu.Moves()|
    ensures Fate(w'.executor, w'.gpu.Moves(), i + 1, k) == Fate(w.executor, w.gpu.Moves(), i, k)
  {
    var moves, moves', x := w.gpu.Moves(), w'.gpu.Moves(), w.executor;
    SameAccepted(w, i, w', i + 1, k);
    hide Logged;
    if moves[k].state == Reserved {
      forall j | i < j < |moves| ensures Rejects(w'.executor, moves'[j]) <==> Rejects(x, moves[j]) {
      }
      if j :| i <= j < |moves| && Rejects(x, moves[j]) {
        assert j > i ==> Rejects(w'.executor, moves'[j]);
      }
      if Rejects(x, moves[i]) {
        assert moves'[k] == moves[k].(state := Cancelled);
      }
    }
  }

  /** What becomes of the moves, of the timeline and of what is reported when the turns
      from the i-th on are taken. */
  ghost predicate Turns(w: World, i: nat, r: Result, w': World, r': Result) {
    && i <= |w.gpu.Moves()| == |w'.gpu.Moves()|
    && var x, moves := w.executor, w.gpu.Moves();
       && (forall k :: 0 <= k < |moves| ==> w'.gpu.Moves()[k] == Fate(x, moves, i, k))
       && w'.executor.next == x.next + Accepted(x, moves, i, |moves|)
       && r'.bytesCopied == r.bytesCopied + CopiedBytes(x, moves, i)
       && r'.movesCompleted == r.movesCompleted + RetiredMoves(x, moves, x.next, i)
  }

  lemma NoTurns(w: World, r: Result)
    ensures Turns(w, |w.gpu.Moves()|, r, w, r)
  {
  }

  lemma TurnThen(w: World, i: nat, w1: World, r: Result, r1: Result, w': World, r': Result)
    requires Turn(w, i, w1) && Turns(w1, i + 1, r1, w', r')
    requires var m, x := w.gpu.Moves()[i], w.executor;
             && r1.bytesCopied == r.bytesCopied + (if Accepts(x, m) || Rejects(x, m) then m.size else 0)
             && r1.movesCompleted ==
                  r.movesCompleted + (if m.state != SourceRetired && Outcome(x, m, x.next).state == SourceRetired then 1 else 0)
    ensures Turns(w, i, r, w', r')
  {
    SameCopied(w, i, w1, i + 1);
    SameRetired(w, i, w1, w1.executor.next, i + 1);
    SameAccepted(w, i, w1, i + 1, |w.gpu.Moves()|);
    hide Logged, Fate, Outcome;
    forall k | 0 <= k < |w.gpu.Moves()| ensures w'.gpu.Moves()[k] == Fate(w.executor, w.gpu.Moves(), i, k) {
      SameFate(w, i, w1, k);
    }
  }

  lemma {:induction false} AllTurns(w: World, i: nat, r: Result)
    requires Ready(w) && w.gpu.target.Some? && i <= |w.gpu.Moves()|
    ensures Turns(w, i, r, CompleteFrom(w, i, r).0, CompleteFrom(w, i, r).1)
    decreases |w.gpu.Moves()| - i
  {
    if i == |w.gpu.Moves()| {
      hide Ready, Fate;
      NoTurns(w, r);
    } else {
      hide Ready, CompleteMove, Turns, Turn;
      CompleteMoveReady(w, i, r);
      MoveTurn(w, i, r);
      var (w1, r1) := CompleteMove(w, i, r);
      TurnSize(w, i, w1);
      AllTurns(w1, i + 1, r1);
      TurnThen(w, i, w1, r, r1, CompleteFrom(w1, i + 1, r1).0, CompleteFrom(w1, i + 1, r1).1);
    }
  }

  lemma TurnSize(w: World, i: nat, w': World)
    requires Turn(w, i, w')
    ensures |w'.gpu.Moves()| == |w.gpu.Moves()|
  {
  }

  /** A completing call takes every move through its fate; when none is left under way
      the evacuation is over, otherwise those are its moves. It reports the bytes copied
      and the moves retired. */
  lemma ProcessFates(w: World)
    requires Ready(w) && w.gpu.target.Some?
    ensures var (w', r) := Process(w);
            var x, moves := w.executor, w.gpu.Moves();
            && (if forall k :: 0 <= k < |moves| ==> Fate(x, moves, 0, k).state in {SourceRetired, Cancelled} then
                  w'.gpu.target.None?
                else
                  && w'.gpu.target.Some? && |w'.gpu.Moves()| == |moves|
                  && forall k :: 0 <= k < |moves| ==> w'.gpu.Moves()[k] == Fate(x, moves, 0, k))
            && w'.executor.next == x.next + Accepted(x, moves, 0, |moves|)
            && r.bytesCopied == CopiedBytes(x, moves, 0) && r.movesCompleted == RetiredMoves(x, moves, x.next, 0)
  {
    hide Ready, CompleteFrom, Fate, Accepted, CopiedBytes, RetiredMoves, Finish, Onward;
    CompleteFromReady(w, 0, NOTHING);
    AllTurns(w, 0, NOTHING);
    OnwardSize(w, CompleteFrom(w, 0, NOTHING).0);
    FinishMoves(CompleteFrom(w, 0, NOTHING).0);
  }

  /** Finishing ends an evacuation of which nothing is under way, and no other. */
  lemma FinishMoves(w: World)
    requires Ready(w) && w.gpu.target.Some?
    ensures var w' := Finish(w).0;
            && w'.executor == w.executor
            && if forall k :: 0 <= k < |w.gpu.Moves()| ==> w.gpu.Moves()[k].state in {SourceRetired, Cancelled} then
                 w'.gpu.target.None?
               else w' == w
  {
    if Finished(w.gpu.Moves()) {
      EndReady(w);
    }
    hide Ready, IndexOf;
  }

  // ---- Scheduling ----

  /** An accepted copy: the move waits for the value that the timeline answers, and the
      executor has been told of the move. */
  lemma ScheduleTurn(w: World, i: nat)
    requires Ready(w) && i < |w.gpu.Moves()| && w.gpu.Moves()[i].state == Reserved
    ensures var w', m, x := ScheduleOne(w, i), w.gpu.Moves()[i], w.executor;
            && w'.gpu.target.Some? && w'.gpu.entries == w.gpu.entries && w'.gpu.arenas == w.gpu.arenas
            && w'.gpu.Moves() == w.gpu.Moves()[i := m.(state := CopyScheduled, copyCompletion := x.next)]
            && w'.executor == x.(next := x.next + 1, copies := w'.executor.copies)
            && Logged(x.copies, w'.executor.copies, m, w.gpu.entries)
  {
    PendingFits(w, i);
    hide Sound, MemoryOk, CopyFits, CopyBlock;
  }

  lemma RefuseTurn(w: World, i: nat)
    requires Ready(w) && i < |w.gpu.Moves()| && w.gpu.Moves()[i].state == Reserved
    ensures var w' := RefuseOne(w, i);
            w'.gpu.target.Some? && w'.gpu.Moves() == Withdrawn(w.gpu.Moves()) && w'.executor == w.executor
  {
    hide Sound, MemoryOk, GiveUp;
    GiveUpIs(w.gpu, i);
  }

  /** Those that are only reserved are cancelled. */
  function Withdrawn(moves: seq<Move>): (after: seq<Move>)
    ensures |after| == |moves|
    ensures forall k :: 0 <= k < |moves| ==>
              after[k] == if moves[k].state == Reserved then moves[k].(state := Cancelled) else moves[k]
  {
    if moves == [] then []
    else
      var m := moves[|moves| - 1];
      Withdrawn(moves[..|moves| - 1]) + [if m.state == Reserved then m.(state := Cancelled) else m]
  }

  /** One pass over the moves from the i-th on: each that is reserved and that the bytes
      left cover is scheduled, up to so many, and with the first refused all that are
      only reserved are withdrawn. */
  function OnePass(refused: set<nat>, moves: seq<Move>, timeline: nat, i: nat, bytes: nat, count: nat): (after: seq<Move>)
    ensures |after| == |moves|
    decreases |moves| - i
  {
    if i >= |moves| || bytes == 0 || count == 0 then moves
    else
      var m := moves[i];
      if m.state != Reserved || m.size > bytes then OnePass(refused, moves, timeline, i + 1, bytes, count)
      else if m.id in refused then Withdrawn(moves)
      else
        OnePass(refused, moves[i := m.(state := CopyScheduled, copyCompletion := timeline)], timeline + 1, i + 1,
                bytes - m.size, count - 1)
  }

  /** Searching from the first move each time comes to one pass over them. */
  lemma {:induction false} SchedulingIsOnePass(p: Progress, i: nat)
    requires Ready(p.world) && p.world.gpu.target.Some? && i <= |p.world.gpu.Moves()|
    requires forall k :: 0 <= k < i ==>
               !(p.world.gpu.Moves()[k].state == Reserved && p.world.gpu.Moves()[k].size <= p.bytes)
    ensures var x, moves, w' := p.world.executor, p.world.gpu.Moves(), Schedule(p).world;
            w'.gpu.target.Some? && w'.gpu.Moves() == OnePass(x.refuseCopy, moves, x.next, i, p.bytes, p.moves)
    decreases |p.world.gpu.Moves()| - i
  {
    hide Ready, ScheduleOne, RefuseOne, FindSchedulable, Logged;
    var moves := p.world.gpu.Moves();
    if i == |moves| || p.bytes == 0 || p.moves == 0 {
    } else if moves[i].state != Reserved || moves[i].size > p.bytes {
      SchedulingIsOnePass(p, i + 1);
    } else {
      assert NextMove(p) == i;
      if Refused(p) {
        RefuseTurn(p.world, i);
      } else {
        ScheduleTurn(p.world, i);
        ScheduleOneReady(p.world, i);
        SchedulingIsOnePass(ScheduleRound(p), i + 1);
      }
    }
  }

  /** The moves a defragmenting call schedules from: those under way, or those of the
      plan, numbered, if there are none and the budget is not nothing. */
  ghost predicate StartsFrom(s: State, budget: Budget, plan: Option<Plan>, moves: seq<Move>) {
    if s.target.Some? then moves == s.Moves()
    else if plan.Some? && PlanOk(s, plan.value) && budget.copyBytes != 0 && budget.moveCount != 0 then
      && |moves| == |plan.value.moves|
      && forall k :: 0 <= k < |moves| ==> moves[k] == plan.value.moves[k].(id := s.nextMoveId + k)
    else moves == []
  }

  lemma BeginMoves(s: State, plan: Plan, moves: seq<Move>)
    requires PlanOk(s, plan) && |moves| == |plan.moves|
    requires forall k :: 0 <= k < |moves| ==> moves[k] == plan.moves[k].(id := s.nextMoveId + k)
    ensures Begin(s, plan).target.Some? && Begin(s, plan).Moves() == moves
  {
    hide ReserveAll;
    assert Numbered(plan.moves, s.nextMoveId) == moves;
  }

  /** A defragmenting call completes, begins the plan if there is one, and takes the moves
      through one pass; when none is left under way no evacuation is, otherwise those are
      its moves. */
  lemma DefragmentFates(w: World, budget: Budget, plan: Option<Plan>, moves: seq<Move>)
    requires Ready(w) && StartsFrom(Process(w).0.gpu, budget, plan, moves)
    ensures var x, w' := Process(w).0.executor, Defragment(w, budget, plan).0;
            var after := OnePass(x.refuseCopy, moves, x.next, 0, budget.copyBytes, budget.moveCount);
            if forall k :: 0 <= k < |after| ==> after[k].state in {SourceRetired, Cancelled} then w'.gpu.target.None?
            else w'.gpu.target.Some? && w'.gpu.Moves() == after
  {
    hide Ready, Process, PlanOk, Begin, Schedule, Finish, OnePass;
    ProcessReady(w);
    var (w1, r1) := Process(w);
    BeginReady(w1, budget, plan);
    var w2 := BeginWith(w1, budget, plan);
    if w1.gpu.target.None? && plan.Some? && PlanOk(w1.gpu, plan.value) && budget.copyBytes != 0 && budget.moveCount != 0 {
      BeginMoves(w1.gpu, plan.value, moves);
    }
    if w2.gpu.target.None? {
      NothingScheduled(w2, moves, budget, r1);
    } else {
      var p := Progress(w2, budget.copyBytes, budget.moveCount, r1);
      SchedulingIsOnePass(p, 0);
      ScheduleReady(p);
      FinishMoves(Schedule(p).world);
    }
  }

  lemma NothingScheduled(w: World, moves: seq<Move>, budget: Budget, r: Result)
    requires Ready(w) && w.gpu.target.None? && moves == []
    ensures var q := Schedule(Progress(w, budget.copyBytes, budget.moveCount, r));
            q.world == w && Finish(w).0 == w
    ensures forall refused, timeline: nat, bytes: nat, count: nat ::
              OnePass(refused, moves, timeline, 0, bytes, count) == []
  {
  }
}
