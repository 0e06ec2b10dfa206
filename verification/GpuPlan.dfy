/** What a plan for an evacuation is, and what starting it does. */
module GpuPlan {
  import opened Wrappers
  import opened Alignment
  import opened GpuCore
  import opened GpuState
  import opened GpuInvariant
  import opened GpuMoves

  datatype Plan = Plan(source: nat, moves: seq<Move>)

  /** A move of the plan is for an allocation of the source, and lands in another
      arena that admits it. */
  predicate MovePlanned(s: State, source: nat, m: Move) {
    && m.state == Reserved && m.source == source < |s.arenas| && s.Live(m.allocation)
    && m.destination in s.order && m.destination < |s.arenas| && m.destination != source
    && var e, x := s.entries[m.allocation], s.arenas[m.destination];
       && e.arena == source && e.movable && m.sourceOffset == e.offset && m.size == e.size
       && x.role == Normal && !x.dedicated && x.memoryClass == s.arenas[source].memoryClass
       && m.destinationOffset % Pow2(e.alignment) == 0
  }

  /** Reserving the destinations one after the other, as far as there is room. */
  function ReserveAll(arenas: seq<Arena>, moves: seq<Move>): Option<seq<Arena>> {
    if moves == [] then Some(arenas)
    else
      var m := moves[|moves| - 1];
      match ReserveAll(arenas, moves[..|moves| - 1])
      case None => None
      case Some(before) =>
        if m.destination < |before| && Available(before[m.destination], m.destinationOffset, m.size) then
          Some(Booked(before, m))
        else None
  }

  /** The moves can be made together. */
  predicate Feasible(s: State, source: nat, moves: seq<Move>) {
    && (forall i :: 0 <= i < |moves| ==> MovePlanned(s, source, moves[i]))
    && (forall i, j :: 0 <= i < j < |moves| ==> moves[i].allocation != moves[j].allocation)
    && ReserveAll(s.arenas, moves).Some?
  }

  predicate Moves(moves: seq<Move>, id: nat) {
    exists i :: 0 <= i < |moves| && moves[i].allocation == id
  }

  /** A plan evacuates one arena that may be evacuated: every allocation in it is
      moved once, and all destinations can be reserved together. */
  predicate PlanOk(s: State, plan: Plan) {
    && plan.source in s.order && plan.source < |s.arenas| && CanEvacuate(s.arenas[plan.source])
    && Feasible(s, plan.source, plan.moves)
    && (forall id :: 0 <= id < |s.entries| && s.entries[id].live && s.entries[id].arena == plan.source ==>
          Moves(plan.moves, id))
  }

  /** The plan's moves with their ids. */
  function Numbered(moves: seq<Move>, next: nat): seq<Move> {
    seq(|moves|, i requires 0 <= i < |moves| => moves[i].(id := next + i))
  }

  lemma ReserveAllLength(arenas: seq<Arena>, moves: seq<Move>)
    ensures ReserveAll(arenas, moves).Some? ==> |ReserveAll(arenas, moves).value| == |arenas|
  {
    if moves != [] {
      ReserveAllLength(arenas, moves[..|moves| - 1]);
    }
  }

  function Frozen(arenas: seq<Arena>, source: nat): seq<Arena>
    requires source < |arenas|
  {
    arenas[source := arenas[source].(role := EvacuationSource)]
  }

  /** A target with these moves and arenas. */
  function Begun(s: State, source: nat, arenas: seq<Arena>, moves: seq<Move>, next: nat): State {
    s.(arenas := arenas, target := Some(Target(source, moves, false)), nextMoveId := next)
  }

  /** reserve_plan succeeded: the source is frozen and the plan becomes the target. */
  function Begin(s: State, plan: Plan): State
    requires plan.source < |s.arenas| && ReserveAll(s.arenas, plan.moves).Some?
  {
    ReserveAllLength(s.arenas, plan.moves);
    Begun(s, plan.source, Frozen(ReserveAll(s.arenas, plan.moves).value, plan.source),
          Numbered(plan.moves, s.nextMoveId), s.nextMoveId + |plan.moves|)
  }

  lemma BeginKeeps(s: State, plan: Plan)
    requires PlanOk(s, plan)
    ensures Begin(s, plan).entries == s.entries && Begin(s, plan).statistics == s.statistics
    ensures Begin(s, plan).order == s.order
  {
  }

  // ---- Beginning keeps the invariant ----

  lemma FeasibleInit(s: State, source: nat, moves: seq<Move>)
    requires Feasible(s, source, moves) && moves != []
    ensures Feasible(s, source, moves[..|moves| - 1])
  {
    var init := moves[..|moves| - 1];
    forall i | 0 <= i < |init| ensures MovePlanned(s, source, init[i]) {
      assert MovePlanned(s, source, moves[i]);
    }
  }

  ghost predicate Startable(s: State, source: nat) {
    Sound(s) && s.target.None? && source < |s.arenas| && s.arenas[source].active && !s.arenas[source].dedicated
  }

  /** Freezing the source first and reserving the moves one at a time comes to the
      same. */
  lemma {:induction false} BeginStepwise(s: State, source: nat, moves: seq<Move>)
    requires Startable(s, source) && Feasible(s, source, moves)
    ensures var s' := Begin(s, Plan(source, moves));
            Sound(s') && SameKinds(s.arenas, s'.arenas)
    ensures moves == [] ==> Begin(s, Plan(source, moves)) == StartTarget(s, source)
    ensures moves != [] ==>
              var before := Begin(s, Plan(source, moves[..|moves| - 1]));
              Addable(before, moves[|moves| - 1]) && Begin(s, Plan(source, moves)) == ReserveMove(before, moves[|moves| - 1])
    decreases |moves|
  {
    hide Sound, SameKinds;
    if moves == [] {
      StartSound(s, source);
      StartIs(s, source);
    } else {
      var init, m := moves[..|moves| - 1], moves[|moves| - 1];
      FeasibleInit(s, source, moves);
      BeginStepwise(s, source, init);
      var before := Begin(s, Plan(source, init));
      hide Begin, ReserveMove, Feasible, Addable;
      LastAddable(s, source, moves);
      ReserveSound(before, m);
      ReserveIs(s, source, moves);
      KindsThen(s.arenas, before.arenas, ReserveMove(before, m).arenas);
    }
  }

  lemma StartIs(s: State, source: nat)
    requires source < |s.arenas| && s.target.None?
    ensures Begin(s, Plan(source, [])) == StartTarget(s, source)
  {
    assert Numbered([], s.nextMoveId) == [];
  }

  lemma KindsThen(a: seq<Arena>, b: seq<Arena>, c: seq<Arena>)
    requires SameKinds(a, b) && SameKinds(b, c)
    ensures SameKinds(a, c)
  {
  }

  /** What freezing leaves of the source's neighbours. */
  lemma BeginArena(s: State, plan: Plan, a: nat)
    requires plan.source < |s.arenas| && ReserveAll(s.arenas, plan.moves).Some? && a < |s.arenas| && a != plan.source
    ensures |Begin(s, plan).arenas| == |s.arenas| == |ReserveAll(s.arenas, plan.moves).value|
    ensures Begin(s, plan).arenas[a] == ReserveAll(s.arenas, plan.moves).value[a]
  {
    ReserveAllLength(s.arenas, plan.moves);
  }

  lemma LastAddable(s: State, source: nat, moves: seq<Move>)
    requires Startable(s, source) && Feasible(s, source, moves) && moves != []
    requires Feasible(s, source, moves[..|moves| - 1])
    requires SameKinds(s.arenas, Begin(s, Plan(source, moves[..|moves| - 1])).arenas)
    ensures Addable(Begin(s, Plan(source, moves[..|moves| - 1])), moves[|moves| - 1])
  {
    var init, m := moves[..|moves| - 1], moves[|moves| - 1];
    var before := Begin(s, Plan(source, init));
    assert MovePlanned(s, source, m);
    LiveArena(s, m.allocation);
    OrderActive(s, m.destination);
    BeginArena(s, Plan(source, init), m.destination);
    forall i | 0 <= i < |before.Moves()| ensures before.Moves()[i].allocation != m.allocation {
      assert init[i] == moves[i];
    }
    hide Sound, ReserveAll, Available;
    ReserveLast(s.arenas, moves);
  }

  lemma ReserveLast(arenas: seq<Arena>, moves: seq<Move>)
    requires moves != [] && ReserveAll(arenas, moves).Some?
    ensures var before := ReserveAll(arenas, moves[..|moves| - 1]);
            var m := moves[|moves| - 1];
            && before.Some? && m.destination < |before.value|
            && Available(before.value[m.destination], m.destinationOffset, m.size)
            && ReserveAll(arenas, moves).value == Booked(before.value, m)
  {
  }

  lemma OrderActive(s: State, a: nat)
    requires Sound(s) && a in s.order
    ensures a < |s.arenas| && s.arenas[a].active
  {
  }

  lemma FreezeCommutes(arenas: seq<Arena>, source: nat, m: Move)
    requires source < |arenas| && m.destination < |arenas| && m.destination != source
    requires Available(arenas[m.destination], m.destinationOffset, m.size)
    ensures Frozen(Booked(arenas, m), source) == Booked(Frozen(arenas, source), m)
  {
  }

  lemma NumberedLast(moves: seq<Move>, next: nat)
    requires moves != []
    ensures Numbered(moves, next) ==
            Numbered(moves[..|moves| - 1], next) + [moves[|moves| - 1].(id := next + |moves| - 1)]
  {
  }

  lemma BegunThen(s: State, source: nat, arenas: seq<Arena>, moves: seq<Move>, next: nat, m: Move)
    requires m.destination < |arenas| && Available(arenas[m.destination], m.destinationOffset, m.size)
    ensures ReserveMove(Begun(s, source, arenas, moves, next), m) ==
            Begun(s, source, Booked(arenas, m), moves + [m.(id := next)], next + 1)
  {
  }

  lemma ReserveIs(s: State, source: nat, moves: seq<Move>)
    requires source < |s.arenas| && moves != [] && ReserveAll(s.arenas, moves).Some?
    requires ReserveAll(s.arenas, moves[..|moves| - 1]).Some? && moves[|moves| - 1].destination != source
    requires var before, m := Begin(s, Plan(source, moves[..|moves| - 1])), moves[|moves| - 1];
             m.destination < |before.arenas| && Available(before.arenas[m.destination], m.destinationOffset, m.size)
    ensures Begin(s, Plan(source, moves)) == ReserveMove(Begin(s, Plan(source, moves[..|moves| - 1])), moves[|moves| - 1])
  {
    hide ReserveAll, Available, Booked, Numbered, ReserveMove, Begun;
    var init, m := moves[..|moves| - 1], moves[|moves| - 1];
    ReserveLast(s.arenas, moves);
    ReserveAllLength(s.arenas, init);
    var arenas := ReserveAll(s.arenas, init).value;
    FreezeCommutes(arenas, source, m);
    NumberedLast(moves, s.nextMoveId);
    BegunThen(s, source, Frozen(arenas, source), Numbered(init, s.nextMoveId), s.nextMoveId + |init|, m);
  }

  lemma PlannedIsReserved(s: State, source: nat, m: Move)
    requires MovePlanned(s, source, m)
    ensures m.state == Reserved
  {
  }

  /** Beginning a plan keeps the invariant, and everyone in the source has a move. */
  lemma BeginSound(s: State, plan: Plan)
    requires Sound(s) && s.target.None? && PlanOk(s, plan)
    ensures var s' := Begin(s, plan);
            && Sound(s') && SameKinds(s.arenas, s'.arenas) && Accounted(s'.entries, s'.target)
            && (forall i :: 0 <= i < |s'.Moves()| ==> s'.Moves()[i].state == Reserved)
  {
    OrderActive(s, plan.source);
    BeginStepwise(s, plan.source, plan.moves);
    var s' := Begin(s, plan);
    hide Sound, SameKinds, ReserveAll, MovePlanned;
    forall i | 0 <= i < |s'.Moves()| ensures s'.Moves()[i].state == Reserved {
      PlannedIsReserved(s, plan.source, plan.moves[i]);
    }
    forall id | 0 <= id < |s'.entries| && s'.entries[id].live && s'.entries[id].arena == plan.source
      ensures Waiting(s'.target.value, id)
    {
      assert Moves(plan.moves, id);
      var i :| 0 <= i < |plan.moves| && plan.moves[i].allocation == id;
      assert s'.Moves()[i].allocation == id && s'.Moves()[i].Pending();
    }
  }
}
