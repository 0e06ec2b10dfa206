/** Every run: what the allocations read, byte for byte, whatever the allocator, the
    owners and the executor do and in any order. */
module GpuRuns {
  import opened Wrappers
  import opened Alignment
  import opened Sums
  import opened EntryTable
  import opened GpuCore
  import opened GpuState
  import opened GpuInvariant
  import opened GpuAllocate
  import opened GpuPlan
  import opened GpuWorld
  import opened GpuSchedule
  import opened GpuBytes
  import opened GpuTally
  import opened GpuCalls
  import opened GpuPlacement
  import opened GpuContents
  import opened GpuOwners

  /** What the owner of an allocation asked for; what it wrote last, byte for byte; at
      which indices the allocation does not read so any more; and at which indices the
      copy under way, if there is one, differs from it. */
  datatype Account = Account(asked: Options, written: seq<Byte>, lost: set<nat>, missed: set<nat>)

  datatype Owners = Owners(world: World, accounts: map<nat, Account>)

  datatype Op =
    | Alloc(size: nat, options: Options)
    | Free(id: nat)
    | Defrag(budget: Budget, plan: Option<Plan>)
    | Complete
    | Write(id: nat, index: nat, value: Byte)
    | Pin(id: nat, movable: bool)
    | Enlarge(size: nat)
    | Advance(completed: nat)
    | Refuse(copies: set<nat>, switches: set<nat>)

  /** What the callers are asked for. */
  predicate Allowed(w: World, op: Op) {
    match op
    case Alloc(size, options) => OptionsOk(size, options)
    case Free(id) => w.gpu.Live(id)
    case Write(id, index, _) => w.gpu.Live(id) && index < w.gpu.entries[id].size
    case Pin(id, movable) => MaySetMovable(w.gpu, id, movable)
    case Enlarge(size) => size <= U32_MAX
    case _ => true
  }

  // ---- What is true of the accounts ----

  /** These bytes agree with what was written except at the given indices, where they
      do differ. */
  predicate AgreeBut(bytes: seq<Byte>, written: seq<Byte>, except: set<nat>) {
    |bytes| == |written| && forall j: nat {:trigger j in except} {:trigger bytes[j]} {:trigger written[j]} ::
      j < |written| ==> (bytes[j] == written[j] <==> j !in except)
  }

  /** The entry has the alignment and the classes that were asked for, the alignment
      being one if none was given. */
  ghost predicate Honours(e: Entry, asked: Options) {
    && Pow2(e.alignment) == (if asked.alignment == 0 then 1 else asked.alignment)
    && e.memoryClass == asked.memoryClass && e.resourceClass == asked.resourceClass
  }

  /** What the account says is so of the allocation and of its copy. */
  ghost predicate Accurate(w: World, id: nat, account: Account)
    requires id < |w.gpu.entries|
  {
    && Honours(w.gpu.entries[id], account.asked)
    && AgreeBut(Contents(w, id), account.written, account.lost)
    && (Copied(w.gpu, id) ==> AgreeBut(CopyOf(w, id), account.written, account.missed))
  }

  /** Every live allocation has an accurate account: it reads back what its owner wrote
      exactly at the indices that are not lost. */
  ghost predicate Safe(o: Owners) {
    && WorldOk(o.world)
    && forall id :: 0 <= id < |o.world.gpu.entries| && o.world.gpu.Live(id) ==>
         id in o.accounts && Accurate(o.world, id, o.accounts[id])
  }

  // ---- How the accounts are kept ----

  function Opened(asked: Options, bytes: seq<Byte>): Account {
    Account(asked, bytes, {}, {})
  }

  /** The owner writes a byte: it is not lost any more; a copy under way misses it
      unless it has that very byte. */
  function Written(w: World, id: nat, account: Account, index: nat, value: Byte): Account
    requires index < |account.written|
  {
    var differs := Copied(w.gpu, id) && !(index < |CopyOf(w, id)| && CopyOf(w, id)[index] == value);
    Account(account.asked, account.written[index := value], account.lost - {index},
            if differs then account.missed + {index} else account.missed - {index})
  }

  /** Where the switch is accepted the copy is what is read from now on, so exactly
      what it misses is lost; otherwise nothing is lost or found. */
  function AfterCompleting(w: World, id: nat, account: Account): Account {
    if Switches(w, id) then account.(lost := account.missed) else account
  }

  /** A copy that starts misses what is lost. */
  function AfterScheduling(w: World, w': World, id: nat, account: Account): Account {
    if Copied(w'.gpu, id) && !Copied(w.gpu, id) then account.(missed := account.lost) else account
  }

  function AllCompleted(w: World, accounts: map<nat, Account>): map<nat, Account> {
    map id | id in accounts :: AfterCompleting(w, id, accounts[id])
  }

  function AllScheduled(w: World, w': World, accounts: map<nat, Account>): map<nat, Account> {
    map id | id in accounts :: AfterScheduling(w, w', id, accounts[id])
  }

  ghost function Step(o: Owners, op: Op): Owners
    requires Safe(o) && Allowed(o.world, op)
  {
    match op
    case Alloc(size, options) =>
      AllocateKeeps(o.world, size, options);
      var (w, id) := Allocate(o.world, size, options);
      Owners(w, o.accounts[id := Opened(options, Contents(w, id))])
    case Free(id) =>
      var (w, ok) := TryDeallocate(o.world, id);
      if ok then Owners(w, o.accounts - {id}) else o
    case Defrag(budget, plan) =>
      var w1, w2 := Process(o.world).0, Defragment(o.world, budget, plan).0;
      Owners(w2, AllScheduled(w1, w2, AllCompleted(o.world, o.accounts)))
    case Complete => Owners(Process(o.world).0, AllCompleted(o.world, o.accounts))
    case Write(id, index, value) =>
      WriteKeeps(o.world, id, index, value);
      Owners(WriteAt(o.world, id, index, value),
             o.accounts[id := Written(o.world, id, o.accounts[id], index, value)])
    case Pin(id, movable) => o.(world := o.world.(gpu := SetMovable(o.world.gpu, id, movable)))
    case Enlarge(size) => o.(world := o.world.(gpu := Enlarged(o.world.gpu, size)))
    case Advance(completed) => o.(world := o.world.(executor := o.world.executor.(completed := completed)))
    case Refuse(copies, switches) =>
      o.(world := o.world.(executor := o.world.executor.(refuseCopy := copies, refuseSwitch := switches)))
  }

  // ---- Each operation is safe ----

  /** Entries that differ at most in where they are and whether they may move. */
  predicate SameRequest(e: Entry, f: Entry) {
    f == e.(arena := f.arena, offset := f.offset, movable := f.movable)
  }

  /** An account stays accurate while bytes and copy stay as they are. */
  lemma StaysAccurate(w: World, w': World, id: nat, account: Account)
    requires id < |w.gpu.entries| && id < |w'.gpu.entries| && Accurate(w, id, account)
    requires SameRequest(w.gpu.entries[id], w'.gpu.entries[id])
    requires Contents(w', id) == Contents(w, id)
    requires Copied(w'.gpu, id) ==> Copied(w.gpu, id) && CopyOf(w', id) == CopyOf(w, id)
    ensures Accurate(w', id, account)
  {
  }

  lemma AllocSafe(o: Owners, size: nat, options: Options)
    requires Safe(o) && Allowed(o.world, Alloc(size, options))
    ensures Safe(Step(o, Alloc(size, options)))
  {
    hide Sound, MemoryOk, Tallied, Allocate, Contents, CopyOf, Copied, OptionsOk, InNew, Accurate;
    var (w, id) := Allocate(o.world, size, options);
    AllocateKeeps(o.world, size, options);
    if Copied(w.gpu, id) {
      CopiedIsLive(o.world, id);
      assert false;
    }
    IsOpened(w, id, size, options);
    hide Served;
    forall other | 0 <= other < |w.gpu.entries| && other != id && w.gpu.Live(other)
      ensures other in o.accounts && Accurate(w, other, o.accounts[other])
    {
      StaysAccurate(o.world, w, other, o.accounts[other]);
    }
  }

  lemma IsOpened(w: World, id: nat, size: nat, options: Options)
    requires id < |w.gpu.entries| && !Copied(w.gpu, id)
    requires EntryAsAsked(w.gpu.entries[id], w.gpu.entries[id].arena, size,
                          options.(alignment := if options.alignment == 0 then 1 else options.alignment,
                                   movable := w.gpu.entries[id].movable))
    ensures Accurate(w, id, Opened(options, Contents(w, id)))
  {
  }

  lemma FreeSafe(o: Owners, id: nat)
    requires Safe(o) && Allowed(o.world, Free(id))
    ensures Safe(Step(o, Free(id)))
  {
    hide Sound, MemoryOk, Tallied, TryDeallocate, Contents, CopyOf, Copied, Accurate;
    DeallocateKeeps(o.world, id);
    var w := TryDeallocate(o.world, id).0;
    forall other | 0 <= other < |w.gpu.entries| && w.gpu.Live(other)
      ensures other in o.accounts && Accurate(w, other, o.accounts[other])
    {
      if TryDeallocate(o.world, id).1 {
        StaysAccurate(o.world, w, other, o.accounts[other]);
      }
    }
  }

  lemma CompletedAccurate(w: World, w': World, id: nat, account: Account)
    requires id < |w.gpu.entries| && id < |w'.gpu.entries| && Accurate(w, id, account)
    requires SameRequest(w.gpu.entries[id], w'.gpu.entries[id])
    requires Contents(w', id) == if Switches(w, id) then CopyOf(w, id) else Contents(w, id)
    requires Copied(w'.gpu, id) ==> Copied(w.gpu, id) && CopyOf(w', id) == CopyOf(w, id)
    ensures Accurate(w', id, AfterCompleting(w, id, account))
  {
    hide Contents, CopyOf;
  }

  /** Completing neither makes nor ends allocations. */
  lemma LandedLive(w: World, id: nat)
    requires Ready(w)
    ensures |Process(w).0.gpu.entries| == |w.gpu.entries|
    ensures id < |w.gpu.entries| && Process(w).0.gpu.Live(id) ==> w.gpu.Live(id)
    ensures id < |w.gpu.entries| ==> SameRequest(w.gpu.entries[id], Process(w).0.gpu.entries[id])
  {
    ProcessPlaces(w);
    hide Ready, Process, FindMove;
  }

  lemma AllCompletedAccurate(o: Owners)
    requires Safe(o)
    ensures Safe(Owners(Process(o.world).0, AllCompleted(o.world, o.accounts)))
  {
    hide Sound, MemoryOk, Tallied, Process, Contents, CopyOf, Copied, Switches, Accurate;
    ProcessOk(o.world);
    ProcessBytes(o.world);
    var w := Process(o.world).0;
    forall id | 0 <= id < |w.gpu.entries| && w.gpu.Live(id)
      ensures id in o.accounts && Accurate(w, id, AfterCompleting(o.world, id, o.accounts[id]))
    {
      LandedLive(o.world, id);
      CompletedAccurate(o.world, w, id, o.accounts[id]);
    }
  }

  lemma ScheduledAccurate(w: World, w': World, id: nat, account: Account)
    requires id < |w.gpu.entries| && id < |w'.gpu.entries| && Accurate(w, id, account)
    requires SameRequest(w.gpu.entries[id], w'.gpu.entries[id])
    requires Contents(w', id) == Contents(w, id)
    requires Copied(w'.gpu, id) ==> CopyOf(w', id) == if Copied(w.gpu, id) then CopyOf(w, id) else Contents(w, id)
    ensures Accurate(w', id, AfterScheduling(w, w', id, account))
  {
    hide Contents, CopyOf;
  }

  lemma DefragSafe(o: Owners, budget: Budget, plan: Option<Plan>)
    requires Safe(o)
    ensures Safe(Step(o, Defrag(budget, plan)))
  {
    hide Sound, MemoryOk, Tallied, Process, Defragment, Contents, CopyOf, Copied, Accurate, AfterCompleting;
    AllCompletedAccurate(o);
    DefragmentOk(o.world, budget, plan);
    DefragmentBytes(o.world, budget, plan);
    var o1 := Owners(Process(o.world).0, AllCompleted(o.world, o.accounts));
    var w1, w2 := o1.world, Defragment(o.world, budget, plan).0;
    forall id | 0 <= id < |w2.gpu.entries| && w2.gpu.Live(id)
      ensures id in o1.accounts && Accurate(w2, id, AfterScheduling(w1, w2, id, o1.accounts[id]))
    {
      assert w1.gpu.Live(id);
      ScheduledAccurate(w1, w2, id, o1.accounts[id]);
    }
  }

  lemma WrittenAccurate(w: World, w': World, id: nat, account: Account, index: nat, value: Byte)
    requires id < |w.gpu.entries| && id < |w'.gpu.entries| && Accurate(w, id, account) && index < |account.written|
    requires SameRequest(w.gpu.entries[id], w'.gpu.entries[id])
    requires Contents(w', id) == Contents(w, id)[index := value]
    requires Copied(w'.gpu, id) ==> Copied(w.gpu, id) && CopyOf(w', id) == CopyOf(w, id)
    ensures Accurate(w', id, Written(w, id, account, index, value))
  {
    hide Contents, CopyOf;
  }

  lemma WriteSafe(o: Owners, id: nat, index: nat, value: Byte)
    requires Safe(o) && Allowed(o.world, Write(id, index, value))
    ensures Safe(Step(o, Write(id, index, value)))
  {
    hide Ready, Tallied, Contents, CopyOf, Copied, WriteAt, Written, Accurate;
    WriteKeeps(o.world, id, index, value);
    AsLong(o.world, id, o.accounts[id]);
    var w := WriteAt(o.world, id, index, value);
    WrittenAccurate(o.world, w, id, o.accounts[id], index, value);
    forall other | 0 <= other < |w.gpu.entries| && other != id && w.gpu.Live(other)
      ensures other in o.accounts && Accurate(w, other, o.accounts[other])
    {
      StaysAccurate(o.world, w, other, o.accounts[other]);
    }
  }

  lemma AsLong(w: World, id: nat, account: Account)
    requires id < |w.gpu.entries| && Accurate(w, id, account)
    ensures |account.written| == |Contents(w, id)|
  {
  }

  lemma SameMoves(w: World, w': World)
    requires w'.gpu.Moves() == w.gpu.Moves() && w'.memory == w.memory
    ensures CopiesKept(w, w')
  {
  }

  /** Nothing that an owner or the executor can see of the bytes changes. */
  lemma QuietSafe(o: Owners, w: World)
    requires Safe(o) && WorldOk(w) && w.gpu.Moves() == o.world.gpu.Moves() && w.memory == o.world.memory
    requires |w.gpu.entries| == |o.world.gpu.entries|
    requires forall id :: 0 <= id < |w.gpu.entries| ==>
               SameRequest(o.world.gpu.entries[id], w.gpu.entries[id]) && Contents(w, id) == Contents(o.world, id)
    ensures Safe(o.(world := w))
  {
    hide Ready, Tallied, Contents, CopyOf, Copied, Accurate;
    SameMoves(o.world, w);
    forall id | 0 <= id < |w.gpu.entries| && w.gpu.Live(id) ensures Accurate(w, id, o.accounts[id]) {
      StaysAccurate(o.world, w, id, o.accounts[id]);
    }
  }

  lemma PinSafe(o: Owners, id: nat, movable: bool)
    requires Safe(o) && Allowed(o.world, Pin(id, movable))
    ensures Safe(Step(o, Pin(id, movable)))
  {
    hide Ready, Tallied, Safe, Contents, IsRelocating;
    SafeWorld(o);
    SetMovableKeeps(o.world, id, movable);
    QuietSafe(o, o.world.(gpu := SetMovable(o.world.gpu, id, movable)));
  }

  lemma SafeWorld(o: Owners)
    requires Safe(o)
    ensures WorldOk(o.world)
  {
  }

  lemma EnlargeSafe(o: Owners, size: nat)
    requires Safe(o) && size <= U32_MAX
    ensures Safe(o.(world := o.world.(gpu := Enlarged(o.world.gpu, size))))
  {
    var w := o.world.(gpu := Enlarged(o.world.gpu, size));
    assert w.gpu.Moves() == o.world.gpu.Moves() && w.gpu.Tables() == o.world.gpu.Tables();
    hide CoreOk, OrderOk, ChainOk, EntriesOk, RolesOk, TargetOk, Accounted, Balanced, BytesAt, Accurate;
    QuietSafe(o, w);
  }

  lemma ExecutorSafe(o: Owners, executor: Executor)
    requires Safe(o) && executor.copies == o.world.executor.copies && executor.switches == o.world.executor.switches
    requires executor.next == o.world.executor.next
    ensures Safe(o.(world := o.world.(executor := executor)))
  {
    var w := o.world.(executor := executor);
    assert w.gpu.Moves() == o.world.gpu.Moves();
    hide Sound, MemoryOk, Accounted, BytesAt, Accurate;
    QuietSafe(o, w);
  }

  lemma StepSafe(o: Owners, op: Op)
    requires Safe(o) && Allowed(o.world, op)
    ensures Safe(Step(o, op))
  {
    match op
    case Alloc(size, options) => AllocSafe(o, size, options);
    case Free(id) => FreeSafe(o, id);
    case Defrag(budget, plan) => DefragSafe(o, budget, plan);
    case Complete => AllCompletedAccurate(o);
    case Write(id, index, value) => WriteSafe(o, id, index, value);
    case Pin(id, movable) => PinSafe(o, id, movable);
    case Enlarge(size) => EnlargeSafe(o, size);
    case Advance(completed) => ExecutorSafe(o, o.world.executor.(completed := completed));
    case Refuse(copies, switches) =>
      ExecutorSafe(o, o.world.executor.(refuseCopy := copies, refuseSwitch := switches));
  }

  // ---- Runs ----

  const EMPTY_ENTRY := Entry(0, 0, 0, 0, 0, 0, false, false)

  function Initial(arenaSize: nat): World {
    World(State([NO_ARENA], [], [], [EMPTY_ENTRY], 0, None, Statistics(0, 0, 0, 0, 0, 0), arenaSize, 0),
          Memory([], [], 0),
          Executor(0, 1, {}, {}, [], []))
  }

  lemma InitialCore()
    ensures CoreOk(Core([NO_ARENA], [EMPTY_ENTRY], []))
  {
    var c := Core([NO_ARENA], [EMPTY_ENTRY], []);
    SumZero(c.entries, LiveIn(0));
    forall p: nat ensures Cover(c, 0, p) == 0 {
      SumZero(c.entries, LiveAt(0, p));
    }
  }

  lemma InitialSafe(arenaSize: nat)
    requires arenaSize <= U32_MAX
    ensures Safe(Owners(Initial(arenaSize), map[]))
  {
    hide CoreOk;
    var w := Initial(arenaSize);
    assert Threaded(w.gpu.entries, OffsetOf(), IsLive(), 0, []);
    InitialCore();
    assert Sound(w.gpu);
  }

  /** The state after a run of operations, from an allocator with the given arena
      size; an operation that its caller may not make is left out. */
  ghost function Run(arenaSize: nat, ops: seq<Op>): (o: Owners)
    requires arenaSize <= U32_MAX
    ensures Safe(o)
  {
    if ops == [] then
      InitialSafe(arenaSize);
      Owners(Initial(arenaSize), map[])
    else
      var o := Run(arenaSize, ops[..|ops| - 1]);
      var op := ops[|ops| - 1];
      if Allowed(o.world, op) then
        StepSafe(o, op);
        Step(o, op)
      else o
  }

  // ---- Runs in which nothing is lost ----

  /** No owner ever writes to an allocation while it is being copied. */
  ghost predicate Careful(arenaSize: nat, ops: seq<Op>)
    requires arenaSize <= U32_MAX
  {
    ops != [] ==>
      && Careful(arenaSize, ops[..|ops| - 1])
      && (ops[|ops| - 1].Write? ==> !Copied(Run(arenaSize, ops[..|ops| - 1]).world.gpu, ops[|ops| - 1].id))
  }

  /** No byte is lost, and none is missed by a copy. */
  ghost predicate Spotless(o: Owners) {
    forall id :: id in o.accounts ==>
      && o.accounts[id].lost == {}
      && (Copied(o.world.gpu, id) ==> o.accounts[id].missed == {})
  }

  lemma StepSpotless(o: Owners, op: Op)
    requires Safe(o) && Allowed(o.world, op) && Spotless(o)
    requires op.Write? ==> !Copied(o.world.gpu, op.id)
    ensures Spotless(Step(o, op))
  {
    hide Sound, MemoryOk, Tallied, Allocate, TryDeallocate, Defragment, Process, Contents, CopyOf, FindMove, WriteAt, Accurate;
    match op
    case Alloc(size, options) => AllocateKeeps(o.world, size, options);
    case Free(id) => DeallocateKeeps(o.world, id);
    case Defrag(budget, plan) =>
      ProcessReady(o.world);
      ProcessBytes(o.world);
      DefragmentBytes(o.world, budget, plan);
    case Complete => ProcessBytes(o.world);
    case Write(id, index, value) => WriteKeeps(o.world, id, index, value);
    case _ =>
  }

  /** As long as nobody writes to what is being copied, everything reads back as it
      was written. */
  lemma {:induction false} CarefulRunsLoseNothing(arenaSize: nat, ops: seq<Op>)
    requires arenaSize <= U32_MAX && Careful(arenaSize, ops)
    ensures var o := Run(arenaSize, ops);
            && Spotless(o)
            && forall id :: 0 <= id < |o.world.gpu.entries| && o.world.gpu.Live(id) ==>
                 id in o.accounts && Contents(o.world, id) == o.accounts[id].written
  {
    hide Step, Allowed, Spotless, Contents, Safe, Copied;
    if ops == [] {
      NoAccounts(arenaSize);
    } else {
      var init, op := ops[..|ops| - 1], ops[|ops| - 1];
      CarefulRunsLoseNothing(arenaSize, init);
      var o := Run(arenaSize, init);
      if Allowed(o.world, op) {
        StepSpotless(o, op);
      }
    }
    AllRead(Run(arenaSize, ops));
  }

  lemma NoAccounts(arenaSize: nat)
    ensures Spotless(Owners(Initial(arenaSize), map[]))
  {
  }

  lemma AllRead(o: Owners)
    requires Safe(o) && Spotless(o)
    ensures forall id :: 0 <= id < |o.world.gpu.entries| && o.world.gpu.Live(id) ==>
              id in o.accounts && Contents(o.world, id) == o.accounts[id].written
  {
    hide WorldOk, Contents;
    forall id | 0 <= id < |o.world.gpu.entries| && o.world.gpu.Live(id)
      ensures id in o.accounts && Contents(o.world, id) == o.accounts[id].written
    {
      assert Accurate(o.world, id, o.accounts[id]);
    }
  }
}
