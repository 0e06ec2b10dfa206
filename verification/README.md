# Verified models of ouly's relocating allocators

This project models the parts of ouly that move things which other code still
points at, and proves that nothing is lost on the way.

- **gpu_allocator** (the files `Gpu*.dfy`). Arenas, stable
  allocation ids, reserved destinations and the evacuation protocol: each move is
  planned, copied, switched and retired, or cancelled, while allocations,
  releases and refusals by the executor interleave. The tests' memory owner and
  executor are part of the model, with real byte buffers.
- **compacting_allocator** (`Sliding.dfy`, `Packing.dfy`, `Merging.dfy`,
  `Compacting*.dfy`). Live blocks slide to the front by merged, overlapping moves
  under a byte budget.
- **alignment.hpp** (`Alignment.dfy`), **mini0** (`LowerBound.dfy`) and
  **index_map** (`IndexMap.dfy`).

`FreeList.dfy`, `EntryTable.dfy` and `Sums.dfy` are shared by both allocators:
the sorted list of free ranges, the chain of free table slots, and counting.
`dafny verify dfyconfig.toml` checks everything.

## How it is built

Each allocator is modelled twice. As a value, its operations are functions on a
state, and the theorems are about those functions. As an object
(`CompactingAllocator.Allocator`, `GpuAllocator.Allocator`), its methods have the
source's fields, branches and loops, and each is proved to do what the function
does. The tests' helpers `compact_mem`, `gpu_memory` and `gpu_executor` are
classes in the same way.

The GPU allocator's central invariant (`GpuCore.CoreOk`) counts, for every arena
and every byte, who covers it: live allocations, destinations reserved by pending
moves, sources switched away from but not yet retired, and the free ranges. Each
byte of an active arena is covered exactly once. Disjointness, conservation of
space, the exactness of the three counters of an arena and the fact that an arena
is empty exactly when its free total is its capacity all follow from that count.
Every step is shown to keep it.

The bytes are a second layer (`GpuBytes`, `GpuContents`). An allocation's contents
are what its id reads back; a copy under way has bytes of its own at the move's
destination. A switch makes the copy the contents, a copy starts with the contents,
and nothing else any call does changes a byte of either. `GpuRuns` keeps an account
of what each owner wrote, which bytes of it are lost and which the copy under way
misses, and proves it accurate in every reachable state.

The functions are what the methods are proved against, so what they compute is in
turn stated without them, in the fields of the entries, arenas, moves and ranges:
where an allocation goes (`GpuOwners.AllocateKeeps`), which arena is evacuated
(`GpuChoice`), what becomes of each move and what the executor is told
(`GpuFates`), how far a compaction pass gets and how many moves it reports
(`Merging`).

## Main results

- Whatever callers and executor do, in any order, an allocation reads back what its
  owner wrote at exactly the indices that are not lost (`GpuRuns.Run`); nothing is
  lost if nobody writes to what is being copied
  (`GpuRuns.CarefulRunsLoseNothing`).
- An allocation changes its place if and only if its copy is complete and its
  switch accepted (`GpuPlacement.PlacementChanges`).
- After every run all blocks are in bounds and disjoint, destinations are aligned
  and proper, and space is conserved (`GpuReachable.EveryRunIsLaidOut`).
- An evacuation whose first copy is refused leaves no trace, range for range
  (`GpuOutcomes.RefusedLeavesNoTrace`). A refusal ends an evacuation at once exactly
  when nothing else is in flight (`GpuOutcomes.RefusalEnds`); in any case two
  completing calls end it once nothing is only reserved
  (`GpuEndings.EvacuationEnds`).
- An evacuation that nobody hinders recovers its source if and only if the budget of
  one call covers its largest move, and then within as many calls as it has moves
  (`GpuCompletion.EvacuationCompletes`, `GpuCompletion.RecoversExactlyIf`).
- What becomes of every move in a call follows from its state, the timeline and what
  is refused (`GpuFates.ProcessFates`); scheduling, which searches from the first
  move each time, comes to one pass over them (`GpuFates.SchedulingIsOnePass`).
- The arena evacuated is the one with the most free space, of those with as much the
  smallest, then the one with fewest allocations, then the lowest number, but for
  those with which planning gets stuck (`GpuChoice.ChosenArena`); the order in which
  its allocations have their turn determines where they go (`GpuChoice.OnePlacing`).
- The planner places every move best in what the moves before it leave, gives up on
  an arena only when that gets stuck, and a plan it found can always be reserved as
  a whole (`GpuPlanner.SimulateEvacuation`,
  `GpuAllocator.Allocator.BeginEvacuation`); reserving is all or nothing
  (`GpuAllocator.Allocator.ReservePlan`).
- No buffer is lost track of over any run (`GpuReachable.EveryRunBalances`).
- Replaying the compacting allocator's merged moves carries every byte, for every
  layout and every budget (`Sliding.SlideCarriesBytes`, `CompactingRuns.Run`); there
  are as many as runs of blocks that move as one piece (`Merging.MovesAreRuns`);
  repeated passes pack everything exactly when the budget reaches every block that
  has to move (`Packing.PassesPackExactly`, `CompactingRuns.CompactionsPackExactly`).

## Where the code does not do what it says

The models follow the code. In six places it differs from what its documentation
or tests promise; each is stated with an input that shows it and with the exact
condition.

- *Empty arenas can stay.* Cancelling a reservation does not look at the
  destination it empties. Releasing an allocation leaves an empty arena behind if
  and only if its reservation was all its destination held
  (`GpuFindings.EmptyArenaStays`, with the aborting case in `GivingUpLeavesEmpty`).
  `GpuLeak.EmptyArenaLeaks` is a run of seven calls after which every allocation
  is gone and one buffer is left; the plan it evacuates by is the one that the
  planner finds.
- *A new allocation can count as relocating.* An id released while its old source
  is retiring can be given out again; `is_relocating` then speaks of the old
  allocation, and `set_movable` asserts. This happens if and only if the slot at the
  head of the free ones is still retiring (`GpuFindings.NewbornRelocating`;
  `GpuMishaps.ANewbornRelocates` is a run).
- *A write during a copy can be lost.* Nothing stops an owner from writing to an
  allocation whose copy has been scheduled. The byte survives the next completion if
  and only if that does not switch the allocation or the copy has the same byte
  (`GpuFindings.WriteDuringCopy`, and over runs `GpuRuns.Run`;
  `GpuMishaps.AByteIsLost` is a run).
- *A frozen arena can stay frozen.* The class comment says that copies can be
  submitted over many calls without risking an evacuation that cannot be completed.
  A plan is begun under any budget that is not nothing, but a move larger than the
  byte budget is never scheduled: with the same budget the source is recovered if
  and only if it covers the largest move (`GpuCompletion.RecoversExactlyIf`;
  `GpuMishaps.AnEvacuationNeverEnds` is one that is never done).
- *The last key of an index map.* With the base at zero, asking for the null key
  asks for 2^32 slots, which wraps to zero (`IndexMap.SpanOverflows`,
  `IndexMap.NullKeyFails`).
- *index_map's comment* says the list grows to start at zero once the limit of
  indices is reached; the code moves the base to zero only when a key below the
  base comes after that (`IndexMap.GrownExactly`, `IndexMap.RunBaseAtZero`;
  `IndexMap.LimitReachedAboveZero` is a run).

One more is not a statement about values: `alignment::log2` names the next smaller
instance in both arms of its conditional, so the template recursion has no end as
written. The recursion it intends, with -1 at zero, is modelled.

## Model

| member | source | states |
|---|---|---|
| Alignment.AlignOffsetExact | include/ouly/allocators/alignment.hpp:58-68 | at every width, the result is the least multiple of the alignment not below the offset, and there is none exactly when that multiple does not fit the word |
| Alignment.AlignPaddingExact | include/ouly/allocators/alignment.hpp:103-111 | the padding is the one number below the alignment that makes the address, modulo the word, a multiple of it |
| Alignment.RoundingAgrees | include/ouly/allocators/alignment.hpp:58-136 | align_offset, align_padding, align_size and align all round to the same value when nothing wraps |
| Alignment.RoundingWraps | include/ouly/allocators/alignment.hpp:113-136 | where the rounded value does not fit the word, align_size and align wrap to zero while align_offset reports it |
| Alignment.MaskRounding | include/ouly/allocators/alignment.hpp:113-128 | the mask of align_size rounds up for every value if and only if the alignment is a power of two |
| Alignment.RoundingLaws | include/ouly/allocators/alignment.hpp:54-68 | rounding is idempotent and monotone, and rounding to a smaller alignment is absorbed by a larger one |
| Alignment.PowerOfTwoTest | include/ouly/allocators/alignment.hpp:125-128 | the clear-lowest-bit test holds exactly for the powers of two |
| Alignment.Log2Meaning | include/ouly/allocators/alignment.hpp:40-44 | the halving recursion gives the position of the highest bit, and its power equals the value exactly for powers of two |
| LowerBound.Mini0 | unit_tests/basic_tests.cpp:20-34 | the index of the first element not below the key, which is the count of smaller elements, for sorted input of any length including 0, 1 and 2; every access is inside the window, and exactly Rounds + 2 elements are compared |
| LowerBound.CandidatesLeft | unit_tests/basic_tests.cpp:20-25 | k rounds of ceiling halving leave ceil(n / 2^k) candidates |
| LowerBound.RoundsLeaveTwo | unit_tests/basic_tests.cpp:29-30 | after Rounds(n) rounds, and no earlier, at most two candidates are left |
| LowerBound.RoundsAreLogarithmic | unit_tests/basic_tests.cpp:29-32 | for n > 2 the loop runs ceil(log2 n) - 1 times |
| IndexMap.RunRefinesPlainMap | include/ouly/containers/index_map.hpp:42-69 | any sequence of writes that fits reads back as the plain map built from the same writes; unwritten keys read null, size and base bracket every written key |
| IndexMap.WriteUpdates | include/ouly/containers/index_map.hpp:42-69 | a write changes the value of its key and of no other, whether the base stays, moves down to the key (map empty or fewer slots than the limit) or falls to zero; the slots then reach from that base to the old end or just past the key; it fails exactly when they would not fit in a word |
| IndexMap.SpanOverflows | include/ouly/containers/index_map.hpp:64-67 | the slot count wraps if and only if the base is or becomes zero and the last key is asked for or already held |
| IndexMap.NullKeyFails | include/ouly/containers/index_map.hpp:64-67 | a concrete run: after writing key 0, writing the last key asks for 2^32 slots, which is zero in 32 bits |
| IndexMap.BaseAtZero | include/ouly/containers/index_map.hpp:46-61 | a write leaves the base at zero exactly if it was there, or the key is below the base and is zero or finds the limit reached; the new base and the number of slots in each case |
| IndexMap.GrownExactly | include/ouly/containers/index_map.hpp:10-17 | after a write the list starts at zero once the limit is reached, as the class comment has it, exactly if the write leaves fewer slots than the limit, the base was at zero, or the write moves it there |
| IndexMap.RunBaseAtZero | include/ouly/containers/index_map.hpp:46-61 | after any run of writes the base is at zero exactly if some write of the run moved it there |
| IndexMap.LimitReachedAboveZero | include/ouly/containers/index_map.hpp:10-17 | a concrete run: with a limit of one, writing key 24 reaches the limit and leaves the base at 24 |
| IndexMap.WrappedDifference | include/ouly/containers/index_map.hpp:71-96 | the unsigned difference key - base is below the size exactly for the keys held, so one comparison does the range check |
| IndexMap.Map.Shift | include/ouly/containers/index_map.hpp:187-208 | moving the base down moves every slot up by as much, overlapping itself, and fills with null |
| IndexMap.Map.At | include/ouly/containers/index_map.hpp:42-69 | the slot of a key after making room for it, with the new base and the number of slots, or none where the slot count wraps |
| IndexMap.Map.Set | unit_tests/basic_tests.cpp:225-318 | assigning through the reference is the write on values: which base, how many slots, and what each key reads |
| IndexMap.Map.Find | include/ouly/containers/index_map.hpp:83-90 | the value stored for the key, null where there is none |
| IndexMap.Map.Contains | include/ouly/containers/index_map.hpp:71-81 | whether the key has a slot |
| IndexMap.Map.Clear | include/ouly/containers/index_map.hpp:104-111 | the empty map |
| FreeList.CarveFree | src/ouly/allocators/gpu_allocator.cpp:516-545 | reserving a block takes exactly its bytes out of the free bytes |
| FreeList.CarveWellFormed | src/ouly/allocators/gpu_allocator.cpp:516-545 | the remaining ranges are non-empty, in order and separated |
| FreeList.CarveTotal | src/ouly/allocators/gpu_allocator.cpp:540 | the free total falls by the size of the block |
| FreeList.ReleaseFree | src/ouly/allocators/gpu_allocator.cpp:555-585 | giving a block back adds exactly its bytes, whichever neighbours it merges with |
| FreeList.ReleaseWellFormed | src/ouly/allocators/gpu_allocator.cpp:555-585 | the list stays ordered and fully merged, and the free total grows by the size |
| FreeList.Canonical | src/ouly/allocators/gpu_allocator.cpp:23-51 | two well-formed lists with the same free bytes are the same list |
| FreeList.FirstIsLowest | src/ouly/allocators/compacting_allocator.cpp:10-33 | the first range large enough starts at the lowest place with that many free bytes in a row |
| FreeList.CarveThenRelease | src/ouly/allocators/compacting_allocator.cpp:10-70 | carving a block and releasing it restores the list range for range |
| FreeList.FullTotal | src/ouly/allocators/gpu_allocator.cpp:685-690 | the free total equals the capacity exactly when the list is the one full range |
| EntryTable.PopKeeps | src/ouly/allocators/gpu_allocator.cpp:204-236 | taking the head of the chain of free slots leaves a chain of exactly the other free slots |
| EntryTable.AppendKeeps | src/ouly/allocators/gpu_allocator.cpp:213-225 | a live slot at the end leaves the chain alone |
| EntryTable.PushKeeps | src/ouly/allocators/gpu_allocator.cpp:250-252 | a released slot goes to the front of the chain |
| Sliding.SlidePlaces | include/ouly/allocators/compacting_allocator.hpp:108-141 | the pass keeps the blocks in order, raises no offset, stays within the budget, and when it completes ends at the sum of the sizes |
| Sliding.MergedMovesReplay | include/ouly/allocators/compacting_allocator.hpp:120-133 | replaying the merged moves changes a buffer exactly as sliding one block at a time, with no more moves than blocks moved |
| Sliding.MovesCountBytes | include/ouly/allocators/compacting_allocator.hpp:120-133 | merged or not, the moves carry as many bytes as the pass reports |
| Merging.SlideStops | include/ouly/allocators/compacting_allocator.hpp:108-141 | a pass packs the blocks up to a point and leaves those behind it alone; the point is the first block out of place that the budget, less the bytes moved before it, does not cover; bytes, moves of allocations and completion follow from it |
| Merging.MovesAreRuns | include/ouly/allocators/compacting_allocator.hpp:120-133 | no two neighbouring moves touch on both sides, and there are as many as maximal runs of moved blocks that are neighbours before and after |
| Sliding.SlideCarriesBytes | unit_tests/compacting_allocator.cpp:46-68 | every move is strictly leftward and in bounds, and after replaying all of them, each overlapping itself or old blocks, every block reads its old bytes at its new offset |
| Sliding.GapsAreUncovered | include/ouly/allocators/compacting_allocator.hpp:134-147 | the gaps recorded are exactly the bytes below the cursor that no placed block covers |
| Packing.CompletedMeansPacked | unit_tests/compacting_allocator.cpp:142-151 | a completed pass leaves the blocks tiling [0, live bytes) |
| Packing.PackedIsIdle | unit_tests/compacting_allocator.cpp:142-151 | a pass over packed blocks moves nothing |
| Packing.AmpleBudgetCompletes | unit_tests/compacting_allocator.cpp:116-140 | a budget of all the live bytes always completes |
| Packing.OffsetsFall | unit_tests/compacting_allocator.cpp:154-195 | the sum of offsets strictly falls with every pass that moves anything |
| Packing.PassProgress | unit_tests/compacting_allocator.cpp:154-195 | if the block at the first gap fits the budget, a pass packs at least one more block |
| Packing.PassesPackExactly | unit_tests/compacting_allocator.cpp:154-195 | repeated budgeted passes reach the packed state if and only if no block behind the packed prefix is larger than the budget |
| Compacting.AllocateKeeps | src/ouly/allocators/compacting_allocator.cpp:10-33 | an allocation lies at the lowest place with that many free bytes in a row, gets the head of the free slots or a new one, changes no other entry and keeps free and live blocks tiling the space; it fails exactly when there is no such place |
| Compacting.DeallocateKeeps | src/ouly/allocators/compacting_allocator.cpp:35-70 | releasing keeps free and live blocks tiling the space, changes no other entry, and the slot is the next to be given out |
| Compacting.AllocateThenDeallocate | src/ouly/allocators/compacting_allocator.cpp:10-70 | releasing a new allocation restores the free blocks exactly |
| Compacting.CompactKeeps | include/ouly/allocators/compacting_allocator.hpp:69-154 | compaction keeps the tiling and the chain of free slots, and the live blocks are the placed ones |
| CompactingRuns.CompletedMeansFullyPacked | include/ouly/allocators/compacting_allocator.hpp:69-154 | the result says completed if and only if all free space is one block behind the live bytes |
| CompactingRuns.UnbudgetedCompletes | unit_tests/compacting_allocator.cpp:116-151 | without a budget the pass always completes |
| CompactingRuns.CompletedIsIdle | unit_tests/compacting_allocator.cpp:142-151 | after a completed pass another one, under any budget, makes no move and keeps the free list |
| CompactingRuns.AllocatedAtFront | unit_tests/compacting_allocator.cpp:142-151 | in a packed heap the next allocation lies right behind the live bytes |
| CompactingRuns.CompactionsPackExactly | unit_tests/compacting_allocator.cpp:154-195 | repeated compaction under one budget leaves all free space in one range if and only if every block out of place fits the budget, and then after at most one pass more than there are blocks |
| CompactingRuns.Run | unit_tests/compacting_allocator.cpp:72-114 | after every run of allocations, releases and budgeted passes every live allocation reads back its pattern, and free and live blocks tile the space |
| CompactingAllocator.CompactMem.Track | unit_tests/compacting_allocator.cpp:36-44 | the buffer is grown and the allocation filled with its pattern |
| CompactingAllocator.CompactMem.MoveMemory | unit_tests/compacting_allocator.cpp:46-54 | a leftward copy from the first byte on is a memmove |
| CompactingAllocator.CompactMem.VerifyAll | unit_tests/compacting_allocator.cpp:56-67 | true exactly when every tracked allocation reads its pattern |
| CompactingAllocator.Allocator.PushEntry | src/ouly/allocators/compacting_allocator.cpp:131-150 | the slot taken and its contents |
| CompactingAllocator.Allocator.TakeFront | src/ouly/allocators/compacting_allocator.cpp:19-29 | the front of a free block is carved off |
| CompactingAllocator.Allocator.Allocate | src/ouly/allocators/compacting_allocator.cpp:10-33 | first fit, as the operation on values |
| CompactingAllocator.Allocator.GiveBack | src/ouly/allocators/compacting_allocator.cpp:42-69 | the four merge cases are one release |
| CompactingAllocator.Allocator.Deallocate | src/ouly/allocators/compacting_allocator.cpp:35-70 | as the operation on values |
| CompactingAllocator.Allocator.Compact | include/ouly/allocators/compacting_allocator.hpp:69-154 | the new heap and buffer; where the pass stops and where every block goes, from sizes, offsets and the budget; the result's four fields, the moves being as many as there are runs of blocks that move as one piece, and no two of them touching |
| CompactingAllocator.Allocator.PassOver | include/ouly/allocators/compacting_allocator.hpp:108-147 | the loop over the blocks is the slide; its moves are merged wherever they touch on both sides |
| CompactingAllocator.Allocator.PlaceItem | include/ouly/allocators/compacting_allocator.hpp:110-140 | one round of that loop, which keeps the moves merged |
| CompactingAllocator.Allocator.BudgetSumFits | include/ouly/allocators/compacting_allocator.hpp:113-113 | the sum compared with the budget never wraps |
| CompactingAllocator.Allocator.CollectItems | include/ouly/allocators/compacting_allocator.hpp:80-96 | the live blocks in offset order |
| CompactingAllocator.Allocator.ReportMoves | include/ouly/allocators/compacting_allocator.hpp:149-152 | the callback is given every move in order |
| GpuCore.LiveBlocksApart | src/ouly/allocators/gpu_allocator.cpp:734-793 | two live blocks of an arena share no byte |
| GpuCore.LiveAndHeldApart | src/ouly/allocators/gpu_allocator.cpp:759-774 | a live block and a block held by a move share no byte |
| GpuCore.HeldBlocksApart | src/ouly/allocators/gpu_allocator.cpp:759-774 | reserved destinations and sources still retiring share no byte with each other |
| GpuCore.PlaceOk | src/ouly/allocators/gpu_allocator.cpp:152-174 | placing keeps every byte of every arena covered exactly once and every counter exact |
| GpuCore.RemoveOk | src/ouly/allocators/gpu_allocator.cpp:238-254 | so does releasing |
| GpuCore.ReserveOk | src/ouly/allocators/gpu_allocator.cpp:325-349 | so does reserving a destination |
| GpuCore.ReturnOk | src/ouly/allocators/gpu_allocator.cpp:587-594 | so does cancelling a pending move or retiring a source |
| GpuCore.SwitchOk | src/ouly/allocators/gpu_allocator.cpp:661-675 | so does switching: allocation and move trade blocks |
| GpuCore.EmptyMeansFree | src/ouly/allocators/gpu_allocator.cpp:685-690 | an arena's free total equals its capacity exactly when no live, reserved or retiring block lies in it |
| GpuInvariant.PlaceSound | src/ouly/allocators/gpu_allocator.cpp:204-236 | a placement keeps the whole invariant and touches nothing else |
| GpuInvariant.CreateSound | src/ouly/allocators/gpu_allocator.cpp:176-202 | a new arena takes a free slot or a new one and keeps the invariant |
| GpuInvariant.RemoveSound | src/ouly/allocators/gpu_allocator.cpp:238-254 | removing an allocation without a pending move keeps the invariant |
| GpuMoves.CancelSound | src/ouly/allocators/gpu_allocator.cpp:587-594 | cancelling a pending move keeps the invariant |
| GpuMoves.AbortSound | src/ouly/allocators/gpu_allocator.cpp:596-611 | aborting leaves nothing reserved, keeps moves already under way, and keeps the invariant |
| GpuMoves.SwitchSound | src/ouly/allocators/gpu_allocator.cpp:661-675 | switching keeps the invariant and binds the allocation to the destination |
| GpuMoves.RetireSound | src/ouly/allocators/gpu_allocator.cpp:677-683 | retiring a source keeps the invariant |
| GpuMoves.EndSound | include/ouly/allocators/gpu_allocator.hpp:514-524 | ending a finished evacuation unfreezes the source and keeps the invariant |
| GpuMoves.DropSound | src/ouly/allocators/gpu_allocator.cpp:692-703 | dropping a releasable arena keeps the invariant, leaves the other arenas in the same sequence and frees its slot last |
| GpuAllocate.FitIsAligned | src/ouly/allocators/gpu_allocator.cpp:156-164 | the offset chosen in a free range is a multiple of the alignment |
| GpuAllocate.FitIsLeast | src/ouly/allocators/gpu_allocator.cpp:156-164 | if an aligned block can lie in a range there is a fit, and no place for it in the range is lower |
| GpuAllocate.FirstFitIsLowest | src/ouly/allocators/gpu_allocator.cpp:152-174 | the first range that fits gives the lowest aligned offset with room in the arena |
| GpuAllocate.TryInArenaSound | src/ouly/allocators/gpu_allocator.cpp:152-174 | the block is placed at the lowest aligned offset with room in the arena and recorded with the alignment, classes and flag asked for; not placed exactly when no offset has room |
| GpuAllocate.TryAllocateSound | src/ouly/allocators/gpu_allocator.cpp:134-150 | the block enters the first arena of the order that is unfrozen, not dedicated, of the right class and has room, at the lowest aligned offset that has; none only if no arena has |
| GpuAllocate.FreshSound | include/ouly/allocators/gpu_allocator.hpp:229-238 | the block always fits at the front of the arena made for it |
| GpuPlan.BeginStepwise | src/ouly/allocators/gpu_allocator.cpp:325-391 | reserving the whole plan and then freezing the source is the same as freezing first and adding the moves one by one |
| GpuPlan.BeginSound | src/ouly/allocators/gpu_allocator.cpp:382-391 | beginning a plan keeps the invariant, and every allocation of the source has a move |
| GpuWorld.AllocateIs | include/ouly/allocators/gpu_allocator.hpp:214-239 | an allocation enters the first existing arena with room without touching memory, or, if it is dedicated or none has room, a new one with a new buffer |
| GpuSchedule.PendingFits | unit_tests/gpu_allocator.cpp:59-65 | what the executor demands of a copy holds for every pending move |
| GpuBytes.SwitchContents | include/ouly/allocators/gpu_allocator.hpp:369-380 | switching keeps the allocation's bytes if and only if the destination mirrors the source at that moment, and everybody else's in any case |
| GpuBytes.ScheduleBytes | unit_tests/gpu_allocator.cpp:53-68 | the copy has the bytes its allocation reads, changes no live allocation's bytes and no other copy under way |
| GpuBytes.ReleaseContents | include/ouly/allocators/gpu_allocator.hpp:504-512 | removing an arena loses nobody's bytes |
| GpuTally.GiveUpIs | include/ouly/allocators/gpu_allocator.hpp:324-329 | cancel and abort cancel the refused move and all reserved ones, and change nothing else but the arenas |
| GpuCalls.ProcessOk | include/ouly/allocators/gpu_allocator.hpp:353-395 | completing moves keeps the invariant and the accounts, whatever the executor refuses |
| GpuCalls.DefragmentOk | include/ouly/allocators/gpu_allocator.hpp:301-350 | so does defragmenting, for every budget, plan and pattern of refusals |
| GpuCalls.ProcessOrder | include/ouly/allocators/gpu_allocator.hpp:353-395 | completing leaves the arenas that remain in the same sequence |
| GpuCalls.DefragmentOrder | include/ouly/allocators/gpu_allocator.hpp:301-350 | so does defragmenting |
| GpuContents.ProcessBytes | include/ouly/allocators/gpu_allocator.hpp:353-395 | after completing, an allocation reads what its copy held if its copy is complete and its switch accepted, and what it read before if not; no copy still under way changes |
| GpuContents.DefragmentBytes | include/ouly/allocators/gpu_allocator.hpp:301-350 | planning and scheduling change nobody's bytes; every copy they start has the bytes its allocation then reads, and no other copy changes |
| GpuOwners.AllocateKeeps | include/ouly/allocators/gpu_allocator.hpp:213-239 | allocating always succeeds; the block lies in the first unfrozen, undedicated arena of the class with room, at the lowest aligned offset, or alone in a new arena, dedicated or of the arena size, that becomes the last of the order; size, alignment, classes and movability are recorded as asked, dedicated blocks pinned; nobody is disturbed, nor any copy under way |
| GpuOwners.DeallocateKeeps | include/ouly/allocators/gpu_allocator.hpp:260-271 | releasing is refused exactly while a copy of the allocation is under way, and then changes nothing; otherwise nobody else loses a byte or an entry, the id is the next to be given out, and the arenas that are left keep their sequence |
| GpuOwners.WriteKeeps | unit_tests/gpu_allocator.cpp:91-98 | writing a byte changes that byte of the owner's and no other, and no copy under way, not even the owner's own |
| GpuRuns.Run | unit_tests/gpu_allocator.cpp:100-110 | after every run of allocations, releases, writes, pins, defragmentations, completions and executor decisions, every allocation reads at each index what its owner wrote there last if and only if that byte is not lost (a byte is lost by an accepted switch to a copy that missed it, and found again by the next write to it), and has the alignment and the classes that its owner asked for |
| GpuRuns.CarefulRunsLoseNothing | unit_tests/gpu_allocator.cpp:100-110 | after every run in which nobody writes to an allocation while it is being copied, every allocation reads exactly what its owner wrote |
| GpuPlacement.ProcessPlaces | include/ouly/allocators/gpu_allocator.hpp:362-381 | where every allocation lies after completing |
| GpuPlacement.DefragmentPlaces | include/ouly/allocators/gpu_allocator.hpp:301-350 | planning and scheduling move nothing |
| GpuPlacement.PlacementChanges | include/ouly/allocators/gpu_allocator.hpp:184-186 | an allocation changes its place if and only if its copy is complete and its switch accepted; it then lies where the move reserved its place, in another arena |
| GpuPlacement.PinnedStays | unit_tests/gpu_allocator.cpp:242-266 | pinned and dedicated allocations never move |
| GpuFates.MoveTurn | include/ouly/allocators/gpu_allocator.hpp:362-390 | what the turn of a move comes to, in the move, the other moves, the timeline, the executor's log and the result: accepted, it waits for the value just answered or is retired at once; rejected, it is cancelled with all that are only reserved; the relocation told has its id, allocation, both ends, size and classes |
| GpuFates.ProcessFates | include/ouly/allocators/gpu_allocator.hpp:353-395 | what becomes of every move in a completing call, from its state, its timeline values and what is refused; when none is left under way the evacuation is over; the bytes copied and moves completed that are reported |
| GpuFates.ScheduleTurn | include/ouly/allocators/gpu_allocator.hpp:311-340 | an accepted copy waits for the value just answered, and the relocation told has the move's id, allocation, both ends, size and classes |
| GpuFates.SchedulingIsOnePass | include/ouly/allocators/gpu_allocator.hpp:311-340 | searching for a schedulable move from the first one each time comes to one pass over the moves, taking each reserved one that the bytes left cover until the budget or the executor stops it |
| GpuFates.DefragmentFates | include/ouly/allocators/gpu_allocator.hpp:301-350 | what becomes of every move in a defragmenting call: those under way after completing, or the plan's, numbered on from the last, taken through that one pass |
| GpuAccounts.ProcessReported | include/ouly/allocators/gpu_allocator.hpp:353-395 | the lifetime totals grow by what the result reports, and nothing is scheduled |
| GpuAccounts.DefragmentReported | include/ouly/allocators/gpu_allocator.hpp:311-349 | no more bytes and moves are scheduled than budgeted, totals and logs grow by what is reported, and the budget counts as exhausted exactly when a move is still reserved |
| GpuConservation.SpaceIsConserved | src/ouly/allocators/gpu_allocator.cpp:23-51 | free, live and held bytes add up to the capacity of every active arena |
| GpuConservation.BlocksDetermineArenas | unit_tests/gpu_allocator.cpp:268-331 | without a move holding a block, the live allocations determine every arena, down to its list of free ranges |
| GpuOutcomes.RemovedOnce | include/ouly/allocators/gpu_allocator.hpp:504-512 | an arena is removed only when no block lies in it and its buffer is there; an active unfrozen arena is removed if and only if it is empty |
| GpuOutcomes.FinishedReleases | include/ouly/allocators/gpu_allocator.hpp:514-538 | an evacuation that was not aborted ends with its source removed |
| GpuOutcomes.RefusedLeavesNoTrace | unit_tests/gpu_allocator.cpp:268-297 | if the first copy that the budget allows is refused, the call leaves arenas, allocations, memory and executor exactly as they were |
| GpuOutcomes.EndsWhenNothingInFlight | include/ouly/allocators/gpu_allocator.hpp:514-538 | once nothing is only reserved the evacuation ends exactly when nothing is being copied or retiring; then nothing is frozen, no other arena changes, the others keep their sequence, and the source is gone exactly if nobody is left in it |
| GpuOutcomes.RefusalEnds | include/ouly/allocators/gpu_allocator.hpp:322-329 | a refusal, of a copy or of a switch, unfreezes the source then and there exactly when no other move is being copied or retiring |
| GpuOutcomes.GivenUpCompletion | include/ouly/allocators/gpu_allocator.hpp:353-395 | a completing call that finds the evacuation given up, or gives it up, ends it exactly when nothing is in flight after its loop, and does nothing more otherwise |
| GpuOutcomes.GivenUpCall | include/ouly/allocators/gpu_allocator.hpp:301-350 | so does a defragmenting call, after completing and scheduling |
| GpuEndings.EvacuationEnds | unit_tests/gpu_allocator.cpp:299-331 | whatever switches are refused, once nothing is only reserved two completing calls end the evacuation, the executor keeping pace: switched allocations lie at their destinations and read their copies, the others keep place and bytes, nothing is frozen, the other arenas keep their sequence, and the source is gone exactly if it is empty |
| GpuEndings.RefusedSwitchesRestore | unit_tests/gpu_allocator.cpp:299-331 | if all switches are refused and the source is not empty, all arenas are again as before the evacuation, range for range |
| GpuLiveness.CallProceeds | include/ouly/allocators/gpu_allocator.hpp:311-340 | if nothing is refused a call keeps every move on its plan, schedules at least one move if it can afford one, and never one it cannot |
| GpuCompletion.EvacuationCompletes | include/ouly/allocators/gpu_allocator.hpp:168-171 | if nothing is refused and the budget of each call covers the largest move, as many calls as there are moves, and two to complete, remove the source and its buffer and put every allocation where the plan says; nobody else moves and everybody reads what it read |
| GpuCompletion.RecoversExactlyIf | include/ouly/allocators/gpu_allocator.hpp:168-171 | the source is recovered if and only if the budget of a call covers one move, the largest; with any smaller budget it is still there after any number of calls |
| GpuMishaps.AnEvacuationNeverEnds | include/ouly/allocators/gpu_allocator.hpp:168-171 | a concrete state, reached by a run, and a plan the planner finds there, whose evacuation is still under way after any number of calls with a budget of one byte |
| GpuFindings.EmptyArenaStays | include/ouly/allocators/gpu_allocator.hpp:260-271 | releasing an allocation leaves an empty arena behind if and only if its cancelled reservation was all its destination held |
| GpuFindings.GivingUpLeavesEmpty | src/ouly/allocators/gpu_allocator.cpp:596-611 | exactly which arenas an aborted evacuation leaves empty |
| GpuLeak.OnlyPlan | src/ouly/allocators/gpu_allocator.cpp:351-391 | in the state of that run the planner finds one plan, whatever its scan limit, and it can find no other |
| GpuLeak.EmptyArenaLeaks | unit_tests/gpu_allocator.cpp:233-240 | a concrete run of seven calls, with the one plan that the planner can find, after which nothing is allocated and one buffer is left |
| GpuFindings.AllocatedId | src/ouly/allocators/gpu_allocator.cpp:204-213 | the id of a new allocation is the head of the free slots, or the end of the table if there is none |
| GpuFindings.NewbornRelocating | src/ouly/allocators/gpu_allocator.cpp:111-132 | a new allocation counts as relocating, and may not be pinned or unpinned, if and only if the free slot it will get is of an allocation released while its old place was still retiring |
| GpuMishaps.ANewbornRelocates | src/ouly/allocators/gpu_allocator.cpp:111-132 | a concrete run, with a plan the planner finds, on which set_movable may not be called for a new allocation |
| GpuFindings.ReleasedStillRetires | src/ouly/allocators/gpu_allocator.cpp:256-282 | releasing a switched allocation succeeds and leaves its move retiring under the free id |
| GpuFindings.WriteDuringCopy | include/ouly/allocators/gpu_allocator.hpp:148-154 | a byte that the owner writes is there after the next completion if and only if the allocation is not switched by it, or its copy has that very byte |
| GpuMishaps.AByteIsLost | include/ouly/allocators/gpu_allocator.hpp:148-154 | a concrete run, with a plan the planner finds, on which a byte written during a copy is lost |
| GpuReachable.EveryRunIsLaidOut | src/ouly/allocators/gpu_allocator.cpp:734-793 | after every run all live, reserved and retiring blocks are in bounds and disjoint, every live offset is a multiple of the alignment its owner asked for, every destination is aligned, in another unfrozen arena of the same class, for a movable allocation, and space is conserved |
| GpuReachable.EveryRunBalances | unit_tests/gpu_allocator.cpp:226-232 | after every run exactly the active arenas have buffers; those there, those counted as released and those that went with their last allocation are, in number and bytes, those that were made; between evacuations scheduled, copied and switched totals agree with the executor's logs |
| GpuBuffers.DefragmentReleases | include/ouly/allocators/gpu_allocator.hpp:514-538 | no call loses track of a buffer: what it removes it counts as released |
| GpuBuffers.EveryBufferIsAccountedFor | unit_tests/gpu_allocator.cpp:229-230 | the account of buffers, in number and bytes, over every run |
| GpuPlanner.MeasureArena | src/ouly/allocators/gpu_allocator.cpp:284-297 | the arena's live bytes, their number, and whether one is pinned |
| GpuPlanner.RankingIsTotal | src/ouly/allocators/gpu_allocator.cpp:306-323 | the ranking prefers more recovered, then fewer live bytes, then fewer allocations, then the lower arena number; it is a strict order that tells any two arenas apart |
| GpuPlanner.RankCandidates | src/ouly/allocators/gpu_allocator.cpp:371 | the same candidates; no later one recovers more, nor as much with fewer live bytes, nor with as many and fewer allocations, nor with as many and a lower number |
| GpuPlanner.RankArenas | src/ouly/allocators/gpu_allocator.cpp:353-371 | exactly the arenas that may be evacuated and hold nothing pinned, so ranked |
| GpuPlanner.CollectDestinations | src/ouly/allocators/gpu_allocator.cpp:438-463 | exactly the other unfrozen, undedicated arenas of the class, in their order, with their free space |
| GpuPlanner.FindBestFit | src/ouly/allocators/gpu_allocator.cpp:465-496 | of all ranges that can hold the aligned block the first among those with least waste and, of these, in an arena with least free space; none only if there is none |
| GpuPlanner.OccupySimulates | src/ouly/allocators/gpu_allocator.cpp:498-514 | occupying in the simulation is reserving in the arena |
| GpuPlanner.CollectMoves | src/ouly/allocators/gpu_allocator.cpp:396-410 | every allocation of the source, once |
| GpuPlanner.SortMoves | src/ouly/allocators/gpu_allocator.cpp:412-418 | the same moves; no later one is of a more aligned allocation, nor of a larger one as aligned |
| GpuPlanner.SimulateEvacuation | src/ouly/allocators/gpu_allocator.cpp:393-436 | a plan that moves everything in the source, in the order of the sort, each move to the best range of what the moves before it leave, and that can be reserved as a whole; none only if placing them so, one of them finds no range |
| GpuChoice.PlannableMayLeave | src/ouly/allocators/gpu_allocator.cpp:299-304 | between evacuations the arenas that may be planned for are exactly those in the order that are not dedicated, hold something, have free space and hold nothing pinned |
| GpuChoice.ChosenArena | src/ouly/allocators/gpu_allocator.cpp:306-391 | the arena that is evacuated has no less free space than any other that may be, but for those with which planning gets stuck; of those with as much it is no larger, of those as large it holds no more allocations, of those with as many it has the lowest number |
| GpuChoice.NoneChosen | src/ouly/allocators/gpu_allocator.cpp:351-391 | if none is chosen although all may be looked at, planning gets stuck with every arena that may be left |
| GpuChoice.OnePlacing | src/ouly/allocators/gpu_allocator.cpp:420-436 | the order in which the allocations have their turn determines where every one of them goes |
| GpuChoice.StuckOrPlaced | src/ouly/allocators/gpu_allocator.cpp:420-436 | it also determines whether planning gets stuck, and with which of them |
| GpuRollback.HeldOneLess | src/ouly/allocators/gpu_allocator.cpp:547-553 | giving back the first of several reserved blocks frees exactly its bytes |
| GpuRollback.HeldNoMore | src/ouly/allocators/gpu_allocator.cpp:343-348 | once all reservations are given back the arenas are as before |
| GpuDevices.GpuMemory.Add | unit_tests/gpu_allocator.cpp:23-33 | a zeroed buffer of the size, the tables grown to reach it |
| GpuDevices.GpuMemory.Remove | unit_tests/gpu_allocator.cpp:35-40 | the buffer, which must be there, is cleared |
| GpuDevices.GpuMemory.Copy | unit_tests/gpu_allocator.cpp:64-65 | the byte loop is the block copy |
| GpuDevices.GpuExecutor.ScheduleCopy | unit_tests/gpu_allocator.cpp:53-68 | refused without effect, or copied, logged and put on the timeline |
| GpuDevices.GpuExecutor.SwitchReferences | unit_tests/gpu_allocator.cpp:70-78 | refused without effect, or logged and put on the timeline |
| GpuDevices.Fill | unit_tests/gpu_allocator.cpp:91-98 | the block holds the pattern, no other byte changes |
| GpuDevices.Verify | unit_tests/gpu_allocator.cpp:100-110 | true exactly when the block is in bounds and holds the pattern |
| GpuAllocator.Allocator.constructor | include/ouly/allocators/gpu_allocator.hpp:580-597 | an empty allocator |
| GpuAllocator.Allocator.SetArenaSize | src/ouly/allocators/gpu_allocator.cpp:59-62 | the new size is the larger of the old one and the one asked for; nothing else changes |
| GpuAllocator.Allocator.IsRelocating | src/ouly/allocators/gpu_allocator.cpp:111-123 | whether a move of the id is neither retired nor cancelled |
| GpuAllocator.Allocator.SetMovable | src/ouly/allocators/gpu_allocator.cpp:125-132 | only the flag of that entry changes |
| GpuAllocator.Allocator.ReserveRange | src/ouly/allocators/gpu_allocator.cpp:516-545 | the first range that contains the block is carved; fails exactly when none does |
| GpuAllocator.Allocator.FreeRangeInArena | src/ouly/allocators/gpu_allocator.cpp:555-585 | the four merge cases are one release |
| GpuAllocator.Allocator.ReleaseReservedRange | src/ouly/allocators/gpu_allocator.cpp:547-553 | the range and the reservation are given back |
| GpuAllocator.Allocator.PushAllocation | src/ouly/allocators/gpu_allocator.cpp:204-236 | the slot taken and its contents |
| GpuAllocator.Allocator.TryAllocateInArena | src/ouly/allocators/gpu_allocator.cpp:152-174 | first aligned fit, as the operation on values |
| GpuAllocator.Allocator.TryAllocate | src/ouly/allocators/gpu_allocator.cpp:134-150 | the arenas in order, as the operation on values |
| GpuAllocator.Allocator.CreateArena | src/ouly/allocators/gpu_allocator.cpp:176-202 | as the operation on values |
| GpuAllocator.Allocator.AllocateInNewArena | include/ouly/allocators/gpu_allocator.hpp:229-238 | an arena with its buffer, and the block in it |
| GpuAllocator.Allocator.Allocate | include/ouly/allocators/gpu_allocator.hpp:213-239 | as the operation on the world |
| GpuAllocator.Allocator.ReleaseAllocation | src/ouly/allocators/gpu_allocator.cpp:238-254 | as the operation on values |
| GpuAllocator.Allocator.CancelMove | src/ouly/allocators/gpu_allocator.cpp:587-594 | as the operation on values |
| GpuAllocator.Allocator.PrepareDeallocate | src/ouly/allocators/gpu_allocator.cpp:256-282 | refuses exactly while the allocation is being copied, withdraws a reserved move |
| GpuAllocator.Allocator.DropArena | src/ouly/allocators/gpu_allocator.cpp:692-703 | as the operation on values, with the capacity dropped |
| GpuAllocator.Allocator.TryReleaseArena | include/ouly/allocators/gpu_allocator.hpp:504-512 | as the operation on the world |
| GpuAllocator.Allocator.TargetFinished | src/ouly/allocators/gpu_allocator.cpp:637-645 | whether every move is retired or cancelled |
| GpuAllocator.Allocator.FinishTargetIfPossible | include/ouly/allocators/gpu_allocator.hpp:514-538 | as the operation on the world, with the capacity released |
| GpuAllocator.Allocator.TryDeallocate | include/ouly/allocators/gpu_allocator.hpp:260-271 | as the operation on the world |
| GpuAllocator.Allocator.AbortEvacuation | src/ouly/allocators/gpu_allocator.cpp:596-611 | the loop cancels what is reserved |
| GpuAllocator.Allocator.FindSchedulableMove | src/ouly/allocators/gpu_allocator.cpp:613-626 | the first reserved move the bytes cover |
| GpuAllocator.Allocator.HasReservedMoves | src/ouly/allocators/gpu_allocator.cpp:628-635 | whether one is reserved |
| GpuAllocator.Allocator.SwitchAllocation | src/ouly/allocators/gpu_allocator.cpp:661-675 | counters and binding after the switch |
| GpuAllocator.Allocator.RetireSource | src/ouly/allocators/gpu_allocator.cpp:677-683 | the source block is free and no longer retiring |
| GpuAllocator.Allocator.CompleteCopyAt | include/ouly/allocators/gpu_allocator.hpp:366-380 | bytes counted, then switched or given up |
| GpuAllocator.Allocator.CompleteOne | include/ouly/allocators/gpu_allocator.hpp:362-390 | one round of process_completions |
| GpuAllocator.Allocator.ProcessCompletions | include/ouly/allocators/gpu_allocator.hpp:353-395 | the loop is the recursion over the moves |
| GpuAllocator.Allocator.ScheduleAt | include/ouly/allocators/gpu_allocator.hpp:322-340 | one copy scheduled, or the evacuation given up |
| GpuAllocator.Allocator.ScheduleWithin | include/ouly/allocators/gpu_allocator.hpp:311-340 | the loop within the budget |
| GpuAllocator.Allocator.ReservePlan | src/ouly/allocators/gpu_allocator.cpp:325-349 | all destinations reserved and numbered exactly when they can all be reserved; otherwise all arenas exactly as before |
| GpuAllocator.Allocator.BeginEvacuation | src/ouly/allocators/gpu_allocator.cpp:351-391 | the best-ranked arena, among the first few, for which placing best succeeds begins its evacuation; for each one ranked before it some allocation found no range; its plan is always reserved |
| GpuAllocator.Allocator.Defragment | include/ouly/allocators/gpu_allocator.hpp:301-350 | as the operation on the world, for a plan that the planner may find, looked for exactly if none is under way and the budget is not nothing |

## Left out

- Parallel vectors: an allocation table is a sequence of records, and a list of
  free offsets and sizes is a sequence of ranges.
- Integer widths other than those that matter: offsets, sizes and alignments are
  32-bit, and the sums compared with them are proved not to wrap; 16-bit arena
  ids, 32-bit allocation and move ids, their exhaustion asserts and the 64-bit
  totals and timeline values are unbounded numbers.
- Refusals: the tests' two failure flags are generalised to the set of moves whose
  copy, or whose switch, the executor refuses; it may change between calls.
- The scratch allocators that planning takes its buffers from: they hold
  temporaries only.
- Ties of the library sort: the order of moves of equal alignment and size is
  whatever the sort does; the contracts do not depend on it. Library functions
  (sort, lower_bound, memmove, move_backward, find) are modelled by what they do.
- validate_integrity as a procedure: what it asserts is the invariant that every
  operation is proved to keep.
- statistics() apart from the stored totals: the two numbers it derives from the
  moves are not modelled.
- The memory-manager and executor concepts: the model has the tests' instances,
  with a memory class given to every arena.
- index_map with an offset limit of zero, its iterators, and its unchecked const
  subscript.
- align, align_offset and the others as templates: they are functions of the word
  width; alignment_of and the trait is_trivial_alignment_v only convert types.
- Every other allocator, container, scheduler and serializer of the library.
- GpuAllocator.Allocator.SwitchAllocation: states the new counters and bindings; the state of the move is set by its caller, as in the source.
- GpuAllocator.Allocator.RetireSource: states the arenas only, for the same reason.
