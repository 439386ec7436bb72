# A verified model of the InferCept scheduler and its paged KV cache

InferCept serves language-model requests that pause for API calls. Its scheduler decides, iteration
by iteration, which requests run and which lose their cache blocks; a block manager keeps the block
tables; a worker turns tables into cache slots; an engine pairs sampled tokens with requests. These
parts share counters that no one checks at run time. This project models them in Dafny and proves
that they agree, over whole runs.

## How it is built

- `Blocks`, `Layouts`, `BlockManager`: the two reference-counted allocators and the block tables.
  `BlockSpaceManager` is a class whose methods work as the source's do, entry by entry, and are
  specified by relations between the old and the new tables (`Moved`, `Grown`, `GroupMoved`).
- `System`: the whole scheduling state as a value `Sys`, and its invariant `Inv`: tables consistent
  with the free lists, every request in one place, its counters and its table as that place demands
  (`Good`), every list of the scheduler exactly the requests at its place (`Queues`).
- `Memory`, `Steps`: what the cache cells hold. `now` is the memory in which every block copy happens
  when it is decided; `Journal` says when the pending copies, run late, all swap-outs first and each
  kind in the order of its source blocks, give the same memory; `Traced` says whose tokens each pending
  copy carries. `Sound` is `Inv`, `Refines` (every table's blocks hold exactly that request's cached
  tokens), `Journal` and `Traced` together.
- `Preemption`, `CpuRooms`, `Rounds`, `Phases`, `Victims`, `Iterations`, `Sorting`, `Outputs`: what each
  scheduling step keeps, as lemmas on values.
- `Reclaims`, `Turns`, `Ledgers`, `Replies`, `Events`: what each step decides, as relations between the
  state before and after it that name none of the steps' own functions. `ReclaimedFrom` says which
  victims a preemption takes and what of each; `Called` lists the turns of a `_schedule` call, each with
  the state, the limits and the free blocks that its target met (`Judged`); `Iterated` chains the phases
  of an iteration with their arguments and sort orders; `RepliedTo` says what becomes of an answered
  batch; `Handled` is the relation of each event, and `Linked` chains the events of a run. `TurnLaws` and
  `LedgerLaws` say what these records amount to.
- `Scheduler`: one class for both schedulers, `scheduler_v2_infercept.py` (variant `InferCept`) and
  `scheduler_v2.py` (variant `V2`), which differ in how they preempt and in their phases. Every
  method keeps `Sound`, and its `assert` statements are the source's own assertions and raises.
- `Worker`, `CacheWrites`, `Sampling`, `LastRows`, `Execution`, `Chunks`, `Engine`: chunk ranges, slots,
  the writes to the real cache, the samplers' index bookkeeping, and runs of arbitrary events.
- `Accounting`, `Demands`, `Restarts`, `Starvation`, `LogicalBlocks`: conservation and leaks, how many
  blocks all requests can ask for, restarts in the middle of a phase, starvation avoidance, logical
  blocks. `Counterexamples` holds concrete runs that go wrong.

The fields `place`, `split`, `combined`, `start`, `now`, `clash`, `forwarded`, `corrupt`, `torn` and
`stopped` are bookkeeping of the model. `place` says where each request is, also while a phase holds
it in a local list; `split` says that the combined phase runs, whose target list is `combined`;
`forwarded` is what the worker's lists have held of each request since it last started over.

## What is proved of whole runs

`Engine.LLMEngine.Run` takes any list of events (a request arrives, an API call returns, a request
is aborted, an iteration runs with arbitrary priorities, waste estimates and sampler answers):

- The `InferCept` variant never fails, on any run without beam search: no "Out of memory", no
  "Double free", none of its layout assertions, no "Fully preempted seqs should not stay in the
  victim group".
- The `V2` variant fails at most in an iteration that starts without room on the CPU: where the free
  CPU blocks cannot take the GPU blocks of all preserved paused requests (`Roomy`). That cannot
  happen while no request is paused in the preserving mode, nor while every used GPU block has a free
  CPU block (`RoomyWhen`), and never at all if the CPU has a block for every token that the events
  can bring (`Affordable`).
- Blocks and requests are conserved at every step boundary, as long as no known request is longer
  than the prompt limit.
- Every event does exactly what it should (`Linked`): a fresh request joins with its prompt, a returning
  call appends what the two length limits admit and resumes by its pause mode, an abort ends a queued
  request and frees its table, and an iteration is one of `_schedule_chunk_and_fill`, forwarded and
  answered. Whoever may run and finds its blocks free at its turn is in the batch with exactly its planned
  work, and nobody waits without one of the source's reasons (`BatchHoldsFitting`, `BatchReasoned`).
- A request's tokens are only appended to, the worker is given each of them exactly once and in order
  between restarts, and a token is sampled only when it has been given all of them.
- For `V2` the real cache refines one plain array of tokens per request, on every run without an
  event that frees blocks to which copies are still pending (`Tears`), and on every run without
  pauses by swap. For both variants it does after every iteration whose copies do not meet in one CPU
  block (`Meets`).

Where the source does not keep what it seems to promise, the model follows the source:

- A target that is too long is ignored without freeing its blocks. `IgnoringLoses` says exactly how
  many blocks that loses, and `IgnoredRequestLeaks` is a step that loses one.
- In the combined phase of `V2`, a shortage of CPU blocks can restart a request that the phase is done
  with, or the target in hand, which may then be run without a block. `Restarts` describes all the steps
  that the phase can take, also after such a restart, and `CombinedPhaseEnds` says of every sequence of
  them that it leaves a sound state if and only if it holds none of these two; `RestartInCombinedPhase`
  gives the condition in the source's own lists, `MakeCpuRoom` says exactly when a shortage meets such a
  request, and `RestartedInBatch` is a run of the phase that does. The model goes on after a harmless
  restart and stops where one of the two harmful steps would follow.
- A pending swap-out can lose its target: its request, resumed before the copy ran, is aborted or
  discarded, and a swap-out from a smaller GPU block gets the freed CPU block. `AnchoredExactly` says
  exactly when freeing a request's blocks leaves the pending copies without such a rival,
  `SwapOutLands` exactly when one more swap-out leaves the real cache right, and `LostCopy` is a run
  of the newer scheduler in which it does not.
- `resume_request` with a negative truncation length cuts from the end of the returned tokens; the
  model does the same (`PySlice`).

## Model

| member | source | states |
|---|---|---|
| `BlockManager.BlockAllocator.Allocate` | vllm/core/block_manager.py:35-40 | takes the last free block with reference count one; fails exactly on an empty free list |
| `BlockManager.BlockAllocator.Free` | vllm/core/block_manager.py:42-47 | a block returns to the free list when its last reference goes; fails exactly on a double free |
| `Blocks.FreeIffUnowned` | vllm/core/block_manager.py:17-50 | a block is free if and only if no table lists it, and otherwise its count is the number of tables that do |
| `Blocks.SetTableKeepsPoolOk` | vllm/core/block_manager.py:144-174 | reference counts equal to table counts survive replacing a table when the counts move with the entries |
| `Blocks.DropTableKeepsPoolOk` | vllm/core/block_manager.py:417-452 | the same for dropping a table, with the blocks that no other table lists going free |
| `Layouts.CountPrefix` | vllm/sequence.py:81-96 | in a table that is a GPU prefix of length g and a CPU suffix, the distinct blocks per device are g and the rest |
| `Layouts.FreePlusOwned` | vllm/core/block_manager.py:17-50 | per device, free blocks and blocks in tables add up to the arena |
| `Layouts.DroppedCounts` | vllm/core/block_manager.py:417-452 | freeing one unshared table returns exactly its blocks of each device |
| `BlockManager.BlockSpaceManager.GetMemoryRequirement` | vllm/core/block_manager.py:110-124 | the planned swap-ins and the blocks that the planned tokens start |
| `BlockManager.BlockSpaceManager.Allocate` | vllm/core/block_manager.py:128-174 | succeeds if and only if the requirement fits; takes exactly that many GPU blocks, frees exactly the swapped-in CPU blocks, and leaves the table that the planned work needs, front entries swapped in and new blocks behind |
| `BlockManager.BlockSpaceManager.SwapInFront` | vllm/core/block_manager.py:144-160 | re-homes the first n CPU entries in order and nothing else; succeeds if and only if n GPU blocks are free |
| `BlockManager.WorkLaidOut` | vllm/core/block_manager.py:162-174 | swapping in from the front and appending gives ceil((cached + planned) / B) blocks, a GPU prefix and the remaining CPU suffix |
| `BlockManager.BlockSpaceManager.SwapOutFromBack` | vllm/core/block_manager.py:388-415 | re-homes the last n GPU entries and nothing else; succeeds if and only if n CPU blocks are free |
| `BlockManager.BlockSpaceManager.Free` | vllm/core/block_manager.py:446-452 | the table goes, all else stays, and no double free happens |
| `BlockManager.BlockSpaceManager.Reset` | vllm/core/block_manager.py:459-462 | all tables go and every block is free |
| `BlockManager.BlockSpaceManager.Fork` | vllm/core/block_manager.py:270-276 | the child lists the parent's blocks; counts follow |
| `BlockManager.BlockSpaceManager.CanSwapOut` | vllm/core/block_manager.py:347-353 | whether the group's distinct GPU blocks, up to the bound, fit the free CPU blocks |
| `BlockManager.BlockSpaceManager.SwapOut` | vllm/core/block_manager.py:355-385 | a possibly bounded swap-out of a group with shared blocks keeps all counts, moves each block once, and says whether all moved |
| `BlockManager.BlockSpaceManager.SwapIn` | vllm/core/block_manager.py:318-345 | the same towards the GPU |
| `BlockManager.GroupCounts` | vllm/core/block_manager.py:347-385 | a full group move maps exactly the group's distinct blocks, each to its own new one |
| `BlockManager.FullMoveKeepsSharing` | vllm/core/block_manager.py:355-385 | after a full group move two entries share a block if and only if they did before |
| `BlockManager.SwapRoundTrip` | vllm/core/block_manager.py:318-385 | swapping a group out and in again restores the sharing pattern between its tables |
| `Memory.MoveRefines` | vllm/worker/worker.py:432-438 | moving one request's blocks with their contents keeps every request's cache contents |
| `Memory.JournalOut` | vllm/core/scheduler_v2_infercept.py:361-363 | a swap-out decided now can still be run late, unless its target meets another pending copy |
| `Memory.JournalIn` | vllm/core/block_manager.py:144-160 | a swap-in decided now can always be run late, behind all swap-outs |
| `Steps.StepOut` | vllm/core/scheduler_v2_infercept.py:361-384 | moving one request's entries out keeps the whole invariant, cache contents included |
| `Steps.StepIn` | vllm/core/block_manager.py:144-174 | allocating for one request keeps the whole invariant |
| `Preemption.VictimDropped` | vllm/core/scheduler_v2.py:411-421 | restarting a victim keeps the invariant, frees exactly its GPU blocks and touches no other request |
| `Preemption.VictimOffered` | vllm/core/scheduler_v2_infercept.py:361-384 | a partial or full swap-out from the back keeps the invariant; the victim leaves exactly when nothing of it is left on the GPU |
| `Schedulers.Scheduler.MakeCpuRoom` | vllm/core/scheduler_v2.py:401-409 | restarts exactly the requests at the back of the list, one by one, and stops as soon as enough CPU blocks are free or none is left; all others are as they were; meets one that the combined phase is done with exactly when those behind it do not free enough |
| `CpuRooms.RoomyWhen` | vllm/core/scheduler_v2.py:401-409 | there is room on the CPU whenever nothing is preserved, or every used GPU block has a free CPU block |
| `CpuRooms.RoomyParked` | vllm/core/scheduler_v2.py:776-795 | swapping a preserved request out keeps the room for the others |
| `Demands.TotalRoomy` | vllm/core/scheduler_v2.py:401-409 | if the CPU has as many blocks as all known requests have tokens, there is room |
| `Restarts.CombinedPhaseEnds` | vllm/core/scheduler_v2.py:546-646 | however the combined phase goes on from a sound state, the state that it leaves is sound if and only if it restarts no request that it is done with and schedules no target that was restarted in hand |
| `Restarts.RestartInCombinedPhase` | vllm/core/scheduler_v2.py:401-409 | after restarting a swapped request that is neither still to be offered, nor delayed, nor the target in hand, no way to end the phase leaves a sound state; after restarting one of these, every way without a further harmful step does |
| `Restarts.RestartedTargetRuns` | vllm/core/scheduler_v2.py:625-640 | allocating for a target that was restarted in hand gives it an empty table, and it runs with it; nothing in the rest of the phase gives it a block |
| `Restarts.AdriftStep` | vllm/core/scheduler_v2.py:555-646 | no later step of the phase changes the place, the record or the table of such a request |
| `Counterexamples.RestartedInBatch` | vllm/core/scheduler_v2.py:853-886 | a run of the phase, from a sound state without room, that restarts the scheduled request 0, gives up the paused request 2, schedules request 1, and leaves request 0 in the batch although it waits and owns nothing |
| `Schedulers.Scheduler.PreemptBySwap` | vllm/core/scheduler_v2_infercept.py:1006-1020 | a request whose blocks are all on the CPU joins the swapped queue; its group swap moves nothing and cannot fail |
| `Schedulers.Scheduler.Retire` | vllm/core/scheduler_v2_infercept.py:370-384 | the layout assertions for a fully swapped victim hold |
| `Schedulers.Scheduler.DiscardOne` | vllm/core/scheduler_v2_infercept.py:331-384 | one victim is taken as the source takes it: CPU blocks are made free from the remaining requests first, then it is swapped out from the back or restarted, by variant and by the CPU blocks free at that moment; every pass frees at least one GPU block |
| `Schedulers.Scheduler.PassiveDiscard` | vllm/core/scheduler_v2_infercept.py:331-393 | from the back of the list, until the deficit is met or the list used up: in InferCept a victim is restarted only if, after the CPU discards at its turn, fewer CPU blocks are free than it is to give; every other victim keeps its cached tokens and gives exactly that many GPU blocks from the back; the result is the number of blocks swapped out and of new pending copies; V2 restarts, and with room on the CPU never stops here |
| `Reclaims.ReclaimLaw` | vllm/core/scheduler_v2_infercept.py:331-384 | the k-th victim taken was at the back of the list with blocks still required; in InferCept, if the CPU blocks free after the discards at its turn take what it is to give, it keeps its cached tokens and that many GPU blocks are gone from its back; otherwise it restarts with no table |
| `Schedulers.Scheduler.MakeRoom` | vllm/core/scheduler_v2_infercept.py:561-597 | takes victims from the backs of the paused, the delayed and the running list, each used up before the next; ends with the blocks free, with the target waiting (over the swap limit, or no victim left), or with the target itself preempted after all others |
| `Schedulers.Scheduler.FindRoom` | vllm/core/scheduler_v2.py:595-640 | the target is scheduled as planned, waits, or is lost; it fails only if the next request to restart is one that the phase is done with, or if room was found but the target itself was restarted meanwhile |
| `Schedulers.Scheduler.AllocateBlocks` | vllm/core/scheduler_v2.py:625-640 | the planned allocation never raises "Out of memory" |
| `Schedulers.Scheduler.ScheduleTarget` | vllm/core/scheduler_v2_infercept.py:522-605 | the source's checks in their order decide the target: ignored exactly when it exceeds the prompt limit, put off without work, blocks or victims, scheduled with its planned swaps and tokens when its blocks are free; after preemption each outcome with the victims that lead to it, and when the call ends |
| `Schedulers.Scheduler.Schedule` | vllm/core/scheduler_v2_infercept.py:483-610 | lists the turns of the call: targets popped from the front until none is left or a turn ends the call, each decided by the tokens, swaps and free blocks at its turn; planned work of delayed targets is cleared; terminates although preemption may refill its list, keeps the invariant and the token budget; with room on the CPU V2 never stops here |
| `TurnLaws.FitsIsScheduled` | vllm/core/scheduler_v2_infercept.py:522-605 | a target within the prompt limit, when a request may be scheduled, with planned work whose blocks are free at its turn, is scheduled with exactly that work, and stays so to the end of the call |
| `TurnLaws.CallReasoned` | vllm/core/scheduler_v2_infercept.py:522-610 | nobody is scheduled without work, exactly those beyond the prompt limit are ignored, and everybody who is put off has one of the source's reasons; a target without a turn is left only by a call that a turn ended |
| `TurnLaws.FirstIsScheduled` | vllm/core/scheduler_v2_infercept.py:522-605 | if the first target of the list may run and its blocks are free when the call starts, the call schedules it |
| `Rounds.PlanLaws` | vllm/core/scheduler_v2_infercept.py:542-552 | the planned swaps and tokens are the most that the limits allow, and no token is planned before all swaps are |
| `Rounds.PoppedLeft` | vllm/core/scheduler_v2_infercept.py:522-524 | popping a target lowers the measure |
| `Phases.ClosePhase` | vllm/core/scheduler_v2_infercept.py:728-760 | putting delayed requests back after a phase keeps the invariant and adds the phase's tokens to the batch |
| `Phases.OpenCombined` | vllm/core/scheduler_v2.py:839-852 | merging the swapped and waiting queues into one target list keeps the invariant |
| `Phases.CloseCombined` | vllm/core/scheduler_v2.py:853-886 | parting the combined phase's results by queue loses no request and no token |
| `Sorting.SortedPermutes` | vllm/core/scheduler_v2.py:799-801 | sorting by priority loses and duplicates no request |
| `Sorting.SortedDescends` | vllm/core/scheduler_v2.py:799-801 | the sorted list has falling priorities |
| `Sorting.SortedStable` | vllm/core/scheduler_v2.py:799-801 | requests of equal priority keep their order |
| `Sorting.PartitionPermutes` | vllm/core/scheduler_v2.py:839-850 | moving promoted requests to the front loses and duplicates no request |
| `Sorting.PartitionOrders` | vllm/core/scheduler_v2.py:839-850 | promoted requests come first, and both parts keep their order |
| `LedgerLaws.CombinedOrder` | vllm/core/scheduler_v2.py:816-850 | the combined phase is offered every swapped and waiting request once: exactly the promoted waiting ones first, and both parts by falling priority |
| `Iterations.GroupOfOne` | vllm/core/scheduler_v2.py:776-795 | a full group swap-out of one unshared request re-homes exactly its GPU entries |
| `Iterations.OutParked` | vllm/core/scheduler_v2.py:249-262 | pausing a request by swapping it out keeps the invariant |
| `Iterations.AnchoredOut` | vllm/core/scheduler_v2.py:776-795 | a swap-out never meets a pending copy as long as all pending targets are held by swapped-out requests, and it keeps that so |
| `Iterations.AnchoredExactly` | vllm/core/scheduler_v2.py:653-659 | freeing a request's blocks keeps that so if and only if no pending copy goes to one of them |
| `Schedulers.Scheduler.ChooseVictims` | vllm/core/scheduler_v2.py:745-795 | the preemption targets are exactly the candidates that none exceeds in waste; every other candidate is given up by its strategy, one after the other, a swap-out taking place if and only if the CPU blocks then free take all its GPU blocks; all others stay as they are |
| `Victims.FatesFollow` | vllm/core/scheduler_v2.py:776-795 | the newer scheduler follows the estimated strategy, except that a request is kept where the CPU has no room; the older one only discards |
| `Schedulers.Scheduler.ActiveDiscard` | vllm/core/scheduler_v2.py:653-659 | the first swapped request by priority restarts exactly when none waits |
| `Schedulers.Scheduler.FillThree` | vllm/core/scheduler_v2_infercept.py:705-795 | the three phases with their own arguments, sort orders, preemption targets and remaining limits, each starting where the one before ended; who was put off is back in its list; the batch is waiting, running, swapped; they keep the invariant, conserve requests and share one token budget |
| `Schedulers.Scheduler.FillTwo` | vllm/core/scheduler_v2.py:799-886 | the two phases likewise, the second over the sorted and partitioned copy of both queues; the batch is waiting, running, swapped; never fails when there is room on the CPU |
| `Schedulers.Scheduler.ScheduleBatch` | vllm/core/scheduler_v2.py:940-956 | one iteration from its limits to its batch, phase by phase (`Iterated`); the batch stays within the budget of 384, so the final assertion holds; every request is afterwards where it was or in the batch, delayed, preempted or ignored, with its tokens unchanged; InferCept never fails, and V2 not with room on the CPU |
| `LedgerLaws.BatchHoldsFitting` | vllm/core/scheduler_v2.py:555-640 | in every phase, a target that may run and whose blocks are free at its turn is in the iteration's batch, with exactly its planned work after all later phases |
| `LedgerLaws.BatchReasoned` | vllm/core/scheduler_v2.py:555-646 | in every phase, who is scheduled had work, who is ignored was too long, and who is put off had one of the source's reasons |
| `LedgerLaws.Composed` | vllm/core/scheduler_v2.py:868-886 | the batch is exactly what the phases scheduled, and the ignored ones exactly what they ignored |
| `LedgerLaws.WaitingIsScheduled` | vllm/core/scheduler_v2_infercept.py:758-785 | when there are only waiting requests, the first by priority is in the batch, with as many of its tokens as fit, as soon as it is within the prompt limit and ceil(tokens / B) blocks are free |
| `Schedulers.Scheduler.ResumeRequest` | vllm/engine/llm_engine.py:775-799 | the truncated return is appended and the request goes where its pause mode says; fails exactly when it is not paused |
| `Outputs.ResumedWithin` | vllm/engine/llm_engine.py:775-799 | a request within both length limits stays within them: its return is appended whole, or up to the nearer limit |
| `Outputs.ResumedBeyond` | vllm/engine/llm_engine.py:775-799 | what is appended to a request that is beyond a limit already |
| `Schedulers.Scheduler.Requeue` | vllm/core/scheduler_v2.py:276-306 | preserve goes to running's end, swap to swapped's end, recompute to waiting's front |
| `Schedulers.Scheduler.AbortSeqGroup` | vllm/core/scheduler_v2.py:308-327 | a queued request leaves with all its blocks; a paused one stays |
| `Schedulers.Scheduler.ProcessOutputs` | vllm/engine/llm_engine.py:560-609 | every completely forwarded request, in its turn, gets its own sample and then what its verdict asks for: it goes on, ends and frees its table, or is paused, in the mode asked for unless the CPU blocks free at its turn cannot take a swap; all others are forwarded only, with their tables and pause modes; the invariant holds again |
| `Events.RepliesAsAsked` | vllm/engine/llm_engine.py:440-455 | of one completely forwarded request: its token appended, and preserved with its table, discarded with none, or swapped with all blocks on the CPU exactly as the verdict and the room at its turn say |
| `Schedulers.Scheduler.PauseSeqGroup` | vllm/core/scheduler_v2.py:202-263 | the request is paused in the asked mode, or preserved when the CPU has no room |
| `Outputs.ForwardSound` | vllm/sequence.py:149-154 | once the batch's keys and values are written, the pending copies are settled and the invariant holds |
| `Outputs.PostForwardSound` | vllm/sequence.py:149-154 | moving the planned counters into the cached ones keeps the invariant for that new cache state |
| `Outputs.NextTokenSound` | vllm/sequence.py:98-101 | appending a sampled token keeps the invariant |
| `Outputs.LeftSound` | vllm/engine/llm_engine.py:446-449 | a finished or aborted request that gives its table back keeps the invariant |
| `Outputs.ResumedSound` | vllm/core/scheduler_v2.py:276-306 | a resumed request is again as its queue demands |
| `Outputs.ArrivedSound` | vllm/core/scheduler_v2.py:156-168 | a new request joins without disturbing the invariant |
| `Accounting.ExactlyOnePlace` | vllm/core/scheduler_v2_infercept.py:705-782 | at every step boundary a request is in exactly one of waiting, running, swapped, paused or finished, and its status says which |
| `Accounting.Residency` | vllm/core/scheduler_v2_infercept.py:334-384 | running and preserved requests own a GPU block, swapped ones only CPU blocks, waiting and discarded ones no table |
| `Accounting.NoLeak` | vllm/core/scheduler_v2.py:566-573 | while no known request exceeds the prompt limit, free blocks and blocks of unfinished requests make up the arena |
| `Accounting.IgnoringLoses` | vllm/core/scheduler_v2.py:566-573 | ignoring a target loses exactly the blocks that it owned, so none if and only if it owned none |
| `Counterexamples.IgnoredRequestLeaks` | vllm/core/scheduler_v2.py:566-573 | a sound state in which no block is lost and the target in hand exceeds the limit, and after the step the only block is lost |
| `Worker.PrepareInputs` | vllm/worker/worker.py:213-316 | tokens, positions and slots are those of the planned chunks, prompts first, in the order of the groups returned |
| `CacheWrites.SlotInjective` | vllm/worker/worker.py:289-316 | two positions have one slot only if they are the same position of the same request |
| `CacheWrites.SlotsAreSafe` | vllm/worker/worker.py:256-316 | a batch's slots are in range, pairwise distinct, and none belongs to a cached token of any request, paused ones included |
| `CacheWrites.StoreReads` | vllm/worker/worker.py:256-316 | with distinct slots each written cell reads back what was written to it |
| `CacheWrites.WritesRefine` | vllm/worker/worker.py:239-316 | after the batch's writes every request's table holds its cached and its newly forwarded tokens |
| `Execution.DeferredCopies` | vllm/model_executor/models/baichuan.py:273-281 | all swap-outs and then all swap-ins, run late, give the memory that the scheduler had in mind |
| `Execution.SwapOutLands` | csrc/cache_kernels.cu:14-49 | exactly when one more swap-out leaves the real cache right: no older copy to its CPU block comes from a larger GPU block, and no swap-in from that CPU block is pending; in every sound state |
| `Counterexamples.LostCopy` | vllm/core/scheduler_v2.py:776-795 | from a sound state, a request's return and abort, and then the swap-out of the one candidate that does not waste most, leave the wrong tokens in the real cache |
| `Execution.TwoPasses` | vllm/worker/worker.py:228-273 | the worker's two filtered passes keep the order of a batch with its prompts first |
| `Execution.SamplesPair` | vllm/engine/llm_engine.py:567-580 | the sampler's groups are the requests that the engine zips its outputs with, in that order |
| `Execution.ForwardReaches` | vllm/worker/worker.py:213-316 | for every batch that the scheduler can produce, the writes make every table hold what the counters will claim |
| `Sampling.Simulate` | vllm/model_executor/layers/simulator.py:55-94 | bucketing and scattering are the identity: output i answers group i; fails exactly on beam search |
| `Sampling.AnswerLaws` | vllm/model_executor/layers/simulator.py:55-94 | what a group is answered: one sample per sequence or per parallel output, each from its own sequence |
| `Sampling.Prune` | vllm/model_executor/layers/sampler.py:109-138 | the gathered rows are the last rows of the sequences, by sampling type and then by group |
| `Sampling.ReadRows` | vllm/model_executor/layers/sampler.py:443-524 | the rows that the sampler slices out for group i are the last rows of group i's own sequences |
| `LastRows.RowsToSample` | vllm/model_executor/layers/sampler.py:109-138 | on the worker's own lists: the one row read for group i is the index of that request's last forwarded cell in the token and position lists, and its position is the last of all its tokens if the request is completely forwarded |
| `LastRows.LastRowCell` | vllm/worker/worker.py:239-304 | the last row of the j-th chunk is the cell of its last planned token |
| `Sampling.RowsSlice` | vllm/model_executor/layers/sampler.py:485-520 | where a group's rows lie among those of its category |
| `Engine.LLMEngine.Execute` | vllm/worker/worker.py:395-457 | the real cache stays in step with the scheduler's memory, unless two pending copies met |
| `Engine.LLMEngine.Forward` | vllm/worker/worker.py:432-457 | the batch that the scheduler chose can be forwarded, and its groups come back in the engine's order |
| `Engine.LLMEngine.Step` | vllm/engine/llm_engine.py:611-642 | one iteration as it happened: its batch comes about as `Iterated` says, is forwarded, and each of its requests is dealt with as its own answer says (`RepliedTo`); it keeps everything above, fails only in V2 without room on the CPU, and corrupts no cache when its copies do not meet |
| `Engine.LLMEngine.Handle` | vllm/engine/llm_engine.py:611-642 | one event does to the state what its relation says: `Added`, `Returned`, `Aborted` or `Ran` |
| `Engine.LLMEngine.AddOne` | vllm/engine/llm_engine.py:294-306 | a fresh request with a prompt joins the waiting ones with that prompt and nothing cached, and nothing else changes |
| `Engine.LLMEngine.ResumeOne` | vllm/engine/llm_engine.py:775-799 | a paused request gets the admitted part of the return and is unpaused by its mode; for any other nothing changes |
| `Engine.LLMEngine.AbortOne` | vllm/engine/llm_engine.py:308-314 | a queued request ends, leaves its queue and frees its table; for any other nothing changes |
| `Engine.LLMEngine.Run` | vllm/engine/llm_engine.py:611-642 | over every list of events: each event does to the state what its relation says, up to the final state; the invariant, append-only tokens, exact forwarding, no lost block within the prompt limit, no failure of InferCept, no failure of V2 with enough CPU blocks for all tokens, and no corrupt cache of V2 unless an event frees blocks that copies go to |
| `Engine.LLMEngine.CacheRefines` | vllm/worker/worker.py:432-438 | after the pending copies, every block of every table holds exactly the request's cached tokens at their positions |
| `Starvation.StarvationCounter.WaitingIteration` | vllm/sequence.py:233-251 | one waiting iteration promotes exactly while the quantum lasts |
| `Starvation.WaitState` | vllm/sequence.py:233-251 | the counters after n waiting iterations, in closed form |
| `Starvation.PromotedExactly` | vllm/sequence.py:233-251 | exactly which waiting iterations promote: first T - c + 2, then the first Q of every T + Q |
| `Starvation.PromotionRate` | vllm/sequence.py:233-251 | from the first promotion on, exactly Q of any T + Q consecutive waiting iterations promote |
| `LogicalBlocks.LogicalTokenBlock.AppendTokens` | vllm/block.py:36-43 | the tokens come behind those that are there, in place |
| `LogicalBlocks.LogicalSequence.AppendTokens` | vllm/sequence.py:262-286 | block i holds chunk i of all tokens, with ceil(len / B) blocks |
| `LogicalBlocks.LogicalSequence.AllButLastFull` | vllm/sequence.py:262-286 | every block but the last is full |
| `Chunks.ListsHoldChunks` | vllm/worker/worker.py:213-316 | the worker's flat lists hold, for each request with tokens to forward, exactly its planned chunk, and nothing for the others |
| `Chunks.ForwardedAll` | vllm/worker/worker.py:239-304 | after forwarding, what the lists have held of a request are its cached and its planned tokens, each once and in order |
| `Chunks.ExactScheduled` | vllm/core/scheduler_v2_infercept.py:483-610 | scheduling keeps that so: it keeps the cached tokens of a request, or starts it over |
| `Chunks.ExactAnswered` | vllm/sequence.py:149-154 | moving the counters and appending sampled tokens keeps that so |
| `Chunks.SampledAfterAll` | vllm/engine/llm_engine.py:568-580 | when a token was sampled for a request, the worker had been given every token of it |

## Left out

- Schedulers.Scheduler.ScheduleBatch: claims no bound by `max_num_seqs`, because `num_batched_seqs` is never incremented (vllm/core/scheduler_v2.py:549); the swap limits of InferCept, which come from measured coefficients, are parameters.
- Engine.LLMEngine.Run: a request with a known id or an empty prompt is skipped; the source relies on neither occurring. Requests are aborted one at a time. Beam search stops the model.
- Engine.LLMEngine.CacheRefines: for InferCept it holds until an iteration whose copies meet in one CPU block; its passive discard may reuse a CPU block released by a swap-in of the same iteration.
- BlockManager.BlockSpaceManager.Allocate: covers `discard_length == 0`, which the scheduler maintains, and one sequence per group, where `ref_count = num_seqs()` is one.
- LogicalBlocks.LogicalSequence.AppendTokens: starts from an empty sequence; logical blocks are not tied to the scheduler's sequence values.
- Sequences are values in a dictionary of the scheduler, assigned back after each update, so aliasing between a group, its sequence and its data is not modelled.
- One sequence per request in the scheduler; several per group only for fork, swap and the samplers.
- Lists aliased to scheduler fields are modelled by naming the field that a phase pops from.
- Dictionary orders and priorities are inputs; waste estimates, strategies, promoted requests, sampled tokens and stop or pause decisions are inputs of an iteration. Floats are reals or inputs.
- The two loops of the worker share one method with a flag. Sampler results are followed by row index; probabilities and log-probabilities are left out.
- The `preempted` list, which nothing reads, and the `discarded` flag.
- Starvation counters are modelled by themselves; the scheduler gets the set of promoted requests.
- `vllm/core/policy.py`: its formulas are inputs; `calculate_memory_time_blocks` would only add arithmetic.
- The plain scheduler, `append_slot`, `prepend_slot`, partial pauses, sliding windows and other stale code.
- Tensors, attention, padding, metadata beyond ids, tokenization, statistics, logging, servers, the solver and the resume queue.
