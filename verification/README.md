# Verification of the NVMesh client's hard core

This project models, in Dafny, the parts of the NVMesh client kernel module that are hardest to get
right by reading, and proves what they promise: the remote lock channel, the return path of the
per-CPU DMA pools, the sequencing of generic commands, the request-info reference count, the version
sequence lock and the send handshake of the channels, and the version order the upgrade tool runs
its scripts in.

Each part has two layers. A *machine* on values describes every critical section, device action and
callback as a step; its invariants and the theorems about whole runs, in any interleaving, are
lemmas. Beside it stands a *class* with the fields the driver keeps, whose methods change them in
place, with the driver's loops. The contracts of its entry points give the step, or the run of steps,
that the call made (as a ghost result, or in a ghost field that records the run), so the theorems
hold of it. Whatever the environment decides (answers of the device, time, which thread runs next) is
an argument of the step or a free choice. Where other threads matter to a loop of the driver, they
act between its turns: their steps are free, and a `budget` bounds how many there are, for every
bound.

| file | what it holds |
|---|---|
| LockEntry.dfy | the 8-byte lock entry, the compare-and-swap work requests, the reading of a reply |
| LockProtocol.dfy | any number of clients on one entry; refinement of an indivisible id swap; mutual exclusion |
| LockEngine.dfy | the lock channel on values: slots, lists, counters, ledger, and what each routine does to them |
| LockInvariant.dfy | the engine invariant survives every move and entry point |
| LockRuns.dfy | whole runs: conservation, exactly-once, order, expiry, quiescence |
| LockVersions.dfy | what the 16-bit slot versions buy: stale completions |
| LockJoin.dfy | a request of the channel is a client of the protocol; what its status says about the entry |
| LockStatus.dfy | which status a callback delivers; which work request a slot carries |
| LockChannel.dfy | the lock channel as a class, with the loops of `lock_prepare_and_send` and its callers |
| DmaMachine.dfy, DmaLinks.dfy, DmaPools.dfy | where DMA blocks are; the linked lists; the per-CPU pools as a class, and their teardown |
| DirtyBits.dfy | single-flight dirty-bits commands over one shared buffer |
| JournalBatches.dfy | freeing journal entries in self-resubmitting batches |
| ReqInfoDrain.dfy | the reference count on a channel's request table |
| VersionSeqlock.dfy | the channel version under its sequence counter |
| AdminSend.dfy | the admin channel's send handshake |
| VersionOrder.dfy, UpgradeScripts.dfy | comparing version strings; selecting and sorting upgrade scripts |
| VersionMeaning.dfy | what tokens, numbers and name parts are, stated without the functions that find them |

## What was found

* A plain compare-and-swap whose eight resubmissions are used up, and whose blkset-info has moved
  once more, is reported TAKEN when the id it saw is the expected one, although nothing was swapped.
  `LockProtocol.SpentBudgetBreaksExclusion` is a run in which two clients then hold the same lock;
  `LockProtocol.OwnershipIsExact` shows that this is the only way to lose exclusion.
* A resubmission that meets a paused channel makes its callback with the status that means "no
  callback will be made" (`LockRuns.CallbackStatus`, with a run in
  `LockRuns.PausedRetryIsCalledBack`).
* In inclusive mode the upgrade tool compares the lower bound by spelling: a script that is the same
  version spelt differently is not run (`UpgradeScripts.InclusiveRange`, with an instance in
  `UpgradeScripts.InclusiveMissesRespelling`).
* `compareV` raises an IndexError exactly when one version ends where the other has a tilde
  (`VersionOrder.CompareV`, with an instance in `UpgradeScripts.TildeRaises`); the comments promise
  that the tilde sorts before everything.
* The handler of an admin send completion completes first and clears the buffer's pointer afterwards,
  so a sender that sends in the same buffer in between would lose its own wake-up
  (`AdminSend.WakeIsExact` gives the exact condition, `AdminSend.WakeIsLost` a run). The driver has
  no such caller: every caller takes its buffer from the pool and returns it after one send, the pool
  sets aside buffers that still point to the completion, and then no wake-up is lost
  (`AdminSend.PooledNeverLoses`).
* A waiting sender is woken by the death of its net exactly if dying is first raised by a path that
  runs the disconnect callback (`AdminSend.DeathWakesIsExact`). Other paths raise it without
  (clnt/nvmeibc_ib_net.c:644 and 3597, clnt/nvmeibc_ib_admin_channel.c:4860); whether one of them can
  come first while a message is being sent is not part of the model.
* The in_use counters of the DMA pools are updated with interrupts on. They are exact exactly as long
  as every update writes over the value it read (`DmaMachine.ExactIffNotOverwritten`); two
  allocations of which one interrupts the counting of the other would be counted once
  (`DmaMachine.InterruptedCountIsLost`).
* A version cookie matches again after exactly 2^31 updates (`VersionSeqlock.WrapHidesUpdates`), while
  a read itself stays correct through any wrap-around (`VersionSeqlock.TrackedReadWasCommitted`).

## Model

| member | source | states |
|---|---|---|
| LockEntry.EffectIsSwapId | clnt/nvmeibc_disk_locks.c:1049-1092 | one work request exchanges exactly the id iff it is masked or the entry still has the remembered blkset-info, else it changes nothing; the blkset-info is never changed |
| LockEntry.NmcsAfter | clnt/nvmeibc_disk_locks.c:2336-2363 | the attempt memory keeps "no attempts means no remembered value", counts one more on a resubmission and is cleared otherwise |
| LockEntry.VerdictTellsEffect | clnt/nvmeibc_disk_locks.c:2329-2376 | a resubmitted attempt changed nothing; TAKEN is reported iff the id was exchanged, unless and only unless the reply is a misread one |
| LockProtocol.NextKeepsInv | clnt/nvmeibc_disk_locks.c:2334-2363 | every step of every client keeps the resubmission budget, at most one swap per request, and the attempt memory in order |
| LockProtocol.OnlyWritersChangeInfo | clnt/nvmeibc_disk_locks.c:1134-1147 | no step except a blkset-info write changes the blkset-info: swaps neither alter nor lose it |
| LockProtocol.RequestBounds | clnt/nvmeibc_disk_locks.c:2336-2349 | in every reachable state a request was resubmitted at most NMCS_BI_MAX_ATTEMPTS times and has swapped at most once, and then will not be resubmitted |
| LockProtocol.ReplyIsTruthful | clnt/nvmeibc_disk_locks.c:2334-2376 | a resubmitted request has swapped nothing and has budget left; TAKEN iff this request exchanged the id, exactly unless the reply is misread |
| LockProtocol.LandRefines | clnt/nvmeibc_disk_locks.c:1049-1092 | the execution of a work request is no step or one indivisible swap of the abstract machine, iff it is not a misread one |
| LockProtocol.BypassRefines | clnt/nvmeibc_disk_locks.c:1693-1792 | a local-bypass request is submit, swap and reply of the abstract machine at once |
| LockProtocol.StepRefines | clnt/nvmeibc_disk_locks.c:1049-1092 | every step refines steps of a machine in which each request is one indivisible id swap, iff it is not a misreport |
| LockProtocol.RunRefines | clnt/nvmeibc_disk_locks.c:1049-1092 | a run without misreports maps, step by step, to a legal run of the indivisible-swap machine that ends in its abstract state |
| LockProtocol.AbsRunKeepsInv | clnt/nvmeibc_disk_locks.c:2606-2620 | in the indivisible-swap machine whoever won, or was told so, finds its own id in the entry, over all runs |
| LockProtocol.StepKeepsOwned | clnt/nvmeibc_disk_locks.c:2329-2376 | a step keeps "every owner's id is in the entry" iff it is not a false grant |
| LockProtocol.OwnershipIsExact | clnt/nvmeibc_disk_locks.c:2329-2376 | over a whole run ownership holds throughout iff no false grant happens |
| LockProtocol.MutualExclusion | clnt/nvmeibc_disk_locks.c:1049-1092 | after any run without a false grant, mixing masked, plain and bypass requests with blkset-info writes, every holder's id is in the entry and there is at most one holder |
| LockProtocol.SpentBudgetBreaksExclusion | clnt/nvmeibc_disk_locks.c:2336-2368 | a legal run from the initial state after which two clients hold the lock |
| LockInvariant.TakeKeepsInv | clnt/nvmeibc_disk_locks.c:1272-1316 | preparing the next request keeps the engine invariant |
| LockInvariant.PostKeepsInv | clnt/nvmeibc_disk_locks.c:1189-1207 | moving a posted slot to the in-progress list keeps the engine invariant, counters included |
| LockInvariant.UndoKeepsInv | clnt/nvmeibc_disk_locks.c:1353-1381 | giving unposted slots and requests back keeps the engine invariant, the queue's order in time included |
| LockInvariant.RetireKeepsInv | clnt/nvmeibc_disk_locks.c:1899-1926 | retiring a refused request keeps the engine invariant and the ledger |
| LockInvariant.LiveWc | clnt/nvmeibc_disk_locks.c:2434-2446 | a completion that is not ignored names a slot of the in-progress list with a known request |
| LockInvariant.EnqueueKeepsGood | clnt/nvmeibc_disk_locks.c:1879-1897 | queueing a request at the tail keeps the engine invariant |
| LockInvariant.CompletedKeepsGood | clnt/nvmeibc_disk_locks.c:2294-2500 | a completion, whether it ends the request or resubmits it, keeps the engine invariant |
| LockInvariant.AbortedOneKeepsGood | clnt/nvmeibc_disk_locks.c:720-745 | aborting an operation parks its slot, keeps the engine invariant and shortens the in-progress list |
| LockInvariant.DrainedKeepsGood | clnt/nvmeibc_disk_locks.c:459-486 | draining any head of the queue keeps the engine invariant |
| LockInvariant.CalledBackKeepsGood | clnt/nvmeibc_disk_locks.c:488-513 | making the callback of any drained request keeps the engine invariant and the ledger |
| LockRuns.NextKeepsGood | clnt/nvmeibc_disk_locks.c:1256-1257 | every entry point keeps the whole engine invariant |
| LockRuns.RunKeepsGood | clnt/nvmeibc_disk_locks.c:1406-1407 | the whole engine invariant holds after any run of entry points |
| LockRuns.SlotConservation | clnt/nvmeibc_disk_locks.c:397-448 | at any point of any run the lists partition the slots, all counters are exact, the counters of atomics and reads count exactly the posted slots with such opcodes, the BUG_ON sums hold, and outstanding atomics and reads stay below max_dest_rd_atomic plus a batch of 8 |
| LockRuns.ExactlyOnce | clnt/nvmeibc_disk_locks.c:2417-2579 | at any point of any run a request's accepted submissions are its callbacks plus at most one still owed; once it is nowhere in the channel the two are equal |
| LockRuns.SubmitOutcome | clnt/nvmeibc_disk_locks.c:1798-1932 | a submission is accepted and owed a callback, or refused and nowhere in the channel, and gets no callback; no other acceptance is undone |
| LockRuns.CallbackStatus | clnt/nvmeibc_disk_locks.c:2483-2501 | a completion makes its callback iff it does not resubmit, once; the "no callback" status is delivered exactly when a retry met a paused channel |
| LockRuns.CompletionStatus | clnt/nvmeibc_disk_locks.c:2294-2399 | the full table of a completion: failure iff the work completion is an error, "no callback" iff a plain compare-and-swap with fewer than 8 attempts saw another blkset-info than remembered, a write is TAKEN, a read TAKEN iff no owner is there, a swap TAKEN iff the id read is the compare value; and what is remembered of the attempt |
| LockRuns.PausedRetryIsCalledBack | clnt/nvmeibc_disk_locks.c:2483-2501 | from an idle channel: a plain compare-and-swap posted, a pause, a reply with another blkset-info, and the callback is made with the status that promises none |
| LockRuns.BodyKeepsOrder | clnt/nvmeibc_disk_locks.c:1270-1322 | while requests are prepared and posted, what is in progress followed by what is in line stays the same sequence |
| LockRuns.RefusedKeepsOrder | clnt/nvmeibc_disk_locks.c:1361-1381 | a work request refused for good takes exactly that request out of the line and keeps the order of the rest |
| LockRuns.SendKeepsOrder | clnt/nvmeibc_disk_locks.c:1230-1417 | posted requests, then the one refused request if any, then the new queue, are the old in-progress requests followed by the old queue |
| LockRuns.NoSlotLeftBehind | clnt/nvmeibc_disk_locks.c:1344-1377 | with the lock free no slot is prepared or in error: each is free, in progress or aborted, as the list it is in says |
| LockRuns.QuietStays | clnt/nvmeibc_disk_locks.c:2484-2500 | a paused channel stays paused; its empty queue, and then its empty in-progress list, are refilled by no event |
| LockRuns.QuietForever | clnt/nvmeibc_disk_locks.c:1844-1853 | over any run a paused channel takes no further request, by the queue or by local bypass, and what has become empty stays empty |
| LockRuns.AbortReachesQuiescence | clnt/nvmeibc_disk_locks.c:669-706 | in any run with a pause, a later full drain and a later abort, whatever runs between and after, nothing is queued or in progress at the end |
| LockRuns.ExpiredDrainIsExact | clnt/nvmeibc_disk_locks.c:450-474 | the drain that stops at the first unexpired request takes every request that had waited longer than the lock time when it began, and none that had not when it ended |
| LockRuns.NobodyWaitsLonger | clnt/nvmeibc_disk_locks.c:450-474 | once more than the lock time has passed, an expired drain takes everything that was waiting |
| LockVersions.StaleIsIgnored | clnt/nvmeibc_disk_locks.c:2422-2446 | a completion of an earlier posting has the slot's version iff the slot was retired a multiple of 65536 times since; otherwise it is ignored, and no completion leads to a retired slot's poison value without that wrap-around |
| LockVersions.RunFollows | clnt/nvmeibc_disk_locks.c:424-444 | over any run a slot's version moves by the number of its retirals, and a slot not retired still carries its posting |
| LockJoin.EventTogether | clnt/nvmeibc_disk_locks.c:1799-2579 | every event of the channel is a legal run of Submit, Post, Reply and Fail steps of the request's client, and keeps place, question and attempt memory in step |
| LockJoin.ChannelIsClient | clnt/nvmeibc_disk_locks.c:1799-2579 | so is every run of the channel, with the responder, other clients and blkset-info writers acting in between |
| LockJoin.ChannelExcludes | clnt/nvmeibc_disk_locks.c:2329-2376 | a channel's client that was told TAKEN is the only holder and its id is in the entry, in any such run without a false grant |
| LockJoin.StatusIsTrue | clnt/nvmeibc_disk_locks.c:2329-2376 | the status a completion delivers is TAKEN exactly if the request exchanged the id, iff the reply is not a misread one |
| LockJoin.StatusGrants | clnt/nvmeibc_disk_locks.c:2329-2376 | after a reply a client holds the lock iff it held it or is told TAKEN for taking it |
| LockJoin.TogetherAtFirst | clnt/nvmeibc_disk_locks.c:1799-1897 | a channel that has not seen the request and a client that has sent none are in step |
| LockStatus.DeliveredStatus | clnt/nvmeibc_disk_locks.c:488-513 | whichever event other than a local bypass makes a callback, a completion of the request delivers the status its reply calls for, and every other way out (refused, drained, aborted) delivers failure |
| LockStatus.AnswersAreReplies | clnt/nvmeibc_disk_locks.c:2329-2376 | in any run, interleaved with other clients and the responder, a request is told TAKEN or CONTENDED only by a reply and then by the verdict of its client; a client whose request failed is never told either |
| LockStatus.SubmissionIsRecorded | clnt/nvmeibc_disk_locks.c:1833-1897 | a queued submission keeps operation, compare value and time of queueing, with no status to report yet and its attempt memory untouched |
| LockStatus.ErrorPostsNothing | clnt/nvmeibc_disk_locks.c:2483-2510 | after an error, or a retry that met a paused channel, nothing is posted and the queue is as it was |
| LockStatus.PostedAsAsked | clnt/nvmeibc_disk_locks.c:1049-1147 | at any point of any run from an idle channel every posted slot carries the work request its operation asks for: a compare-and-swap, masked if the device masks or has no plain one, a read or a write |
| LockChannel.LocksChannel.constructor | clnt/nvmeibc_locks_channel.c:1651-1675 | a connected channel satisfies the invariant with all slots free |
| LockChannel.LocksChannel.GetFreeOprIp | clnt/nvmeibc_locks_channel.c:2026-2045 | the first free slot is unlinked and counted, or there is none and nothing changes |
| LockChannel.LocksChannel.LockOprPrepare | clnt/nvmeibc_disk_locks.c:1007-1163 | the slot holds the request and the opcode its operation and the channel's capabilities call for |
| LockChannel.LocksChannel.SetOprInProgress | clnt/nvmeibc_disk_locks.c:1189-1207 | the slot joins the tail of the in-progress list and is counted, also as atomic or read |
| LockChannel.LocksChannel.LocksFreeOpr | clnt/nvmeibc_disk_locks.c:397-448 | the slot leaves its list and goes to the free list with a new version, or, aborted, to the aborted list |
| LockChannel.LocksChannel.PostSend | clnt/nvmeibc_disk_locks.c:1336-1344 | an unsuccessful post names one work request of the chain |
| LockChannel.LocksChannel.StartPosted | clnt/nvmeibc_disk_locks.c:1344-1348 | the first n of the chain are in progress, in order, with the invariant kept |
| LockChannel.LocksChannel.ReturnUnposted | clnt/nvmeibc_disk_locks.c:1367-1381 | the unposted slots are free and their requests at the head of the queue in their original order |
| LockChannel.LocksChannel.PrepareNext | clnt/nvmeibc_disk_locks.c:1272-1316 | the first deferred request is prepared in the first free slot, or there is no free slot and nothing changes |
| LockChannel.LocksChannel.SendChain | clnt/nvmeibc_disk_locks.c:1325-1405 | each answer of the device leads to the moves of the engine it stands for, with the invariant kept; a refused work request is handed over in the error state |
| LockChannel.LocksChannel.LockPrepareAndSend | clnt/nvmeibc_disk_locks.c:1230-1417 | the loop ends, its effect is a sending of the engine, and unless the device stopped it the queue is empty, no slot is free, or the atomic limit is reached |
| LockChannel.LocksChannel.RetireBad | clnt/nvmeibc_disk_locks.c:1899-1926 | given a slot in the error state, the channel is afterwards exactly the engine's channel after the sending; the submitter is told iff its own request was refused |
| LockChannel.LocksChannel.QueueAndSend | clnt/nvmeibc_disk_locks.c:1879-1906 | the queue path of a submission is the submit event, and 0 is returned iff it is accepted |
| LockChannel.LocksChannel.ExecuteOpr | clnt/nvmeibc_disk_locks.c:1798-1932 | each path is the event it should be, refused when paused, not connected or bypass failed; 0 is returned iff the submission is accepted |
| LockChannel.LocksChannel.ReadCompletion | clnt/nvmeibc_disk_locks.c:2294-2399 | failure iff the work completion is an error; a write is TAKEN, a read TAKEN iff no owner is there, a swap TAKEN iff the id read is the compare value unless it is resubmitted; the slot is freed and the result says retry, error or done |
| LockChannel.LocksChannel.FinishCompletion | clnt/nvmeibc_disk_locks.c:2483-2501 | the request is resubmitted at the tail or called back, as the engine says |
| LockChannel.LocksChannel.OnCompletion | clnt/nvmeibc_disk_locks.c:2417-2579 | the routine is the completion event, stale, aborted and dying completions included |
| LockChannel.LocksChannel.ProcessDeferred | clnt/nvmeibc_disk_locks.c:2582-2604 | the routine is the process-deferred event and leaves nothing that could still be posted |
| LockChannel.LocksChannel.Pause | clnt/nvmeibc_disk_locks.c:634-642 | the channel is paused, the invariant kept |
| LockChannel.LocksChannel.DrainExpiredHead | clnt/nvmeibc_disk_locks.c:467-474 | the loop takes a head of the queue, all of it queued longer ago than the lock time by the clock read last, and stops before a request that was not when it began |
| LockChannel.LocksChannel.DrainDeferedQueue | clnt/nvmeibc_disk_locks.c:459-486 | the routine is the drain event, the queue is the drained list followed by what is left, and in expired mode what is drained had waited longer than the lock time and the next request had not |
| LockChannel.LocksChannel.FailDeferred | clnt/nvmeibc_disk_locks.c:488-513 | a run of callback events: every request of the list has its callback once and with the failure status, requests on other lists none, and no other request changes |
| LockChannel.LocksChannel.AbortInProgressOps | clnt/nvmeibc_disk_locks.c:708-749 | the loop is the abort event: the in-progress list is empty and all its requests are on the caller's list |
| LockChannel.LocksChannel.DrainDefered | clnt/nvmeibc_disk_locks.c:565-632 | a drain event and a run of callbacks: the drained requests, in expired mode exactly those at the head that waited longer than the lock time, are called back as failed and no others |
| LockChannel.LocksChannel.AbortInProgressOprs | clnt/nvmeibc_disk_locks.c:813-866 | an abort event and a run of callbacks: nothing is in progress, its requests are called back as failed, and nothing new awaits its callback |
| LockChannel.LocksChannel.AbortAllOprs | clnt/nvmeibc_disk_locks.c:669-706 | a run of pause, drain, abort and callbacks, after which the channel is paused and empty and exactly what was queued or in progress has been called back, all with the failure status |
| DmaMachine.OneKeepsPlaced | clnt/nvmeibc_disk_local_dma_pools.c:59-66 | moving one block to a place it may be in keeps every block in exactly one place |
| DmaMachine.AllToKeepsPlaced | clnt/nvmeibc_disk_local_dma_pools.c:47-56 | moving a whole list keeps every block in exactly one place |
| DmaMachine.Returned | clnt/nvmeibc_disk_local_dma_pools.c:58-66 | a bounded return of blocks to their pools keeps the invariant and shortens the list by the bound, or to nothing |
| DmaMachine.DrainTakes | clnt/nvmeibc_disk_local_dma_pools.c:36-70 | a drain sends the first blocks in progress, at most the bound, each to its own pool; the shared list is taken only when nothing is in progress, and then all of it |
| DmaMachine.FreeAwayGoes | clnt/nvmeibc_disk_local_dma_pools.c:117-141 | a block freed on another CPU goes to the local list for its home CPU, and a list that is sent off goes whole to the shared list there |
| DmaMachine.NextKeepsInv | clnt/nvmeibc_disk_local_dma_pools.c:36-194 | every step of allocation, free, flush, bounded drain and worker keeps placement, homes, accounts and counters |
| DmaMachine.RunKeepsInv | clnt/nvmeibc_disk_local_dma_pools.c:36-194 | the invariant holds after any interleaving of steps |
| DmaMachine.BlockOwnership | clnt/nvmeibc_disk_local_dma_pools.c:36-75 | in every state of every interleaving each block is in exactly one list, once, in a pool only if it is its own, and was returned once per free save one on its way |
| DmaMachine.CountersAddUp | clnt/nvmeibc_disk_local_dma_pools.c:92-186 | in every reachable state, per type, the in_use counters over all CPUs differ from the blocks users hold exactly by the allocations and frees that have moved their block but not counted it, and by the drift of interrupted updates; with none of the former they are equal iff there is no drift |
| DmaMachine.ExactIffNotOverwritten | clnt/nvmeibc_disk_local_dma_pools.c:93-186 | the counters of a type have no drift throughout a run iff every update writes its counter over the value it read |
| DmaMachine.AloneReadsCurrent | clnt/nvmeibc_disk_local_dma_pools.c:93-186 | a counter keeps the value an update read as long as no update of the same counter is finished |
| DmaMachine.InterruptedCountIsLost | clnt/nvmeibc_disk_local_dma_pools.c:93-94 | a run after which users hold two blocks, nothing is under way, and the counters add up to one |
| DmaLinks.ChainedSplice | clnt/nvmeibc_disk_local_dma_pools.c:134-138 | one link write in the true last block joins two linked lists without losing a block |
| DmaLinks.PushKeepsTied | clnt/nvmeibc_disk_local_dma_pools.c:124-131 | after an addition the links spell the new list, `last` is its tail and `size` its length |
| DmaLinks.FlushKeepsTied | clnt/nvmeibc_disk_local_dma_pools.c:133-139 | after a flush the links spell both lists as the machine has them |
| DmaLinks.FlushKeepsTailed | clnt/nvmeibc_disk_local_dma_pools.c:108-114 | after the reset `last` and `size` are again those of every local list |
| DmaPools.PercpuPools.constructor | clnt/nvmeibc_disk_local_dma_pools.c:279-302 | newly allocated pools are an initial state of the machine |
| DmaPools.PercpuPools.Refill | clnt/nvmeibc_disk_local_dma_pools.c:47-49 | the shared list is taken only when nothing is in progress |
| DmaPools.PercpuPools.FreeNode | clnt/nvmeibc_disk_local_dma_pools.c:60-65 | the block at the head goes to the pool its own words name, which is its home |
| DmaPools.PercpuPools.DrainBounded | clnt/nvmeibc_disk_local_dma_pools.c:36-70 | the bounded drain is the machine's drain step, at most 16 blocks |
| DmaPools.PercpuPools.WorkerGrab | clnt/nvmeibc_disk_local_dma_pools.c:43-56 | the worker's first section is the machine's grab step |
| DmaPools.PercpuPools.WorkerReturn | clnt/nvmeibc_disk_local_dma_pools.c:59-66 | one turn of the worker's loop is the machine's return step |
| DmaPools.PercpuPools.WorkerMore | clnt/nvmeibc_disk_local_dma_pools.c:71-74 | looking for more is the machine's step of that name |
| DmaPools.PercpuPools.PoolAlloc | clnt/nvmeibc_disk_local_dma_pools.c:92-92 | the block handed out was in the pool or is new, and is the user's now |
| DmaPools.PercpuPools.PercpuAlloc | clnt/nvmeibc_disk_local_dma_pools.c:77-100 | an allocation is a drain, an allocation step and its counting, or a drain alone when it fails; no operation is left half counted and no drift is added |
| DmaPools.PercpuPools.Count | clnt/nvmeibc_disk_local_dma_pools.c:93-186 | an update that is not interrupted counts the operation that waits for it, and adds no drift |
| DmaPools.PercpuPools.LoadUse | clnt/nvmeibc_disk_local_dma_pools.c:93-94 | only an operation that has moved its block and not counted it reads the counter, as a step of its own |
| DmaPools.PercpuPools.StoreUse | clnt/nvmeibc_disk_local_dma_pools.c:93-94 | the step that writes the counter back, from the value read |
| DmaPools.PercpuPools.LocalAdd | clnt/nvmeibc_disk_local_dma_pools.c:117-141 | the addition is the machine's remote free, and the list is sent off iff it is long or old enough |
| DmaPools.PercpuPools.PercpuFree | clnt/nvmeibc_disk_local_dma_pools.c:162-187 | a free on the home CPU goes to the pool, one elsewhere to the local list, and both are counted on the freeing CPU; no operation is left half counted and no drift is added |
| DmaPools.PercpuPools.GiveUp | clnt/nvmeibc_disk_local_dma_pools.c:173-184 | the block leaves its user for its own pool, or for the local list, and its free is yet to be counted |
| DmaPools.PercpuPools.FreeAllNodes | clnt/nvmeibc_disk_local_dma_pools.c:36-75 | undisturbed, the unbounded drain ends with all three lists of the CPU empty and nothing else but pools changed |
| DmaPools.PercpuPools.EmptyTargetLocal | clnt/nvmeibc_disk_local_dma_pools.c:482-502 | one more local list is empty and its blocks are on their home CPU's shared list |
| DmaPools.PercpuPools.DestroyPools | clnt/nvmeibc_disk_local_dma_pools.c:534-539 | a CPU's pools are destroyed, which requires that none of their blocks is on its way |
| DmaPools.PercpuPools.FreePercpuPools | clnt/nvmeibc_disk_local_dma_pools.c:504-544 | every listed block is back in its own pool before that pool is destroyed, and all lists are empty |
| DirtyBits.NextKeepsInv | clnt/nvmeibc_disk_gen_cmds.c:221-338 | every step keeps one command at a time, queue order and the ledger |
| DirtyBits.SingleFlight | clnt/nvmeibc_disk_gen_cmds.c:294-324 | in every state of every interleaving at most one command is with the device, none and no other starter during a callback, waiting implies running, and requests leave the queue in the order they entered it |
| DirtyBits.ExactlyOnce | clnt/nvmeibc_disk_gen_cmds.c:188-218 | accepted requests are those called back plus those owed; with nothing running all were called back |
| DirtyBits.SuccessIsTold | clnt/nvmeibc_disk_gen_cmds.c:188-218 | over any run callbacks are made with success for exactly the commands the device completed successfully, and all others with an error |
| DirtyBits.RefusedIsForgotten | clnt/nvmeibc_disk_gen_cmds.c:309-321 | a submission the device refuses at once is not accepted and owed nothing |
| DirtyBits.NextGrows | clnt/nvmeibc_disk_gen_cmds.c:221-338 | from state to state what was accepted was queued, and what left the queue was called back or is the current command, except a command the device took at once |
| DirtyBits.Queue.TryStart | clnt/nvmeibc_disk_gen_cmds.c:294-307 | refused when stopping, deferred when running, else started |
| DirtyBits.Queue.TakeNext | clnt/nvmeibc_disk_gen_cmds.c:227-240 | the flag is cleared, or the first waiting request is taken with the flag set |
| DirtyBits.Queue.ServeNext | clnt/nvmeibc_disk_gen_cmds.c:227-246 | one turn of the loop: nothing waits and the flag is cleared, or the next request is at the device, or it was called back with an error |
| DirtyBits.Queue.CancelQueued | clnt/nvmeibc_disk.c:12945-12968 | all waiting requests are called back, once, in order, and none waits |
| DirtyBits.Queue.Rediscover | clnt/nvmeibc_disk.c:2114-2130 | what still waits is called back once and requests are taken again, also while a command runs |
| DirtyBits.Queue.ProcessPending | clnt/nvmeibc_disk_gen_cmds.c:221-248 | whatever other threads queue or cancel meanwhile, the loop ends with one waiting request at the device, or with nothing waiting and the flag cleared; all others that left the queue were called back; undisturbed, requests are failed in order |
| DirtyBits.Queue.GetDbEcRl | clnt/nvmeibc_disk_gen_cmds.c:250-324 | refused when stopping, queued when running, and otherwise 0 is returned iff the device took it; undisturbed, no callback is made during the call |
| DirtyBits.Queue.GetEcDbComp | clnt/nvmeibc_disk_gen_cmds.c:326-338 | the finished request is called back once, with success iff the device succeeded, and the queue is served, whatever other threads do meanwhile |
| JournalBatches.PlanTiles | clnt/nvmeibc_disk_gen_cmds.c:144-177 | for every total and limit the batches are consecutive, disjoint, within the limit, cover the entries exactly, and only the last is passed on |
| JournalBatches.TilesCover | clnt/nvmeibc_disk_gen_cmds.c:159-177 | every entry is in exactly one batch |
| JournalBatches.PlanIsFull | clnt/nvmeibc_disk_gen_cmds.c:144-177 | every batch before the last is as long as the limit allows |
| JournalBatches.FreeEnts.Fill | clnt/nvmeibc_disk_gen_cmds.c:99-157 | -EINVAL iff not even one entry fits the buffer or the device limit; otherwise the first batch of a tiling is prepared, with as many entries as the smaller of the two holds in every batch but the last |
| JournalBatches.FreeEnts.OnCompletion | clnt/nvmeibc_disk_gen_cmds.c:159-186 | the next batch of the plan is sent, or the callback is made, with TAKEN iff this was the last batch and it succeeded |
| JournalBatches.FreeEnts.FreeAll | clnt/nvmeibc_disk_gen_cmds.c:159-186 | for every behaviour of the disk: what is sent is the plan of full batches up to the first one that fails or is refused and no further, one callback, TAKEN iff every batch succeeded; nothing is sent or called back iff the first submission fails |
| ReqInfoDrain.NextKeepsInv | clnt/nvmeibc_channel.c:150-213 | every step of users and waiter keeps count, completion and waiter in agreement |
| ReqInfoDrain.DrainIsSafe | clnt/nvmeibc_channel.c:168-213 | in every interleaving: zero only after reqs_comp was set, a completer finds it set and the waiter there, one completion at most, and a waiter that returned leaves no user |
| ReqInfoDrain.ZeroIsFinal | clnt/nvmeibc_channel.c:150-161 | once zero the count stays zero: no later try_use succeeds |
| ReqInfoDrain.WaiterIsNotForgotten | clnt/nvmeibc_channel.c:193-206 | while the waiter waits, somebody can still bring about its wake-up |
| ReqInfoDrain.ReqInfoRef.TryUse | clnt/nvmeibc_channel.c:150-161 | a reference is taken iff the count is not zero |
| ReqInfoDrain.ReqInfoRef.EndUse | clnt/nvmeibc_channel.c:168-180 | whoever drops the last reference finds reqs_comp set |
| ReqInfoDrain.ReqInfoRef.CompleteReqs | clnt/nvmeibc_channel.c:173-176 | whoever dropped the last reference completes |
| ReqInfoDrain.ReqInfoRef.DropInitial | clnt/nvmeibc_channel.c:193-193 | the waiter waits iff references are left |
| ReqInfoDrain.ReqInfoRef.AwaitLast | clnt/nvmeibc_channel.c:199-204 | the wait ends, however often it times out and whatever users do, as long as those that can go on do |
| ReqInfoDrain.ReqInfoRef.WaitUsed | clnt/nvmeibc_channel.c:184-213 | whatever the users do between its atomic operations, the waiter returns, with the count zero, reqs_comp cleared, and nobody using the table or about to complete |
| VersionSeqlock.NextKeepsInv | clnt/nvmeibc_channel.c:80-133 | every step of a writer or reader keeps, for each reader, that what it read is current or was committed since it began |
| VersionSeqlock.TrackedReadWasCommitted | clnt/nvmeibc_channel.c:114-133 | in every interleaving a read that returns gives a version committed as valid, or an invalidity committed, at one instant during the call, even through a wrap-around |
| VersionSeqlock.TrackedReadIsCurrent | clnt/nvmeibc_channel.c:114-133 | with fewer than 2^32 counter moves the result is the state at the return |
| VersionSeqlock.CookieIsExact | clnt/nvmeibc_channel.c:137-140 | the cookie matches iff the counter moved by a multiple of 2^32 |
| VersionSeqlock.UnchangedMeansNoWrites | clnt/nvmeibc_channel.c:137-140 | with fewer than 2^32 moves the cookie matches iff nobody began an update or invalidation since |
| VersionSeqlock.WrapHidesUpdates | clnt/nvmeibc_channel.c:137-140 | a run of 2^31 updates after which the cookie matches |
| VersionSeqlock.TagsAreUsable | common/nvmeib_msgs_shared.h:286-292 | the next tag is the next 64-bit value, stepping over zero and the reserved value 13, and is never one of them |
| VersionSeqlock.VersionsAreNew | clnt/nvmeibc_channel.c:90-97 | over any run two updates commit the same version iff the updates from one to the other are a multiple of 2^64 - 2; with fewer updates no version is committed twice |
| VersionSeqlock.ChannelVersion.Update | clnt/nvmeibc_channel.c:80-97 | the version committed as valid is the old one plus one, or two where that would be the reserved value, or wraps around to one; the counter has moved twice |
| VersionSeqlock.ChannelVersion.Invalidate | clnt/nvmeibc_channel.c:99-112 | the version is committed as invalid and the counter has moved twice |
| VersionSeqlock.ChannelVersion.ReadBegin | clnt/nvmeibc_channel.c:121-121 | the spinning ends, and the counter is read with no write under way |
| VersionSeqlock.ChannelVersion.ReadOnce | clnt/nvmeibc_channel.c:120-125 | one turn of the loop: retried only if writers moved the counter, and otherwise what was read was committed since it began |
| VersionSeqlock.ChannelVersion.GetTracked | clnt/nvmeibc_channel.c:114-133 | whatever the writers do between the reads, the loop ends; what it returns was committed at one instant during the call, and with fewer than 2^32 steps of writers is what is there at the return |
| VersionSeqlock.ChannelVersion.TrackedChanged | clnt/nvmeibc_channel.c:137-140 | changed iff the counter moved by no multiple of 2^32 since the cookie was taken; with fewer than 2^32 moves, iff anybody began a write since |
| AdminSend.NextKeepsInv | clnt/nvmeibc_ib_admin_channel.c:355-454 | every step of sender, completion handler and disconnect keeps the handshake's invariant |
| AdminSend.ZeroMeansSent | clnt/nvmeibc_ib_admin_channel.c:1580-1647 | in every interleaving a send returned 0 only if the successful send completion of that message was processed |
| AdminSend.ResultIsStatus | clnt/nvmeibc_ib_admin_channel.c:1580-1647 | in every interleaving a send that has begun is under way or has returned, and as long as the net lives it returned success iff its own send completion was a success |
| AdminSend.GivenUpIsNoSuccess | clnt/nvmeibc_ib_admin_channel.c:1580-1647 | a send whose post failed, that timed out, or that found the net dying when it checked or was woken never returns success, whatever follows |
| AdminSend.DisconnectWakes | clnt/nvmeibc_ib_admin_channel.c:368-382 | a sender that passed the dying check and waits is woken by the disconnect and then gives up |
| AdminSend.DeathWakesIsExact | clnt/nvmeibc_ib_net.c:693-715 | a sender that saw the net alive can go on once the net has died, in every continuation, iff dying is first raised by a path that runs the disconnect callback |
| AdminSend.DyingIsRecorded | clnt/nvmeibc_ib_net.c:693-715 | over any run the net is dying iff somebody raised it, and the disconnect has woken the sender iff its callback has run |
| AdminSend.AwakeReadsItsOwn | clnt/nvmeibc_ib_admin_channel.c:1616-1635 | on a live net a woken sender returns the status of its own message |
| AdminSend.WakeIsExact | clnt/nvmeibc_ib_admin_channel.c:378-424 | on a live net a processed completion wakes its sender in every continuation, iff no handler is still about to clear the buffer when the sender arms it |
| AdminSend.WakeIsLost | clnt/nvmeibc_ib_admin_channel.c:417-420 | a run after which the second message is processed, nobody will complete, and its sender waits |
| AdminSend.LostStays | clnt/nvmeibc_ib_admin_channel.c:1616-1624 | such a sender goes on only by timing out or with a dying net |
| AdminSend.PooledNeverLoses | clnt/nvmeibc_ib_admin_channel.c:278-292 | no wake-up is lost in any run that sends only in buffers that do not point to the completion |
| AdminSend.AdminChannel.Reinit | clnt/nvmeibc_ib_admin_channel.c:371-371 | the step that re-arms the completion |
| AdminSend.AdminChannel.SeeDying | clnt/nvmeibc_ib_admin_channel.c:372-375 | the step that looks whether the net is dying |
| AdminSend.AdminChannel.PointTo | clnt/nvmeibc_ib_admin_channel.c:382-382 | the step that points the buffer to the completion |
| AdminSend.AdminChannel.StoreStatus | clnt/nvmeibc_ib_admin_channel.c:450-451 | the step that stores the status of a send completion |
| AdminSend.AdminChannel.CompleteIfArmed | clnt/nvmeibc_ib_admin_channel.c:411-418 | the step that completes, iff the buffer points to the completion |
| AdminSend.AdminChannel.PointNowhere | clnt/nvmeibc_ib_admin_channel.c:419-419 | the step that clears the buffer's pointer |
| AdminSend.AdminChannel.MarkDying | clnt/nvmeibc_ib_net.c:700-701 | the step that makes the net dying |
| AdminSend.AdminChannel.OnDying | clnt/nvmeibc_ib_admin_channel.c:426-443 | the step that completes for a disconnect |
| AdminSend.AdminChannel.RaiseDying | clnt/nvmeibc_ib_net.c:644-644 | the step that raises dying and does nothing else |
| AdminSend.AdminChannel.OnInit | clnt/nvmeibc_ib_admin_channel.c:355-387 | re-arm, look and point, in this order: 0 is returned iff the net is not dying |
| AdminSend.AdminChannel.OnSendComp | clnt/nvmeibc_ib_admin_channel.c:445-454 | store, complete, clear, in this order: the completion is completed iff the buffer points to it |
| AdminSend.AdminChannel.OnDisconnect | clnt/nvmeibc_ib_net.c:693-715 | set dying, then, the first time and on a live or connecting net, complete |
| AdminSend.AdminChannel.OnCancel | clnt/nvmeibc_ib_admin_channel.c:389-396 | the buffer no longer points to the completion |
| AdminSend.AdminChannel.AfterWait | clnt/nvmeibc_ib_admin_channel.c:1616-1638 | an error when dying; 0 only if the message's own completion succeeded |
| VersionOrder.OrderLaws | RPM/install.py:47-152 | the order on token sequences is antisymmetric and zero iff they are equal |
| VersionOrder.OrderTransitive | RPM/install.py:47-152 | the order on token sequences is transitive |
| VersionOrder.CompareV | RPM/install.py:47-152 | the two-index loop raises iff one version ends where the other has a tilde, and otherwise is the lexicographic order of tokens with tilde < end < caret < letters < numbers by value (what tokens and values are is stated without the tokenizer by the lemmas of VersionMeaning) |
| VersionMeaning.TokensJoin | RPM/install.py:56-107 | where neither a number nor a word runs on from one string into the other, the tokens of the two in a row are those of the first and then those of the second |
| VersionMeaning.Pieces | RPM/install.py:56-107 | the tokens of the pieces: tilde, caret, a word, and nothing for any other character that is no letter or digit |
| VersionMeaning.NumberToken | RPM/install.py:97-129 | the decimal spelling of any number, after any number of zeros, is one token with that value |
| VersionMeaning.NumbersByDigits | RPM/install.py:97-136 | numbers without leading zeros compare by their number of digits, then by the first digit in which they differ |
| VersionMeaning.WordsByLetters | RPM/install.py:123-136 | words compare by the first letter in which they differ, and a beginning of a word comes before it |
| VersionMeaning.WhatComesFirst | RPM/install.py:62-152 | tilde before the end, the end before a caret, a caret before words, words before numbers, smaller before larger, whatever follows |
| VersionMeaning.CommonBeginning | RPM/install.py:56-152 | a common beginning of the tokens does not matter |
| VersionMeaning.NameParts | RPM/install.py:25-32 | version and release are what stands before the first dash and between it and the next; without a dash there is an IndexError |
| VersionMeaning.VersionFirst | RPM/install.py:35-44 | the version decides, and the release only between versions that compare equal |
| UpgradeScripts.TildeRaises | RPM/install.py:47-152 | "1~" sorts before "1" in the order of tokens, and comparing them raises |
| UpgradeScripts.CompareVersionRelease | RPM/install.py:35-44 | versions first, then releases; raises iff a part is missing or a comparison raises |
| UpgradeScripts.PlainCompares | RPM/install.py:25-44 | names with a release and without tildes never raise and compare by tokens |
| UpgradeScripts.ByVersionLaws | RPM/install.py:35-44 | antisymmetric and total, zero iff version and release tokens are equal |
| UpgradeScripts.ByVersionTransitive | RPM/install.py:35-44 | transitive, strictly if either part is strict |
| UpgradeScripts.IsInRange | RPM/install.py:155-159 | the short-circuited test raises exactly where one of the comparisons it makes raises, and otherwise takes the lower bound itself in inclusive mode and names after it up to the upper bound |
| UpgradeScripts.RangeIsExact | RPM/install.py:155-159 | for plain names the test is lower < s <= upper, plus the lower bound itself in inclusive mode |
| UpgradeScripts.InclusiveRange | RPM/install.py:155-159 | inclusive mode is lower <= s <= upper iff s is not a respelling of the lower bound within the range and the bounds are in order |
| UpgradeScripts.InclusiveMissesRespelling | RPM/install.py:155-159 | a name equal in order to the lower bound that is not selected |
| UpgradeScripts.Select | RPM/install.py:171-171 | the selection in directory order, or the first IndexError met |
| UpgradeScripts.SelectionIsExact | RPM/install.py:171-171 | each name in range is kept as often as it is there, every other not at all |
| UpgradeScripts.SelectionKeepsOrder | RPM/install.py:171-171 | the names selected from a list followed by another are those of the one followed by those of the other: the order of the directory is kept |
| UpgradeScripts.SortScripts | RPM/install.py:172-172 | sorted, a permutation, and stable |
| UpgradeScripts.StableSortIsUnique | RPM/install.py:172-172 | any two stable sorts of the same names agree |
| UpgradeScripts.ScriptsToRun | RPM/install.py:171-172 | exactly the scripts in range, each as often as it is there, in non-decreasing order |

## Left out

- LockProtocol.MutualExclusion: a posted work request takes effect at most once, and not after its completion or abort; that the fabric may execute an aborted request later is not modelled.
- LockChannel.LocksChannel.OnCompletion: a completion whose version matches a retired slot is excluded, because the driver would follow the poison value left there; by LockVersions.StaleIsIgnored it takes a completion that comes after the slot was retired a multiple of 65536 times.
- LockChannel.LocksChannel.OnCompletion: the callback, made after the lock is released, is counted within the same event.
- LockChannel.LocksChannel.DrainDefered: nothing runs between its drain and its callbacks; LockRuns has the two as separate events, with anything between.
- LockChannel.LocksChannel.AbortInProgressOprs: nothing runs between its abort and its callbacks, as above.
- LockChannel.LocksChannel.AbortAllOprs: nothing runs between its phases; LockRuns.AbortReachesQuiescence is about runs with anything between them.
- LockChannel.LocksChannel.AbortAllOprs: one channel; the walk over secondary and per-CPU channels and its inter-processor calls is the same logic per channel.
- LockChannel.LocksChannel.PostSend: the two early exits of the server-side post that name no work request are outside its contract.
- DmaPools.PercpuPools.PercpuAlloc: no interrupt falls into its counting; DmaMachine has the two halves as separate steps, with anything between.
- DmaPools.PercpuPools.PercpuFree: no interrupt falls into its counting, as above.
- LockRuns.ExpiredDrainIsExact: jiffies do not wrap around; the driver compares them with a plain `>`.
- LockJoin.ChannelIsClient: the request is a compare-and-swap that goes through the queue, with its lock id or no owner as compare value; requests served by local bypass are steps of the protocol alone.
- DmaPools.PercpuPools.LocalAdd: jiffies do not wrap around.
- DirtyBits.Queue.GetDbEcRl: that no callback is made during the call is stated for a call nobody disturbs; otherwise requests queued meanwhile may be failed in it.
- ReqInfoDrain.ReqInfoRef.WaitUsed: that users which can go on do, and make finitely many new attempts, is taken for granted; without it the wait need not end.
- VersionSeqlock.ChannelVersion.GetTracked: writers take finitely many steps during the call; without that the loop need not end.
- AdminSend.AdminChannel.OnInit: nothing runs between its steps; the steps are methods of their own, and the theorems are about any order of them.
- AdminSend.AdminChannel.OnSendComp: nothing runs between its steps, as above.
- AdminSend.AdminChannel.OnDisconnect: nothing runs between its steps, as above.
- AdminSend.DisconnectWakes: the disconnect callback runs; AdminSend.DeathWakesIsExact has both cases.
- VersionOrder.CompareV: characters outside ASCII count as separators.
- UpgradeScripts.ScriptsToRun: names without a release or with tildes, on which sorting may raise, are covered only up to the selection (UpgradeScripts.Select).
- The closing sanity check of free_percpu_pools, which adds up counters only of pools that are already gone.
- Byte swapping of atomics, watchdogs, statistics, piggy-backed disk commands and the num_of_series_ip statistic of the lock channel.
- The blkset-info read operation, which no caller uses and whose completion the driver does not support.
- Argument checks of execute_opr before the channel is chosen, and the choice of the channel.
- Memory ordering: the steps of the sequence lock, the reference count and the handshake are sequentially consistent.
- Allocation failures other than those of the DMA pools themselves.
- RDMA verbs, login, path discovery, message encoding, block device tables, the disk pause protocol, command-line and management plumbing.
