# os_transport in Dafny

`os_transport` moves large buffers over URMA in chunks of 2 MiB. A send posts chunk 0 itself
and registers one task per further chunk with a pool of 64 worker threads. The completion of
each write wakes the worker of that request, the worker posts exactly one more chunk, and so
on: the protocol clocks itself. A waiting thread is released when all tasks have reported, or
at the first failure, in which case it cancels what is left; then it frees the request's
memory.

This project models that mechanism and proves what it promises:

* **Heap structures as classes.** The worker's linked task queue (`TaskQueue.dfy`), the batch
  submission with its clean-up path (`BatchSubmit.dfy`), the 1024-bucket table of request
  contexts (`RequestTable.dfy`), the completion handle (`TaskSync.dfy`) and the growing event
  ring (`EventRing.dfy`) keep their pointers, counters and arrays; every method is proved to
  act on an abstract sequence, map or record.
* **The pool as a state machine** (`Pool.dfy`). Each critical section is one action. A worker's
  turn is cut into the steps other threads can observe: pop, run, look the context up, count
  down, batch callback, unlink the context, free. Any number of threads wake and cancel; one
  submits; one destroys. `PoolInvariant.dfy` holds the invariant, `PoolViews.dfy` and
  `PoolSteps.dfy` show that all 27 actions keep it, and `PoolTheorems.dfy` and `Shutdown.dfy`
  draw the conclusions for every run.
* **The send protocol on top of the pool** (`Send.dfy`, `SendInvariant.dfy`, `SendSteps.dfy`,
  `SendTheorems.dfy`, `SendProgress.dfy`, `SendFairness.dfy`): any number of sends at once, each with its
  chunks, its handle, its writes in flight and its waiter; one thread inside the send call; one
  completion poller. Requests that are not sends, such as receives, use the same pool, the
  same submitter and the same poller at the same time, in any way the pool allows. Every run
  of the protocol is shown to be a run of the pool.
* **Where the code falls short, exactly when.** `CancelGap.dfy` (a wake that is lost),
  `IdReuse.dfy`, `KeyReuse.dfy`, `EarlyCall.dfy` and `LoneSend.dfy` (using an id again).
* **Bytes and words.** `ChunkSplit.dfy` (the split, and why chunked writing is one copy),
  `UserContext.dfy` (the 64-bit context word, the task table of a send, the routing of
  completions), `EndToEnd.dfy` (from the protocol's verdict to the bytes written).
* **Locks** (`LockOrder.dfy`): the lock script of every procedure, and freedom from deadlock.

The key invariant of the protocol is a token. As long as no post of a send was refused and
chunks are left, there is at most one of: a write in flight, a completion in the poller's
hands, a wake on its way, a filled slot, a popped task that has not posted. This is why chunks
go out in order and one at a time. There is exactly one of them unless the send has been
robbed. Every fair run finishes: a send with chunks left comes to post them all, unless a post is
refused or it is robbed (`SendFairness.FairRunsFinish`).

## A wake can be lost

A worker has one slot, `pending_req`, and a wake overwrites it. A cancel first unlinks the
tasks of its request under the worker's lock and only later updates the context
(`src/os_transport_thread_pool.c:721-739`). In the gap between the two the context is still
found, although nothing of its request is queued, and the worker counts as empty, so another
request may be given to it. A completion of the cancelled request that is looked up in the gap
overwrites whatever wake that other request had. `CancelGap.WakeIsLost` is such a run.

The condition is exact. Handling a completion strands a request exactly if the slot of the
worker names another request with tasks queued there, and in every reachable state this
implies the gap (`CancelGap.WakeStrandsIff`, `CancelGap.OnlyInTheGap`). For sends: a live send
loses its token exactly to such a wake (`SendProgress.TokenLostIff`), it then stalls for good
(`SendTheorems.RobbedForGood`), and nobody is ever robbed as long as no lookup falls into a gap
(`SendTheorems.NobodyRobbed`). A send's own completions never fall into its own gap, since its
waiter cancels only after a refused post, when no completion of it is to come
(`SendTheorems.OwnLookupMissesGap`); those of a receive can.

Order, lifetime, verdict and bytes do not depend on any of this; they are proved for every run.

## Using an id again

A batch may be submitted under an id whose context is gone. Whether that is harmless is decided
when the batch is linked into its worker's queue: all counts stay right through every
continuation if and only if no cancel of an earlier use is about to clean that queue and no wake
of an earlier use is on its way to that worker or in its slot, id 0 and exited workers aside
(`IdReuse.AttachSafeIffClear`; `IdReuse.UnclearIsReachable` is a run that violates it).

For a send it is enough that its waiter will not cancel any more, its last completion has been
polled and the wake for it consumed, and its context is gone: then nothing of it is left at any
worker, and its id can be called again (`KeyReuse.KeyReusable`). Each condition is there for a
reason:

* A completion not polled yet is taken for that of the new chunk 0, and a worker posts chunk 1
  before chunk 0 is posted. With everything else in place, the chunks of the new send are sure to
  go out in order if and only if no completion is outstanding (`EarlyCall.CallKeepsOrderIff`).
  This is within reach of a careful caller: a send reports success, and its memory is freed,
  while its last write is in flight (`LoneSend.EarlyCallIsReachable`).
* A wake or a slot left over spoils the count of the new batch (`IdReuse.AttachSafeIffClear`).
* A context still linked is about to be dropped, and the new batch can be charged to it after
  it has been freed (`EarlyCall.LiveContextFaults`).
* A waiter that still cancels takes the new batch with it (`EarlyCall.LateCancelTakesAll`).

## What success means

The waiter is released by its tasks, and tasks report that a write was accepted, not that it was
performed. Success is reported exactly when every write has been accepted
(`SendTheorems.VerdictIsExact`); from every live send it can be reported, with everything freed,
while the last write is still in flight (`EndToEnd.SuccessInFlight`). Never more than that one:
the chunks whose completion has been polled are the posted ones but the last, or all
(`EndToEnd.PolledInOrder`), so at success the bytes of all chunks but the last are certain, and
all bytes once no write is in flight (`EndToEnd.SuccessIsWholeCopy`).

## Assumptions

* Submissions are serialised; one thread polls completions. Wakes and cancels of the pool may
  come from any number of threads. Wake and cancel read the worker index of a context in the
  same step in which they look it up.
* A request id is not submitted while its context is live, and a batch is linked into a queue
  only when no leftover of an earlier use can touch it there, the condition of "Using an id
  again" above. Request ids of sends are not 0.
* Task functions and callbacks do not call into the pool. Allocation succeeds except where a
  parameter says otherwise (task nodes, contexts of the table, chunk array, task table).
* Each accepted write produces one completion, and as long as an id belongs to a send, only the
  writes of that send produce completions that name it. Completions of other requests come at
  any time.
* The workers are joined only when no submission, wake or cancel is in progress.
* Critical sections are atomic.

## Where code and comments differ

* `include/os_transport_thread_pool.h:101` says destruction waits for all tasks. The code frees
  what is still queued; `PoolTheorems.OneFateEach` counts those tasks as dropped.
* `src/os_transport_thread_pool.c:160` says selection falls back to the shortest queue. It only
  ever compares busy workers, and no worker is busy while its mutex is free; so selection takes
  the first empty queue and otherwise fails (`BatchSubmit.SelectionWithoutBusy`,
  `PoolTheorems.FreeMutexMeansNotBusy`, `PoolTheorems.SelectionIsFirstEmpty`).
* A receive posts its bare request id as user context (`src/os_transport_urma.c:58`). Decoded
  like the word of a write it names request 0, which never runs
  (`UserContext.BareIdDecodesToZero`).
* `chunk_id` has 6 bits and identifies chunks exactly up to 64 of them
  (`UserContext.ChunkIdsDistinct`).

## Model

| member | source | states |
|---|---|---|
| TaskQueue.WorkerQueue.Push | src/os_transport_thread_pool.c:115-131 | appends one task; without memory the queue is unchanged; the list stays a chain with its tail last and its size exact |
| TaskQueue.WorkerQueue.Attach | src/os_transport_thread_pool.c:598-608 | the queue becomes its old contents followed by the batch |
| TaskQueue.WorkerQueue.PopByReq | src/os_transport_thread_pool.c:134-158 | takes out the first task of the request and leaves every other task where it was, or changes nothing |
| TaskQueue.WorkerQueue.CancelByReq | src/os_transport_thread_pool.c:668-697 | removes exactly the tasks of the request, keeps the order of the rest, returns how many there were |
| TaskQueue.DropFirstSplits | src/os_transport_thread_pool.c:134-158 | a pop shortens the request's own tasks by their first and touches no other request |
| TaskQueue.OthersSplits | src/os_transport_thread_pool.c:668-697 | after a cancel none of the request's tasks is left, every other request keeps its tasks, and kept and removed add up |
| BatchSubmit.SelectBestWorker | src/os_transport_thread_pool.c:161-182 | first idle worker with an empty queue, else the first least loaded busy one below the cap, else none |
| BatchSubmit.SelectionWithoutBusy | src/os_transport_thread_pool.c:161-182 | with idle workers only, it finds the first empty queue and fails exactly when all are non-empty |
| BatchSubmit.BuildBatchNodes | src/os_transport_thread_pool.c:505-595 | builds the chain in the order of the task array with the returned ids; if memory ends at any allocation, of the wrappers, tasks and nodes allocated so far each is freed and none twice, and nothing is returned |
| BatchSubmit.FreedOnce | src/os_transport_thread_pool.c:575-587 | freeing the allocations of a failed build, in whatever order, frees each of them exactly once and nothing else |
| BatchSubmit.SubmitToQueue | src/os_transport_thread_pool.c:647-657 | on the chosen worker: the whole batch in order at the end of the queue with its ids returned, or the queue as it was |
| RequestTable.HashReqId | src/os_transport_thread_pool.c:77-79 | every 32-bit id has a bucket below 1024 |
| RequestTable.Table.Find | src/os_transport_thread_pool.c:185-195 | returns what the finite map holds for the id |
| RequestTable.Table.Locate | src/os_transport_thread_pool.c:185-195 | the walk of a bucket ends at the id's only context, with its predecessor, or at the end if the map has none |
| RequestTable.Table.Insert | src/os_transport_thread_pool.c:197-203 | adds the context of an absent id to the map, at the front of its bucket; the chains of other buckets are untouched |
| RequestTable.Table.Remove | src/os_transport_thread_pool.c:205-219 | removes the id from the map; its bucket loses that one context and keeps its order, the chains of other buckets are untouched |
| RequestTable.Table.Charge | src/os_transport_thread_pool.c:611-629 | adds a batch to a live context's count or makes a context with that count; fails, changing nothing, exactly when a context is needed and memory is out |
| RequestTable.Table.Discharge | src/os_transport_thread_pool.c:700-718 | subtracts cancelled tasks and unlinks the context exactly when none is left |
| PoolSteps.StepOk | src/os_transport_thread_pool.c:222-281 | every action of every thread keeps the pool invariant |
| PoolTheorems.ReachableOk | src/os_transport_thread_pool.c:222-281 | the pool invariant holds after every run, ids used again included |
| PoolTheorems.CountConserved | src/os_transport_thread_pool.c:222-249 | pending count plus attached but uncounted minus cancelled but unsubtracted tasks equals queued tasks plus the one run but not counted down; the count is never negative |
| PoolTheorems.ContextsAreAlive | src/os_transport_thread_pool.c:721-739 | a cancel that unlinked tasks finds its context live and empties it; no thread counts down, charges or unlinks a freed context |
| PoolTheorems.ContextIffTasks | src/os_transport_thread_pool.c:598-629 | between operations a context exists exactly when its request has tasks |
| PoolTheorems.OneFateEach | src/os_transport_thread_pool.c:222-249 | the submitted tasks are, in order, those run, in hand, queued, dropped by destruction, cancelled |
| PoolTheorems.RunsInOrder | src/os_transport_thread_pool.c:134-158 | under any wakes, cancels and interleaving, the tasks run are an initial stretch of the submitted ones |
| PoolTheorems.FreedExactlyOnce | src/os_transport_thread_pool.c:222-249 | node, wrapper and task of each submitted task are freed at most once, and exactly once when it has run and its turn is over, when it was cancelled, and after destruction |
| PoolTheorems.ScrappedFreedOnce | src/os_transport_thread_pool.c:575-587 | in every run, the whole nodes a failed build had made are freed exactly once; single allocations are the matter of `BatchSubmit.BuildBatchNodes` |
| PoolTheorems.EarlierUses | src/os_transport_thread_pool.c:222-249 | for every earlier use of an id: the tasks run followed by those cancelled are the tasks submitted, the callback fired exactly if due, everything was freed exactly once, but for the task of a turn about to end |
| PoolTheorems.NoRunWithoutWake | src/os_transport_thread_pool.c:427-441 | tasks run, plus one if the slot names the request, never exceed the wakes accepted; request 0 never runs |
| PoolTheorems.NoLostSignal | src/os_transport_thread_pool.c:261-278 | no worker sleeps, or is about to, on a filled slot |
| PoolTheorems.FreeMutexMeansNotBusy | src/os_transport_thread_pool.c:222-281 | whoever gets a worker's mutex finds it idle or exited |
| PoolTheorems.OneRequestPerWorker | src/os_transport_thread_pool.c:543-563 | each worker serves one request and each request one worker |
| PoolTheorems.SelectionIsFirstEmpty | src/os_transport_thread_pool.c:161-182 | in every run the selection takes the first empty queue of a live worker and gives up only after the last |
| PoolTheorems.BatchCallbackOnce | src/os_transport_thread_pool.c:222-249 | the batch callback fires once, exactly when all tasks have run, and never if any was cancelled or dropped |
| Shutdown.SleepersWoken | src/os_transport_thread_pool.c:344-355 | a worker that shutdown has passed is not asleep and never falls asleep again |
| Shutdown.ExitIsFinal | src/os_transport_thread_pool.c:266-269 | an exited worker stays exited and takes no step |
| Shutdown.NoEarlyExit | src/os_transport_thread_pool.c:266-269 | no worker exits before the flag is set |
| Shutdown.ShutdownBound | src/os_transport_thread_pool.c:252-281 | after the flag the workers take at most a fixed number of steps plus eight per further wake |
| Shutdown.ShutdownProgress | src/os_transport_thread_pool.c:344-355 | while shutdown signals, at any worker it has come to, it can signal the next, or some worker can take a step of its own, or all have been signalled and have exited |
| Shutdown.EveryWorkerCanExit | src/os_transport_thread_pool.c:252-281 | from every reachable state of a shutdown some continuation, without any further wake, lets all workers exit |
| Shutdown.DroppedWasQueued | src/os_transport_thread_pool.c:358-371 | what destruction drops of a request is exactly what was queued when the workers had been joined |
| Shutdown.UnwokenIsDropped | src/os_transport_thread_pool.c:344-371 | a batch that was never woken can be dropped as a whole, in submission order |
| TaskSync.Handle.MarkTaskGroupCompleted | src/os_transport.c:114-138 | a failure ends the request and counts nothing; a success counts and ends it at the last task |
| TaskSync.Handle.WaitForTaskComplete | src/os_transport.c:98-112 | for any reports and spurious wake-ups: returns from the first wait that leaves the flag set, 0 exactly when the counters, read after the mutex is released, agree |
| TaskSync.MarksAddUp | src/os_transport.c:98-138 | for every sequence of marks: the count is the successes and within its bound, the waiter is released exactly by a failure or the last success, the verdict is 0 exactly when all succeeded, also when successes follow a failure |
| TaskSync.ReportsAddUp | src/os_transport.c:114-138 | the same with any number of failures from the calling thread anywhere between the marks: they release the waiter and never change the verdict |
| SendSteps.FollowsPool | src/os_transport.c:364-372 | each step of the protocol is a step of the pool or leaves the pool alone |
| SendSteps.SendStepOk | src/os_transport.c:736-772 | every step of every thread keeps the protocol invariant |
| SendTheorems.RefinesPool | src/os_transport.c:736-772 | every run of the protocol is a run of the pool |
| SendTheorems.PostsInOrder | src/os_transport.c:736-747 | every request posts its chunks once each, in order from 0; a proper initial stretch if a post was refused |
| SendTheorems.ExactlyOneToken | src/os_transport.c:820-838 | at most one write, completion, wake, filled slot or woken task per send; while chunks are left and no post was refused, exactly one if and only if the send was not robbed |
| SendTheorems.OverwritesNothing | src/os_transport_thread_pool.c:427-441 | a wake looked up outside the gap of a cancel finds the slot empty, naming its own request, or naming a request that is no send or has nothing queued there |
| SendProgress.TokenLostIff | src/os_transport_thread_pool.c:427-441 | a live send is left without write, completion, wake, slot and woken task exactly by a wake for another request set into the slot that names the send while tasks of it are queued there, and that wake was looked up in a gap |
| SendTheorems.RobbedForGood | src/os_transport.c:98-112 | a robbed send posts nothing more, its flag stays down and its waiter waits on, whatever anyone does |
| SendTheorems.OwnLookupMissesGap | src/os_transport.c:820-838 | when a completion of a send is looked up, no cancel of that send is between unlinking and updating |
| SendTheorems.NobodyRobbed | src/os_transport_thread_pool.c:427-441 | no send is ever robbed in a run none of whose lookups finds a context in the gap of its cancel |
| SendTheorems.FreedUnreferenced | src/os_transport.c:840-871 | when the waiter frees handle, arguments and chunks, after success or after cancelling, no queued or running task refers to them, and none has touched freed memory |
| SendTheorems.RunsOnlyWhileAlive | src/os_transport.c:364-372 | a task's function only runs while its request's memory is there |
| SendTheorems.VerdictIsExact | src/os_transport.c:840-871 | the wait reports success exactly when every chunk was posted; then every task has run and succeeded |
| SendTheorems.CompletedBounded | src/os_transport.c:424-439 | completed tasks are the successes marked and never exceed the total |
| SendTheorems.DoneSticks | src/os_transport.c:114-138 | the completion flag is never reset |
| SendTheorems.WaitIsFed | src/os_transport.c:98-112 | until the waiter of a send that was not robbed may go on, a chunk or a mark of its request is under way |
| SendProgress.OnlyAdvances | src/os_transport.c:820-838 | no step of any thread takes a live send further from its last chunk, each move of its token brings it closer, and only a refused post or a wake from the gap ends this |
| SendProgress.TokenMovesBounded | src/os_transport.c:820-838 | in every continuation the token of a live send moves at most five times per chunk left, and four times |
| SendProgress.CanAlwaysFinish | src/os_transport.c:736-772 | from every reachable state some continuation by the poller and the workers alone posts, in order, all chunks of a send that was not robbed and none of whose posts was refused |
| SendFairness.FairRunsFinish | src/os_transport.c:820-838 | in every endless run in which completions arrive, the poller goes on and every worker not asleep goes on, a live send comes to post all chunks, have a post refused, or be robbed |
| KeyReuse.KeyReusable | src/os_transport.c:736-772 | sufficient for calling the id of a send again: nobody submits, its waiter will not cancel any more, no write, completion, wake, slot or task of it is left, and its context is gone; then no wake, cancel or slot of it is left at any worker |
| EarlyCall.CallKeepsOrderIff | src/os_transport.c:736-772 | a send is over but for completions not polled and its id is called at once: if the pool takes the batch, the new chunks are sure to go out in order if and only if there is no such completion |
| EarlyCall.LiveContextFaults | src/os_transport_thread_pool.c:611-629 | submitted while the context of its send is still linked, a batch can be charged to that context after it has been freed |
| EarlyCall.LateCancelTakesAll | src/os_transport_thread_pool.c:721-739 | a cancel left over from an earlier use, coming before chunk 0 of the new one, takes all of its tasks |
| LoneSend.EarlyCallIsReachable | src/os_transport.c:840-871 | a run from the start after which success has been reported and everything freed with the last completion outstanding, and an early call posts chunk 1 before chunk 0 |
| EndToEnd.PolledInOrder | src/os_transport.c:820-838 | each completion of a send that is polled is that of its latest accepted write, the only one in flight |
| EndToEnd.PostedIsCopied | src/os_transport.c:736-772 | in every reachable state the accepted writes, once performed, copy exactly the first bytes, those of the posted chunks |
| EndToEnd.PolledIsCopied | src/os_transport.c:820-838 | the writes polled as completed have copied exactly the bytes of the posted chunks but the one in flight |
| EndToEnd.SuccessInFlight | src/os_transport.c:840-871 | from every reachable state with a live send, a continuation reports success and frees everything with one write in flight |
| EndToEnd.SuccessIsWholeCopy | src/os_transport.c:840-871 | success is reported exactly when every write was accepted; then, whatever the write in flight has done, all chunks but the last are copied and nothing outside the range has changed, and memory is one copy of the whole range when nothing is in flight |
| ChunkSplit.SplitChunks | src/os_transport.c:219-248 | the chunks tile both ranges, full but the last, none empty, lengths adding up, addresses modulo 64 bits; nothing without memory |
| ChunkSplit.TilesUnique | src/os_transport.c:219-248 | there is one tiling only; it has at most 2048 chunks, and two or more exactly above 2 MiB |
| ChunkSplit.AnyOrderIsOneCopy | src/os_transport.c:398-439 | for disjoint ranges without wrap, writing all chunks in any order, even repeatedly, is one copy |
| ChunkSplit.PrefixIsPartialCopy | src/os_transport.c:398-439 | writing the first k chunks is a copy of exactly their bytes |
| UserContext.UnpackPack | include/os_transport.h:19-27 | decoding undoes encoding for all in-range fields |
| UserContext.PackUnpack | include/os_transport.h:19-27 | every 64-bit word is the encoding of its decoded, in-range fields |
| UserContext.ContextDecodes | src/os_transport.c:289-315 | for every chunk of any split: request, kind and length come back exactly, the chunk number modulo 64 |
| UserContext.ChunkIdsDistinct | src/os_transport.c:289-315 | decoded chunk numbers are pairwise different if and only if there are at most 64 chunks |
| UserContext.BuildSendTasks | src/os_transport.c:398-433 | task i sends chunk i + 1 under the server key, only the last is marked last; fewer than two chunks are refused |
| UserContext.CompletionFindsRequest | src/os_transport.c:820-838 | the completion of any chunk wakes the server key at the sender and the client key at the peer |
| UserContext.BareIdDecodesToZero | src/os_transport_urma.c:45-68 | a receive's user context decodes to request 0 for every id |
| EventRing.EventRing.Push | src/os_transport_thread_pool.c:35-54 | appends to the queue, doubling and unrolling a full ring |
| EventRing.EventRing.Pop | src/os_transport_thread_pool.c:56-67 | takes the oldest event, or reports an empty ring |
| EventRing.RunOnRing | src/os_transport_thread_pool.c:35-67 | any history of pushes and pops run on a ring of any first capacity: what was pushed is what was popped followed by what the ring holds, in order |
| LockOrder.ScriptsOrdered | src/os_transport_thread_pool.c:161-281 | every procedure takes locks only above those it holds and returns them all |
| LockOrder.WaitsEnd | src/os_transport_thread_pool.c:427-441 | chains of threads waiting for each other end after two steps, so no cycle exists |
| LockOrder.NoDeadlock | src/os_transport_thread_pool.c:668-739 | while any thread is inside a procedure, some such thread can go on |
| IdReuse.AttachSafeIffClear | src/os_transport_thread_pool.c:598-629 | linking a batch keeps all counts right through every continuation if and only if no cancel of an earlier use is about to clean that queue and no wake of one can reach that worker |
| IdReuse.UnclearIsReachable | src/os_transport_thread_pool.c:598-629 | a run after which that condition fails |
| CancelGap.OnlyInTheGap | src/os_transport_thread_pool.c:721-739 | in every reachable state, if the slot of a request's worker names another request with tasks there, a cancel of the first is between unlinking and updating |
| CancelGap.WakeStrandsIff | src/os_transport_thread_pool.c:427-441 | handling a completion leaves some request that had its wake with queued tasks, no slot and no wake if and only if the slot names another request with tasks queued there |
| CancelGap.WakeIsLost | src/os_transport_thread_pool.c:721-739 | a run from the start, one wake at a time, after which a request's only wake is lost with its task queued |

## Left out

- PoolTheorems.ReachableOk: covers no run in which an id is submitted while its context is live, or a batch is linked while the condition of `IdReuse.AttachSafeIffClear` fails, because the counts then go wrong.
- URMA and CUDA calls: a post is an action that is accepted, and then yields one completion, or refused.
- What the tasks of a receive do with their own arguments, and when its waiter frees them: for the protocol a receive is any request that is not a send, and nothing is claimed about its memory.
- What is left for a waiter to do when the id of its send is called again before it is through: it reads and frees its own handle only.
- Destruction while sends are under way: the protocol runs on a pool that is not being destroyed.
- `thread_pool_submit_task`: the queue push is modelled, the state machine submits batches only.
- 32-bit wrap-around of `queue_size`, `pending_count` and the 64-bit task ids: the counters are unbounded.
- Failure to allocate a request context in the state machine: `RequestTable.Table.Charge` has it; the pool then would keep tasks no wake can find.
- A ring that is created with capacity 0 or grows past 2^31 entries, and failure to allocate its larger array.
- PoolTheorems.ContextsAreAlive: does not cover the read of the worker index of a context after the table's mutex is released (`src/os_transport_thread_pool.c:435`, `:733`), which can come after the context was freed; the model reads it with the lookup.
- PoolTheorems.ScrappedFreedOnce: a failed build of the state machine has whole nodes only and always uses up one id, which the code does not do when the wrapper or the task of the failing node cannot be allocated.
- SendFairness.FairRunsFinish: assumes of the poller that it gets the mutex it waits for, and of the network that completions arrive; neither is part of this model.
- Argument checks, logging, pthread object set-up, `os_transport_init`, `os_transport_reg_jfc`, the sample programs and the build files.
- Data races on fields read without a lock.
