# Verified models of the multi-core toolbox

This project models the three concurrent structures of the toolbox and proves what they promise:

* the **Michael–Scott lock-free queue** of `mpmc_queue.h`, for any number of producers and consumers;
* the **MCS queue lock** of `mcs_lock.h`, for any number of threads;
* the **single-producer single-consumer queue** of `spsc_queue.h`, on x86 memory with a store buffer.

Each structure is a shared-memory step machine. One load, store or locked instruction on shared memory is one
event, and any thread may take the next step. A run is any sequence of events that the callers may cause, and the
theorems are about every reachable state of every run. Calls, their arguments, the blocks that malloc returns, what
free leaves behind in a block, and the schedule are all part of the run, so they are quantified over too.

Each structure comes in two forms. The functions `Apply` and `Exec` of the `…Model` modules say what an event does
to a state. The classes `MpmcQueue.Queue`, `McsLock.Lock` and `SpscQueue.Queue` hold the shared words and every
thread's program counter and locals as fields that methods update in place; each method is proved to do what the
corresponding event does, and the loop `Run` executes any schedule and ends in the state `Exec` gives, so that every
theorem about runs is about the object.

| modules | content |
|---|---|
| `VersionedPointers` | pointer-version pairs read one word at a time |
| `MpmcModel`, `MpmcInvariant`, `MpmcSteps`, `MpmcRuns` | the lock-free queue, its invariant, its runs |
| `MpmcLinearizability`, `MpmcProgress`, `MpmcAccounting`, `MpmcReuse`, `MpmcTeardown`, `MpmcQueue` | its theorems, and the object |
| `McsModel`, `McsInvariant`, `McsExclusion`, `McsCalls`, `McsTheorems`, `McsOrder`, `McsTrylock`, `McsOvertaking`, `McsLock` | the lock |
| `SpscModel`, `SpscInvariant`, `SpscTheorems`, `SpscCalls`, `SpscReturned`, `SpscQueue` | the single-producer single-consumer queue |

`dafny verify dfyconfig.toml` checks everything.

## What is assumed

* **Lock-free queue and lock: sequential consistency.** Every access takes effect when it is made. The weak-memory
  result is the one about the single-producer single-consumer queue.
* **Allocator of the lock-free queue** (`MpmcModel.Enabled`): blocks may be freed, overwritten and handed out again, as
  often as the allocator likes, and every theorem below is about such runs. One thing is asked: while an enqueuer stands
  before line 147, or `mpmc_queue_empty` between the two loads of line 116, the block it has a pointer to must not be
  given a `next` word that misleads it (`MpmcModel.Misled`). The version does not help there, because line 136 resets
  `next.version` to 0. `MpmcReuse.ReusableExactly` proves that this is what the code needs, no more and no less, and
  `MpmcReuse.LinkIsReached` and `EmptyIsReached` give runs in which a plain `malloc` can fall short of it.
* **Versions are natural numbers** in the queue. `VersionedPointers.TwoWordRead` treats words of any width,
  and says exactly when a read of two words is still good.
* **Callers of the lock** pass a node that no other running call has, and release what they hold with the node they
  acquired it with. Nodes may be reused, go out of scope and be overwritten between calls.
* **Callers of the single-producer single-consumer queue**: one thread enqueues, one dequeues, and each node handed
  to `spsc_enqueue` is the caller's: not in the queue and not the dummy. A node may be enqueued again as soon as it was
  handed out, and its owner may write anything to it in between; passing it back to the producer synchronises.
  `spsc_queue_empty` is called by the thread that dequeues, as `spsc_queue_destroy` does.
* **x86 memory in `SpscModel`**: the producer's stores wait in a FIFO buffer and land at any time, one by one; its
  loads see its own pending stores; the locked instruction of line 152 waits for the buffer. The store fence of line 146
  is given no effect at all, which is weaker than the instruction, so the results hold with and without
  `CONFIG_SAME_CPU`. The consumer's stores are not buffered: the producer never loads `q->head`.
* `HAVE_Q_LEN` is on for the lock-free queue, as in `mct_config.h:35`, and is a parameter for the other queue.

Fields called history in the models (the list of all nodes linked, what each event did, the calls that have returned,
the order of requests) are written but never read by a branch.

## Where the code does less than it says

`mcs_trylock` (`mcs_lock.h:82-88`) does not store NULL in `mynode->next`, as `mcs_lock` does in line 33. What a trylock
that takes the lock must bring depends on the promise:

* Mutual exclusion: anything. `McsExclusion.MutualExclusion` is about all runs.
* FIFO order (`README:29`): a node whose `next` is NULL or the node itself. `McsOrder.Fifo` proves that this is enough in
  every run; `McsOvertaking.FifoExactly` that it is needed, whatever the node and the other threads: otherwise, unless
  there is one thread only, a run follows in which the later of two requests is granted first.
* Release: a node whose `next` is NULL. `McsTrylock.FreedExactly` proves that the lock is free whenever all threads are
  back from their calls, in every continuation, if and only if that is so. `McsTrylock.TrylockRound` shows what happens
  otherwise to a thread alone that takes the lock by `mcs_trylock` and releases it: the lock stays taken and refers to
  the node, and the release has written a `wait` word at the address the stale `next` held, which is no node of any
  call, unless the node named itself.

Progress and the safety of stack nodes are therefore stated for runs in which every trylock brings such a node
(`McsModel.Prepared`).

## Model

| member | source | states |
|---|---|---|
| VersionedPointers.TwoWordRead | mpmc_queue.h:54-64 | A pair read by `vp_assign` that passes `vp_equal` was the cell's exact value from the first load of the version to the second if and only if fewer swings than a word has values happened in between, even when pointers recur |
| VersionedPointers.WrapIsPossible | mpmc_queue.h:48-58 | The bound is sharp: with exactly that many swings a read passes although the cell held another node |
| VersionedPointers.VersionsGrow | mpmc_queue.h:144-154 | In any history of a cell, equal versions mean equal pairs |
| MpmcLinearizability.CellsAt | mpmc_queue.h:72-76 | The histories of `head` and `tail` hold the cells' values after each event of the run |
| MpmcLinearizability.CellsHaveHistories | mpmc_queue.h:151-160 | In every run `head` and `tail` go through histories in which each change raises the version by one, which is what the two-word read relies on |
| MpmcSteps.LinkSafe | mpmc_queue.h:144-150 | The successful DCAS of line 147 keeps the list in shape, every thread's knowledge true and every block accounted for |
| MpmcSteps.LinksAtEnd | mpmc_queue.h:139-147 | If the DCAS of line 147 succeeds, the tail the enqueuer read is the current tail and the last node, although blocks are reused and the version is not looked at again |
| MpmcSteps.EnqueueSwing | mpmc_queue.h:152-160 | Every swing of the tail, helping or own, moves it to the node right behind it, and after its own swing an enqueuer's node has been reached |
| MpmcSteps.DcasGivesBack | x86/sync_prim.h:230-235 | A DCAS leaves the value it found in the local it compared; after a success that is the old value, which line 215 of `mpmc_queue.h` frees by |
| MpmcSteps.TakeSafe | mpmc_queue.h:202-208 | The successful DCAS of line 205 moves the head by one node and leaves the old dummy to this thread alone |
| MpmcSteps.FreeSafe | mpmc_queue.h:215 | The block freed is allocated, was not freed before and is not in the queue |
| MpmcSteps.AllocSafe | mpmc_queue.h:130-136 | An enqueue may be given a new block or a freed one that misleads no thread; it is then the enqueuer's alone |
| MpmcSteps.OverwriteSafe | mpmc_queue.h:215 | What happens to a freed block outside the queue harms no one, if its next word misleads no thread |
| MpmcRuns.SafeKept | mpmc_queue.h:109-217 | Every event of every thread and of the allocator keeps shape, locals and blocks |
| MpmcLinearizability.MoveIsFifo | mpmc_queue.h:119-217 | Every event is one step of an atomic FIFO queue: line 147 appends the caller's value, line 205 removes the oldest and no other instruction changes the queue |
| MpmcLinearizability.Linearizable | mpmc_queue.h:109-217 | In every run, for any number of threads and with blocks reused, every call that began is still running or on record; each call on record answers its caller and took effect once, strictly between its beginning and its return, with its own argument or result, on a queue that behaves as an atomic FIFO from the empty one; no effect is without a call |
| MpmcLinearizability.HeadWasEmpty | mpmc_queue.h:185-197 | If the next word of the current head is read as NULL in line 189 the abstract queue is empty at that instant |
| MpmcLinearizability.LastMeansEmpty | mpmc_queue.h:116 | A block that is or was the dummy, is not reused and has no successor is the last node, and the queue is empty |
| MpmcLinearizability.GainsSuccessor | mpmc_queue.h:109-117 | When a former head gets its successor the queue becomes non-empty, so that `mpmc_queue_empty` does not answer "not empty" without cause |
| MpmcLinearizability.HistoryIsTheTrace | mpmc_queue.h:109-217 | The history used to state linearizability is the abstract queue after each event of the run |
| MpmcProgress.ShapeAlways | mpmc_queue.h:143-160 | Head not past tail, tail at most one node behind, versions equal positions, every swing one node, and an enqueue returns only after the tail has reached its node |
| MpmcProgress.LockFree | mpmc_queue.h:137-210 | In every run the loop passes of a thread that end back at the first load are at most the DCAS instructions that find what they expect, and these at most three per item linked; from the beginning of a call on, its failed passes are at most the successes since |
| MpmcProgress.FailsAreRounds | mpmc_queue.h:137-210 | The count of failed passes used in the proofs is that of the steps that lead a thread back to the first load |
| MpmcProgress.WinsAreSuccesses | x86/sync_prim.h:213-239 | The count of successes used in the proofs is that of the DCAS steps that find what they expect |
| MpmcProgress.SoloTermination | mpmc_queue.h:137-210 | From any reachable state, with all others frozen, a thread returns within 38 steps, of which at most two lead back to the first load: three loop passes, counting the one in progress |
| MpmcProgress.AloneCloser | mpmc_queue.h:137-157 | Every step of a thread brings it closer to its return when no other moves, because it helps a lagging tail |
| MpmcProgress.EnqueueBounded | mpmc_queue.h:137-157 | A pass of `mpmc_enqueue` that goes round again is counted, and overlapped a DCAS that succeeded |
| MpmcProgress.DequeueBounded | mpmc_queue.h:183-210 | The same for `mpmc_dequeue` |
| MpmcAccounting.LengthAccounts | mpmc_queue.h:158-214 | `len` is the queue's length, less the enqueuers that linked but have not counted, plus the dequeuers that swung but have not counted; exact when no call runs |
| MpmcAccounting.MemoryConserved | mpmc_queue.h:189-215 | Every block ever allocated is in exactly one place: freed, in the queue, one dequeuer's to free or one enqueuer's to link |
| MpmcAccounting.NeverFaults | mpmc_queue.h:141-215 | No step goes through NULL or a block never allocated, line 202 included; a block is freed once, by the thread that moved the head off it, and never as the dummy; a link goes behind the live tail |
| MpmcAccounting.StaleDataIsDropped | mpmc_queue.h:202-215 | A `user_data` word read from a freed block is never returned: the DCAS of line 205 fails in every later state |
| MpmcReuse.RecycledBlockIsLinked | mpmc_queue.h:134-164 | An enqueuer stopped before line 147 on a block freed meanwhile goes round again; had another enqueue been given that block, it would return as if it had succeeded, with its node not in the queue and the queue unchanged |
| MpmcReuse.RecycledBlockLooksEmpty | mpmc_queue.h:109-117 | `mpmc_queue_empty` stopped between its loads on a block freed meanwhile answers "not empty"; had an enqueue been given that block, it would answer "empty" whatever the queue holds |
| MpmcReuse.ReusableExactly | mpmc_queue.h:130-147 | A freed block may be handed to an enqueue again, all theorems holding, if and only if no other thread would answer for it although it is not in the queue |
| MpmcReuse.LinkIsReached | mpmc_queue.h:119-217 | A run of two threads, for any blocks and values, that ends with an enqueuer before line 147 on a freed block |
| MpmcReuse.EmptyIsReached | mpmc_queue.h:109-217 | A run of two threads that ends with `mpmc_queue_empty` between its loads on a freed block, and a value in the queue |
| MpmcTeardown.GoodKept | mpmc_queue.h:109-217 | Every event keeps all that is proved of reachable states |
| MpmcTeardown.DrainStep | mpmc_queue.h:183-216 | Each step of a dequeue that runs alone keeps it on its way to the oldest value |
| MpmcTeardown.AllButDummyFreed | mpmc_queue.h:227-234 | With no call running and nothing queued, exactly the dummy is left to free |
| MpmcQueue.Queue.constructor | mpmc_queue.h:86-107 | `mpmc_queue_init` leaves an empty queue with one dummy |
| MpmcQueue.Queue.SwapTail | x86/sync_prim.h:213-239 | DCAS on `q->tail`: compares both words, swaps both, and gives back the value found |
| MpmcQueue.Queue.SwapNext | x86/sync_prim.h:213-239 | DCAS on a node's `next` |
| MpmcQueue.Queue.EnqueueRead | mpmc_queue.h:139-144 | The loads and comparisons of an enqueue pass, one word a step, change only the thread |
| MpmcQueue.Queue.EnqueueWrite | mpmc_queue.h:145-164 | Link, help, own swing and count |
| MpmcQueue.Queue.DequeueRead | mpmc_queue.h:185-189 | The six loads of a dequeue pass, one word a step, change only the thread |
| MpmcQueue.Queue.DequeueCheck | mpmc_queue.h:190-197 | The comparisons of a dequeue pass, and the empty return |
| MpmcQueue.Queue.DequeueHelp | mpmc_queue.h:198-202 | Helping the tail, and the read of the value |
| MpmcQueue.Queue.DequeueSwing | mpmc_queue.h:203-208 | The head swing takes the value or sends the loop round again |
| MpmcQueue.Queue.DequeueEnd | mpmc_queue.h:212-216 | Count, free of the old dummy, and return |
| MpmcQueue.Queue.EmptyRead | mpmc_queue.h:109-117 | The two loads of `mpmc_queue_empty` |
| MpmcQueue.Queue.Begin | mpmc_queue.h:126-136 | A call begins; the node of an enqueue is allocated, new or reused, and filled |
| MpmcQueue.Queue.Run | mpmc_queue.h:119-217 | Any schedule on the object ends in the state of the step machine |
| MpmcQueue.Queue.DequeueAlone | mpmc_queue.h:169-217 | With no other call running a dequeue ends, returns the oldest value and frees exactly the old dummy |
| MpmcQueue.Queue.EmptyAlone | mpmc_queue.h:109-117 | With no other call running the answer is exact and nothing changes |
| MpmcQueue.Queue.Length | mpmc_queue.h:239-246 | What is queued, but for the calls between their DCAS and their count |
| MpmcQueue.Queue.Destroy | mpmc_queue.h:219-235 | Ends, passes the remaining non-NULL values to free in FIFO order, and frees every outstanding block once, in order, the last dummy included |
| McsExclusion.MutualExclusion | mcs_lock.h:30-88 | In every run, with any mix of lock, unlock and trylock, any reuse of nodes and any contents of them, at most one thread is between acquire and release |
| McsExclusion.TokenKept | mcs_lock.h:37-88 | The right to enter is never duplicated: at most one of a free lock, a thread between acquire and release, and a waiter whose flag is down exists at a time, in every run |
| McsCalls.TrylockAnswers | mcs_lock.h:82-88 | `mcs_trylock` never waits: whatever the others do, its thread's next step is its last; it takes the lock with its node if `tail` is NULL at that instant, and otherwise returns with nothing changed |
| McsCalls.CallsAreGranted | mcs_lock.h:30-88 | In every run, for every thread: each `mcs_lock` that has returned and each trylock that stored was granted the lock once, each `mcs_unlock` that has returned gave it back once, and the thread is between acquire and release exactly while it is one grant ahead |
| McsInvariant.JoinChain | mcs_lock.h:37-38 | Swapping into a held lock appends a half-linked waiter to the chain |
| McsInvariant.LinkChain | mcs_lock.h:44 | The store to `pre->next` goes to the node right ahead, whatever its owner is doing, and completes the link |
| McsInvariant.LastLeavesChain | mcs_lock.h:60-62 | A successful compare-and-store means the releaser was alone in the chain |
| McsInvariant.WakeChain | mcs_lock.h:78 | The release wakes exactly the next in the chain |
| McsTheorems.OrderedKept | mcs_lock.h:30-88 | Every event keeps the chain and the order of requests, unless a trylock takes the lock with a `next` that is not NULL |
| McsTheorems.GoodNodesExist | mcs_lock.h:33-78 | With prepared trylocks no step reads or writes through NULL or an address that is no node, lines 44 and 78 included |
| McsTheorems.Fifo | mcs_lock.h:37-84 | Acquisitions are a prefix of the exchanges and successful trylocks on `tail`, and all of them once nobody is queued; `tail` is NULL exactly when nobody is |
| McsTheorems.SomeoneCanMove | mcs_lock.h:44-79 | No wakeup is lost: while any call runs some thread has a step that is not a spin |
| McsTheorems.ProductiveDecreases | mcs_lock.h:30-80 | Every step that is not a spin brings the lock closer to rest |
| McsTheorems.Progress | mcs_lock.h:30-80 | With no new requests every schedule has a bounded number of such steps, and when none is left every request has been granted and released, and the lock is free |
| McsTheorems.SpinsChangeNothing | mcs_lock.h:46-73 | The rounds of the two spin loops change nothing |
| McsTheorems.NodeIsFreeAfter | mcs_lock.h:26-80 | When a release or a failed trylock returns, no shared word and no live local refers to its node; as long as no call has a node, no step of any thread writes it or depends on what it holds |
| McsOrder.InOrderKept | mcs_lock.h:30-88 | Every event keeps the order, unless a trylock takes the lock with a node that names another one: the chain is whole, or the holder's node names itself, or no one can enter any more |
| McsOrder.Fifo | mcs_lock.h:37-88 | Acquisitions are a prefix of the exchanges and successful trylocks on `tail` in every run in which a trylock takes the lock only with `next` NULL or naming its own node |
| McsTrylock.FreedExactly | mcs_lock.h:52-88 | After a trylock takes the lock with no other call running, the lock is free whenever all threads are back, in every continuation whose later trylocks keep to the same rule, if and only if `next` of its node was NULL |
| McsTrylock.TrylockRound | mcs_lock.h:52-88 | A thread alone that takes the lock by `mcs_trylock` and releases it leaves it free, and its node unreferenced, if and only if the node came with `next` NULL; if not, the last step writes the `wait` word at the stale address, which is a node of a running call exactly if the node named itself |
| McsOvertaking.FifoExactly | mcs_lock.h:82-88 | After a trylock takes the lock with no other call running, every continuation whose later trylocks keep to the same rule serves requests in order if and only if `next` of its node was NULL or the node itself, or there is no other thread |
| McsOvertaking.Overtaken | mcs_lock.h:52-88 | Whatever the nodes and threads, from a holder whose node names another node there is a run without trylocks in which the later of two requests is granted first |
| McsLock.Lock.FetchAndStore | x86/sync_prim.h:23-75 | Stores the node and returns what was there |
| McsLock.Lock.CompareAndStore | x86/sync_prim.h:87-149 | Stores if and only if the expected value was there, and says so |
| McsLock.Lock.LockStep | mcs_lock.h:30-50 | One step of `mcs_lock` or `mcs_trylock` on the object |
| McsLock.Lock.UnlockStep | mcs_lock.h:52-80 | One step of `mcs_unlock` on the object |
| McsLock.Lock.IsLocked | mcs_lock.h:90-93 | True exactly when some thread holds, releases or waits |
| McsLock.Lock.Run | mcs_lock.h:30-88 | Any schedule on the object, whatever its trylocks bring, ends in the state of the step machine |
| SpscInvariant.AppendLink | spsc_queue.h:144-148 | Issuing the linking store keeps every later state of memory safe to walk: whichever part of the buffer has landed, the consumer meets complete nodes only |
| SpscInvariant.DropFirst | spsc_queue.h:170-181 | A `next` word seen by the consumer means that no store to the node it leaves is pending |
| SpscTheorems.GoodKept | spsc_queue.h:137-186 | Every event of either side and of memory keeps the invariant |
| SpscTheorems.Fifo | spsc_queue.h:137-186 | Values returned, being returned, queued and being linked are the values offered, in order, for every interleaving, with delayed stores and recycled nodes |
| SpscTheorems.ConsumerMeetsCompleteNodes | spsc_queue.h:166-175 | A `next` that is not NULL leads to a node whose line 144 store and payload have landed, from a node no store is on its way to; NULL means nothing is queued but what the buffer holds back |
| SpscTheorems.EmptyIsHonest | spsc_queue.h:125-132 | With any steps of the producer between the two loads, "not empty" is true, and "empty" is true but for a link still in the buffer |
| SpscCalls.EnqueueReturns | spsc_queue.h:137-154 | Whatever the consumer and the memory do, `spsc_enqueue` returns after at most five instructions and has then sent its value once |
| SpscCalls.DequeueReturns | spsc_queue.h:157-186 | Whatever the producer and the memory do, `spsc_dequeue` returns after at most five instructions, and has either changed nothing or moved the head on by one node and handed out the old dummy |
| SpscCalls.DequeueDecides | spsc_queue.h:170-175 | A NULL at line 170 ends the call with nothing changed; anything else is what it will return |
| SpscCalls.EmptyReturns | spsc_queue.h:125-132 | Whatever the producer and the memory do, `spsc_queue_empty` returns after two instructions and takes nothing; it answers whether the next word of the head was NULL at the second |
| SpscCalls.NeverBlocked | spsc_queue.h:125-186 | Neither side ever waits for the other; only line 152 waits, for the producer's own stores to land |
| SpscReturned.ReturnedIsSeen | spsc_queue.h:125-178 | With `HAVE_Q_LEN` a NULL `next` hides at most the node of one enqueue between line 148 and its return; an enqueue that has returned is never missed |
| SpscReturned.ReturnedIsMissed | spsc_queue.h:125-154 | Without it an enqueue that has returned can be missed: from any state at rest with nothing queued, and for any node, such a run follows |
| SpscTheorems.Ownership | spsc_queue.h:144-185 | Each node is handed out once, one successful dequeue after it was returned, the first dummy at the first; no pending store goes to a node outside the queue; `q->tail` as the producer sees it names a node outside it only between lines 148 and 150, and in memory only then or while a store of line 150 is pending |
| SpscTheorems.LengthAccounts | spsc_queue.h:148-181 | `len` is what is queued, less one for an enqueue between lines 148 and 152 and less one for a dequeue between lines 178 and 181; it is never below -1, and exact when both sides rest |
| SpscQueue.Queue.constructor | spsc_queue.h:105-118 | `spsc_queue_init` leaves an empty queue with the caller's dummy |
| SpscQueue.Queue.SeeTail | spsc_queue.h:148 | The producer's load of `q->tail` sees its own latest store, landed or not |
| SpscQueue.Queue.ProducerStep | spsc_queue.h:137-154 | One step of `spsc_enqueue` on the object |
| SpscQueue.Queue.ConsumerStep | spsc_queue.h:157-186 | One step of the consumer's call on the object, with the node returned and the node handed out; both are NULL unless it is the last step of a dequeue that takes |
| SpscQueue.Queue.Dequeue | spsc_queue.h:157-186 | While the producer does not move: the oldest node and its value are returned, the old dummy is handed out and counted off; with nothing queued NULL is returned and handed out, and nothing changes |
| SpscQueue.Queue.Enqueue | spsc_queue.h:137-154 | While the consumer does not move: the call ends with the node behind the others, its value sent, and counted if there is a counter |
| SpscQueue.Queue.Length | spsc_queue.h:212-218 | What is queued, but for one call a side between its store and its count |
| SpscQueue.Queue.IsEmpty | spsc_queue.h:125-132 | The two loads while the producer rests: the answer is exact and nothing changes but the consumer |
| SpscQueue.Queue.Run | spsc_queue.h:137-186 | Any schedule on the object ends in the state of the step machine |
| SpscQueue.Queue.Destroy | spsc_queue.h:195-209 | With both sides at rest it ends and frees every node of the queue once, in order, the last dummy included |

## Left out

- Weak memory for the lock-free queue and the lock: both are sequentially consistent here.
- Reuse of a block under a thread that would be misled by it: excluded by the assumption above, which the code needs.
- Wrap-around of versions inside the running queue: treated for one cell by the two-word read only.
- Width of `len`: an unbounded integer.
- The configuration of the lock-free queue without `HAVE_Q_LEN`: it has the same steps without the two counter instructions.
- `spsc_queue_empty` called by the producer while the consumer dequeues: the node it reads may be handed out between its two loads.
- `McsOvertaking.FifoExactly` and `McsTrylock.FreedExactly`: the half that needs the condition is stated for a trylock that takes the lock while no other call is running, because a call under way may already hold the only nodes the stale pointer could meet; the other half is about all runs.
- NULL queue arguments and malloc failure: single early returns before any shared access.
- Lines 130-136 of `mpmc_queue.h` are one step: the node is not visible to other threads until it is linked.
- The C++ wrappers `mpmc_queue.hxx` and `spsc_queue.hxx`, the examples, the unit tests, padding, alignment and `container_of`.
- Inline assembly, operand sizes and the 32-bit forms of the primitives: they are taken as atomic steps with their documented results.
- `cpu_relax` and the fences: no effect in the models, which only makes the results stronger for the store fence of `spsc_queue.h:146`; load fences have nothing to order because loads are taken in program order.
