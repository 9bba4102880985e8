# aiq: a verified model

`aiq` is an intrusive FIFO queue whose insertion is lock-free and whose removal is serialised
by a mutex; one tail word holds either the last node or, when the queue is empty, a user state.
On top of it the repository builds a semaphore, a notifier and a wait queue. This project models
these layers in Dafny and proves what each promises, over every interleaving and every run.

How the files build on each other:

| layer | files |
|---|---|
| the atomic object that the queue is meant to be, with the history of every drain | `AbstractQueue` |
| the protocol: any number of enqueuers, one lock holder, parking, drains with unlocked windows | `Protocol` (steps), `ProtocolInvariant`, `ProtocolChain`, `ProtocolDrainChain`, `ProtocolOwners`, `ProtocolGetNext`, `ProtocolRemoval`, `ProtocolDraining` (each step keeps the invariant), `ProtocolTheorems`, `ProtocolSafety`, `ProtocolNodes`, `ProtocolGuard`, `ProtocolResults`, `ProtocolParking` (results) |
| the lock-free state updates, access by access, over the protocol | `StateUpdate` |
| the parkers below it, and the protocol with a parker opened up | `Parker`, `ParkedProtocol` |
| the same list surgery on the heap, while no enqueuer is half-linked | `LinkedQueue` |
| bit-level encodings | `TailEncoding` |
| what several layers share | `Options`, `Waking` |
| the semaphore as a machine over the atomic object | `Semaphore`, `SemaphoreInvariant`, `SemaphoreSteps`, `SemaphoreCalls`, `SemaphoreLedger`, `SemaphoreTheorems` |
| its granting loop, imperative | `SemaphoreGreedy` |
| the notifier as a machine over the atomic object | `Notify`, `NotifyInvariant`, `NotifySteps`, `NotifyCalls`, `NotifyLedger`, `NotifyTheorems`, `NotifyPolls` |
| the wait queue as a machine over the atomic object | `WaitQueue`, `WaitQueueInvariant`, `WaitQueueSteps`, `WaitQueueTheorems`, `WaitQueuePolls` |
| batches of wakers, imperative | `WakerBatch` |

`dafny verify dfyconfig.toml` checks everything.

Reading guide. A run is a sequence of steps, each enabled when it is taken. In the protocol a
step is one access to memory that another thread can see, in program order; memory is
sequentially consistent. Its `UpdateState` step is the exchange of a state update alone; `StateUpdate`
adds the calls around it, which load, compute, exchange, retry and take the lock, and shows that
every run with such calls is a run of the protocol. The invariant of the protocol carries an auxiliary state (who should
follow whom, and the atomic queue); `ProtocolTheorems.Refinement` then states the result without
it: what memory holds is the unique `prev` chain from the tail, and each step of anybody is one
enabled operation of the atomic queue. The lemmas of `ProtocolSafety` speak of every state that
satisfies the invariant, hence, by `ProtocolTheorems.ReachableInv`, of every reachable one. The
three clients are machines over the atomic queue. Their state updates are single steps because
`StateUpdate` proves them atomic, and their removals because `ProtocolGuard.RemovalIsOneStep` shows
that a whole dequeue or pop is one removal, with enqueues in between that
`AbstractQueue.EnqueueCommutes` moves out of the way. For each client `AlonePoll`
compares the steps of an undisturbed poll with a description of the whole poll; the other results
hold under any interference. A state `panicked` stands for any failing unwrap, assertion,
subtraction or buffer. The notifier never reaches it; the semaphore exactly at its three overflow
checks; the wait queue only if somebody closes it while the awaited condition is false, when the
source panics on purpose.

Where the code and its evident intent differ, the code is modelled and the difference is a result:

- A removal reports true whenever its tail exchange succeeds, also for a last node that is not
  the first (`src/queue.rs:443-448`). `TrueMeansEmptyIffHead` gives the exact condition under
  which true means empty, `TrueThoughNotEmpty` a run where it does not.
- Cancelling an `Acquire` installs the unshifted permit count (`examples/semaphore.rs:277-278`),
  and a queueing `Acquire` truncates the stored state to 32 bits before shifting it
  (`examples/semaphore.rs:245`). `SemaphoreTheorems.Conservation` proves that these two and the one
  below are the only losses and says exactly when they happen; `SoleCancelLoses` and `WideStoreLoses`
  are families of losing runs. The first also closes the semaphore, for ever, when the count is odd:
  `ClosedIff` lists everything that closes.
- `add_permits_locked` does not check `MAX_PERMITS` (`examples/semaphore.rs:89`): for every served
  waiter it shifts what is left, which drops the top bit, and converts the result to a tail word,
  which panics when it does not fit (`src/queue/state.rs:63-73`). `WordRegions` and `HugeAdd` give
  the outcome for every count: exact below 2^62, a panic, or 2^63 permits lost. Users who stay
  within `MAX_PERMITS` meet neither (`NeverPanics`, `SmallIsExact`).
- `forget_permits` subtracts with wrap-around (`examples/semaphore.rs:114`), and the result goes back
  through a check that panics (`src/queue/state.rs:63-73`). `ForgetRegions` gives the three outcomes
  for every count, `ForgetIsExact` the counts for which it takes what it reports, `ForgetFails` a
  panic and a silent wrap.

## Model

| member | source | states |
|---|---|---|
| `AbstractQueue.InvKept` | src/queue.rs:266-303 | every operation of the atomic object keeps each node in at most one place: the queue or one drained list |
| `AbstractQueue.HistoryKept` | src/queue/drain.rs:24-112 | every operation keeps, for every open drain, yielded + rest = taken minus self-removed, in order |
| `AbstractQueue.FinishedDrain` | src/queue/drain.rs:57-122 | with `HandsOutHead`, which ties what is yielded to the nodes handed out: a finished drain yielded, once each and in FIFO order, exactly the nodes it took that did not remove themselves |
| `AbstractQueue.PresentAfter` | src/queue.rs:422-458 | exactly which nodes are queued or drained after each operation: a removal takes out that node and no other |
| `AbstractQueue.EnqueueCommutes` | src/queue.rs:266-303 | removing a node and appending another commute, so enqueues that fall into a removal can be taken before or after it |
| `ProtocolTheorems.StepKeepsInv` | src/queue.rs:266-458 | every step of every enqueuer and of the lock holder keeps the link invariant, and its queue operation is enabled |
| `ProtocolTheorems.ReachableInv` | src/queue.rs:121-140 | the link invariant holds after every run, from any initial state, on all three parking platforms |
| `ProtocolTheorems.PrevChainUnique` | src/queue.rs:279-286 | the tail word and the `prev` fields determine the content: two complete `prev` chains to the head marker are equal |
| `ProtocolTheorems.LiveIsPrevChain` | src/queue.rs:279-286 | the `prev` chain from the tail to the head marker is complete at every moment and spells the queue in tail-exchange order |
| `ProtocolTheorems.Refinement` | src/queue.rs:178-458 | in every run, memory holds exactly the atomic queue, including what each drain still holds behind its sentinel, and each step is one enabled atomic operation: enqueue appends, removals delete one node, drain takes all, the exchange of a state update acts only when empty; `ProtocolResults` ties the state of a drain or a removal to the one its caller offered |
| `ProtocolTheorems.NeverCrashes` | src/queue.rs:413-458 | no run dereferences null or a marker, or fails the debug assertion of a removal |
| `ProtocolTheorems.DrainHistory` | src/queue/drain.rs:57-112 | along every run of the protocol each drain's history stays exact, across any number of unlocked windows |
| `ProtocolTheorems.HandsOutHead` | src/queue/drain.rs:153-165 | in every run, the node that a drain hands out is the head of its list, is what the history records, and is about to be marked |
| `ProtocolTheorems.HandedOutIsMarked` | src/queue/drain.rs:153-165 | the lock holder's next step marks that very node Dequeued |
| `ProtocolSafety.ForwardLinks` | src/queue.rs:282-303 | `head`/`next` agree with the queue except where the enqueuer has not published or the remover has claimed the slot; the slot at the end is null |
| `ProtocolSafety.PredecessorKept` | src/queue.rs:287-301 | while an enqueuer still has to publish, the predecessor it captured is neither dequeued nor resettable |
| `ProtocolSafety.SlotReserved` | src/queue.rs:287-301 | no step of anybody else fills or claims the slot in which an enqueuer still has to publish |
| `ProtocolSafety.PublicationKept` | src/queue.rs:436-456 | no removal overwrites a publication: a published node stays where its predecessor points or is in the holder's hands |
| `ProtocolSafety.GuardedQueueGrows` | src/queue.rs:388-398 | under a guard, whatever steps the others take, the queue only grows at its end; once non-empty, `dequeue` and `pop` succeed |
| `StateUpdate.RunsAreProtocolRuns` | src/queue.rs:178-264 | every run with updating calls, access by access, is a run of the protocol, so all its results apply |
| `StateUpdate.ExchangeIsAtomic` | src/queue.rs:178-191 | a successful exchange finds the queue empty, in the very state to which the function was applied, and installs the function's result: one atomic update |
| `StateUpdate.AppliedOnce` | src/queue.rs:178-191 | over every run, a call exchanges at most once, and exactly once if and only if it reports the old state; what it installed is its function of what it reports |
| `StateUpdate.ResultsAreRead` | src/queue.rs:178-191 | `Err(None)` and the guard mean that an access of the call read a node, `Err(Some(v))` and `Ok(v)` that one read the state v |
| `StateUpdate.OneOrTheOther` | src/queue.rs:202-237 | the `_or_lock` forms end with an update (or an empty queue) or with the guard, never both, never neither |
| `StateUpdate.GuardMeansNonEmpty` | src/queue.rs:202-237 | the guard is handed out only with the lock held on a non-empty queue |
| `StateUpdate.GuardStays` | src/queue.rs:202-264 | until its owner acts the queue stays non-empty, whatever enqueuers and other updating calls do, so `dequeue` and `pop` find a node |
| `ProtocolNodes.HolderTouchesQueued` | src/queue.rs:339-458 | the lock holder reads and writes only nodes that read Queued at that moment |
| `ProtocolNodes.NothingAfterDrop` | src/node.rs:155-172 | after `Node::drop`, along every run: no list contains the node, no enqueuer writes to it, and the lock holder does not touch it |
| `ProtocolNodes.PopRemovesItsTail` | src/queue.rs:395-398 | `pop` removes the node that was last at its tail load, whatever happens before it gets there; those behind it have come since |
| `ProtocolGuard.RemovalIsOneStep` | src/queue.rs:388-513 | a dequeue or a pop, from the guard's operation until the guard is back, with enqueues and state updates in between, is exactly one removal of the node that was first (last); what was behind it is still there, followed by whoever came |
| `ProtocolResults.RemovalReports` | src/queue.rs:413-458 | from the start of a removal (dequeue, pop, or a node's own) to its answer, under any interference: exactly one removal of that node; if it empties the queue, the state is the one offered; it reports true if and only if the node was the last in line at that moment, for a dequeue if and only if the queue is empty right afterwards |
| `ProtocolResults.AnswerIsLast` | src/queue.rs:455-458 | nothing comes between that report and the step that returns the guard |
| `ProtocolResults.DrainTakesLine` | src/queue/drain.rs:24-43 | from the start of a drain on a non-empty queue until its list is there, under any interference: one operation, after which the queue is empty with exactly the state offered, and the list holds everybody who was in line |
| `ProtocolResults.DrainOfNothing` | src/queue.rs:405-407 | a drain of an empty queue opens an empty list and leaves the state alone |
| `ProtocolResults.LockChangesHands` | src/queue/drain.rs:58-72 | the lock is given back by dropping the guard, at a drain's unlocked window and at its end, and at no other step; it is taken by a guard and by a drain coming back |
| `ProtocolSafety.HandedOutNode` | src/queue.rs:388-398 | `dequeue` finds the first node; the tail word names the last, which is what `pop` loads |
| `ProtocolSafety.HeadRemoval` | src/queue.rs:496-513 | a removal from the head marker removes the first node and leaves the others in order |
| `ProtocolSafety.TrueMeansEmptyIffHead` | src/queue.rs:436-458 | a removal whose tail exchange succeeds reports true, and this means "empty with that state" if and only if the node was the first; when it reports false is in `ProtocolResults.RemovalReports` |
| `ProtocolSafety.TrueThoughNotEmpty` | src/queue.rs:443-448 | a concrete run in which a removal reports true while the queue is not empty |
| `ProtocolSafety.QueuedIffPresent` | src/node.rs:41-48 | with the lock free, a node reads Queued if and only if it is in the queue or in a drained list |
| `ProtocolSafety.NeverBackToUnqueued` | src/node.rs:130-153 | a node seen Queued by its owner cannot be Unqueued once the lock is taken, so the unreachable branch is unreachable |
| `ProtocolSafety.RejectLeavesNoTrace` | src/queue.rs:271-278 | a rejected conditional enqueue leaves the node Unqueued, unlinked and usable, and memory and tail as they were |
| `ProtocolSafety.ResetMakesFresh` | src/node.rs:275-283 | a node that its owner resets can be enqueued like a new one, and no other node, slot or owner changes |
| `ProtocolSafety.DrainedRemovalIsolated` | src/queue.rs:422-458 | a drained node that removes itself writes neither `head` nor `tail` and leaves the live queue unchanged |
| `ProtocolSafety.NoLostWakeup` | src/queue.rs:288-301 | while the holder sleeps on a slot without a token, the node that belongs there has an enabled step that delivers the token or brings it nearer, for both handshakes |
| `ProtocolSafety.WakeupNotDelayed` | src/queue.rs:348-385 | no step of another thread delays that wake-up, or takes the token away |
| `ProtocolSafety.GetReturnsSuccessor` | src/queue.rs:339-385 | `get_next` returns the real successor, never null and never the parked marker |
| `ProtocolParking.NoBusyWaiting` | src/queue.rs:348-385 | over every run, a waiting holder looks at the slot at most once for each registration and each wake-up it was sent |
| `ProtocolParking.WokenOnlyIfWaiting` | src/queue.rs:286-302 | a publisher turns to waking the holder only while the holder waits for the slot it publishes in |
| `ProtocolParking.NothingLeftRegistered` | src/queue.rs:363-376 | in every run `parked_next` names a slot only while the holder waits for it |
| `StdParkerModel.ParkerIsToken` | src/sync/std.rs:73-97 | in every run the word is EMPTY, NOTIFIED or PARKED; `unpark` sets the token, `park` returns if and only if it can take it |
| `StdParkerModel.ParkedThreadGetsOut` | src/sync/std.rs:73-97 | a parked thread with a token always has an enabled step that strictly shortens its way out; in the wait set, an unparker is still before its `notify_one` |
| `StdParkerModel.OutWithinWork` | src/sync/std.rs:73-97 | under any interference, with the token there a thread stays inside `park` for at most a fixed number of further steps of anybody, new calls of `unpark` aside |
| `StdParkerModel.RefinesToken` | src/sync/std.rs:73-97 | each step of the parker is one step of the token that the queue protocol uses |
| `FutexParkerModel.FutexParkerIsToken` | src/sync/atomic_wait.rs:20-37 | the same for the futex parker: `unpark` sets the token, `park` returns if and only if it can take it, nothing else changes it |
| `FutexParkerModel.ParkedThreadGetsOut` | src/sync/atomic_wait.rs:20-37 | with a token, a thread inside `park` always has an enabled step that shortens its way out; a sleeper has an unparker about to wake it |
| `FutexParkerModel.OutWithinWork` | src/sync/atomic_wait.rs:20-37 | the same bound for the futex parker |
| `FutexParkerModel.RefinesToken` | src/sync/atomic_wait.rs:20-37 | each of its steps is one step of the token, too |
| `ParkedProtocol.StepAgrees` | src/queue.rs:348-385 | with a parker that is entered and left in steps of its own, its token and the protocol's agree at every moment |
| `ParkedProtocol.RunsAreProtocolRuns` | src/queue.rs:348-385 | every run of the protocol with such a parker underneath is a run of the protocol with its one-step token |
| `LinkedQueue.Queue.Enqueue` | src/queue.rs:266-303 | on the heap: appends the node, or leaves node and queue alone when the condition on the tail fails |
| `LinkedQueue.Queue.Splice` | src/queue.rs:422-458 | the pointer writes of a removal, on whatever list the node is in, including when predecessor and successor are the same sentinel |
| `LinkedQueue.Queue.Remove` | src/queue.rs:413-458 | deletes exactly that node from the doubly linked list; the result says whether it was the last, not whether the queue is empty |
| `LinkedQueue.Queue.Dequeue` | src/queue.rs:388-393 | deletes the first node; reports true exactly when the queue is then empty, in the given state |
| `LinkedQueue.Queue.Pop` | src/queue.rs:395-398 | deletes the last node |
| `LinkedQueue.Drain.constructor` | src/queue/drain.rs:24-43 | the whole queue moves to the drain's sentinel; the state is installed only if there was a node |
| `LinkedQueue.Drain.Next` | src/queue/drain.rs:57-62 | the first drained node is handed out and the rest stays linked |
| `LinkedQueue.Drain.Tie` | src/queue/drain.rs:64-71 | before the lock is released the list becomes a ring through the sentinel |
| `LinkedQueue.Drain.Untie` | src/queue/drain.rs:73-79 | afterwards it is an open list again, also when everybody left meanwhile |
| `LinkedQueue.Drain.RemoveDrained` | src/queue.rs:422-458 | a node that removes itself from the ring leaves it whole, and never touches the queue's head, tail or nodes, whatever state it offers |
| `LinkedQueue.Drain.EnqueueMeanwhile` | src/queue/drain.rs:64-80 | an enqueue into the live queue during the window leaves the ring alone |
| `LinkedQueue.Drain.DequeueMeanwhile` | src/queue/drain.rs:64-80 | so does a dequeue |
| `LinkedQueue.Finish` | src/queue/drain.rs:105-122 | dropping a drain marks every remaining node dequeued |
| `TailEncoding.UsizeRoundTrip` | src/queue/state.rs:58-92 | decode after encode is the identity exactly for states up to the maximum and even addresses |
| `TailEncoding.UsizeTailRoundTrip` | src/queue/state.rs:75-92 | encode after decode is the identity on every word; only the bare flag decodes to a null pointer |
| `TailEncoding.UsizeInjective` | src/queue/state.rs:75-92 | states and nodes never share a tail word |
| `TailEncoding.UnitRoundTrip` | src/queue/state.rs:41-55 | without states, decode after encode is the identity exactly for non-null addresses |
| `TailEncoding.NullIsZeroState` | src/queue/state.rs:140-150 | the null tail decodes as the zero state |
| `TailEncoding.PrevWords` | src/node.rs:41-71 | the marks 0, 1, 2 read back as themselves, and a 4-aligned non-null address is none of them and reads Queued |
| `SemaphoreTheorems.PanicsIff` | examples/semaphore.rs:30-292 | in every run a step panics if and only if an overflow check fires: too many stored permits or a left-over that does not fit the tail word, both only if users put in more than the maximum, or merging beyond 32 bits; no unwrap, other assertion, subtraction or the 32-slot buffer ever fails |
| `SemaphoreTheorems.NeverPanics` | examples/semaphore.rs:30-292 | so a run in which users stay within the maximum and 32 bits never panics |
| `SemaphoreTheorems.Conservation` | examples/semaphore.rs:30-292 | stored + set aside + held + in running calls never exceeds what was put in, and equals it if and only if no step of the run was one of the three losing ones |
| `SemaphoreTheorems.LostIffLeaks` | examples/semaphore.rs:243-286 | after a step less is accounted for than before if and only if it drops the only queued future holding some, queues up behind 2^31 stored ones, or serves the last in line with 2^63 or more left that pass as a state |
| `SemaphoreTheorems.SoleCancelLoses` | examples/semaphore.rs:276-286 | for all counts: asking for more than there is and dropping the future loses half the permits, and closes the semaphore if their number is odd |
| `SemaphoreTheorems.WideStoreLoses` | examples/semaphore.rs:243-252 | for all counts of at least 2^31: queueing up loses 2^31 permits |
| `SemaphoreTheorems.HugeAdd` | examples/semaphore.rs:74-90 | for every 64-bit count added to one waiter: when the run is exact, panics, or loses 2^63 permits |
| `SemaphoreTheorems.HugeAddFails` | examples/semaphore.rs:74-90 | 2^62 + 2^33 permits panic, 2^63 + 1 leave one and a state of zero |
| `SemaphoreLedger.WordRegions` | src/queue/state.rs:61-73 | the four regions of what is left: exact, overflow, top bit dropped, overflow again |
| `SemaphoreTheorems.WaiterOrder` | examples/semaphore.rs:66-94 | only the first in line holds part of its permits, nobody in line has all of them, and everybody in line has a waker |
| `SemaphoreTheorems.ReadyMeansServed` | examples/semaphore.rs:264-267 | a dequeued future that sees the semaphore open has all its permits and gets exactly them |
| `SemaphoreTheorems.AlonePoll` | examples/semaphore.rs:231-269 | an undisturbed poll as a whole: an error that changes nothing if and only if closed; all permits, or a place at the end of the line with a waker and what is lacking; whoever left the line gets what it asked for |
| `SemaphoreTheorems.EnqueueAnswers` | examples/semaphore.rs:231-269 | under interference, queueing up succeeds if and only if the queue still shows what the permits were counted from |
| `SemaphoreTheorems.NoBarging` | examples/semaphore.rs:125-147 | while somebody is in line, permits reach a user only through a future that left the line |
| `SemaphoreTheorems.QuietMeansWoken` | examples/semaphore.rs:66-106 | once all calls have returned, every waiter that left the line has been woken and no permit is in transit |
| `SemaphoreTheorems.BatchesAreFull` | examples/semaphore.rs:66-106 | over every run, a call gives up the lock before it is done only with 32 wakers to wake |
| `SemaphoreTheorems.ClosedIff` | examples/semaphore.rs:177-189 | a step leaves the semaphore closed if and only if it was closed, is a closing step of `close`, or drops the only queued future with an odd count |
| `SemaphoreTheorems.ClosedStep` | examples/semaphore.rs:231-292 | on a closed semaphore no permit is handed out, every poll is an error, nobody queues up, nothing leaks, and a cancel starts exactly one call that gives back all it held |
| `SemaphoreTheorems.CloseCloses` | examples/semaphore.rs:177-189 | once `close` is past its update or its swap, the semaphore is closed |
| `SemaphoreTheorems.CloseIsPermanent` | examples/semaphore.rs:177-189 | over every run, closed stays closed and the account stays exact |
| `SemaphoreTheorems.DequeuesBounded` | examples/semaphore.rs:66-106 | under any interference a call bringing n permits dequeues at most n waiters, if each asks for one |
| `SemaphoreTheorems.StepIsQueueOp` | examples/semaphore.rs:56-292 | every step is one operation that the atomic queue allows |
| `SemaphoreTheorems.ForgetRegions` | examples/semaphore.rs:109-117 | for every 64-bit count: it takes what is stored, or panics and installs nothing, or silently wraps and leaves more than there was; the closed flag stays |
| `SemaphoreTheorems.ForgetIsExact` | examples/semaphore.rs:109-117 | it takes away what it reports if and only if that many are stored, or the count's shift leaves just the number stored |
| `SemaphoreTheorems.ForgetFails` | examples/semaphore.rs:109-117 | concrete counts that panic, wrap silently, and report nothing |
| `SemaphoreGreedy.GreedyOutcome` | examples/semaphore.rs:74-94 | who is served, who gets the remainder, and what is left over, in terms of prefix sums |
| `SemaphoreGreedy.ServedIff` | examples/semaphore.rs:74-94 | the number served is characterised without the loop: it is the only place where the loop may stop |
| `SemaphoreGreedy.LongestIff` | examples/semaphore.rs:74-94 | it is the longest affordable prefix if and only if the loop does not stop with nothing left in front of somebody who needs nothing |
| `SemaphoreGreedy.ServedWithinMeans` | examples/semaphore.rs:66-106 | if everybody needs a permit, it is the longest affordable prefix and at most n are served |
| `SemaphoreGreedy.GreedyConserves` | examples/semaphore.rs:76-90 | what the line no longer lacks plus the left-over is what was brought |
| `SemaphoreGreedy.OverflowingIff` | examples/semaphore.rs:74-94 | where the loop overflows, without the loop: at some served prefix what remains does not fit the tail word |
| `SemaphoreGreedy.SmallIsExact` | examples/semaphore.rs:74-94 | below 2^62 permits it never does, and the installed state is exact |
| `SemaphoreGreedy.Semaphore.AddPermitsLocked` | examples/semaphore.rs:66-106 | the loop over batches of 32 wakers, undisturbed, is the greedy rule, with wakers run in order, once, after unlocking, and the lock given up early only for 32 of them; it panics exactly when the word for what is left overflows at some served waiter, which then stays in line |
| `SemaphoreGreedy.Semaphore.AddPermits` | examples/semaphore.rs:56-64 | nothing for zero, the greedy rule when somebody waits, otherwise the state grows; it panics exactly when, on an empty line, stored plus added exceed the maximum, or, on another, the loop overflows |
| `SemaphoreGreedy.GrantIsGreedy` | examples/semaphore.rs:74-94 | under any interference, each turn of a call's loop is one turn of the greedy rule on the line as it is then, panicking where the rule's left-over overflows |
| `NotifyTheorems.NeverPanics` | examples/notify.rs:57-86 | `notification.unwrap()`, `dequeue().unwrap()`, `pop().unwrap()` and the waker buffer never fail |
| `NotifyTheorems.Conservation` | examples/notify.rs:50-86 | in every run, single notifications issued = stored + on the way + held by unfinished futures + consumed + merged with a stored one |
| `NotifyTheorems.HandedOn` | examples/notify.rs:233-247 | a future loses a notification only by completing with it or by passing the same kind to exactly one new call |
| `NotifyTheorems.HandedBy` | examples/notify.rs:57-81 | a future gets one only as the picked waiter of one call, the first in line for `notify_one` |
| `NotifyTheorems.PickedIsServed` | examples/notify.rs:63-80 | whatever happens in between, the served waiter is the one that was first (for `notify_last`: last) when it was picked, and those behind it have arrived since |
| `NotifyTheorems.PendingIsCurrent` | examples/notify.rs:176-230 | a poll returns Pending only if the future is up to date with the generation |
| `NotifyTheorems.NotifyWaitersCompletes` | examples/notify.rs:98-117 | once a `notify_waiters` has passed its bump, no poll of a future created before the bump returns Pending, ever |
| `NotifyTheorems.OutdatedIsReady` | examples/notify.rs:176-230 | a poll is ready at its very first step if and only if the future is outdated or was notified |
| `NotifyTheorems.CompletedIsNotified` | examples/notify.rs:167-230 | a future completes only if its generation is outdated, or it consumes exactly one single notification, or `notify_waiters` took it out of the line |
| `NotifyTheorems.NotifiedIsReady` | examples/notify.rs:229-230 | a future that was notified is ready at its next poll, and consumes the single notification that it held |
| `NotifyTheorems.UnnotifiedWaits` | examples/notify.rs:176-230 | a future that is up to date, with nothing stored for it, is not ready: the steps of its poll lead to the end of the line |
| `NotifyPolls.AlonePoll` | examples/notify.rs:167-230 | an undisturbed poll as a whole: ready if notified, outdated (leaving the line) or if it takes the stored notification, otherwise pending in line and registered |
| `NotifyPolls.RetryLooksAgain` | examples/notify.rs:178-205 | a poll that lost the race for its place looks at the generation again before it takes anything |
| `NotifyPolls.OutdatedIffBumped` | examples/notify.rs:98-117 | over every run, a future is outdated if and only if some `notify_waiters` raised the generation after it was created |
| `NotifyTheorems.ContextRegisters` | examples/notify.rs:189-194 | a poll with a context that does not complete leaves a waker |
| `NotifyTheorems.RegisteredForGood` | examples/notify.rs:189-194 | over every run, a registered waker stays, or is taken by a call, or woken |
| `NotifyPolls.NoContextNoWaker` | examples/notify.rs:189-194 | a poll without a context registers nothing |
| `NotifyTheorems.NoLostWakeup` | examples/notify.rs:98-117 | a pending future that was notified or is outdated, and has a waker, has been woken or is owed a wake-up by a running call |
| `NotifyTheorems.QuietMeansWoken` | examples/notify.rs:57-117 | once all calls have returned it has been woken |
| `NotifyTheorems.BatchesAreFull` | src/queue/drain.rs:82-103 | over every run, a `notify_waiters` call gives up the lock before it is done only with 32 wakers to wake |
| `NotifyTheorems.SwapSeals` | src/queue/drain.rs:24-43 | the swap of `notify_waiters` takes everybody in line at once |
| `NotifyTheorems.DrainedTakesNothing` | examples/notify.rs:98-117 | over every run, a future taken by the swap never takes a single notification again |
| `NotifyTheorems.StepIsQueueOp` | examples/notify.rs:50-247 | every step is one operation that the atomic queue allows |
| `WaitQueueTheorems.NeverPanics` | src/wait_queue.rs:196-217 | every linked waiter has its waker when it is taken, no unwrap or buffer fails; the only panic needs a `close` that meets a false condition |
| `WaitQueueTheorems.StepIsSafe` | src/wait_queue.rs:266-276 | that panic is exactly the one of a conditional wait that finds the queue closed and the condition false |
| `WaitQueueTheorems.NoMissedCondition` | src/wait_queue.rs:196-217 | once a `notify_all` or `close` that began with the condition true, and has seen it true since, is past its decisive point, every pending `wait_until` has been woken or is owed a wake-up; the condition may rise and fall as it likes otherwise |
| `WaitQueueTheorems.PollsComplete` | src/wait_queue.rs:266-291 | along every run in which the condition does not fall, the next poll of a pending `wait_until` completes it; that no other does is `UntilIsSound` |
| `WaitQueueTheorems.WaitUntilCompletes` | src/wait_queue.rs:266-291 | both together: such a waiter has been woken or is owed it, and the poll that follows, however much later, completes |
| `WaitQueueTheorems.UntilIsSound` | src/wait_queue.rs:266-290 | a `wait_until` completes only at a step of its own that finds the condition true |
| `WaitQueueTheorems.CompletedWasTrue` | src/wait_queue.rs:266-290 | over every run, if it has completed then the condition was true at some moment since it had not |
| `WaitQueueTheorems.OnceIsSound` | src/wait_queue.rs:196-217 | a plain `wait` completes only after it was taken out of the line by a call, or because the queue is closed |
| `WaitQueuePolls.AlonePoll` | src/wait_queue.rs:196-290 | an undisturbed poll as a whole: ready if the condition holds, or, for a plain wait, if it was notified or the queue is closed; a panic for a conditional wait that finds it closed; otherwise pending in line with a waker |
| `WaitQueuePolls.PendingIsRegistered` | src/wait_queue.rs:196-290 | whatever happens in between, a poll that ends Pending leaves its waiter in line or notified |
| `WaitQueuePolls.PollEnds` | src/wait_queue.rs:266-290 | every step of a poll brings it closer to its end: no poll tests for ever |
| `WaitQueueTheorems.PickedIsServed` | src/wait_queue.rs:68-90 | from the pick to the removal, under any interference, the waiter served by `notify_one` is the one that was first in line (`notify_last`: last), and all behind it came since |
| `WaitQueueTheorems.ServedLeaves` | src/wait_queue.rs:68-90 | serving takes exactly that waiter out of the line, notified, its waker taken by the call, and touches nobody else |
| `WaitQueueTheorems.ManyServesItsCount` | src/wait_queue.rs:328-348 | over every run, what `notify_many(n)` has served and may still serve adds up to n |
| `WaitQueueTheorems.ManyStopsOnlyEmpty` | src/wait_queue.rs:328-348 | it stops with part of its count left only when nobody is in line |
| `WaitQueueTheorems.ClosedIff` | src/wait_queue.rs:61-65 | a step leaves the queue closed if and only if it was closed or is a closing step of `close` |
| `WaitQueueTheorems.ClosedMeansOut` | src/wait_queue.rs:61-65 | after `close` nobody is in line, nobody can enter it, and every pending wait has been woken or is owed it |
| `WaitQueueTheorems.CloseIsPermanent` | src/wait_queue.rs:61-65 | over every run, closed stays closed |
| `WaitQueueTheorems.QuietMeansWoken` | src/wait_queue.rs:61-110 | once all calls have returned, every pending wait that is out of line has been woken |
| `WaitQueueTheorems.BatchesAreFull` | src/wait_queue.rs:328-360 | over every run, a `notify_many`, `notify_all` or `close` call gives up the lock before it is done only with 32 wakers to wake |
| `WaitQueueTheorems.StepIsQueueOp` | src/wait_queue.rs:61-217 | every step is one operation that the atomic queue allows; whom it serves is in `PickedIsServed` |
| `WakerBatch.WakerList.Push` | src/wait_queue.rs:305-308 | the waker is appended; the slot exists |
| `WakerBatch.WakerList.Drain` | src/wait_queue.rs:312-320 | all wakers are handed out once and the list is empty |
| `WakerBatch.Line.ForEach` | src/queue/drain.rs:82-103 | whoever leaves in the unlocked windows, the others' wakers are woken once each, in order, with the lock released; there are no more windows than full batches, and the buffer never overflows |
| `WakerBatch.Line.DrainQueue` | src/wait_queue.rs:350-360 | everybody in line is taken out and woken, in order, except those who left by themselves |
| `WakerBatch.Line.NotifyMany` | src/wait_queue.rs:328-348 | of those in line and those who arrive in its windows, the first ones are dequeued and woken, in order, up to `count` or until the line is empty; exactly the last, partial batch of a loop ended by its count is woken with the guard alive |

## Left out

- Weak memory orderings and the loom shims (src/loom.rs): steps are sequentially consistent, as the design's reliance on the SeqCst order suggests.
- `src/queue.rs` and `src/queue/drain.rs` under concurrency are step machines over explicit memory, not classes: another thread may act between any two accesses. The class form (`LinkedQueue`) covers the moments without half-linked enqueuers.
- Spurious failures of `compare_exchange_weak` and the bounded spinning before parking: both only repeat a step that is modelled. Accesses to memory that only the running thread can see share a step with their neighbour.
- Node data, pinning, aliasing and `Send`/`Sync`: Rust type-system matters. Node payloads appear only in the client machines.
- `drop_node` (src/queue.rs:36): nothing calls it, so `WaitQueue` does not forward a notification when a notified `Wait` is dropped.
- WaitQueueTheorems.NoMissedCondition: speaks of `notify_all` and `close`; no conservation is stated for `notify_one`, since a `Drop` step passes nothing on, as noted above.
- `WaitIf` (a plain wait with one test of a predicate). The `WaitQueue` machine wakes the last batch of `notify_many` after the unlock; `WakerBatch.Line.NotifyMany` has the source's order.
- SemaphoreGreedy.Semaphore.AddPermitsLocked: the caller has the semaphore for itself; interference between the turns of the loop is covered by `SemaphoreGreedy.GrantIsGreedy` and the run theorems.
- `acquire_many_owned` (examples/semaphore.rs:155-161) is not modelled: it acquires one permit and hands out as many as asked.
- `forget_permits` beyond the stored count is outside the semaphore's runs, since it creates permits or panics; what it does is in `SemaphoreTheorems.ForgetRegions`. A panic ends a run.
- LinkedQueue.Queue.Splice: excludes a node whose successor has enqueued but not yet published itself, where the source waits; `ProtocolSafety.GetReturnsSuccessor` and the removal steps of the protocol cover it.
- A semaphore's `Acquire` polled again after Ready is modelled; a `Notified` polled again after Ready is not, since the code never consults `completed` there.
- The `*mut T` queue state, `src/sync/pthread.rs`, `src/sync/mutex.rs` and `src/sync/spin.rs`: thin or foreign; the lock is an abstract exclusive lock.
- Real wakers and executors: a waker is registered, taken and woken; unwinding from callbacks and lock poisoning are not modelled.
- That one `notify_waiters` cannot satisfy two futures created one after the other: the code does not give it.
- Arithmetic overflow checks are taken to be on, as in debug builds. Without them, merging permits beyond 32 bits (examples/semaphore.rs:323) wraps and 2^32 of them vanish, and the check against `MAX_PERMITS` (examples/semaphore.rs:32) does not fire when more than that is already stored.
- `compare_exchange_state` (src/queue.rs:167-175): one exchange without a loop, not a kind of call in `StateUpdate`.
- The notifier's generation (examples/notify.rs:36) is a 64-bit counter that wraps; the model's does not.
- What unwinding leaves behind after a panic, such as a waiter still in line whose waker is gone.
- Fair scheduling: wake-up results say that the next step is there and enabled, not when it is taken.
