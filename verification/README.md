# A verified model of the async weighted semaphore

The semaphore keeps its whole state in three atomics and an intrusive queue: `acquire` holds either
the available permits or the back of a stack of new waiters, `release` is a combining lock that also
carries permits, and `next_cancel` is a stack of waiters whose futures are being dropped. Whoever
holds the release lock works in rounds: take the cancel stack, flip the stack of new waiters into the
doubly linked queue, unlink the cancelled ones, finish waiters from the front, unlock; a release that
finds the lock taken leaves its permits in `LockedDirty`, and the owner does one more round.

`dafny verify dfyconfig.toml` checks everything. The project has four layers.

1. **The protocol** (`Protocol`, `Invariant`, `Steps`, `Safety`, `Frames`, `Refinement`, `Runs`, `Order`,
   `Amounts`, `Ledger`, `Progress`, `Poisoning`, `PoisonInFlight`, `WouldBlock`). A transition system over any number
   of calls and futures in which every load, compare-exchange and swap of an atomic is a step.
   `Refinement.Spec` is the independent specification: a first-in-first-out queue of acquires with the
   amounts they ask for, a count of free permits, a count of granted permits and a poison flag. Every step of every interleaving is shown to be
   one of its steps or a stutter.
2. **The queue on the heap** (`Heap`). The same code over `Waiter` objects with `next`, `prev` and
   `next_cancel` pointers edited in place, method by method, against the sequences they stand for.
   `Alone` connects it to layer 1: a release that is left alone takes the protocol's state to exactly
   what the contract of the heap method says.
3. **The waker** (`WakerProtocol`, `WakerProgress`, `WakerRefinement`, `WakerWrapAround`). `AtomicWaker` as a protocol of
   its own between a future and a producer: a torn two-word waker behind a sequence number, cloned wakers
   with linear ownership, cancellation with park and unpark. `Composition`, `CompositionSteps`,
   `Composed` and `ComposedProgress` put it together with layer 1: one cell per waiter, whose calls begin
   where the protocol's program counters say and go on step by step among everybody else's steps. Every
   run of the two together is a run of the protocol.
4. **The words** (`PermitValues`, `Packing`, `AtomicWord`). Saturating arithmetic and bit packing for
   every word width `w >= 3`, and the atomic cell that holds packed values.

## How the protocol reads the code

- Memory is sequentially consistent. A weak compare-exchange may fail for no reason. The load before
  a retry loop and a failed compare-exchange in it have the same effect, reloading `current`, and are
  the one label `Load`; it is enabled at any time, so a call may retry for as long as it likes.
- What only the lock owner touches (`front`, `middle`, the edges of queued nodes) and the fields of a
  node that is not published yet are written together with the neighbouring atomic step. The walk over
  pointers is layer 2.
- The semaphore outlives its waiters, futures are not polled after completion, and each future runs
  one call at a time. A waiter's address is its number and may be used again once it is dropped.
- `DropFinished` gives the node up before its permits are released. The code frees it after the call
  that releases them; giving it up earlier makes the lifetime theorems stronger.
- An acquire starts, as far as its place in the queue goes, when its first poll pushes the node.
- Polling a waiting future that is not finished only replaces its waker; that is layer 3 and a stutter
  here. Guards are the total `guards`: acquiring adds to it, dropping and forgetting take from it,
  and splitting or merging leaves it alone.

| label | code | | label | code |
|---|---|---|---|---|
| `NewFuture` | src/semaphore.rs:116-126 | | `Lock`, `Defer` | src/release.rs:18-40 |
| `PollEnterStart`, `EnterPoisoned`, `EnterFast`, `EnterPush` | src/acquire.rs:52-84 | | `Swap` | src/release.rs:169 |
| `PollWaiting` | src/acquire.rs:86-98 | | `FlipAvailable` | src/release.rs:47-59 |
| `DropIdle` | src/acquire.rs:166-167 | | `FlipSkip`, `FlipTake` | src/release.rs:60-85 |
| `DropFinished` | src/acquire.rs:157-163 | | `Unlink`, `UnlinkDone` | src/release.rs:91-109 |
| `StartCancel`, `CancelPush`, `WaitDone` | src/acquire.rs:143-156 | | `Grant`, `Fail`, `PopStop` | src/release.rs:112-138, 175 |
| `TryStart`, `TryFail`, `TryFast` | src/semaphore.rs:144-160 | | `Redo`, `Unlock` | src/release.rs:142-160 |
| `ReleaseStart`, `PoisonStart` | src/semaphore.rs:239-266 | | `GuardDrop`, `GuardForget` | src/guard.rs:85-89, 205-213 |

## Where code and documentation part

- **Poison.** src/lib.rs:119-124 says that all acquires fail once the semaphore is poisoned. A `poison`
  that finds the lock taken leaves the poison in `LockedDirty` and returns (src/release.rs:28-36), and
  acquires that begin afterwards can still succeed until the owner collects it:
  `Poisoning.DeferredPoisonStillGrants` and `Poisoning.LockedWithPermits`. Whether any acquire can still
  succeed from a given state is decided exactly by `PoisonInFlight.GrantsAfterPoison`: permits are
  available, or acquires are queued and the round in progress can still serve one of them, which depends
  on its phase, its permits and who is in front. It never outlasts the owner: whenever the lock is free
  again, the poison has taken effect (`Poisoning.PoisonTakesHold`), and that is permanent.
- **WouldBlock.** src/semaphore.rs:131-132 names two reasons for `WouldBlock`: too few permits, or
  another pending acquire. The pop loop leaves `acquire` at `Queued(null)` with the remaining permits
  in `release`, and `try_acquire` then reports `WouldBlock` without either reason:
  `WouldBlock.RefusedAtRest`. `WouldBlock.BlocksForNoReason` says exactly when, for every reachable state.
- **Order.** src/lib.rs:98-99 says that calls finish in the order in which they start. They do not
  finish in the order in which they are made or first polled: `Order.LaterCallFirst` has a later one
  succeed while the earlier is still in its first poll. The order is that of entering the queue, in both
  directions: `Order.ServedAsEntered`.
- **Sequence numbers.** The waker's sequence number wraps. With as many polls as there are numbers
  between a finish's load and its compare-exchange a waker that was already dropped is woken:
  `WakerWrapAround.StaleWakerWoken`, for every number of numbers. Which waker is woken, and that wakers
  are owned linearly, is therefore stated for the runs in which a finish that wins still holds the words
  that are in the cell; that condition is exact (`WakerProtocol.WakesLatestIffCurrent`), and fewer polls
  than numbers are enough for it (`WakerProtocol.TimelyRunsAreCurrent`). Everything else about the waker
  holds in all runs.

## Model

| member | source | states |
|---|---|---|
| `Steps.StepInv` | src/release.rs:10-182 | Every step of any call, in any interleaving, keeps the invariant that ties the three words, the queue, the cancel stack, every waiter and every program counter together. |
| `Steps.ReachableInv` | src/semaphore.rs:20-37 | The invariant holds in every state a semaphore made by `new` can reach. |
| `Safety.NoLostWakeup` | src/release.rs:163-181 | When the lock is free and no call owes a release, nothing is cancelling, the stack is flipped, and the front waiter asks for more than there is (and there is no poison) or nobody waits. |
| `Safety.SomebodyOwes` | src/acquire.rs:78-81 | In any reachable state an unflipped node has an owner that still owes a release, or the lock is dirty, or its owner has yet to flip; likewise a cancelling node and the swap. |
| `Safety.NoStrandedCanceller` | src/acquire.rs:143-155 | A future in `wait_cancel` has had its cancellation accepted, or some call holds the lock and has the node in its chain or will swap it out; with the lock free the wait is over. |
| `Safety.LockExclusion` | src/release.rs:16-40 | At most one call is in the critical section, and the lock is taken exactly when one is. |
| `Safety.NoOvertaking` | src/lib.rs:98-102 | While an acquire is pending `acquire` says `Queued`, so neither fast path can succeed. |
| `Safety.NeverPanics` | src/acquire.rs:76 | No reachable state is one in which an `assert!`, `unreachable!`, `unwrap` or `panic!` of the protocol fires. |
| `Safety.TouchesLiveNodes` | src/release.rs:60-138 | No step reads or writes a node whose owner may have dropped it. |
| `Frames.OnlyTouched` | src/release.rs:60-138 | Of all nodes a step depends only on those it touches and on its own future's: with other nodes in any state, or gone, it can be taken, does the same, and leaves them alone. |
| `Safety.ReachableNodesLive` | src/state.rs:61-78 | Every node led to by `acquire`, the list, `next_cancel` or the taken chain, and every node its `prev` or `next_cancel` leads to, is live. |
| `Safety.CancelledAreLinked` | src/release.rs:91-109 | Each node handed to `cancel` is cancelling, is in the list exactly once and appears once in the chain, and taking it out leaves the order of the others. |
| `Refinement.QueueRefines` | src/release.rs:43-138 | List followed by reversed stack, each node with the amount it asks for, moves only by appending, by serving its head with that amount, or by taking out a cancelled node. |
| `Refinement.StepRefines` | src/semaphore.rs:20-37 | Every step of every interleaving is one step of the abstract weighted semaphore: queue with amounts, free and granted permits, and poison. |
| `Runs.RunRefines` | src/semaphore.rs:20-37 | The trace of every run is a trace of the abstract semaphore. |
| `Runs.ServedInOrder` | src/lib.rs:98-102 | In the abstract semaphore nobody is served while somebody ahead is still waiting. |
| `Runs.FirstInFirstOut` | src/lib.rs:98-102 | In every run from a reachable state, an acquire behind another is finished only after that one was finished or withdrawn. |
| `Order.FirstEntersFirst` | src/lib.rs:98-102 | In the abstract semaphore, of two acquires that wait and are served, the one that entered the queue first is served first. |
| `Order.ServedAsEntered` | src/acquire.rs:77-79 | In every run, of two such acquires one is finished first if and only if its push onto the stack came first. |
| `Order.LaterCallFirst` | src/acquire.rs:52-75 | For any two amounts, a run in which the acquire that was called and polled later, and finds its amount there, succeeds while the earlier one is still entering. |
| `Amounts.AcquireAsked` | src/semaphore.rs:116-126 | Whatever happens between the call `acquire(n)` and a later step for its future: the fast path finds `n` permits and takes them, the push happens only if they are not there and queues the node for `n`, the grant spends `n`, the poll returns a guard of `n`, or the drop gives `n` back. |
| `Amounts.TryAsked` | src/semaphore.rs:144-160 | A `try_acquire(n)` that succeeds, at any later time, finds `n` permits and takes exactly those; one that fails takes nothing, and a load it made on the way showed `Queued`, poison, or fewer than `n`. |
| `Ledger.GrantedOnceClaimedOnce` | src/acquire.rs:143-163 | Over every run, each grant to a future is claimed once, by the poll that returns its guard or by the drop that releases it, except for one still outstanding; and no future is granted its permits twice. |
| `Ledger.ResolvesOnce` | src/acquire.rs:52-98 | Over every run a future returns a guard or the error at most once. |
| `Runs.SpecConserves` | src/release.rs:18-60 | In the abstract semaphore permits are conserved and poison stays. |
| `Runs.PermitsConserved` | src/release.rs:112-160 | Unless poisoned, permits in the words, with releases in progress, with finished waiters and in guards add up to the initial ones plus released minus forgotten. |
| `Runs.RoundsBounded` | src/release.rs:142-181 | Further rounds number at most the deferrals, less one while the lock is dirty; locks and unlocks balance up to the call in the critical section. |
| `Progress.OwnerMovesOn` | src/release.rs:167-180 | Within a round every step of the owner but a reload lowers a measure: phases come in order, and the cancel chain and the list shrink. |
| `Progress.OthersDoNotInterfere` | src/release.rs:163-181 | A step of any other call leaves the owner's program counter, its chain and the list as they are. |
| `Progress.OwnerCanStep` | src/release.rs:163-181 | The owner is never stuck: its next step is enabled in every state of the invariant. |
| `Progress.OwnerUnlocks` | src/release.rs:142-181 | Left alone the owner unlocks, after one further round if the lock is dirty and none if not. |
| `Progress.CancellersReleased` | src/acquire.rs:153-155 | From any reachable state with the lock taken, the owner alone gets to a state where the lock is free and every waiting cancellation has been accepted. |
| `Progress.OnlyDropsWait` | src/lib.rs:126-129 | In every reachable state each call can be brought to its return by its own steps alone, except that the drop of a waiting future gets to its wait. |
| `Progress.CallsMayBegin` | src/acquire.rs:138-171 | In every reachable state whoever is not in a call may begin one: a future can be dropped in exactly one of the three ways, and polled unless it is done or its wait is not over; any thread can try to acquire, release, poison, and drop or forget as many permits as guards hold, and no more. |
| `Poisoning.PoisonAbsorbed` | src/release.rs:18-40 | A poisoned release that locks or defers leaves its poison in `LockedDirty` or with the lock owner. |
| `Poisoning.PoisonIsNeverLost` | src/release.rs:24-57 | From there on, in every run, `Available`, `Unlocked`, `LockedDirty` or the lock owner has it, and whenever the lock is free it has taken effect. |
| `Poisoning.PoisonTakesHold` | src/release.rs:18-40 | After the lock-or-defer of a poisoned release every run to a free lock ends in a poisoned state. |
| `Poisoning.PoisonIsSomewhere` | src/state.rs:133-142 | Poison that a caller has not brought to the lock yet is not lost either. |
| `Poisoning.PoisonTakesEffect` | src/release.rs:18-40 | The lock-or-defer itself makes the state poisoned if and only if it was, or the call takes the lock while acquires are queued. |
| `Poisoning.PoisonCollected` | src/release.rs:53-57 | The owner's flip makes its poison effective, and a further round collects a deferred one, at once if acquires are queued. |
| `Poisoning.NoGrantWhenPoisoned` | src/lib.rs:119-122 | In a poisoned state no fast path and no finish can grant permits. |
| `Poisoning.PoisonIsPermanent` | src/lib.rs:119-122 | A poisoned state stays poisoned, and no run from it grants permits to anybody. |
| `Poisoning.AvailableGrantsUnlessPoisoned` | src/semaphore.rs:144-160 | While permits are available somebody can be granted some if and only if the semaphore is not poisoned. |
| `Poisoning.ErrorsAreTrue` | src/acquire.rs:59-63 | In every reachable state, a first poll or `try_acquire` about to report poison, or an acquire that was failed, means that the semaphore is poisoned. |
| `PoisonInFlight.GrantsAfterPoison` | src/release.rs:163-181 | Once a poisoned release has passed lock-or-defer, some run still grants permits if and only if permits are available, or acquires are queued and the owner's round, from the phase it is in and with the permits it has, can still bring a waiter that fits to the front. |
| `PoisonInFlight.GrantsAfterPoisonCall` | src/semaphore.rs:262-266 | The same for the state right after the lock-or-defer of a `poison`, in all cases. |
| `PoisonInFlight.LostGrantsNothing` | src/release.rs:28-36 | Where that round can serve nobody any more, nothing is granted in any run from there. |
| `Poisoning.DeferredPoisonStillGrants` | src/release.rs:28-36 | A `poison` that defers while permits are available returns, and an acquire that begins later can succeed. |
| `Poisoning.LockedWithPermits` | src/release.rs:18-27 | Such states are reached, for every initial number of permits and amount released. |
| `WouldBlock.BlocksForNoReason` | src/semaphore.rs:128-132 | In every reachable state `try_acquire` reports `WouldBlock` without a documented reason if and only if the word is `Queued(null)`, the list is empty, and the free `release` word holds enough permits, or poison; under a lock, if nothing was asked for. |
| `WouldBlock.RefusedAtRest` | src/release.rs:175-179 | For every `n` below the maximum a run ends with nothing pending and nothing going on, `n` permits left, and `try_acquire(n)` refused. |
| `WouldBlock.FailsIfItBlocks` | src/semaphore.rs:147-156 | A `try_acquire` that has seen the word as it is fails if and only if the word blocks it or is poisoned, and otherwise may take its permits. |
| `Alone.PopsAlone` | src/release.rs:175 | Left alone the pop loop serves exactly the prefix of the list that `Heap.Serve` says, and changes nothing else. |
| `Alone.UnlinksAlone` | src/release.rs:91-109 | Left alone `cancel` takes exactly the chain out of the list and accepts each cancellation. |
| `Alone.ReleaseAlone` | src/release.rs:163-181 | Left alone a release that finds the lock free leads the protocol to what the contract of `Heap.ReleaseAction.Release` says. |
| `Alone.TryAcquireAlone` | src/semaphore.rs:144-160 | Left alone a `try_acquire` ends as the contract of `Heap.Semaphore.TryAcquire` says. |
| `Heap.Waiter.Finish` | src/waker.rs:132-154 | Wins exactly against a waiter that is not cancelling; what its word says then, `Finished` with the poison bit of the call, is what the owner is told. Afterwards the owner may change any field, and the code no longer writes it. |
| `Heap.Waiter.AcceptCancel` | src/waker.rs:186-203 | Stores `Cancelled`, which is what the owner is told; after that the node is its owner's. |
| `Heap.Semaphore.constructor` | src/semaphore.rs:92-100 | A new semaphore is well-formed, empty, and has the initial permits available. |
| `Heap.Semaphore.TryAcquire` | src/semaphore.rs:144-160 | Grants exactly if the word says that many permits are available, and takes exactly those; otherwise changes nothing and says whether it is poisoned or would block. |
| `Heap.Semaphore.Push` | src/acquire.rs:54-79 | Puts the node on top of the stack and takes over the available permits. |
| `Heap.Semaphore.StartCancel` | src/waker.rs:156-172 | A waiting node becomes cancelling, and was not announced before; of one that was finished the outcome is returned. |
| `Heap.Semaphore.PushCancel` | src/acquire.rs:146-151 | Puts the node on top of the cancel stack. |
| `Heap.Semaphore.LinkStack` | src/release.rs:65-82 | The walk of `flip` in place ends, with one well-formed doubly linked list: the old one followed by the reversed stack. |
| `Heap.Semaphore.TakeStack` | src/release.rs:60-85 | Moves the whole stack into the list and leaves `Queued(null)`. |
| `Heap.Semaphore.Unlink` | src/release.rs:93-104 | The pointer surgery leaves the neighbours of a node linked around it, at both ends too. |
| `Heap.Semaphore.CancelOne` | src/release.rs:93-107 | One node leaves the well-formed list and is given back; its `next_cancel` was read before. |
| `Heap.Semaphore.SwapCancels` | src/release.rs:169 | Takes the whole cancel stack, each node of which is still queued. |
| `Heap.Semaphore.Cancel` | src/release.rs:91-109 | The list loses exactly the nodes of the chain, keeps the order of the others, and every node given back stays as its owner left it. |
| `Heap.ServeIsGreedy` | src/release.rs:112-138 | First come first served: serving spends exactly what the served asked for and stops only at a waiter that is cancelling or asks for more than is left. |
| `Heap.ReleaseAction.TryPop` | src/release.rs:112-138 | Pops the front exactly if it fits and is not cancelling, debits its amount, and never touches it after it was finished. |
| `Heap.ReleaseAction.FinishUntilStuck` | src/release.rs:175 | The loop finishes exactly the prefix that fits, in order, and keeps what is left. |
| `Heap.ReleaseAction.LockOrElseDefer` | src/release.rs:18-40 | Takes a free lock with its permits; otherwise leaves the caller's permits in `LockedDirty`, added to those already there. |
| `Heap.ReleaseAction.TryUnlock` | src/release.rs:142-160 | Unlocks exactly if nobody deferred, keeping the permits; otherwise collects the deferred ones. |
| `Heap.ReleaseAction.Flip` | src/release.rs:43-88 | The queue is all in the list; only if it is empty do the permits become available. |
| `Heap.ReleaseAction.CancelTaken` | src/release.rs:91-109 | `cancel` on the owner's list, which keeps what the others ask for. |
| `Heap.ReleaseAction.PopAll` | src/release.rs:175 | The pop loop on the owner's list. |
| `Heap.ReleaseAction.TakeOver` | src/release.rs:167-173 | Swap, flip and cancel leave exactly the queued nodes that were not announced as cancelling, in order. |
| `Heap.ReleaseAction.FinishAndUnlock` | src/release.rs:174-179 | The waiters that fit are finished and the lock is free with what is left. |
| `Heap.ReleaseAction.Release` | src/release.rs:163-181 | One release with no other thread: the complete new state when it takes the lock with and without waiters, and when it defers. |
| `Heap.PollEnter` | src/acquire.rs:52-84 | The outcome of the first poll, when it is each of the three, and the complete new state in each case. |
| `Heap.DropWaiting` | src/acquire.rs:143-156 | Dropping a waiting future takes it out of the queue, gives it back, keeps the order of the others and serves those that were stuck behind it; under somebody else's lock it is announced, the lock is marked, and the drop has to wait. |
| `Heap.DropFinished` | src/acquire.rs:157-163 | Dropping a future that was finished releases its permits, with all that a release does, unless it failed. |
| `WakerProtocol.StepControl` | src/waker.rs:88-220 | Every step of either party, in any run, keeps the invariant that ties both program counters, the state and the words together. |
| `WakerProtocol.StepInv` | src/waker.rs:88-220 | Every step of either party keeps the invariant, provided a finish that wins still holds the words that are in the cell. |
| `WakerProtocol.TimelyRunsAreCurrent` | src/waker.rs:114-119 | That proviso holds in every run in which fewer polls than there are sequence numbers complete between the load and the compare-exchange of a finish that wins. |
| `WakerProtocol.WakerSnapshot` | src/waker.rs:132-144 | A finish that wins with fewer polls in between wakes exactly the waker of the last poll that returned `Pending`, although it read it in two halves; in fact no poll has completed since its load. |
| `WakerProtocol.WakesLatestIffCurrent` | src/waker.rs:136-142 | A finish that wins wakes the waker the future waits for if and only if the words it read are still in the cell. |
| `WakerProtocol.NoPendingAfterFinish` | src/waker.rs:114-128 | In every run: once a finish has won no poll returns `Pending`. |
| `WakerProtocol.NoMissedFinish` | src/waker.rs:114-128 | After a finish a future that waits has had the waker of its last poll woken, or the finish is about to. |
| `WakerProtocol.WakersConsumedOnce` | src/waker.rs:206-220 | Every clone is woken or dropped at most once, exactly once when the cell is gone and the finish through, and never torn. |
| `WakerProtocol.OutcomesAgree` | src/waker.rs:39-47 | In every run future and producer report the same outcome and the same poison bit. |
| `WakerProtocol.UnparkNotLost` | src/waker.rs:175-203 | In every run a parked future whose cancellation was accepted has its unpark token or is about to get it. |
| `WakerProtocol.NeverPanics` | src/waker.rs:88-220 | In no run is an `unreachable!`, `unwrap` or `panic!` of the cell reached, in its drop either, and no null waker is woken. |
| `WakerProtocol.CellOutlivesProducer` | src/waker.rs:137-143 | In every run, when the future has dropped the cell, the producer has nothing left to do with it. |
| `WakerProgress.FutureReturns` | src/waker.rs:88-184 | A call of the future that has begun can be brought to its end by its own steps, unless it waits for an acceptance that is not there, and it ends as the state says: a poll or a drop hears of the finish and its poison bit, a wait of the acceptance, a poll of a pending waker leaves its own waker in the cell, and a drop of one cancels it. |
| `WakerProgress.HandleMoves` | src/waker.rs:190-199 | In every run the handle of the thread to unpark is in one place: with the cell, or with a producer about to accept; once it was used neither has it. |
| `CompositionSteps.StepInv` | src/acquire.rs:52-171 | Every step of the composed system keeps its invariant: what each live waiter, its future's call and its cell know of each other, and whose turn it is while the lock owner is in a call of a waker. |
| `Composed.SystemRefines` | src/release.rs:91-138 | Every run of the semaphore with the wakers of all its futures is a run of the protocol, and in each cell one of the waker's own, so what is proved of all reachable states of either holds of the two together. |
| `Composed.NoCallMisfits` | src/waker.rs:78-204 | In every reachable state, a call of a waker that the code would begin finds it ready, and where a call decides or returns, the protocol's step for it is enabled. |
| `Composed.TurnOfOwner` | src/release.rs:112-122 | Where a compare-exchange of the owner decides, the node is live and it is its turn: the front of the list that fits, or the head of the cancel chain. |
| `Composed.TurnOfDrop` | src/acquire.rs:141-144 | Where a cancellation wins, the future waits and its drop has been called. |
| `Composed.WakersMatch` | src/state.rs:70-71 | A live waiter has its cell, and the one word that the protocol keeps of it is what the cell shows. |
| `Composed.OutcomesMatch` | src/acquire.rs:86-98 | A poll or drop that hears of a finish gets the poison bit that the protocol acts on. |
| `Composed.ServedIsLive` | src/release.rs:92-107 | The owner only ever finishes or accepts a waiter that is still there. |
| `Composed.ParkedHasToken` | src/waker.rs:175-203 | Nobody stays parked: when the lock is free, a parked future has its unpark token and its cancellation was accepted. |
| `Composed.TimelyRunsAreCurrent` | src/waker.rs:114-119 | A run of the system in which every finish that wins does so before its cell's sequence number has gone round is one in which it holds the words that are in that cell. |
| `Composed.TaskWoken` | src/semaphore.rs:219-221 | In the states of such runs, of a future whose acquire was finished and that is not being polled, the waker of its last poll has been woken, exactly once, or the lock owner is about to wake it; with the lock free it has been. |
| `Composed.WakersConsumedOnce` | src/waker.rs:206-220 | There, every waker that a future ever stored is woken or dropped at most once, never torn, and exactly once when its cell is gone and the owner done with it. |
| `ComposedProgress.OwnerComesFree` | src/release.rs:163-181 | From every state of the system the lock owner, by its own steps alone and with every step of the finishes and acceptances it makes, comes to a free lock, and whoever was parked has its unpark token. |
| `WakerWrapAround.StaleWakerWoken` | src/waker.rs:139-142 | For every number of sequence numbers a run with that many polls in between wakes a waker that was dropped, and not the current one. |
| `WakerWrapAround.NotYetRound` | src/waker.rs:139 | In the same run with fewer polls in between the compare-exchange succeeds only if there were none. |
| `Packing.AddImplementsPlus` | src/state.rs:192-197 | Saturating addition of words is the protocol's addition, in which poison absorbs and nothing wraps. |
| `Packing.MaxAvailableFillsWord` | src/semaphore.rs:84 | For every width a word's values are exactly what its bits can stand for, and `MAX_AVAILABLE` is exactly what three bits fewer can. |
| `Packing.ReleaseRoundTrip` | src/state.rs:80-104 | Decoding undoes encoding of the release word up to which number stands for poison, for every width. |
| `Packing.ReleaseWordsAreValues` | src/state.rs:80-104 | Two release words are equal exactly if their values are; `LockedDirty(0)` is not `Locked`. |
| `Packing.AcquireRoundTrip` | src/state.rs:106-127 | The same for the acquire word, with aligned addresses. |
| `Packing.AcquireWordsAreValues` | src/state.rs:106-127 | Two acquire words are equal exactly if their values are. |
| `Packing.WakerRoundTrip` | src/waker.rs:53-76 | The waker word keeps a state up to the wrap of its sequence number at two to the `w - 3`. |
| `Packing.WakerWordsAreStates` | src/waker.rs:53-76 | Two waker words are equal exactly if the states are, up to that wrap. |
| `Packing.GroupingDoesNotMatter` | src/state.rs:129-143 | However amounts are grouped, deferred and packed, the result is their true sum if that is at most `MAX_AVAILABLE`, and poison otherwise. |
| `AtomicWord.Atomic.constructor` | src/atomic.rs:16-18 | A new cell holds the encoding of its value. |
| `AtomicWord.Atomic.Load` | src/atomic.rs:19-21 | Returns a value whose encoding is the word. |
| `AtomicWord.Atomic.Store` | src/atomic.rs:22-24 | Replaces the word. |
| `AtomicWord.Atomic.Swap` | src/atomic.rs:25-27 | Replaces the word and returns a value of the old one. |
| `AtomicWord.Atomic.CmpxchgWeak` | src/atomic.rs:28-37 | Succeeds exactly if the word is the expected one and it does not fail spuriously; on failure returns a value of the word it found. |
| `AtomicWord.CmpxchgRelease` | src/atomic.rs:28-37 | For the release word, success means that the values were equal, not only the words. |
| `AtomicWord.ReleaseWord` | src/state.rs:80-104 | The release codec is one the cell may use. |
| `AtomicWord.AcquireWord` | src/state.rs:106-127 | The acquire codec is one the cell may use, for aligned addresses. |
| `AtomicWord.WakerWord` | src/waker.rs:53-76 | The waker codec is one the cell may use. |

## Left out

- Weak memory orderings: atomics are sequentially consistent.
- Interference in layer 2: the heap methods run with no other thread, so their retry loops fail only spuriously, a bounded number of times (`patience`), and `release` needs one round. Interleavings are layer 1.
- Heap.DropWaiting: does not model the wait of a drop under somebody else's lock, which ends when that thread has worked; `Safety.NoStrandedCanceller`, `Progress.CancellersReleased` and `Composed.ParkedHasToken` are about that.
- Heap.Waiter.Finish: does not model the stored waker and the call to wake; they are in layer 3.
- Heap.Waiter.AcceptCancel: does not model the thread handle and the unpark; they are in layer 3.
- Safety.ReachableNodesLive: does not speak of the `next` and `prev` edges of nodes in the list, which layer 1 keeps as a sequence; that they lead to live nodes is part of `Heap.Semaphore.Valid`.
- The other direction of `Composed.SystemRefines`: that every run of the protocol is one of the system is not shown. Results that say that some run exists, such as `Poisoning.DeferredPoisonStillGrants`, are about the protocol alone; only the owner's progress is proved of the system too.
- WakerWrapAround.NotYetRound: is about the states of the one run that it is the counterpart of; for all runs it is `WakerProtocol.TimelyRunsAreCurrent`.
- Alone.ReleaseAlone: does not restate the deferring case, which is the single step `Defer`.
- Fairness and liveness of the scheduler: progress is stated for a call that runs alone; nothing is said about how long others may delay it.
- `AcquireFutureArc`, `acquire_arc`, `try_acquire_arc`, `SemaphoreGuardArc`: wrappers that keep the semaphore alive.
- Guards in detail (src/guard.rs): their sum is modelled. `SemaphoreGuard::new`, which makes permits from nothing, and `extend` past the word size are not.
- Thread panics and unwinding: a guard dropped while panicking is a call to `poison`.
- Futures that are leaked, or polled after completion.
- Raw wakers and parking: a waker is a token that may be torn, parking is a one-bit token with spurious wake-ups.
- `Permits` subtraction (src/state.rs:199-219), which the protocol does not use; formatting, errors, tests and benches.
