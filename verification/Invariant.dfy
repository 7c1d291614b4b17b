/** What holds in every reachable state: one predicate about a single waiter, one about a single
    call, and one about the shared words. */
module Invariant {
  import opened Sequences
  import opened PermitValues
  import opened Protocol

  // ----- The release lock -----

  predicate Holding(c: Call) {
    c.Release? && !c.phase.Locking?
  }

  /** The call still has to lock or defer, and so has the attention of the queue ahead of it. */
  predicate Owing(c: Call) {
    c.Release? && c.phase.Locking?
  }

  /** The call of the lock owner, or `Idle` when the lock is free. */
  function Holder(s: State): Call {
    if s.owner.Some? then s.CallOf(s.owner.value) else Idle
  }

  function Taken(s: State): seq<nat> {
    var c := Holder(s);
    if !c.Release? then []
    else match c.phase
      case Flipping(taken, _) => taken
      case Unlinking(taken) => taken
      case _ => []
  }

  /** The owner has decided not to flip because it saw an empty stack. */
  predicate SawEmptyStack(c: Call) {
    c.Release? && c.phase.Flipping? && c.phase.flipCur == Some(Queued(Null))
  }

  /** The owner will still take the stack in this round. */
  predicate BeforeFlip(c: Call) {
    c.Release? && (c.phase.Swapping? || (c.phase.Flipping? && !SawEmptyStack(c)))
  }

  predicate AfterFlip(c: Call) {
    c.Release? && (c.phase.Unlinking? || c.phase.Popping? || c.phase.Unlocking?)
  }

  predicate BeforeSwap(c: Call) {
    c.Release? && c.phase.Swapping?
  }

  predicate Dirty(s: State) {
    s.release.LockedDirty?
  }

  // ----- Waiters -----

  predicate InQueue(s: State, w: nat) {
    w in s.list || w in s.stack
  }

  predicate InCancel(s: State, w: nat) {
    w in s.cancels || w in Taken(s)
  }

  /** The call is one that `Drop` makes after `start_cancel` won and before the node may go. */
  predicate Dropping(c: Call) {
    c.PushCancel? || c.WaitCancel? || (c.Release? && c.after.AwaitAccept?)
  }

  /** Who is where: the queue holds exactly the waiting futures that neither finished nor had their
      cancellation accepted. */
  predicate Placed(s: State, w: nat) {
    && (InQueue(s, w) ==> w in s.waiters && s.waiters[w].step.Waiting?
                          && (s.waiters[w].waker.Pending? || s.waiters[w].waker.Cancelling?))
    && !(w in s.list && w in s.stack)
    && (w in s.waiters && s.waiters[w].step.Waiting? && !s.waiters[w].waker.Finished? && !s.waiters[w].waker.Cancelled?
        ==> InQueue(s, w))
  }

  /** Which cancellations are announced to the lock owner. */
  predicate Announced(s: State, w: nat) {
    && !(w in s.cancels && w in Taken(s))
    && (InCancel(s, w) <==> w in s.waiters && s.waiters[w].waker.Cancelling? && !s.CallOf(w).PushCancel?)
  }

  /** How a future's own call agrees with its waker and its step. */
  predicate Agrees(s: State, w: nat) {
    var c := s.CallOf(w);
    && (Dropping(c) <==> w in s.waiters && (s.waiters[w].waker.Cancelling? || s.waiters[w].waker.Cancelled?))
    && (c.PushCancel? ==> w in s.waiters && s.waiters[w].waker.Cancelling?)
    && (c.PollEnter? ==> w in s.waiters && s.waiters[w].step.Entering?)
    && (w in s.waiters ==>
          var x := s.waiters[w];
          && (x.step.Entering? ==> x.waker.Pending?)
          && (x.waker.Cancelling? || x.waker.Cancelled? ==> x.step.Waiting?)
          && (x.waker == Finished(false) ==> x.amount <= s.max))
  }

  /** Nobody is forgotten: a node the owner will not see in this round has somebody who still owes
      a lock-or-defer, unless the lock is already marked dirty. */
  predicate Remembered(s: State, w: nat) {
    && (w in s.stack ==> Owing(s.CallOf(w)) || Dirty(s) || BeforeFlip(Holder(s)))
    && (w in s.cancels ==> Owing(s.CallOf(w)) || Dirty(s) || BeforeSwap(Holder(s)))
    && (w in Taken(s) && (SawEmptyStack(Holder(s)) || AfterFlip(Holder(s))) ==> w in s.list)
  }

  predicate WaiterOk(s: State, w: nat) {
    Placed(s, w) && Announced(s, w) && Agrees(s, w) && Remembered(s, w)
  }

  // ----- Calls -----

  predicate CallOk(s: State, t: nat) {
    var c := s.CallOf(t);
    && (Holding(c) <==> s.owner == Some(t))
    && (c.Release? ==> Canonical(s.max, c.releasable))
  }

  // ----- Shared words -----

  function Successor(s: seq<nat>, i: nat): Ptr {
    if i + 1 < |s| then Ref(s[i + 1]) else Null
  }

  /** Following `prev` from `acquire.back` visits exactly the stack. */
  ghost predicate PrevChain(stack: seq<nat>, waiters: map<nat, Waiter>) {
    forall i :: 0 <= i < |stack| ==> stack[i] in waiters && waiters[stack[i]].prev == Successor(stack, i)
  }

  ghost predicate CancelChain(nodes: seq<nat>, waiters: map<nat, Waiter>) {
    forall i :: 0 <= i < |nodes| ==> nodes[i] in waiters && waiters[nodes[i]].nextCancel == Successor(nodes, i)
  }

  ghost predicate Lists(s: State) {
    && NoDup(s.list) && NoDup(s.stack) && NoDup(s.cancels) && NoDup(Taken(s))
    && PrevChain(s.stack, s.waiters)
    && CancelChain(s.cancels, s.waiters)
    && CancelChain(Taken(s), s.waiters)
  }

  predicate Words(s: State) {
    && (s.acquire.Queued? ==> s.acquire.back == Top(s.stack))
    && (s.acquire.Available? ==> s.stack == [] && s.list == [] && Canonical(s.max, s.acquire.permits))
    && (s.owner.None? <==> s.release.Unlocked?)
    && (!s.release.Locked? ==> Canonical(s.max, s.release.permits))
  }

  /** The front of the list cannot be finished with `r` permits. */
  predicate Stuck(s: State, r: Permits) {
    s.list == [] || (s.list[0] in s.waiters && (!FrontFits(s, r) || s.waiters[s.list[0]].waker.Cancelling?))
  }

  /** What the pop loop leaves behind. */
  predicate Settled(s: State) {
    && (s.release.Unlocked? ==> Stuck(s, s.release.permits) && (s.acquire.Available? ==> s.release.permits == Count(0)))
    && (Holder(s).Release? && Holder(s).phase.Unlocking? ==> Stuck(s, Holder(s).releasable))
    && (AfterFlip(Holder(s)) && s.acquire.Available? ==> Holder(s).releasable == Count(0))
  }

  ghost predicate Inv(s: State) {
    && Lists(s) && Words(s) && Settled(s)
    && (forall w: nat :: WaiterOk(s, w))
    && (forall t: nat :: CallOk(s, t))
  }
}
