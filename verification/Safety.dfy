/** What the semaphore promises in every reachable state. */
module Safety {
  import opened Sequences
  import opened Protocol
  import opened Invariant
  import opened Steps

  /** The pending acquires, oldest first. */
  function PendingQueue(s: State): seq<nat> {
    s.list + Reverse(s.stack)
  }

  lemma PendingMember(s: State, w: nat)
    ensures w in PendingQueue(s) <==> InQueue(s, w)
  {
    ReverseMember(s.stack, w);
  }

  lemma PendingNoDup(s: State)
    requires Inv(s)
    ensures NoDup(PendingQueue(s))
  {
    ReverseNoDup(s.stack);
    forall x | x in s.list ensures x !in Reverse(s.stack) {
      assert WaiterOk(s, x);
      ReverseMember(s.stack, x);
    }
    ConcatNoDup(s.list, Reverse(s.stack));
  }

  // ----- No lost wakeup -----

  /** No call still has a lock-or-defer ahead of it because of something it did to the queue. */
  ghost predicate Quiet(s: State) {
    forall t: nat :: !Owing(s.CallOf(t)) && !s.CallOf(t).PushCancel?
  }

  lemma StackIsOwed(s: State)
    requires Inv(s) && s.release.Unlocked?
    ensures s.stack != [] ==> Owing(s.CallOf(s.stack[0]))
  {
    if s.stack != [] {
      assert WaiterOk(s, s.stack[0]);
    }
  }

  /** When the lock is free and nobody owes a release, nothing is cancelling, the stack is flipped,
      and whoever is at the front asks for more than there is. */
  lemma NoLostWakeup(s: State)
    requires Reachable(s) && s.release.Unlocked? && Quiet(s)
    ensures s.stack == [] && PendingQueue(s) == s.list
    ensures forall w :: w in s.waiters ==> !s.waiters[w].waker.Cancelling?
    ensures PendingQueue(s) == [] ||
            (var front := PendingQueue(s)[0];
             && front in s.waiters && s.waiters[front].waker.Pending?
             && s.release.permits.Count? && s.release.permits.n < s.waiters[front].amount)
  {
    ReachableInv(s);
    StackIsOwed(s);
    forall w | w in s.waiters ensures !s.waiters[w].waker.Cancelling? {
      assert WaiterOk(s, w) && CallOk(s, w);
    }
    if s.list != [] {
      assert WaiterOk(s, s.list[0]);
    }
  }

  /** The inductive core, with no calm needed: an unflipped node is owed a release by its own call,
      or the lock is dirty, or its owner is still going to flip. The same for a cancelling node. */
  lemma SomebodyOwes(s: State, w: nat)
    requires Reachable(s)
    ensures w in s.stack ==> Owing(s.CallOf(w)) || s.release.LockedDirty? || BeforeFlip(Holder(s))
    ensures w in s.waiters && s.waiters[w].waker.Cancelling? ==>
              || s.CallOf(w).PushCancel?
              || w in Taken(s)
              || (w in s.cancels && (Owing(s.CallOf(w)) || s.release.LockedDirty? || BeforeSwap(Holder(s))))
  {
    ReachableInv(s);
    assert WaiterOk(s, w);
  }

  // ----- No stranded canceller -----

  /** A future that waits for its cancellation to be accepted has had it accepted, or its node is in
      the owner's hands or will be: the lock is dirty, or the owner has yet to swap. */
  lemma NoStrandedCanceller(s: State, w: nat)
    requires Reachable(s) && s.CallOf(w).WaitCancel?
    ensures w in s.waiters
    ensures s.waiters[w].waker.Cancelled? || s.waiters[w].waker.Cancelling?
    ensures s.waiters[w].waker.Cancelling? ==>
              s.owner.Some? && (w in Taken(s) || (w in s.cancels && (s.release.LockedDirty? || BeforeSwap(Holder(s)))))
    ensures s.release.Unlocked? ==> Enabled(s, WaitDone(w))
  {
    ReachableInv(s);
    assert WaiterOk(s, w);
  }

  // ----- The combining lock -----

  lemma LockExclusion(s: State, t: nat, u: nat)
    requires Reachable(s)
    ensures Holding(s.CallOf(t)) && Holding(s.CallOf(u)) ==> t == u
    ensures Holding(s.CallOf(t)) ==> !s.release.Unlocked?
    ensures !s.release.Unlocked? ==> exists h: nat :: Holding(s.CallOf(h))
  {
    ReachableInv(s);
    assert CallOk(s, t) && CallOk(s, u);
    if !s.release.Unlocked? {
      assert CallOk(s, s.owner.value);
      assert Holding(s.CallOf(s.owner.value));
    }
  }

  /** While anything is pending `acquire` is `Queued`, so neither fast path can overtake it. */
  lemma NoOvertaking(s: State, t: nat)
    requires Reachable(s) && PendingQueue(s) != []
    ensures s.acquire.Queued?
    ensures !Enabled(s, EnterFast(t)) && !Enabled(s, TryFast(t))
  {
    ReachableInv(s);
    PendingMember(s, PendingQueue(s)[0]);
  }

  // ----- Assertions -----

  /** The places where the code would panic if the state were other than it expects. */
  predicate Panics(s: State, t: nat) {
    match s.CallOf(t)
    case PollEnter(_) =>
      // poll_enter: assert!(waker.poll(cx).is_pending())
      t !in s.waiters || !s.waiters[t].waker.Pending?
    case PushCancel(_) => t !in s.waiters
    case WaitCancel =>
      // wait_cancel: panic!()
      t !in s.waiters || (!s.waiters[t].waker.Cancelling? && !s.waiters[t].waker.Cancelled?)
    case Release(_, Flipping(_, cur), _) =>
      // flip: assert!(*self.sem.front.get() == null())
      s.acquire.Available? && cur == Some(s.acquire) && s.list != []
    case Release(_, Unlinking(taken), _) =>
      // accept_cancel: unreachable!() and thread.take().unwrap()
      taken != [] && (taken[0] !in s.waiters || !s.waiters[taken[0]].waker.Cancelling?)
    case Release(_, Popping, _) =>
      // finish: unreachable!()
      s.list != [] && (s.list[0] !in s.waiters
                       || (!s.waiters[s.list[0]].waker.Pending? && !s.waiters[s.list[0]].waker.Cancelling?))
    case Release(_, Unlocking(_), _) =>
      // try_unlock: unreachable!()
      s.release.Unlocked?
    case Idle =>
      // AtomicWaker::poll and start_cancel of a waiting future, and AtomicWaker::drop: unreachable!()
      t in s.waiters && (if s.waiters[t].step.Waiting?
                         then !s.waiters[t].waker.Pending? && !s.waiters[t].waker.Finished?
                         else s.waiters[t].waker.Cancelling?)
    case _ => false
  }

  lemma NeverPanics(s: State, t: nat)
    requires Reachable(s)
    ensures !Panics(s, t)
  {
    ReachableInv(s);
    assert WaiterOk(s, t) && CallOk(s, t);
    var taken := Taken(s);
    assert taken != [] ==> WaiterOk(s, taken[0]);
    assert s.list != [] ==> WaiterOk(s, s.list[0]);
  }

  // ----- Lifetime of nodes -----

  /** The nodes whose fields a step may read or write: its own, the whole stack it walks and the
      node it links it behind, the node it takes out of the list and its neighbours there. */
  function Touched(s: State, l: Label): set<nat>
    requires Enabled(s, l)
  {
    match l
    case EnterPush(w) => {w}
    case CancelPush(w) => {w}
    case WaitDone(w) => {w}
    case FlipTake(t) => (set w | w in s.stack) + (set w | w in s.list)
    case Unlink(t) => {s.CallOf(t).phase.taken[0]} + (set w | w in s.list)
    case Grant(t) => set w | w in s.list
    case Fail(t) => set w | w in s.list
    case PopStop(t) => set w | w in s.list
    case _ => {}
  }

  /** No step looks at a node whose owner has given it up. */
  lemma TouchesLiveNodes(s: State, l: Label)
    requires Reachable(s) && Enabled(s, l)
    ensures Touched(s, l) <= s.waiters.Keys
  {
    ReachableInv(s);
    forall w | w in Touched(s, l) ensures w in s.waiters {
      assert WaiterOk(s, w);
    }
  }

  /** Every node the shared words, the list or the owner's chain lead to is live, and so is every
      node reached from there by following `prev` or `next_cancel`. */
  lemma ReachableNodesLive(s: State, w: nat)
    requires Reachable(s)
    ensures s.acquire == Queued(Ref(w)) || w in s.list || w in s.stack || w in s.cancels || w in Taken(s) ==> w in s.waiters
    ensures w in s.stack && s.waiters[w].prev.Ref? ==> s.waiters[w].prev.id in s.stack
    ensures w in s.cancels && s.waiters[w].nextCancel.Ref? ==> s.waiters[w].nextCancel.id in s.cancels
    ensures w in Taken(s) && s.waiters[w].nextCancel.Ref? ==> s.waiters[w].nextCancel.id in Taken(s)
  {
    ReachableInv(s);
    assert WaiterOk(s, w);
    if w in s.stack { var i :| 0 <= i < |s.stack| && s.stack[i] == w; }
    if w in s.cancels { var i :| 0 <= i < |s.cancels| && s.cancels[i] == w; }
    if w in Taken(s) { var i :| 0 <= i < |Taken(s)| && Taken(s)[i] == w; }
  }

  /** What `cancel` relies on: the nodes it is handed are distinct, cancelling, and each is in the
      list exactly once when its turn comes; unlinking it leaves the order of the others. */
  lemma CancelledAreLinked(s: State, t: nat, i: nat)
    requires Reachable(s) && Unlinks(s, t) && i < |s.CallOf(t).phase.taken|
    ensures var w := s.CallOf(t).phase.taken[i];
            && w in s.waiters && s.waiters[w].waker.Cancelling?
            && (exists k :: 0 <= k < |s.list| && s.list[k] == w && Without(s.list, w) == s.list[..k] + s.list[k + 1..])
            && (forall j :: 0 <= j < |s.CallOf(t).phase.taken| && j != i ==> s.CallOf(t).phase.taken[j] != w)
    ensures Enabled(s, Unlink(t))
  {
    ReachableInv(s);
    assert CallOk(s, t);
    var taken := Taken(s);
    assert WaiterOk(s, taken[0]) && WaiterOk(s, taken[i]);
    var k :| 0 <= k < |s.list| && s.list[k] == taken[i];
    WithoutAt(s.list, k);
  }
}
