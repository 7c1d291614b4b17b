/** The lock-free semaphore as a transition system over any number of calls and futures.

    Every load, compare-exchange and swap on an atomic is a step of its own. A failed
    compare-exchange (real or spurious) leaves the word as it was and reloads the caller's
    `current`, exactly as the load before the loop does, so both are the label `Load`.
    Writes to fields only the lock owner may touch (`front`, `middle`, edges of queued nodes)
    and to fields of a node nobody else knows yet are part of the neighbouring atomic step. */
module Protocol {
  import opened Sequences
  import opened PermitValues

  /** A `*const Waiter`; the number is the node's address, free to be used again after a drop. */
  datatype Ptr = Null | Ref(id: nat)

  datatype AcquireState = Queued(back: Ptr) | Available(permits: Permits)
  datatype ReleaseState = Unlocked(permits: Permits) | Locked | LockedDirty(permits: Permits)

  /** The outcome states of `AtomicWaker`; `Composed` shows that its steps come to these. */
  datatype WakerState = Pending | Finished(poisoned: bool) | Cancelling | Cancelled
  datatype AcquireStep = Entering | Waiting | Done

  datatype Waiter = Waiter(amount: nat, step: AcquireStep, waker: WakerState, prev: Ptr, nextCancel: Ptr)

  /** Where a `ReleaseAction` is. `taken` is the chain of `next_cancel` still to be unlinked. */
  datatype Phase =
    | Locking(lockCur: Option<ReleaseState>)
    | Swapping
    | Flipping(taken: seq<nat>, flipCur: Option<AcquireState>)
    | Unlinking(taken: seq<nat>)
    | Popping
    | Unlocking(unlockCur: Option<ReleaseState>)

  /** What the caller of `ReleaseAction::release` does next. */
  datatype After = ReturnUnit | ReturnPending | AwaitAccept

  datatype Call =
    | Idle
    | PollEnter(enterCur: Option<AcquireState>)
    | TryAcquire(amount: nat, tryCur: Option<AcquireState>)
    | Release(releasable: Permits, phase: Phase, after: After)
    | PushCancel(head: Option<Ptr>)
    | WaitCancel

  /** `list` is `front..middle`, `stack` the unflipped nodes from `acquire.back` along `prev`, and
      `cancels` the nodes from `next_cancel` along their `next_cancel` edges. The future at address
      `w` runs its own calls under the identifier `w`. `owner` records who holds the release lock
      and `guards` how many permits live guards hold. */
  datatype State = State(
    max: nat,
    acquire: AcquireState,
    release: ReleaseState,
    list: seq<nat>,
    stack: seq<nat>,
    cancels: seq<nat>,
    waiters: map<nat, Waiter>,
    calls: map<nat, Call>,
    owner: Option<nat>,
    guards: nat)
  {
    function CallOf(t: nat): Call {
      if t in calls then calls[t] else Idle
    }

    function SetCall(t: nat, c: Call): State {
      this.(calls := calls[t := c])
    }

    function SetWaiter(w: nat, x: Waiter): State {
      this.(waiters := waiters[w := x])
    }
  }

  function Top(s: seq<nat>): Ptr {
    if s == [] then Null else Ref(s[0])
  }

  /** `Semaphore::new`. */
  function Fresh(max: nat, initial: nat): State {
    State(max, Available(New(max, initial)), Unlocked(Count(0)), [], [], [], map[], map[], None, 0)
  }

  ghost predicate Init(s: State) {
    exists initial: nat, max: nat :: s == Fresh(max, initial)
  }

  datatype Label =
    // Calls that begin (and the ones that are over in one step).
    | NewFuture(w: nat, amount: nat)
    | PollEnterStart(w: nat)
    | PollWaiting(w: nat)
    | DropIdle(w: nat)
    | DropFinished(w: nat)
    | StartCancel(w: nat)
    | TryStart(t: nat, amount: nat)
    | ReleaseStart(t: nat, amount: nat)
    | PoisonStart(t: nat)
    | GuardDrop(t: nat, amount: nat)
    | GuardForget(amount: nat)
    // One loop iteration that reads a word.
    | Load(t: nat)
    // poll_enter
    | EnterPoisoned(w: nat)
    | EnterFast(w: nat)
    | EnterPush(w: nat)
    // try_acquire
    | TryFail(t: nat)
    | TryFast(t: nat)
    // Drop of a waiting future
    | CancelPush(w: nat)
    | WaitDone(w: nat)
    // ReleaseAction
    | Lock(t: nat)
    | Defer(t: nat)
    | Swap(t: nat)
    | FlipAvailable(t: nat)
    | FlipSkip(t: nat)
    | FlipTake(t: nat)
    | Unlink(t: nat)
    | UnlinkDone(t: nat)
    | Grant(t: nat)
    | Fail(t: nat)
    | PopStop(t: nat)
    | Redo(t: nat)
    | Unlock(t: nat)

  // ----- Loads -----

  predicate Loads(c: Call) {
    match c
    case PollEnter(_) => true
    case TryAcquire(_, _) => true
    case PushCancel(_) => true
    case Release(_, ph, _) => ph.Locking? || ph.Flipping? || ph.Unlocking?
    case _ => false
  }

  function Loaded(s: State, c: Call): Call
    requires Loads(c)
  {
    match c
    case PollEnter(_) => PollEnter(Some(s.acquire))
    case TryAcquire(a, _) => TryAcquire(a, Some(s.acquire))
    case PushCancel(_) => PushCancel(Some(Top(s.cancels)))
    case Release(r, Locking(_), k) => Release(r, Locking(Some(s.release)), k)
    case Release(r, Flipping(taken, _), k) => Release(r, Flipping(taken, Some(s.acquire)), k)
    case Release(r, Unlocking(_), k) => Release(r, Unlocking(Some(s.release)), k)
  }

  // ----- What a call has loaded -----

  /** The call loaded `acquire` and the word has not changed: its compare-exchange may succeed. */
  predicate EnterHas(s: State, w: nat) {
    s.CallOf(w).PollEnter? && s.CallOf(w).enterCur == Some(s.acquire)
  }

  predicate Locks(s: State, t: nat) {
    && s.CallOf(t).Release? && s.CallOf(t).phase.Locking?
    && s.CallOf(t).phase.lockCur == Some(s.release)
  }

  predicate Flips(s: State, t: nat) {
    s.CallOf(t).Release? && s.CallOf(t).phase.Flipping?
  }

  predicate Unlocks(s: State, t: nat) {
    && s.CallOf(t).Release? && s.CallOf(t).phase.Unlocking?
    && s.CallOf(t).phase.unlockCur == Some(s.release)
  }

  predicate Pops(s: State, t: nat) {
    s.CallOf(t).Release? && s.CallOf(t).phase.Popping?
  }

  predicate Unlinks(s: State, t: nat) {
    s.CallOf(t).Release? && s.CallOf(t).phase.Unlinking?
  }

  /** The front waiter asks for no more than the holder has. */
  predicate FrontFits(s: State, r: Permits) {
    s.list != [] && s.list[0] in s.waiters && (r.Count? ==> s.waiters[s.list[0]].amount <= r.n)
  }

  function BackOf(a: AcquireState): Ptr {
    match a
    case Queued(back) => back
    case Available(_) => Null
  }

  /** The permits `poll_enter` takes over when it turns `Available` into `Queued`. */
  function TakenOver(a: AcquireState): Permits {
    match a
    case Queued(_) => Count(0)
    case Available(p) => p
  }

  /** `poll_enter` decided, from the word it loaded, that the future has to wait. */
  predicate MustWait(a: AcquireState, amount: nat) {
    match a
    case Queued(_) => true
    case Available(p) => p.Count? && p.n < amount
  }

  predicate MayTake(a: AcquireState, amount: nat) {
    a.Available? && a.permits.Count? && amount <= a.permits.n
  }

  function Returned(k: After): Call {
    if k.AwaitAccept? then WaitCancel else Idle
  }

  // ----- Guards of the steps -----

  predicate Enabled(s: State, l: Label) {
    match l
    case NewFuture(w, _) => w !in s.waiters && s.CallOf(w).Idle?
    case PollEnterStart(w) => w in s.waiters && s.CallOf(w).Idle? && s.waiters[w].step.Entering?
    case PollWaiting(w) => w in s.waiters && s.CallOf(w).Idle? && s.waiters[w].step.Waiting? && s.waiters[w].waker.Finished?
    case DropIdle(w) => w in s.waiters && s.CallOf(w).Idle? && !s.waiters[w].step.Waiting?
    case DropFinished(w) => w in s.waiters && s.CallOf(w).Idle? && s.waiters[w].step.Waiting? && s.waiters[w].waker.Finished?
    case StartCancel(w) => w in s.waiters && s.CallOf(w).Idle? && s.waiters[w].step.Waiting? && s.waiters[w].waker.Pending?
    case TryStart(t, _) => t !in s.waiters && s.CallOf(t).Idle?
    case ReleaseStart(t, _) => t !in s.waiters && s.CallOf(t).Idle?
    case PoisonStart(t) => t !in s.waiters && s.CallOf(t).Idle?
    case GuardDrop(t, amount) => t !in s.waiters && s.CallOf(t).Idle? && amount <= s.guards
    case GuardForget(amount) => amount <= s.guards
    case Load(t) => Loads(s.CallOf(t))
    case EnterPoisoned(w) => s.CallOf(w).PollEnter? && s.CallOf(w).enterCur == Some(Available(Poison)) && w in s.waiters
    case EnterFast(w) => EnterHas(s, w) && w in s.waiters && MayTake(s.acquire, s.waiters[w].amount)
    case EnterPush(w) => EnterHas(s, w) && w in s.waiters && MustWait(s.acquire, s.waiters[w].amount)
    case TryFail(t) =>
      && s.CallOf(t).TryAcquire? && s.CallOf(t).tryCur.Some?
      && !MayTake(s.CallOf(t).tryCur.value, s.CallOf(t).amount)
    case TryFast(t) =>
      && s.CallOf(t).TryAcquire? && s.CallOf(t).tryCur == Some(s.acquire)
      && MayTake(s.acquire, s.CallOf(t).amount)
    case CancelPush(w) => s.CallOf(w).PushCancel? && s.CallOf(w).head == Some(Top(s.cancels)) && w in s.waiters
    case WaitDone(w) => s.CallOf(w).WaitCancel? && w in s.waiters && s.waiters[w].waker.Cancelled?
    case Lock(t) => Locks(s, t) && s.release.Unlocked?
    case Defer(t) => Locks(s, t) && !s.release.Unlocked?
    case Swap(t) => s.CallOf(t).Release? && s.CallOf(t).phase.Swapping?
    case FlipAvailable(t) =>
      && Flips(s, t) && s.CallOf(t).phase.flipCur == Some(s.acquire)
      && (s.acquire.Available? || (s.acquire.back.Null? && s.list == []))
    case FlipSkip(t) =>
      Flips(s, t) && s.CallOf(t).phase.flipCur == Some(Queued(Null)) && s.list != []
    case FlipTake(t) =>
      && Flips(s, t) && s.CallOf(t).phase.flipCur == Some(s.acquire)
      && s.acquire.Queued? && s.acquire.back.Ref?
    case Unlink(t) => Unlinks(s, t) && s.CallOf(t).phase.taken != [] && s.CallOf(t).phase.taken[0] in s.waiters
    case UnlinkDone(t) => Unlinks(s, t) && s.CallOf(t).phase.taken == []
    case Grant(t) =>
      && Pops(s, t) && s.CallOf(t).releasable.Count? && FrontFits(s, s.CallOf(t).releasable)
      && s.waiters[s.list[0]].waker.Pending?
    case Fail(t) =>
      && Pops(s, t) && s.CallOf(t).releasable.Poison? && FrontFits(s, s.CallOf(t).releasable)
      && s.waiters[s.list[0]].waker.Pending?
    case PopStop(t) =>
      && Pops(s, t)
      && (s.list == [] || !FrontFits(s, s.CallOf(t).releasable) || s.waiters[s.list[0]].waker.Cancelling?)
    case Redo(t) => Unlocks(s, t) && s.release.LockedDirty?
    case Unlock(t) => Unlocks(s, t) && s.release.Locked?
  }

  // ----- Effects of the steps -----

  predicate OfRelease(l: Label) {
    || l.Lock? || l.Defer? || l.Swap? || l.FlipAvailable? || l.FlipSkip? || l.FlipTake?
    || l.Unlink? || l.UnlinkDone? || l.Grant? || l.Fail? || l.PopStop? || l.Redo? || l.Unlock?
  }

  /** The steps of `ReleaseAction::release`. */
  function ReleaseNext(s: State, l: Label): State
    requires Enabled(s, l) && OfRelease(l)
  {
    match l
    case Lock(t) =>
      var c := s.CallOf(t);
      s.(release := Locked, owner := Some(t))
      .SetCall(t, Release(Plus(s.max, c.releasable, s.release.permits), Swapping, c.after))
    case Defer(t) =>
      var c := s.CallOf(t);
      var p := if s.release.Locked? then c.releasable else Plus(s.max, s.release.permits, c.releasable);
      s.(release := LockedDirty(p)).SetCall(t, Returned(c.after))
    case Swap(t) =>
      var c := s.CallOf(t);
      s.(cancels := []).SetCall(t, c.(phase := Flipping(s.cancels, None)))
    case FlipAvailable(t) =>
      var c := s.CallOf(t);
      var p := if s.acquire.Queued? then c.releasable else Plus(s.max, s.acquire.permits, c.releasable);
      s.(acquire := Available(p)).SetCall(t, c.(releasable := Count(0), phase := Unlinking(c.phase.taken)))
    case FlipSkip(t) =>
      var c := s.CallOf(t);
      s.SetCall(t, c.(phase := Unlinking(c.phase.taken)))
    case FlipTake(t) =>
      var c := s.CallOf(t);
      s.(acquire := Queued(Null), list := s.list + Reverse(s.stack), stack := [])
      .SetCall(t, c.(phase := Unlinking(c.phase.taken)))
    case Unlink(t) =>
      var c := s.CallOf(t);
      var w := c.phase.taken[0];
      s.(list := Without(s.list, w)).SetWaiter(w, s.waiters[w].(waker := Cancelled))
      .SetCall(t, c.(phase := Unlinking(c.phase.taken[1..])))
    case UnlinkDone(t) => s.SetCall(t, s.CallOf(t).(phase := Popping))
    case Grant(t) =>
      var c := s.CallOf(t);
      var w := s.list[0];
      s.(list := s.list[1..]).SetWaiter(w, s.waiters[w].(waker := Finished(false)))
      .SetCall(t, c.(releasable := Count(c.releasable.n - s.waiters[w].amount)))
    case Fail(t) =>
      var w := s.list[0];
      s.(list := s.list[1..]).SetWaiter(w, s.waiters[w].(waker := Finished(true)))
    case PopStop(t) => s.SetCall(t, s.CallOf(t).(phase := Unlocking(None)))
    case Redo(t) =>
      var c := s.CallOf(t);
      s.(release := Locked)
      .SetCall(t, c.(releasable := Plus(s.max, c.releasable, s.release.permits), phase := Swapping))
    case Unlock(t) =>
      var c := s.CallOf(t);
      s.(release := Unlocked(c.releasable), owner := None).SetCall(t, Returned(c.after))
  }

  predicate OfFuture(l: Label) {
    || l.NewFuture? || l.PollEnterStart? || l.PollWaiting? || l.DropIdle? || l.DropFinished? || l.StartCancel?
    || l.EnterPoisoned? || l.EnterFast? || l.EnterPush? || l.CancelPush? || l.WaitDone?
  }

  /** The steps of a future: `poll_enter`, `poll_waiting` and `drop`. */
  function FutureNext(s: State, l: Label): State
    requires Enabled(s, l) && OfFuture(l)
  {
    match l
    case NewFuture(w, amount) => s.SetWaiter(w, Waiter(amount, Entering, Pending, Null, Null))
    case PollEnterStart(w) => s.SetCall(w, PollEnter(None))
    case PollWaiting(w) =>
      var x := s.waiters[w];
      s.SetWaiter(w, x.(step := Done)).(guards := s.guards + if x.waker.poisoned then 0 else x.amount)
    case DropIdle(w) => s.(waiters := s.waiters - {w})
    case DropFinished(w) =>
      // The node is given up before its permits are released: nobody may need it any more.
      var x := s.waiters[w];
      var s' := s.(waiters := s.waiters - {w});
      if x.waker.poisoned then s' else s'.SetCall(w, Release(New(s.max, x.amount), Locking(None), ReturnUnit))
    case StartCancel(w) => s.SetWaiter(w, s.waiters[w].(waker := Cancelling)).SetCall(w, PushCancel(None))
    case EnterPoisoned(w) => s.SetWaiter(w, s.waiters[w].(step := Done)).SetCall(w, Idle)
    case EnterFast(w) =>
      var x := s.waiters[w];
      s.(acquire := Available(Count(s.acquire.permits.n - x.amount)), guards := s.guards + x.amount)
      .SetWaiter(w, x.(step := Done)).SetCall(w, Idle)
    case EnterPush(w) =>
      s.(acquire := Queued(Ref(w)), stack := [w] + s.stack)
      .SetWaiter(w, s.waiters[w].(step := Waiting, prev := BackOf(s.acquire)))
      .SetCall(w, Release(TakenOver(s.acquire), Locking(None), ReturnPending))
    case CancelPush(w) =>
      s.(cancels := [w] + s.cancels)
      .SetWaiter(w, s.waiters[w].(nextCancel := Top(s.cancels)))
      .SetCall(w, Release(Count(0), Locking(None), AwaitAccept))
    case WaitDone(w) => s.(waiters := s.waiters - {w}).SetCall(w, Idle)
  }

  /** The beginning of a call, a load in any call's loop, and `try_acquire`. */
  function CallNext(s: State, l: Label): State
    requires Enabled(s, l) && !OfFuture(l) && !OfRelease(l)
  {
    match l
    case TryStart(t, amount) => s.SetCall(t, TryAcquire(amount, None))
    case ReleaseStart(t, amount) => s.SetCall(t, Release(New(s.max, amount), Locking(None), ReturnUnit))
    case PoisonStart(t) => s.SetCall(t, Release(Poison, Locking(None), ReturnUnit))
    case GuardDrop(t, amount) =>
      s.(guards := s.guards - amount).SetCall(t, Release(New(s.max, amount), Locking(None), ReturnUnit))
    case GuardForget(amount) => s.(guards := s.guards - amount)
    case Load(t) => s.SetCall(t, Loaded(s, s.CallOf(t)))
    case TryFail(t) => s.SetCall(t, Idle)
    case TryFast(t) =>
      var amount := s.CallOf(t).amount;
      s.(acquire := Available(Count(s.acquire.permits.n - amount)), guards := s.guards + amount).SetCall(t, Idle)
  }

  function Next(s: State, l: Label): State
    requires Enabled(s, l)
  {
    if OfRelease(l) then ReleaseNext(s, l) else if OfFuture(l) then FutureNext(s, l) else CallNext(s, l)
  }

  /** `labels` leads from `s` to `s'`. */
  ghost predicate Run(s: State, labels: seq<Label>, s': State)
    decreases |labels|
  {
    if labels == [] then s' == s
    else Enabled(s, labels[0]) && Run(Next(s, labels[0]), labels[1..], s')
  }

  ghost predicate Reachable(s: State) {
    exists s0, labels :: Init(s0) && Run(s0, labels, s)
  }
}
