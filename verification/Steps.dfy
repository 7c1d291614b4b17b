/** Every step keeps the invariant: one lemma per kind of step. */
module Steps {
  import opened Sequences
  import opened Protocol
  import opened Invariant

  lemma EnterPushInv(s: State, w: nat)
    requires Inv(s) && Enabled(s, EnterPush(w))
    ensures Inv(Next(s, EnterPush(w)))
  {
    var s' := Next(s, EnterPush(w));
    assert WaiterOk(s, w) && CallOk(s, w);
    assert Holder(s') == Holder(s);
    forall x: nat ensures WaiterOk(s', x) { assert WaiterOk(s, x); }
    forall t: nat ensures CallOk(s', t) { assert CallOk(s, t); }
  }

  lemma UnlinkInv(s: State, t: nat)
    requires Inv(s) && Enabled(s, Unlink(t))
    ensures Inv(Next(s, Unlink(t)))
  {
    var s' := Next(s, Unlink(t));
    var c := s.CallOf(t);
    var w := c.phase.taken[0];
    assert CallOk(s, t) && WaiterOk(s, w);
    forall x: nat ensures WaiterOk(s', x) {
      assert WaiterOk(s, x);
      WithoutMember(s.list, w, x);
      TailMember(c.phase.taken, x);
    }
    forall u: nat ensures CallOk(s', u) { assert CallOk(s, u); }
    WithoutNoDup(s.list, w);
    TailMember(c.phase.taken, w);
  }

  lemma FlipTakeInv(s: State, t: nat)
    requires Inv(s) && Enabled(s, FlipTake(t))
    ensures Inv(Next(s, FlipTake(t)))
  {
    var s' := Next(s, FlipTake(t));
    var c := s.CallOf(t);
    assert CallOk(s, t);
    forall x: nat ensures WaiterOk(s', x) {
      assert WaiterOk(s, x);
      ReverseMember(s.stack, x);
    }
    forall u: nat ensures CallOk(s', u) { assert CallOk(s, u); }
    ReverseNoDup(s.stack);
    forall x | x in s.list ensures x !in Reverse(s.stack) {
      assert WaiterOk(s, x);
      ReverseMember(s.stack, x);
    }
    ConcatNoDup(s.list, Reverse(s.stack));
  }

  lemma NewFutureInv(s: State, w: nat, amount: nat)
    requires Inv(s) && Enabled(s, NewFuture(w, amount))
    ensures Inv(Next(s, NewFuture(w, amount)))
  {
    var s' := Next(s, NewFuture(w, amount));
    assert WaiterOk(s, w) && CallOk(s, w);
    assert Holder(s') == Holder(s);
    forall x: nat ensures WaiterOk(s', x) { assert WaiterOk(s, x); }
    forall u: nat ensures CallOk(s', u) { assert CallOk(s, u); }
  }

  lemma PollEnterStartInv(s: State, w: nat)
    requires Inv(s) && Enabled(s, PollEnterStart(w))
    ensures Inv(Next(s, PollEnterStart(w)))
  {
    var s' := Next(s, PollEnterStart(w));
    assert WaiterOk(s, w) && CallOk(s, w);
    assert Holder(s') == Holder(s);
    forall x: nat ensures WaiterOk(s', x) { assert WaiterOk(s, x); }
    forall u: nat ensures CallOk(s', u) { assert CallOk(s, u); }
  }

  lemma PollWaitingInv(s: State, w: nat)
    requires Inv(s) && Enabled(s, PollWaiting(w))
    ensures Inv(Next(s, PollWaiting(w)))
  {
    var s' := Next(s, PollWaiting(w));
    assert WaiterOk(s, w) && CallOk(s, w);
    assert Holder(s') == Holder(s);
    forall x: nat ensures WaiterOk(s', x) { assert WaiterOk(s, x); }
    forall u: nat ensures CallOk(s', u) { assert CallOk(s, u); }
  }

  lemma DropIdleInv(s: State, w: nat)
    requires Inv(s) && Enabled(s, DropIdle(w))
    ensures Inv(Next(s, DropIdle(w)))
  {
    var s' := Next(s, DropIdle(w));
    assert WaiterOk(s, w) && CallOk(s, w);
    assert Holder(s') == Holder(s);
    forall x: nat ensures WaiterOk(s', x) { assert WaiterOk(s, x); }
    forall u: nat ensures CallOk(s', u) { assert CallOk(s, u); }
  }

  lemma DropFinishedWaiter(s: State, w: nat, x: nat)
    requires Inv(s) && Enabled(s, DropFinished(w))
    ensures WaiterOk(Next(s, DropFinished(w)), x)
  {
    assert WaiterOk(s, w) && CallOk(s, w) && WaiterOk(s, x);
    assert Holder(Next(s, DropFinished(w))) == Holder(s);
  }

  lemma DropFinishedInv(s: State, w: nat)
    requires Inv(s) && Enabled(s, DropFinished(w))
    ensures Inv(Next(s, DropFinished(w)))
  {
    var s' := Next(s, DropFinished(w));
    assert WaiterOk(s, w) && CallOk(s, w);
    assert Holder(s') == Holder(s);
    forall x: nat ensures WaiterOk(s', x) { DropFinishedWaiter(s, w, x); }
    forall u: nat ensures CallOk(s', u) { assert CallOk(s, u); }
  }

  lemma StartCancelInv(s: State, w: nat)
    requires Inv(s) && Enabled(s, StartCancel(w))
    ensures Inv(Next(s, StartCancel(w)))
  {
    var s' := Next(s, StartCancel(w));
    assert WaiterOk(s, w) && CallOk(s, w);
    assert Holder(s') == Holder(s);
    forall x: nat ensures WaiterOk(s', x) { assert WaiterOk(s, x); }
    forall u: nat ensures CallOk(s', u) { assert CallOk(s, u); }
  }

  lemma EnterPoisonedInv(s: State, w: nat)
    requires Inv(s) && Enabled(s, EnterPoisoned(w))
    ensures Inv(Next(s, EnterPoisoned(w)))
  {
    var s' := Next(s, EnterPoisoned(w));
    assert WaiterOk(s, w) && CallOk(s, w);
    assert Holder(s') == Holder(s);
    forall x: nat ensures WaiterOk(s', x) { assert WaiterOk(s, x); }
    forall u: nat ensures CallOk(s', u) { assert CallOk(s, u); }
  }

  lemma EnterFastInv(s: State, w: nat)
    requires Inv(s) && Enabled(s, EnterFast(w))
    ensures Inv(Next(s, EnterFast(w)))
  {
    var s' := Next(s, EnterFast(w));
    assert WaiterOk(s, w) && CallOk(s, w);
    assert Holder(s') == Holder(s);
    forall x: nat ensures WaiterOk(s', x) { assert WaiterOk(s, x); }
    forall u: nat ensures CallOk(s', u) { assert CallOk(s, u); }
  }

  lemma CancelPushInv(s: State, w: nat)
    requires Inv(s) && Enabled(s, CancelPush(w))
    ensures Inv(Next(s, CancelPush(w)))
  {
    var s' := Next(s, CancelPush(w));
    assert WaiterOk(s, w) && CallOk(s, w);
    assert Holder(s') == Holder(s);
    forall x: nat ensures WaiterOk(s', x) { assert WaiterOk(s, x); }
    forall u: nat ensures CallOk(s', u) { assert CallOk(s, u); }
  }

  lemma WaitDoneInv(s: State, w: nat)
    requires Inv(s) && Enabled(s, WaitDone(w))
    ensures Inv(Next(s, WaitDone(w)))
  {
    var s' := Next(s, WaitDone(w));
    assert WaiterOk(s, w) && CallOk(s, w);
    assert Holder(s') == Holder(s);
    forall x: nat ensures WaiterOk(s', x) { assert WaiterOk(s, x); }
    forall u: nat ensures CallOk(s', u) { assert CallOk(s, u); }
  }

  lemma TryStartInv(s: State, t: nat, amount: nat)
    requires Inv(s) && Enabled(s, TryStart(t, amount))
    ensures Inv(Next(s, TryStart(t, amount)))
  {
    var s' := Next(s, TryStart(t, amount));
    assert WaiterOk(s, t) && CallOk(s, t);
    assert Holder(s') == Holder(s);
    forall x: nat ensures WaiterOk(s', x) { assert WaiterOk(s, x); }
    forall u: nat ensures CallOk(s', u) { assert CallOk(s, u); }
  }

  lemma ReleaseStartInv(s: State, t: nat, amount: nat)
    requires Inv(s) && Enabled(s, ReleaseStart(t, amount))
    ensures Inv(Next(s, ReleaseStart(t, amount)))
  {
    var s' := Next(s, ReleaseStart(t, amount));
    assert WaiterOk(s, t) && CallOk(s, t);
    assert Holder(s') == Holder(s);
    forall x: nat ensures WaiterOk(s', x) { assert WaiterOk(s, x); }
    forall u: nat ensures CallOk(s', u) { assert CallOk(s, u); }
  }

  lemma PoisonStartInv(s: State, t: nat)
    requires Inv(s) && Enabled(s, PoisonStart(t))
    ensures Inv(Next(s, PoisonStart(t)))
  {
    var s' := Next(s, PoisonStart(t));
    assert WaiterOk(s, t) && CallOk(s, t);
    assert Holder(s') == Holder(s);
    forall x: nat ensures WaiterOk(s', x) { assert WaiterOk(s, x); }
    forall u: nat ensures CallOk(s', u) { assert CallOk(s, u); }
  }

  lemma GuardDropInv(s: State, t: nat, amount: nat)
    requires Inv(s) && Enabled(s, GuardDrop(t, amount))
    ensures Inv(Next(s, GuardDrop(t, amount)))
  {
    var s' := Next(s, GuardDrop(t, amount));
    assert WaiterOk(s, t) && CallOk(s, t);
    assert Holder(s') == Holder(s);
    forall x: nat ensures WaiterOk(s', x) { assert WaiterOk(s, x); }
    forall u: nat ensures CallOk(s', u) { assert CallOk(s, u); }
  }

  lemma TryFailInv(s: State, t: nat)
    requires Inv(s) && Enabled(s, TryFail(t))
    ensures Inv(Next(s, TryFail(t)))
  {
    var s' := Next(s, TryFail(t));
    assert WaiterOk(s, t) && CallOk(s, t);
    assert Holder(s') == Holder(s);
    forall x: nat ensures WaiterOk(s', x) { assert WaiterOk(s, x); }
    forall u: nat ensures CallOk(s', u) { assert CallOk(s, u); }
  }

  lemma TryFastInv(s: State, t: nat)
    requires Inv(s) && Enabled(s, TryFast(t))
    ensures Inv(Next(s, TryFast(t)))
  {
    var s' := Next(s, TryFast(t));
    assert WaiterOk(s, t) && CallOk(s, t);
    assert Holder(s') == Holder(s);
    forall x: nat ensures WaiterOk(s', x) { assert WaiterOk(s, x); }
    forall u: nat ensures CallOk(s', u) { assert CallOk(s, u); }
  }

  lemma DeferInv(s: State, t: nat)
    requires Inv(s) && Enabled(s, Defer(t))
    ensures Inv(Next(s, Defer(t)))
  {
    var s' := Next(s, Defer(t));
    assert WaiterOk(s, t) && CallOk(s, t);
    assert Holder(s') == Holder(s);
    forall x: nat ensures WaiterOk(s', x) { assert WaiterOk(s, x); }
    forall u: nat ensures CallOk(s', u) { assert CallOk(s, u); }
  }

  lemma GuardForgetInv(s: State, amount: nat)
    requires Inv(s) && Enabled(s, GuardForget(amount))
    ensures Inv(Next(s, GuardForget(amount)))
  {
    var s' := Next(s, GuardForget(amount));
    assert Holder(s') == Holder(s);
    forall x: nat ensures WaiterOk(s', x) { assert WaiterOk(s, x); }
    forall u: nat ensures CallOk(s', u) { assert CallOk(s, u); }
  }

  lemma LoadInv(s: State, t: nat)
    requires Inv(s) && Enabled(s, Load(t))
    ensures Inv(Next(s, Load(t)))
  {
    var s' := Next(s, Load(t));
    assert WaiterOk(s, t) && CallOk(s, t);
    forall x: nat ensures WaiterOk(s', x) { assert WaiterOk(s, x); }
    forall u: nat ensures CallOk(s', u) { assert CallOk(s, u); }
  }

  lemma LockInv(s: State, t: nat)
    requires Inv(s) && Enabled(s, Lock(t))
    ensures Inv(Next(s, Lock(t)))
  {
    var s' := Next(s, Lock(t));
    assert WaiterOk(s, t) && CallOk(s, t);
    forall x: nat ensures WaiterOk(s', x) { assert WaiterOk(s, x); }
    forall u: nat ensures CallOk(s', u) { assert CallOk(s, u); }
  }

  lemma SwapInv(s: State, t: nat)
    requires Inv(s) && Enabled(s, Swap(t))
    ensures Inv(Next(s, Swap(t)))
  {
    var s' := Next(s, Swap(t));
    assert WaiterOk(s, t) && CallOk(s, t);
    forall x: nat ensures WaiterOk(s', x) { assert WaiterOk(s, x); }
    forall u: nat ensures CallOk(s', u) { assert CallOk(s, u); }
  }

  lemma FlipAvailableInv(s: State, t: nat)
    requires Inv(s) && Enabled(s, FlipAvailable(t))
    ensures Inv(Next(s, FlipAvailable(t)))
  {
    var s' := Next(s, FlipAvailable(t));
    assert WaiterOk(s, t) && CallOk(s, t);
    forall x: nat ensures WaiterOk(s', x) { assert WaiterOk(s, x); }
    forall u: nat ensures CallOk(s', u) { assert CallOk(s, u); }
  }

  lemma FlipSkipInv(s: State, t: nat)
    requires Inv(s) && Enabled(s, FlipSkip(t))
    ensures Inv(Next(s, FlipSkip(t)))
  {
    var s' := Next(s, FlipSkip(t));
    assert WaiterOk(s, t) && CallOk(s, t);
    forall x: nat ensures WaiterOk(s', x) { assert WaiterOk(s, x); }
    forall u: nat ensures CallOk(s', u) { assert CallOk(s, u); }
  }

  lemma UnlinkDoneInv(s: State, t: nat)
    requires Inv(s) && Enabled(s, UnlinkDone(t))
    ensures Inv(Next(s, UnlinkDone(t)))
  {
    var s' := Next(s, UnlinkDone(t));
    assert WaiterOk(s, t) && CallOk(s, t);
    forall x: nat ensures WaiterOk(s', x) { assert WaiterOk(s, x); }
    forall u: nat ensures CallOk(s', u) { assert CallOk(s, u); }
  }

  lemma GrantInv(s: State, t: nat)
    requires Inv(s) && Enabled(s, Grant(t))
    ensures Inv(Next(s, Grant(t)))
  {
    var s' := Next(s, Grant(t));
    assert WaiterOk(s, t) && CallOk(s, t);
    forall x: nat ensures WaiterOk(s', x) { assert WaiterOk(s, x); }
    forall u: nat ensures CallOk(s', u) { assert CallOk(s, u); }
  }

  lemma FailInv(s: State, t: nat)
    requires Inv(s) && Enabled(s, Fail(t))
    ensures Inv(Next(s, Fail(t)))
  {
    var s' := Next(s, Fail(t));
    assert WaiterOk(s, t) && CallOk(s, t);
    forall x: nat ensures WaiterOk(s', x) { assert WaiterOk(s, x); }
    forall u: nat ensures CallOk(s', u) { assert CallOk(s, u); }
  }

  lemma PopStopInv(s: State, t: nat)
    requires Inv(s) && Enabled(s, PopStop(t))
    ensures Inv(Next(s, PopStop(t)))
  {
    var s' := Next(s, PopStop(t));
    assert WaiterOk(s, t) && CallOk(s, t);
    assert s.list != [] ==> WaiterOk(s, s.list[0]);
    forall x: nat ensures WaiterOk(s', x) { assert WaiterOk(s, x); }
    forall u: nat ensures CallOk(s', u) { assert CallOk(s, u); }
  }

  lemma RedoInv(s: State, t: nat)
    requires Inv(s) && Enabled(s, Redo(t))
    ensures Inv(Next(s, Redo(t)))
  {
    var s' := Next(s, Redo(t));
    assert WaiterOk(s, t) && CallOk(s, t);
    forall x: nat ensures WaiterOk(s', x) { assert WaiterOk(s, x); }
    forall u: nat ensures CallOk(s', u) { assert CallOk(s, u); }
  }

  lemma UnlockInv(s: State, t: nat)
    requires Inv(s) && Enabled(s, Unlock(t))
    ensures Inv(Next(s, Unlock(t)))
  {
    var s' := Next(s, Unlock(t));
    assert WaiterOk(s, t) && CallOk(s, t);
    forall x: nat ensures WaiterOk(s', x) { assert WaiterOk(s, x); }
    forall u: nat ensures CallOk(s', u) { assert CallOk(s, u); }
  }

  lemma ReleaseStepInv(s: State, l: Label)
    requires Inv(s) && Enabled(s, l) && OfRelease(l)
    ensures Inv(Next(s, l))
  {
    hide Inv, Next, Enabled;
    match l
    case Lock(t) => LockInv(s, t);
    case Defer(t) => DeferInv(s, t);
    case Swap(t) => SwapInv(s, t);
    case FlipAvailable(t) => FlipAvailableInv(s, t);
    case FlipSkip(t) => FlipSkipInv(s, t);
    case FlipTake(t) => FlipTakeInv(s, t);
    case Unlink(t) => UnlinkInv(s, t);
    case UnlinkDone(t) => UnlinkDoneInv(s, t);
    case Grant(t) => GrantInv(s, t);
    case Fail(t) => FailInv(s, t);
    case PopStop(t) => PopStopInv(s, t);
    case Redo(t) => RedoInv(s, t);
    case Unlock(t) => UnlockInv(s, t);
  }

  lemma FutureStepInv(s: State, l: Label)
    requires Inv(s) && Enabled(s, l) && OfFuture(l)
    ensures Inv(Next(s, l))
  {
    hide Inv, Next, Enabled;
    match l
    case NewFuture(w, amount) => NewFutureInv(s, w, amount);
    case PollEnterStart(w) => PollEnterStartInv(s, w);
    case PollWaiting(w) => PollWaitingInv(s, w);
    case DropIdle(w) => DropIdleInv(s, w);
    case DropFinished(w) => DropFinishedInv(s, w);
    case StartCancel(w) => StartCancelInv(s, w);
    case EnterPoisoned(w) => EnterPoisonedInv(s, w);
    case EnterFast(w) => EnterFastInv(s, w);
    case EnterPush(w) => EnterPushInv(s, w);
    case CancelPush(w) => CancelPushInv(s, w);
    case WaitDone(w) => WaitDoneInv(s, w);
  }

  lemma CallStepInv(s: State, l: Label)
    requires Inv(s) && Enabled(s, l) && !OfFuture(l) && !OfRelease(l)
    ensures Inv(Next(s, l))
  {
    hide Inv, Next, Enabled;
    match l
    case TryStart(t, amount) => TryStartInv(s, t, amount);
    case ReleaseStart(t, amount) => ReleaseStartInv(s, t, amount);
    case PoisonStart(t) => PoisonStartInv(s, t);
    case GuardDrop(t, amount) => GuardDropInv(s, t, amount);
    case GuardForget(amount) => GuardForgetInv(s, amount);
    case Load(t) => LoadInv(s, t);
    case TryFail(t) => TryFailInv(s, t);
    case TryFast(t) => TryFastInv(s, t);
  }

  /** Any step of any call. */
  lemma StepInv(s: State, l: Label)
    requires Inv(s) && Enabled(s, l)
    ensures Inv(Next(s, l))
  {
    hide Inv, Next, Enabled;
    if OfRelease(l) {
      ReleaseStepInv(s, l);
    } else if OfFuture(l) {
      FutureStepInv(s, l);
    } else {
      CallStepInv(s, l);
    }
  }

  lemma FreshInv(max: nat, initial: nat)
    ensures Inv(Fresh(max, initial))
  {
    var s := Fresh(max, initial);
    forall w: nat ensures WaiterOk(s, w) {}
    forall t: nat ensures CallOk(s, t) {}
  }

  lemma {:induction false} RunInv(s: State, labels: seq<Label>, s': State)
    requires Inv(s) && Run(s, labels, s')
    ensures Inv(s')
    decreases |labels|
  {
    if labels != [] {
      StepInv(s, labels[0]);
      RunInv(Next(s, labels[0]), labels[1..], s');
    }
  }

  /** The invariant holds in every state of every run from `Semaphore::new`. */
  lemma ReachableInv(s: State)
    requires Reachable(s)
    ensures Inv(s)
  {
    var s0, labels :| Init(s0) && Run(s0, labels, s);
    var initial: nat, max: nat :| s0 == Fresh(max, initial);
    FreshInv(max, initial);
    RunInv(s0, labels, s);
  }
}
