/** Why `try_acquire` may report `WouldBlock` although nothing is pending and there are permits. */
module WouldBlock {
  import opened Sequences
  import opened PermitValues
  import opened Protocol
  import opened Invariant
  import opened Steps
  import opened Safety
  import opened Runs
  import opened Poisoning
  import opened Alone
  import Progress
  import H = Heap

  /** `try_acquire` reports `WouldBlock` for the word it read. */
  predicate Blocks(a: AcquireState, amount: nat) {
    a.Queued? || (a.permits.Count? && a.permits.n < amount)
  }

  /** The permits that the words hold; a release in progress may have more in its hands. */
  function AtRest(s: State): Permits {
    if s.acquire.Available? then s.acquire.permits else if s.release.Unlocked? then s.release.permits else Count(0)
  }

  /** The reasons the documentation gives. */
  predicate Documented(s: State, amount: nat) {
    PendingQueue(s) != [] || (AtRest(s).Count? && AtRest(s).n < amount)
  }

  /** A call blocks for another reason if and only if the queue was used up: the word still says
      `Queued`, and the permits (or the poison) wait in `release`, or a release holds them and the call
      asked for none. */
  lemma BlocksForNoReason(s: State, amount: nat)
    requires Reachable(s)
    ensures Blocks(s.acquire, amount) && !Documented(s, amount)
            <==> s.acquire == Queued(Null) && s.list == []
                 && (if s.release.Unlocked? then s.release.permits.Count? ==> amount <= s.release.permits.n else amount == 0)
  {
    ReachableInv(s);
    if s.stack == [] {
      assert Reverse(s.stack) == [];
    }
  }

  /** A `try_acquire` that has looked at the word as it is fails if and only if it blocks for it or
      finds poison; otherwise it may take its permits. */
  lemma FailsIfItBlocks(s: State, t: nat, n: nat)
    requires s.CallOf(t) == TryAcquire(n, Some(s.acquire))
    ensures Enabled(s, TryFail(t)) <==> Blocks(s.acquire, n) || s.acquire == Available(Poison)
    ensures Enabled(s, TryFail(t)) <==> !Enabled(s, TryFast(t))
  {
  }

  // ----- A run that ends there -----

  ghost predicate AllIdle(s: State) {
    forall u: nat :: s.CallOf(u).Idle?
  }

  /** One acquire has been polled and waits for its single permit. */
  function OneWaits(max: nat): State {
    State(max, Queued(Ref(0)), Unlocked(Count(0)), [], [0], [],
          map[0 := Waiter(1, Waiting, Pending, Null, Null)],
          map[0 := Release(Count(0), Locking(None), ReturnPending)], None, 0)
  }

  function New0(max: nat): State {
    Fresh(max, 0).(waiters := map[0 := Waiter(1, Entering, Pending, Null, Null)])
  }

  function Entered(max: nat): State {
    New0(max).(calls := map[0 := PollEnter(Some(Available(Count(0))))])
  }

  lemma Creates(max: nat)
    ensures Enabled(Fresh(max, 0), NewFuture(0, 1)) && Next(Fresh(max, 0), NewFuture(0, 1)) == New0(max)
  {
  }

  lemma Enters(max: nat)
    ensures Enabled(New0(max), PollEnterStart(0))
    ensures var s := Next(New0(max), PollEnterStart(0)); Enabled(s, Load(0)) && Next(s, Load(0)) == Entered(max)
  {
  }

  lemma Pushes(max: nat)
    ensures Enabled(Entered(max), EnterPush(0)) && Next(Entered(max), EnterPush(0)) == OneWaits(max)
  {
  }

  lemma FirstPoll(max: nat)
    ensures Reachable(OneWaits(max))
  {
    hide Enabled, Next, Run;
    Creates(max);
    Enters(max);
    Pushes(max);
    var s := Fresh(max, 0);
    ThreeSteps(s, NewFuture(0, 1), PollEnterStart(0), Load(0));
    OneStep(Entered(max), EnterPush(0));
    ReachesOn(s, [NewFuture(0, 1), PollEnterStart(0), Load(0)], Entered(max), [EnterPush(0)], OneWaits(max));
  }

  // ----- The waiter's own release finds nothing to give -----

  /** The acquire waits in the list and nobody does anything. */
  ghost predicate Resting(s: State) {
    && s.acquire == Queued(Null) && s.release == Unlocked(Count(0)) && s.stack == s.cancels == []
    && s.list == [0] && 0 in s.waiters && s.waiters[0].amount == 1 && s.waiters[0].waker.Pending? && AllIdle(s)
  }

  lemma IdleAfter(s: State, t: nat, s': State)
    requires Leads(s, t, s') && s'.CallOf(t).Idle? && forall u: nat :: u != t ==> s.CallOf(u).Idle?
    ensures AllIdle(s')
  {
    hide Run, Progress.OnlyBy;
    var labels :| Run(s, labels, s') && Progress.OnlyBy(labels, t);
    forall u: nat ensures s'.CallOf(u).Idle? {
      if u != t { Progress.OthersUnmoved(s, labels, s', t, u); }
    }
  }

  lemma ReachesLed(s: State, t: nat, s': State)
    requires Reachable(s) && Leads(s, t, s')
    ensures Reachable(s')
  {
    hide Run, Progress.OnlyBy, Init;
    var s0, a :| Init(s0) && Run(s0, a, s);
    var labels :| Run(s, labels, s') && Progress.OnlyBy(labels, t);
    ReachesOn(s0, a, s, labels, s');
  }

  lemma ServesNobody()
    ensures Reverse<nat>([0]) == [0]
    ensures H.Serve([(1, false)], Count(0)) == (0, Count(0))
    ensures forall n: nat :: H.Serve([(1, false)], Count(n + 1)) == (1, Count(n))
  {
    assert forall r :: H.Serve([], r) == (0, r);
    assert Reverse<nat>([]) == [];
  }

  /** The one acquire in the list is live, and asks for one permit. */
  lemma OneAsks(s: State)
    requires PendingQueue(s) == [0] && s.cancels == [] && 0 in s.waiters
    requires s.waiters[0].amount == 1 && s.waiters[0].waker.Pending?
    ensures Staying(s) == [0] && AllIn([0], s.waiters) && Asks([0], s.waiters) == [(1, false)]
  {
    assert Asks([0], s.waiters) == [(1, false)] + Asks([], s.waiters);
  }

  lemma OneWaitsOwes(max: nat)
    ensures var s := OneWaits(max);
            && s.max == max && PendingQueue(s) == [0] && s.cancels == [] && 0 in s.waiters
            && s.waiters[0] == Waiter(1, Waiting, Pending, Null, Null)
            && s.CallOf(0) == Release(Count(0), Locking(None), ReturnPending) && Owing(s.CallOf(0))
            && s.release == Unlocked(Count(0)) && forall u: nat :: u != 0 ==> s.CallOf(u).Idle?
  {
    ServesNobody();
    assert [] + Reverse<nat>([0]) == [0];
  }

  lemma Rests(s: State, t: nat, s': State)
    requires PendingQueue(s) == [0] && s.cancels == [] && 0 in s.waiters
    requires s.waiters[0].amount == 1 && s.waiters[0].waker.Pending?
    requires Owing(s.CallOf(t)) && s.CallOf(t).releasable == Count(0) && s.release == Unlocked(Count(0))
    requires AllIn(Staying(s), s.waiters) && AsOnHeap(s, s', t) && AllIdle(s')
    ensures Resting(s')
  {
    hide Staying, Asks, Reverse, AllIdle;
    OneAsks(s);
    ServesNobody();
    assert Staying(s)[0] == 0 && [0][0..] == [0];
  }

  lemma OneRests(max: nat)
    ensures exists s :: Reachable(s) && s.max == max && Resting(s)
  {
    hide Reachable, Leads, PendingQueue, Staying, OneWaits, Resting, Inv, AllIdle, AllIn;
    var s := OneWaits(max);
    FirstPoll(max);
    ReachableInv(s);
    OneWaitsOwes(max);
    ReleaseAlone(s, 0);
    var s' :| Leads(s, 0, s') && AsOnHeap(s, s', 0);
    IdleAfter(s, 0, s');
    ReachesLed(s, 0, s');
    Rests(s, 0, s');
  }

  // ----- A release serves it, and more is left -----

  ghost predicate UsedUp(s: State, n: nat) {
    s.acquire == Queued(Null) && s.release == Unlocked(Count(n)) && PendingQueue(s) == [] && AllIdle(s)
  }

  lemma RestingQueue(s: State)
    requires Resting(s)
    ensures PendingQueue(s) == [0] && s.cancels == []
  {
    assert [0] + Reverse<nat>([]) == [0];
  }

  lemma UsesUp(s: State, t: nat, n: nat, s': State)
    requires PendingQueue(s) == [0] && s.cancels == [] && 0 in s.waiters
    requires s.waiters[0].amount == 1 && s.waiters[0].waker.Pending? && n < s.max
    requires Owing(s.CallOf(t)) && s.CallOf(t).releasable == Count(n + 1) && s.release == Unlocked(Count(0))
    requires AllIn(Staying(s), s.waiters) && AsOnHeap(s, s', t) && AllIdle(s')
    ensures UsedUp(s', n)
  {
    hide Staying, Asks, AllIdle;
    OneAsks(s);
    ServesNobody();
    assert [0][1..] == [] && Reverse<nat>([]) == [];
  }

  lemma StartsRelease(s: State, t: nat, n: nat)
    requires Resting(s) && n < s.max && t !in s.waiters
    ensures Enabled(s, ReleaseStart(t, n + 1))
    ensures var s' := Next(s, ReleaseStart(t, n + 1));
            && s' == s.SetCall(t, Release(Count(n + 1), Locking(None), ReturnUnit))
            && Owing(s'.CallOf(t)) && PendingQueue(s') == PendingQueue(s)
            && s'.CallOf(t) == Release(Count(n + 1), Locking(None), ReturnUnit)
            && (forall u: nat :: u != t ==> s'.CallOf(u).Idle?)
  {
    var s' := Next(s, ReleaseStart(t, n + 1));
    forall u: nat | u != t ensures s'.CallOf(u).Idle? {
      assert s.CallOf(u).Idle? && s'.CallOf(u) == s.CallOf(u);
    }
  }

  lemma UsesUpFrom(s: State, t: nat, n: nat)
    requires Reachable(s) && Resting(s) && n < s.max && t !in s.waiters
    ensures exists s' :: Reachable(s') && UsedUp(s', n)
  {
    hide Enabled, Next, Reachable, Leads, PendingQueue, Staying, UsedUp, Inv, AllIdle, AllIn;
    RestingQueue(s);
    StartsRelease(s, t, n);
    var l := ReleaseStart(t, n + 1);
    var mid := Next(s, l);
    ReachesNext(s, l);
    ReachableInv(mid);
    ReleaseAlone(mid, t);
    var s' :| Leads(mid, t, s') && AsOnHeap(mid, s', t);
    IdleAfter(mid, t, s');
    ReachesLed(mid, t, s');
    UsesUp(mid, t, n, s');
  }

  lemma TryBlocks(s: State, t: nat, amount: nat)
    requires s.acquire.Queued? && t !in s.waiters && s.CallOf(t).Idle?
    ensures Enabled(s, TryStart(t, amount))
    ensures var s1 := Next(s, TryStart(t, amount)); Enabled(s1, Load(t)) && Enabled(Next(s1, Load(t)), TryFail(t))
  {
  }

  lemma IsIdle(s: State, t: nat)
    requires AllIdle(s)
    ensures s.CallOf(t).Idle?
  {
  }

  /** It happens, for every number of permits: after a release of one more than the only pending
      acquire needs, nobody is pending or doing anything, `n` permits are left, and `try_acquire(n)`
      is refused. */
  lemma RefusedAtRest(max: nat, n: nat)
    requires n < max
    ensures exists s, t, s' ::
              && Reachable(s) && s.release == Unlocked(Count(n)) && PendingQueue(s) == [] && AllIdle(s)
              && Run(s, [TryStart(t, n), Load(t), TryFail(t)], s')
  {
    hide Enabled, Next, Run, Reachable, PendingQueue, Resting, AllIdle;
    OneRests(max);
    var a :| Reachable(a) && a.max == max && Resting(a);
    UnusedAddress(a.waiters.Keys);
    var u: nat :| Above(a.waiters.Keys, u);
    UsesUpFrom(a, u, n);
    var s :| Reachable(s) && UsedUp(s, n);
    UnusedAddress(s.waiters.Keys);
    var t: nat :| Above(s.waiters.Keys, t);
    IsIdle(s, t);
    TryBlocks(s, t, n);
    ThreeSteps(s, TryStart(t, n), Load(t), TryFail(t));
  }

}
