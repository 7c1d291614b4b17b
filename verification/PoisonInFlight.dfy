/** Exactly when an acquire can still succeed once a poisoned release has passed lock-or-defer. While
    permits are available one can. While acquires are queued, only the round in progress can still
    serve somebody: it will not see the deferred poison before its end. */
module PoisonInFlight {
  import opened Sequences
  import opened PermitValues
  import opened Protocol
  import opened Invariant
  import opened Steps
  import opened Safety
  import opened Refinement
  import opened Runs
  import opened Poisoning
  import opened Alone
  import Progress

  // ----- The condition -----

  /** A waiter that `n` permits would finish. */
  predicate FitsNow(s: State, w: nat, n: nat) {
    w in s.waiters && s.waiters[w].waker.Pending? && s.waiters[w].amount <= n
  }

  /** Without the cancelled nodes, somebody is in front whom `n` permits would finish. */
  predicate FrontServed(s: State, q: seq<nat>, gone: seq<nat>, n: nat) {
    var rest := Remaining(q, gone);
    rest != [] && FitsNow(s, rest[0], n)
  }

  /** Before the owner swaps the cancel stack every future can still be dropped, except the one whose
      own poll is the lock owner. A waiter that fits and is not behind that one can get to the front. */
  predicate CanClear(s: State, n: nat)
    requires s.owner.Some?
  {
    var u, q := s.owner.value, PendingQueue(s);
    || u !in q || u !in s.waiters || !s.waiters[u].waker.Pending?
    || exists i :: 0 <= i < |q| && FitsNow(s, q[i], n) && u !in q[..i]
  }

  /** The round in progress can still finish somebody with the `n` permits the owner has, or make them
      available. */
  predicate RoundServes(s: State, n: nat)
    requires s.owner.Some?
  {
    match Holder(s)
    case Release(_, Swapping, _) => CanClear(s, n)
    case Release(_, Flipping(taken, _), _) =>
      Remaining(PendingQueue(s), taken) == [] || FrontServed(s, PendingQueue(s), taken, n)
    case Release(_, Unlinking(taken), _) => FrontServed(s, s.list, taken, n)
    case Release(_, Popping, _) => FrontServed(s, s.list, [], n)
    case _ => false
  }

  predicate StillGrants(s: State) {
    if s.acquire.Available? then s.acquire.permits.Count?
    else s.owner.Some? && Holder(s).Release? && Holder(s).releasable.Count? && RoundServes(s, Holder(s).releasable.n)
  }

  // ----- Where it fails, nothing is granted -----

  /** The round in progress serves nobody any more, and its end collects the poison. */
  predicate Lost(s: State) {
    && s.acquire.Queued? && s.release == LockedDirty(Poison) && s.owner.Some?
    && Holder(s).Release? && Holder(s).releasable.Count? && !RoundServes(s, Holder(s).releasable.n)
  }

  lemma PoisonedOrLost(s: State)
    requires Inv(s) && Absorbed(s) && !StillGrants(s)
    ensures Poisoned(s) || Lost(s)
  {
    if s.owner.Some? { assert CallOk(s, s.owner.value); }
  }

  lemma {:induction false} RemainingAppend(q: seq<nat>, more: seq<nat>, gone: seq<nat>)
    ensures Remaining(q + more, gone) == Remaining(q, gone) + Remaining(more, gone)
  {
    if q == [] {
      assert q + more == more;
    } else {
      assert (q + more)[1..] == q[1..] + more;
      RemainingAppend(q[1..], more, gone);
    }
  }

  lemma {:induction false} RemainingFront(q: seq<nat>, gone: seq<nat>, x: nat)
    requires x in q && x !in gone
    ensures Remaining(q, gone) != []
    ensures exists i :: 0 <= i < |q| && q[i] == Remaining(q, gone)[0] && (x == q[i] || x !in q[..i])
  {
    if q[0] in gone {
      assert q == [q[0]] + q[1..];
      RemainingFront(q[1..], gone, x);
      var i :| 0 <= i < |q[1..]| && q[1..][i] == Remaining(q[1..], gone)[0] && (x == q[1..][i] || x !in q[1..][..i]);
      assert q[i + 1] == q[1..][i] && q[..i + 1] == [q[0]] + q[1..][..i];
    } else {
      assert q[0] == Remaining(q, gone)[0] && q[..0] == [];
    }
  }

  /** What the others can do to the queue: nothing but cancel waiters in it, and the one whose own
      call is the lock owner not even that. New ones come at the end. */
  predicate Aged(s: State, s': State) {
    var q, q' := PendingQueue(s), PendingQueue(s');
    && |q| <= |q'| && q'[..|q|] == q && s'.list == s.list
    && (forall i :: 0 <= i < |q| ==> q[i] in s.waiters && q[i] in s'.waiters
                                     && s'.waiters[q[i]].amount == s.waiters[q[i]].amount
                                     && (s'.waiters[q[i]].waker.Pending? ==> s.waiters[q[i]].waker.Pending?))
    && (s.owner.Some? && s.owner.value in q && s.owner.value in s.waiters && s.waiters[s.owner.value].waker.Pending?
        ==> s.owner.value in s'.waiters && s'.waiters[s.owner.value].waker.Pending?)
  }

  lemma FrontAged(s: State, s': State, gone: seq<nat>, n: nat)
    requires Aged(s, s') && !FrontServed(s, PendingQueue(s), gone, n) && Remaining(PendingQueue(s), gone) != []
    ensures !FrontServed(s', PendingQueue(s'), gone, n) && Remaining(PendingQueue(s'), gone) != []
  {
    var q, q' := PendingQueue(s), PendingQueue(s');
    assert q' == q + q'[|q|..];
    RemainingAppend(q, q'[|q|..], gone);
    RemainingMember(q, gone, Remaining(q, gone)[0]);
  }

  lemma ListAged(s: State, s': State, gone: seq<nat>, n: nat)
    requires Aged(s, s') && !FrontServed(s, s.list, gone, n)
    ensures !FrontServed(s', s'.list, gone, n)
  {
    if Remaining(s.list, gone) != [] {
      var x := Remaining(s.list, gone)[0];
      RemainingMember(s.list, gone, x);
      var i :| 0 <= i < |s.list| && s.list[i] == x;
      assert PendingQueue(s)[i] == x;
    }
  }

  lemma ClearAged(s: State, s': State, n: nat)
    requires Aged(s, s') && s.owner.Some? && s'.owner == s.owner && !CanClear(s, n)
    ensures !CanClear(s', n)
  {
    var u, q, q' := s.owner.value, PendingQueue(s), PendingQueue(s');
    var k :| 0 <= k < |q| && q[k] == u;
    assert q'[k] == q'[..|q|][k];
    forall i | 0 <= i < |q'| && FitsNow(s', q'[i], n) ensures u in q'[..i] {
      if i < |q| {
        assert q'[i] == q'[..|q|][i];
        assert FitsNow(s, q[i], n);
        assert q'[..i] == q[..i];
      } else {
        assert q'[..i][k] == u;
      }
    }
  }

  /** Holders that differ at most in what they have loaded. */
  predicate SameRound(c: Call, d: Call) {
    && c.Release? && d.Release? && d.releasable == c.releasable
    && (d.phase == c.phase
        || (c.phase.Flipping? && d.phase.Flipping? && d.phase.taken == c.phase.taken)
        || (c.phase.Unlocking? && d.phase.Unlocking?))
  }

  lemma LostKept(s: State, s': State)
    requires Lost(s) && Aged(s, s') && SameRound(Holder(s), Holder(s')) && s'.owner == s.owner
    requires s'.acquire.Queued? && s'.release == LockedDirty(Poison)
    ensures Lost(s')
  {
    hide Aged, FrontServed, CanClear, PendingQueue;
    var n := Holder(s).releasable.n;
    match Holder(s)
    case Release(_, Swapping, _) => ClearAged(s, s', n);
    case Release(_, Flipping(taken, _), _) => FrontAged(s, s', taken, n);
    case Release(_, Unlinking(taken), _) => ListAged(s, s', taken, n);
    case Release(_, Popping, _) => ListAged(s, s', [], n);
    case Release(_, Unlocking(_), _) =>
    case Release(_, Locking(_), _) =>
  }

  // Steps of others

  lemma QueueLive(s: State, w: nat)
    requires Inv(s) && w in PendingQueue(s)
    ensures w in s.waiters && s.waiters[w].step.Waiting? && (s.waiters[w].waker.Pending? || s.waiters[w].waker.Cancelling?)
  {
    PendingMember(s, w);
    assert WaiterOk(s, w);
  }

  lemma FutureEvent(s: State, l: Label)
    requires Enabled(s, l) && OfFuture(l)
    ensures !EventOf(s, l).GrantHead? && !EventOf(s, l).FailHead? && !EventOf(s, l).Withdraw?
  {
  }

  lemma FutureQueue(s: State, l: Label)
    requires Inv(s) && Enabled(s, l) && OfFuture(l) && s.owner.Some?
    ensures var q, q' := PendingQueue(s), PendingQueue(Next(s, l));
            && |q| <= |q'| && q'[..|q|] == q && Next(s, l).list == s.list
  {
    hide Inv, Enabled, Next, PendingQueue, EventOf;
    FutureEvent(s, l);
    NamesRefine(s, l);
    Progress.OtherFutureDoesNotInterfere(s, l);
  }

  lemma FutureAges(s: State, l: Label)
    requires Inv(s) && Enabled(s, l) && OfFuture(l) && s.acquire.Queued? && s.owner.Some?
    ensures Aged(s, Next(s, l))
  {
    FutureQueue(s, l);
    assert CallOk(s, s.owner.value);
    hide Inv, Enabled, Next, PendingQueue;
    forall w | w in PendingQueue(s)
      ensures w in s.waiters && w in Next(s, l).waiters
      ensures var x, x' := s.waiters[w], Next(s, l).waiters[w];
              && x'.amount == x.amount && (x'.waker.Pending? ==> x.waker.Pending?)
              && (!s.CallOf(w).Idle? ==> x'.waker == x.waker)
    {
      QueueLive(s, w);
      Progress.FutureWaiter(s, l, w);
    }
  }

  lemma SameQueueAges(s: State, s': State)
    requires Inv(s) && s'.list == s.list && s'.stack == s.stack && s'.waiters == s.waiters
    ensures Aged(s, s')
  {
    hide Inv;
    forall w | w in PendingQueue(s) ensures w in s.waiters { QueueLive(s, w); }
  }

  // Steps of the owner

  lemma LostSwap(s: State, t: nat)
    requires Inv(s) && Lost(s) && Enabled(s, Swap(t))
    ensures Lost(Next(s, Swap(t)))
  {
    assert CallOk(s, t);
    var q, n := PendingQueue(s), Holder(s).releasable.n;
    assert WaiterOk(s, t);
    assert t !in s.cancels;
    PendingNoDup(s);
    RemainingFront(q, s.cancels, t);
    var i :| 0 <= i < |q| && q[i] == Remaining(q, s.cancels)[0] && (t == q[i] || t !in q[..i]);
    assert t !in q[..i];
    assert !FitsNow(s, q[i], n);
    var s' := Next(s, Swap(t));
    assert PendingQueue(s') == q && Holder(s').phase == Flipping(s.cancels, None);
  }

  lemma LostFlip(s: State, t: nat, l: Label)
    requires Inv(s) && Lost(s) && Enabled(s, l) && (l == FlipTake(t) || l == FlipSkip(t) || l == FlipAvailable(t))
    ensures Lost(Next(s, l))
  {
    assert CallOk(s, t);
    var taken := Holder(s).phase.taken;
    if l.FlipTake? {
      assert Next(s, l).list == PendingQueue(s);
    } else if l.FlipSkip? {
      RemainingAppend(s.list, Reverse(s.stack), taken);
    }
  }

  lemma LostUnlink(s: State, t: nat)
    requires Inv(s) && Lost(s) && Enabled(s, Unlink(t))
    ensures Lost(Next(s, Unlink(t)))
  {
    assert CallOk(s, t);
    var taken, n := Holder(s).phase.taken, Holder(s).releasable.n;
    RemainingWithout(s.list, taken);
    var rest := Remaining(s.list, taken);
    if rest != [] { RemainingMember(s.list, taken, rest[0]); }
    assert Taken(s) == taken;
    var s' := Next(s, Unlink(t));
    assert s'.CallOf(t).phase == Unlinking(taken[1..]);
  }

  lemma LostPops(s: State, t: nat, l: Label)
    requires Inv(s) && Lost(s) && Enabled(s, l) && (l == UnlinkDone(t) || l == PopStop(t) || l == Grant(t) || l == Fail(t))
    ensures !l.Grant? && Lost(Next(s, l))
  {
    assert CallOk(s, t);
    RemainingNone(s.list);
  }

  lemma LostUnlocks(s: State, t: nat, l: Label)
    requires Inv(s) && Lost(s) && Enabled(s, l) && (l == Redo(t) || l == Unlock(t))
    ensures Poisoned(Next(s, l))
  {
    assert CallOk(s, t);
  }

  lemma LostDefer(s: State, t: nat)
    requires Inv(s) && Lost(s) && Enabled(s, Defer(t))
    ensures Lost(Next(s, Defer(t)))
  {
    assert CallOk(s, t) && CallOk(s, s.owner.value);
    SameQueueAges(s, Next(s, Defer(t)));
    LostKept(s, Next(s, Defer(t)));
  }

  lemma LostLocked(s: State)
    requires Lost(s)
    ensures !s.release.Unlocked?
  {
  }

  lemma LostReleaseStep(s: State, l: Label)
    requires Inv(s) && Lost(s) && Enabled(s, l) && OfRelease(l)
    ensures !l.Grant? && (Lost(Next(s, l)) || Poisoned(Next(s, l)))
  {
    hide Inv, Lost, Poisoned, Next;
    if l.Swap? {
      LostSwap(s, l.t);
    } else if l.FlipTake? || l.FlipSkip? || l.FlipAvailable? {
      LostFlip(s, l.t, l);
    } else if l.Unlink? {
      LostUnlink(s, l.t);
    } else if l.Defer? {
      LostDefer(s, l.t);
    } else if l.Lock? {
      LostLocked(s);
    } else if l.Redo? || l.Unlock? {
      LostUnlocks(s, l.t, l);
    } else {
      LostPops(s, l.t, l);
    }
  }

  lemma LostQueued(s: State, l: Label)
    requires Lost(s) && Enabled(s, l)
    ensures !l.EnterFast? && !l.TryFast?
  {
  }

  lemma LostFutureStep(s: State, l: Label)
    requires Inv(s) && Lost(s) && Enabled(s, l) && OfFuture(l)
    ensures Lost(Next(s, l)) && !l.EnterFast?
  {
    LostQueued(s, l);
    hide Inv, Enabled, Next, Aged, RoundServes;
    FutureAges(s, l);
    FutureKeeps(s, l);
    LostKept(s, Next(s, l));
  }

  lemma CallRound(s: State, l: Label)
    requires Inv(s) && Enabled(s, l) && !OfRelease(l) && !OfFuture(l) && s.owner.Some?
    ensures SameRound(Holder(s), Holder(Next(s, l)))
  {
    assert CallOk(s, s.owner.value);
    hide Inv;
    if l == Load(s.owner.value) {
    } else {
      hide Enabled, Next;
      Progress.OtherCallDoesNotInterfere(s, l);
    }
  }

  lemma LostCallStep(s: State, l: Label)
    requires Inv(s) && Lost(s) && Enabled(s, l) && !OfRelease(l) && !OfFuture(l)
    ensures Lost(Next(s, l)) && !l.TryFast?
  {
    LostQueued(s, l);
    hide Inv, Enabled, Next, Aged, RoundServes, SameRound;
    Progress.CallQueue(s, l);
    SameQueueAges(s, Next(s, l));
    CallRound(s, l);
    CallKeeps(s, l);
    LostKept(s, Next(s, l));
  }

  lemma LostStep(s: State, l: Label)
    requires Inv(s) && Lost(s) && Enabled(s, l)
    ensures !Grants(l) && (Lost(Next(s, l)) || Poisoned(Next(s, l)))
  {
    hide Inv, Lost, Poisoned, Enabled, Next;
    if OfRelease(l) {
      LostReleaseStep(s, l);
    } else if OfFuture(l) {
      LostFutureStep(s, l);
    } else {
      LostCallStep(s, l);
    }
  }

  lemma {:induction false} LostGrantsNothing(s: State, labels: seq<Label>, s': State, l: Label)
    requires Inv(s) && (Lost(s) || Poisoned(s)) && Run(s, labels, s') && Enabled(s', l)
    ensures !Grants(l)
    decreases |labels|
  {
    hide Inv, Lost, Poisoned, Enabled, Next, Grants;
    if labels == [] {
      if Lost(s) { LostStep(s, l); } else if Grants(l) { NoGrantWhenPoisoned(s, l); }
    } else {
      if Lost(s) { LostStep(s, labels[0]); } else { PoisonedStep(s, labels[0]); }
      StepInv(s, labels[0]);
      LostGrantsNothing(Next(s, labels[0]), labels[1..], s', l);
    }
  }

  // ----- Where it holds, somebody can be granted -----

  ghost predicate CanReach(s: State, s': State) {
    exists labels :: Run(s, labels, s')
  }

  lemma ReachOn(s: State, mid: State, s': State)
    requires CanReach(s, mid) && CanReach(mid, s')
    ensures CanReach(s, s')
  {
    hide Run;
    var a :| Run(s, a, mid);
    var b :| Run(mid, b, s');
    RunAppend(s, a, mid, b, s');
  }

  lemma ReachByOne(s: State, l: Label)
    requires Enabled(s, l)
    ensures CanReach(s, Next(s, l))
  {
    OneStep(s, l);
  }

  lemma ReachByTwo(s: State, k: Label, l: Label)
    requires Enabled(s, k) && Enabled(Next(s, k), l)
    ensures CanReach(s, Next(Next(s, k), l))
  {
    hide Enabled, Next, Run;
    TwoSteps(s, k, l);
  }

  lemma ReachInv(s: State, s': State)
    requires Inv(s) && CanReach(s, s')
    ensures Inv(s')
  {
    hide Inv, Run;
    var labels :| Run(s, labels, s');
    RunInv(s, labels, s');
  }

  lemma LeadsReach(s: State, t: nat, s': State)
    requires Leads(s, t, s')
    ensures CanReach(s, s')
  {
  }

  lemma GrantsLater(s: State, mid: State)
    requires CanReach(s, mid) && CanGrant(mid)
    ensures CanGrant(s)
  {
    hide Run, Enabled, Grants;
    var a :| Run(s, a, mid);
    var b, s', l :| Run(mid, b, s') && Grants(l) && Enabled(s', l);
    RunAppend(s, a, mid, b, s');
  }

  lemma PoppingGrants(s: State, t: nat)
    requires Pops(s, t) && s.CallOf(t).releasable.Count?
    requires s.list != [] && FitsNow(s, s.list[0], s.CallOf(t).releasable.n)
    ensures CanGrant(s)
  {
    assert Run(s, [], s) && Grants(Grant(t)) && Enabled(s, Grant(t));
  }

  lemma UnlinkingGrants(s: State, t: nat)
    requires Inv(s) && Unlinks(s, t) && s.CallOf(t).releasable.Count?
    requires FrontServed(s, s.list, s.CallOf(t).phase.taken, s.CallOf(t).releasable.n)
    ensures CanGrant(s)
  {
    var taken, n := s.CallOf(t).phase.taken, s.CallOf(t).releasable.n;
    UnlinksAlone(s, t);
    var s' :| Leads(s, t, s') && Unlinked(s, s', t, taken);
    hide Leads;
    WithoutAllKeepsOrder(s.list, taken);
    var w := s'.list[0];
    RemainingMember(s.list, taken, w);
    PoppingGrants(s', t);
    LeadsReach(s, t, s');
    GrantsLater(s, s');
  }

  lemma FlippingGrants(s: State, t: nat)
    requires Inv(s) && Flips(s, t) && s.CallOf(t).releasable.Count? && s.acquire.Queued?
    requires PendingQueue(s) == []
             || FrontServed(s, PendingQueue(s), s.CallOf(t).phase.taken, s.CallOf(t).releasable.n)
    ensures CanGrant(s)
  {
    FlipsAlone(s, t);
    var s' :| Leads(s, t, s') && Flipped(s, s', t);
    hide Leads, Inv, CanGrant;
    LeadsToInv(s, t, s');
    if PendingQueue(s) == [] {
      AvailableCanGrant(s');
    } else {
      UnlinkingGrants(s', t);
    }
    LeadsReach(s, t, s');
    GrantsLater(s, s');
  }

  // A new acquire of nothing joins the queue.

  ghost predicate JoinedBy(s: State, s': State, w: nat) {
    && w !in s.waiters && s.CallOf(w).Idle?
    && s'.acquire.Queued? && s'.list == s.list && s'.stack == [w] + s.stack && s'.owner == s.owner
    && (forall u :: u != w ==> s'.CallOf(u) == s.CallOf(u))
    && FitsNow(s', w, 0)
  }

  function Polling(s: State, w: nat): State {
    s.(waiters := s.waiters[w := Waiter(0, Entering, Pending, Null, Null)], calls := s.calls[w := PollEnter(Some(s.acquire))])
  }

  lemma PollsFirst(s: State, w: nat)
    requires w !in s.waiters && s.CallOf(w).Idle?
    ensures Enabled(s, NewFuture(w, 0)) && Enabled(Next(s, NewFuture(w, 0)), PollEnterStart(w))
    ensures var s2 := Next(Next(s, NewFuture(w, 0)), PollEnterStart(w));
            Enabled(s2, Load(w)) && Next(s2, Load(w)) == Polling(s, w)
  {
  }

  lemma PollPushes(s: State, w: nat)
    requires w !in s.waiters && s.CallOf(w).Idle? && s.acquire.Queued?
    ensures Enabled(Polling(s, w), EnterPush(w)) && JoinedBy(s, Next(Polling(s, w), EnterPush(w)), w)
  {
  }

  lemma FreshAddress(s: State)
    ensures exists w: nat :: w !in s.waiters && s.CallOf(w).Idle?
  {
    UnusedAddress(s.waiters.Keys + s.calls.Keys);
    var w: nat :| Above(s.waiters.Keys + s.calls.Keys, w);
    assert w !in s.waiters.Keys && w !in s.calls.Keys;
    assert w !in s.waiters && s.CallOf(w).Idle?;
  }

  lemma Joins(s: State)
    requires s.acquire.Queued?
    ensures exists s', w :: CanReach(s, s') && JoinedBy(s, s', w)
  {
    hide Enabled, Next, Run, JoinedBy;
    FreshAddress(s);
    var w: nat :| w !in s.waiters && s.CallOf(w).Idle?;
    PollsFirst(s, w);
    PollPushes(s, w);
    ThreeSteps(s, NewFuture(w, 0), PollEnterStart(w), Load(w));
    ReachByOne(Polling(s, w), EnterPush(w));
    ReachOn(s, Polling(s, w), Next(Polling(s, w), EnterPush(w)));
  }

  lemma JoinedRest(s: State, s': State, w: nat, taken: seq<nat>)
    requires JoinedBy(s, s', w) && w !in taken && Remaining(PendingQueue(s), taken) == []
    ensures Remaining(PendingQueue(s'), taken) == [w]
  {
    assert ([w] + s.stack)[1..] == s.stack;
    assert s.list + (Reverse(s.stack) + [w]) == PendingQueue(s) + [w];
    RemainingAppend(PendingQueue(s), [w], taken);
    assert Remaining([w], taken) == [w] + Remaining([], taken);
  }

  lemma TakenLive(s: State, t: nat, w: nat)
    requires Inv(s) && Flips(s, t) && w !in s.waiters
    ensures w !in s.CallOf(t).phase.taken
  {
    assert CallOk(s, t) && s.CallOf(t).phase.taken == Taken(s) && WaiterOk(s, w);
  }

  lemma AllGoneGrants(s: State, t: nat)
    requires Inv(s) && Flips(s, t) && s.CallOf(t).releasable.Count? && s.acquire.Queued?
    requires Remaining(PendingQueue(s), s.CallOf(t).phase.taken) == []
    ensures CanGrant(s)
  {
    hide Inv, CanGrant, CanReach, PendingQueue, Remaining;
    Joins(s);
    var s', w :| CanReach(s, s') && JoinedBy(s, s', w);
    ReachInv(s, s');
    TakenLive(s, t, w);
    JoinedRest(s, s', w, s.CallOf(t).phase.taken);
    FlippingGrants(s', t);
    GrantsLater(s, s');
  }

  // Before the swap, futures ahead in the queue are dropped.

  /** The owner's round is where it was, and of the waiters at most `w` changed. */
  ghost predicate Undisturbed(s: State, s': State, w: nat) {
    && s.owner.Some? && s'.owner == s.owner && Holder(s') == Holder(s)
    && s'.acquire == s.acquire && s'.list == s.list && s'.stack == s.stack && !s'.release.Unlocked?
    && (forall x :: x != w && x in s.waiters ==> x in s'.waiters && s'.waiters[x] == s.waiters[x])
    && (forall x :: x in s.cancels ==> x in s'.cancels)
  }

  predicate Swaps(s: State) {
    s.owner.Some? && Holder(s).Release? && Holder(s).phase.Swapping? && s.acquire.Queued? && !s.release.Unlocked?
  }

  lemma PushesOwn(s: State, w: nat)
    requires Inv(s) && Swaps(s) && s.CallOf(w).PushCancel?
    ensures w in s.waiters && s.owner != Some(w)
  {
    assert WaiterOk(s, w) && CallOk(s, s.owner.value);
  }

  lemma PushSteps(s: State, w: nat)
    requires Swaps(s) && s.CallOf(w).PushCancel? && w in s.waiters && s.owner != Some(w)
    ensures Enabled(s, Load(w)) && Enabled(Next(s, Load(w)), CancelPush(w))
    ensures var s' := Next(Next(s, Load(w)), CancelPush(w)); Undisturbed(s, s', w) && w in s'.cancels
  {
    var s' := Next(Next(s, Load(w)), CancelPush(w));
    assert s'.cancels[0] == w;
    assert forall x :: x in s.cancels ==> x in [w] + s.cancels;
  }

  lemma PushesCancel(s: State, w: nat)
    requires Inv(s) && Swaps(s) && s.CallOf(w).PushCancel?
    ensures exists s' :: CanReach(s, s') && Undisturbed(s, s', w) && w in s'.cancels
  {
    hide Inv, Enabled, Next, CanReach, Undisturbed;
    PushesOwn(s, w);
    PushSteps(s, w);
    ReachByTwo(s, Load(w), CancelPush(w));
  }

  lemma StartSteps(s: State, w: nat)
    requires Inv(s) && Swaps(s) && w in PendingQueue(s) && w in s.waiters && s.waiters[w].waker.Pending? && s.CallOf(w).Idle?
    ensures Enabled(s, StartCancel(w))
    ensures var s' := Next(s, StartCancel(w)); Undisturbed(s, s', w) && s'.CallOf(w).PushCancel? && Swaps(s')
  {
    QueueLive(s, w);
    assert CallOk(s, s.owner.value);
  }

  lemma UndisturbedOn(s: State, mid: State, s': State, w: nat)
    requires Undisturbed(s, mid, w) && Undisturbed(mid, s', w)
    ensures Undisturbed(s, s', w)
  {
  }

  lemma StartsCancel(s: State, w: nat)
    requires Inv(s) && Swaps(s) && w in PendingQueue(s) && w in s.waiters && s.waiters[w].waker.Pending? && s.CallOf(w).Idle?
    ensures exists s' :: CanReach(s, s') && Undisturbed(s, s', w) && w in s'.cancels
  {
    hide Inv, Enabled, Next, CanReach, Undisturbed, PendingQueue;
    StartSteps(s, w);
    var mid := Next(s, StartCancel(w));
    ReachByOne(s, StartCancel(w));
    ReachInv(s, mid);
    PushesCancel(mid, w);
    var s' :| CanReach(mid, s') && Undisturbed(mid, s', w) && w in s'.cancels;
    ReachOn(s, mid, s');
    UndisturbedOn(s, mid, s', w);
  }

  /** The call of a pending waiter in the queue, other than the owner's, is over in two steps. */
  function LastStep(s: State, w: nat): Label {
    if s.CallOf(w).TryAcquire? then TryFail(w) else Defer(w)
  }

  lemma EndSteps(s: State, w: nat)
    requires Inv(s) && Swaps(s) && w in PendingQueue(s) && w in s.waiters && s.waiters[w].waker.Pending?
    requires !s.CallOf(w).Idle? && s.owner != Some(w)
    ensures Enabled(s, Load(w)) && Enabled(Next(s, Load(w)), LastStep(s, w))
    ensures var s' := Next(Next(s, Load(w)), LastStep(s, w));
            && Undisturbed(s, s', w) && s'.CallOf(w).Idle? && Swaps(s')
            && w in s'.waiters && s'.waiters[w] == s.waiters[w]
  {
    QueueLive(s, w);
    assert WaiterOk(s, w) && CallOk(s, w) && CallOk(s, s.owner.value);
    assert Owing(s.CallOf(w)) || s.CallOf(w).TryAcquire?;
  }

  lemma UndisturbedQueue(s: State, s': State, w: nat)
    requires Undisturbed(s, s', w)
    ensures PendingQueue(s') == PendingQueue(s)
    ensures Swaps(s) ==> Swaps(s')
  {
  }

  /** Any pending waiter in the queue but the owner's can be dropped, and be on the cancel stack. */
  lemma Cancels(s: State, w: nat)
    requires Inv(s) && Swaps(s) && w in PendingQueue(s) && w in s.waiters && s.waiters[w].waker.Pending?
    requires s.owner != Some(w)
    ensures exists s' :: CanReach(s, s') && Undisturbed(s, s', w) && w in s'.cancels
  {
    hide Inv, Enabled, Next, CanReach, Undisturbed, PendingQueue;
    if s.CallOf(w).Idle? {
      StartsCancel(s, w);
    } else {
      EndSteps(s, w);
      var mid := Next(Next(s, Load(w)), LastStep(s, w));
      ReachByTwo(s, Load(w), LastStep(s, w));
      ReachInv(s, mid);
      UndisturbedQueue(s, mid, w);
      StartsCancel(mid, w);
      var s' :| CanReach(mid, s') && Undisturbed(mid, s', w) && w in s'.cancels;
      ReachOn(s, mid, s');
      UndisturbedOn(s, mid, s', w);
    }
  }

  lemma StandsStill(s: State, w: nat)
    requires Swaps(s)
    ensures CanReach(s, s) && Undisturbed(s, s, w)
  {
    assert Run(s, [], s);
  }

  /** A cancelling waiter is on the cancel stack, or about to be pushed there. */
  lemma CancelsAnyway(s: State, w: nat)
    requires Inv(s) && Swaps(s) && w in PendingQueue(s)
    requires s.owner == Some(w) ==> w in s.waiters && !s.waiters[w].waker.Pending?
    ensures exists s' :: CanReach(s, s') && Undisturbed(s, s', w) && w in s'.cancels
  {
    QueueLive(s, w);
    hide CanReach, Undisturbed, PendingQueue;
    if s.waiters[w].waker.Pending? {
      hide Inv;
      Cancels(s, w);
    } else if s.CallOf(w).PushCancel? {
      hide Inv;
      PushesCancel(s, w);
    } else {
      assert WaiterOk(s, w) && Taken(s) == [];
      StandsStill(s, w);
    }
  }

  /** The first `k` in the queue are on the cancel stack, and the others are as they were. */
  ghost predicate Cleared(s: State, s': State, k: nat)
  {
    var q := PendingQueue(s);
    && k <= |q| && s.owner.Some? && s'.owner == s.owner && Holder(s') == Holder(s)
    && s'.acquire == s.acquire && PendingQueue(s') == q && !s'.release.Unlocked?
    && (forall j :: 0 <= j < k ==> q[j] in s'.cancels)
    && (forall j :: k <= j < |q| && q[j] in s.waiters ==> q[j] in s'.waiters && s'.waiters[q[j]] == s.waiters[q[j]])
  }

  lemma ClearedNext(s: State, mid: State, s': State, k: nat)
    requires Cleared(s, mid, k) && k < |PendingQueue(s)| && Undisturbed(mid, s', PendingQueue(s)[k])
    requires PendingQueue(s)[k] in s'.cancels && NoDup(PendingQueue(s))
    ensures Cleared(s, s', k + 1)
  {
    UndisturbedQueue(mid, s', PendingQueue(s)[k]);
  }

  lemma ClearedKeeps(s: State, s': State, k: nat)
    requires Cleared(s, s', k) && k < |PendingQueue(s)|
    ensures PendingQueue(s') == PendingQueue(s) && PendingQueue(s)[k] in PendingQueue(s') && s'.owner == s.owner
    ensures Swaps(s) ==> Swaps(s')
    ensures PendingQueue(s)[k] in s.waiters ==>
              PendingQueue(s)[k] in s'.waiters && s'.waiters[PendingQueue(s)[k]] == s.waiters[PendingQueue(s)[k]]
  {
  }

  lemma {:induction false} ClearsFirst(s: State, k: nat)
    requires Inv(s) && Swaps(s) && k <= |PendingQueue(s)|
    requires forall j :: 0 <= j < k && s.owner == Some(PendingQueue(s)[j]) ==>
               PendingQueue(s)[j] in s.waiters && !s.waiters[PendingQueue(s)[j]].waker.Pending?
    ensures exists s' :: CanReach(s, s') && Cleared(s, s', k)
    decreases k
  {
    hide Inv, CanReach, Undisturbed;
    if k == 0 {
      StandsStill(s, 0);
    } else {
      hide Cleared;
      ClearsFirst(s, k - 1);
      var mid :| CanReach(s, mid) && Cleared(s, mid, k - 1);
      ReachInv(s, mid);
      var w := PendingQueue(s)[k - 1];
      ClearedKeeps(s, mid, k - 1);
      CancelsAnyway(mid, w);
      var s' :| CanReach(mid, s') && Undisturbed(mid, s', w) && w in s'.cancels;
      PendingNoDup(s);
      ClearedNext(s, mid, s', k - 1);
      ReachOn(s, mid, s');
    }
  }

  // The owner swaps then.

  lemma {:induction false} RemainingAfter(q: seq<nat>, gone: seq<nat>, i: nat)
    requires i <= |q| && forall j :: 0 <= j < i ==> q[j] in gone
    ensures i == |q| ==> Remaining(q, gone) == []
    ensures i < |q| && q[i] !in gone ==> Remaining(q, gone) != [] && Remaining(q, gone)[0] == q[i]
  {
    if i > 0 {
      RemainingAfter(q[1..], gone, i - 1);
    }
  }

  lemma SwapSteps(s: State, t: nat)
    requires Swaps(s) && s.owner == Some(t)
    ensures Enabled(s, Swap(t))
    ensures var s' := Next(s, Swap(t));
            && Flips(s', t) && s'.CallOf(t).phase.taken == s.cancels && s'.CallOf(t).releasable == s.CallOf(t).releasable
            && s'.acquire.Queued? && PendingQueue(s') == PendingQueue(s) && s'.waiters == s.waiters
  {
  }

  lemma SameFront(s: State, s': State, q: seq<nat>, gone: seq<nat>, n: nat)
    requires s'.waiters == s.waiters
    ensures FrontServed(s', q, gone, n) == FrontServed(s, q, gone, n)
  {
  }

  lemma SwapGrants(s: State, n: nat)
    requires Inv(s) && Swaps(s) && Holder(s).releasable == Count(n)
    requires PendingQueue(s) == [] || Remaining(PendingQueue(s), s.cancels) == [] || FrontServed(s, PendingQueue(s), s.cancels, n)
    ensures CanGrant(s)
  {
    var t := s.owner.value;
    var s' := Next(s, Swap(t));
    SwapSteps(s, t);
    SameFront(s, s', PendingQueue(s), s.cancels, n);
    assert s'.CallOf(t).releasable == Count(n);
    hide Enabled, Next, CanGrant, CanReach, PendingQueue, Remaining, Swaps, Flips, Holder, FrontServed;
    StepInv(s, Swap(t));
    hide Inv;
    ReachByOne(s, Swap(t));
    if Remaining(PendingQueue(s), s.cancels) == [] {
      AllGoneGrants(s', t);
    } else {
      FlippingGrants(s', t);
    }
    GrantsLater(s, s');
  }

  lemma PendingNotCancelled(s: State, w: nat)
    requires Inv(s) && w in s.waiters && s.waiters[w].waker.Pending?
    ensures w !in s.cancels
  {
    assert WaiterOk(s, w);
  }

  lemma ClearedGrants(s: State, s': State, n: nat, i: nat)
    requires Inv(s') && Swaps(s) && Cleared(s, s', i) && Holder(s).releasable == Count(n)
    requires i < |PendingQueue(s)| ==> FitsNow(s, PendingQueue(s)[i], n)
    ensures CanGrant(s')
  {
    var q := PendingQueue(s);
    hide PendingQueue;
    RemainingAfter(q, s'.cancels, i);
    if i < |q| {
      PendingNotCancelled(s', q[i]);
    }
    hide Inv, CanGrant;
    SwapGrants(s', n);
  }

  lemma SwappingGrants(s: State, n: nat)
    requires Inv(s) && Swaps(s) && Holder(s).releasable == Count(n) && CanClear(s, n)
    ensures CanGrant(s)
  {
    var u, q := s.owner.value, PendingQueue(s);
    hide Inv, PendingQueue, CanReach, Cleared, CanGrant;
    var i: nat := |q|;
    if u in q && u in s.waiters && s.waiters[u].waker.Pending? {
      i :| 0 <= i < |q| && FitsNow(s, q[i], n) && u !in q[..i];
      assert forall j :: 0 <= j < i ==> q[..i][j] == q[j];
    } else {
      forall j | 0 <= j < |q| ensures q[j] in s.waiters { QueueLive(s, q[j]); }
    }
    ClearsFirst(s, i);
    var s' :| CanReach(s, s') && Cleared(s, s', i);
    ReachInv(s, s');
    ClearedGrants(s, s', n, i);
    GrantsLater(s, s');
  }

  // ----- Exactly then -----

  lemma HolderCalls(s: State)
    requires Inv(s) && s.owner.Some?
    ensures Holding(Holder(s)) && Holder(s) == s.CallOf(s.owner.value) && !s.release.Unlocked?
  {
    assert CallOk(s, s.owner.value);
  }

  lemma FrontIsFirst(s: State, n: nat)
    requires FrontServed(s, s.list, [], n)
    ensures s.list != [] && FitsNow(s, s.list[0], n)
  {
    RemainingNone(s.list);
  }

  lemma RoundGrants(s: State)
    requires Inv(s) && s.acquire.Queued? && s.owner.Some? && Holder(s).Release? && Holder(s).releasable.Count?
    requires RoundServes(s, Holder(s).releasable.n)
    ensures CanGrant(s)
  {
    HolderCalls(s);
    hide Inv, CanGrant, FrontServed, CanClear;
    var t, n := s.owner.value, Holder(s).releasable.n;
    match Holder(s)
    case Release(_, Swapping, _) => SwappingGrants(s, n);
    case Release(_, Flipping(taken, _), _) =>
      if Remaining(PendingQueue(s), taken) == [] {
        AllGoneGrants(s, t);
      } else {
        FlippingGrants(s, t);
      }
    case Release(_, Unlinking(taken), _) => UnlinkingGrants(s, t);
    case Release(_, Popping, _) =>
      FrontIsFirst(s, n);
      PoppingGrants(s, t);
    case Release(_, Unlocking(_), _) =>
    case Release(_, Locking(_), _) =>
  }

  /** Once a poisoned release has passed lock-or-defer, some acquire can still succeed if and only if
      permits are available, or acquires are queued and the round in progress can still serve one. */
  lemma GrantsAfterPoison(s: State)
    requires Inv(s) && Absorbed(s)
    ensures CanGrant(s) <==> StillGrants(s)
  {
    if StillGrants(s) {
      if s.acquire.Available? {
        AvailableCanGrant(s);
      } else {
        RoundGrants(s);
      }
    } else {
      PoisonedOrLost(s);
      forall labels, s', l | Run(s, labels, s') && Enabled(s', l) ensures !Grants(l) {
        LostGrantsNothing(s, labels, s', l);
      }
    }
  }

  /** In particular right after the lock-or-defer of a `poison`. */
  lemma GrantsAfterPoisonCall(s: State, t: nat, l: Label)
    requires Inv(s) && Enabled(s, l) && (l == Lock(t) || l == Defer(t)) && s.CallOf(t).releasable.Poison?
    ensures CanGrant(Next(s, l)) <==> StillGrants(Next(s, l))
  {
    hide Inv, Enabled, Next, Absorbed, CanGrant, StillGrants;
    PoisonAbsorbed(s, t, l);
    StepInv(s, l);
    GrantsAfterPoison(Next(s, l));
  }
}
