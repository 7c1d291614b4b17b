/** The lock owner's work is bounded: its loops shrink what only it may change, and, left alone, it
    unlocks after serving everything that can be served. */
module Progress {
  import opened Sequences
  import opened PermitValues
  import opened Protocol
  import opened Invariant
  import opened Steps
  import opened Runs

  // ----- What is left of a round -----

  function Rank(c: Call): nat {
    if !c.Release? then 0
    else match c.phase
      case Swapping => 5
      case Flipping(_, _) => 4
      case Unlinking(_) => 3
      case Popping => 2
      case Unlocking(_) => 1
      case Locking(_) => 0
  }

  /** Once flipped, what the remaining loops of the round still have to go through. */
  function Remaining(s: State): nat {
    var c := Holder(s);
    if !AfterFlip(c) then 0 else |Taken(s)| + if c.phase.Unlocking? then 0 else |s.list|
  }

  predicate Later(a: State, b: State) {
    Rank(Holder(b)) < Rank(Holder(a)) || (Rank(Holder(b)) == Rank(Holder(a)) && Remaining(b) < Remaining(a))
  }

  /** In a round of the owner, every step but a repeated load and a further round brings the end
      nearer: the phases come in order and the loops shrink the cancel chain and the list. */
  lemma OwnerMovesOn(s: State, l: Label)
    requires Inv(s) && Enabled(s, l) && OfRelease(l) && !l.Lock? && !l.Defer? && !l.Redo?
    ensures Later(s, Next(s, l))
  {
    assert CallOk(s, l.t);
    if l.Unlink? {
      var w := s.CallOf(l.t).phase.taken[0];
      assert WaiterOk(s, w);
      var k :| 0 <= k < |s.list| && s.list[k] == w;
      WithoutAt(s.list, k);
    }
  }

  lemma OtherReleaseDoesNotInterfere(s: State, l: Label)
    requires Inv(s) && Enabled(s, l) && s.owner.Some? && OfRelease(l)
    requires !(OfRelease(l) && s.owner == Some(l.t)) && l != Load(s.owner.value)
    ensures Holder(Next(s, l)) == Holder(s) && Next(s, l).list == s.list
  {
    assert CallOk(s, s.owner.value) && WaiterOk(s, s.owner.value);
    assert CallOk(s, l.t);
  }

  lemma OtherFutureDoesNotInterfere(s: State, l: Label)
    requires Inv(s) && Enabled(s, l) && s.owner.Some? && OfFuture(l)
    ensures Holder(Next(s, l)) == Holder(s) && Next(s, l).list == s.list
  {
    assert CallOk(s, s.owner.value) && WaiterOk(s, s.owner.value);
  }

  lemma OtherCallDoesNotInterfere(s: State, l: Label)
    requires Inv(s) && Enabled(s, l) && s.owner.Some? && !OfRelease(l) && !OfFuture(l)
    requires l != Load(s.owner.value)
    ensures Holder(Next(s, l)) == Holder(s) && Next(s, l).list == s.list
  {
    assert CallOk(s, s.owner.value) && WaiterOk(s, s.owner.value);
  }

  /** Nobody else can undo that: a step of another call leaves the owner's program counter, its
      chain and the list as they are. */
  lemma OthersDoNotInterfere(s: State, l: Label)
    requires Inv(s) && Enabled(s, l) && s.owner.Some?
    requires !(OfRelease(l) && s.owner == Some(l.t)) && l != Load(s.owner.value)
    ensures Holder(Next(s, l)) == Holder(s) && Next(s, l).list == s.list
  {
    hide Inv, Next, Enabled, Holder;
    if OfRelease(l) {
      OtherReleaseDoesNotInterfere(s, l);
    } else if OfFuture(l) {
      OtherFutureDoesNotInterfere(s, l);
    } else {
      OtherCallDoesNotInterfere(s, l);
    }
  }

  /** What a future does to a waiter in the queue: at most it cancels it, if it is its own. */
  lemma FutureWaiter(s: State, l: Label, w: nat)
    requires Enabled(s, l) && OfFuture(l) && w in s.waiters && s.waiters[w].step.Waiting?
    requires s.waiters[w].waker.Pending? || s.waiters[w].waker.Cancelling?
    ensures w in Next(s, l).waiters
    ensures var x, x' := s.waiters[w], Next(s, l).waiters[w];
            && x'.amount == x.amount && (x'.waker.Pending? ==> x.waker.Pending?)
            && (!s.CallOf(w).Idle? ==> x'.waker == x.waker)
  {
  }

  lemma CallQueue(s: State, l: Label)
    requires Enabled(s, l) && !OfRelease(l) && !OfFuture(l)
    ensures var s' := Next(s, l); s'.list == s.list && s'.stack == s.stack && s'.waiters == s.waiters
  {
  }

  // ----- The owner alone -----

  /** The step the owner takes next when its compare-exchanges do not fail for nothing. */
  function OwnerStep(s: State): Label
    requires s.owner.Some? && Holding(Holder(s))
  {
    var t := s.owner.value;
    var c := Holder(s);
    match c.phase
    case Swapping => Swap(t)
    case Flipping(_, cur) =>
      if cur != Some(s.acquire) then Load(t)
      else if s.acquire.Available? || (s.acquire.back.Null? && s.list == []) then FlipAvailable(t)
      else if s.acquire.back.Null? then FlipSkip(t)
      else FlipTake(t)
    case Unlinking(taken) => if taken == [] then UnlinkDone(t) else Unlink(t)
    case Popping =>
      if s.list == [] || !FrontFits(s, c.releasable) || s.waiters[s.list[0]].waker.Cancelling? then PopStop(t)
      else if c.releasable.Count? then Grant(t)
      else Fail(t)
    case Unlocking(cur) =>
      if cur != Some(s.release) then Load(t)
      else if s.release.LockedDirty? then Redo(t)
      else Unlock(t)
  }

  lemma OwnerCanStep(s: State)
    requires Inv(s) && s.owner.Some?
    ensures Holding(Holder(s)) && Enabled(s, OwnerStep(s))
  {
    assert CallOk(s, s.owner.value);
    assert Taken(s) != [] ==> WaiterOk(s, Taken(s)[0]);
    assert s.list != [] ==> WaiterOk(s, s.list[0]);
  }

  predicate MustLoad(s: State) {
    var c := Holder(s);
    c.Release? && (|| (c.phase.Flipping? && c.phase.flipCur != Some(s.acquire))
                   || (c.phase.Unlocking? && c.phase.unlockCur != Some(s.release)))
  }

  lemma OwnerLoads(s: State)
    requires Inv(s) && s.owner.Some? && Holding(Holder(s)) && OwnerStep(s).Load?
    ensures var s' := Next(s, OwnerStep(s));
            && MustLoad(s) && !MustLoad(s') && s'.release == s.release && s'.owner == s.owner
            && Rank(Holder(s')) == Rank(Holder(s)) && Remaining(s') == Remaining(s)
  {
  }

  lemma OwnerReleaseWord(s: State)
    requires Inv(s) && s.owner.Some? && Holding(Holder(s)) && Enabled(s, OwnerStep(s)) && !OwnerStep(s).Load?
    ensures var l, s' := OwnerStep(s), Next(s, OwnerStep(s));
            && (l.Redo? ==> Dirty(s) && !Dirty(s') && s'.owner == s.owner)
            && (l.Unlock? ==> s'.release.Unlocked? && !Dirty(s))
            && (!l.Redo? && !l.Unlock? ==> s'.release == s.release && s'.owner == s.owner)
  {
  }

  ghost predicate OnlyBy(labels: seq<Label>, t: nat) {
    forall i :: 0 <= i < |labels| ==> labels[i] == Load(t) || (OfRelease(labels[i]) && labels[i].t == t)
  }

  /** What the owner's next step leaves to do, as a lexicographic measure; and when it is over. */
  lemma OwnerGetsCloser(s: State)
    requires Inv(s) && s.owner.Some? && Holding(Holder(s)) && Enabled(s, OwnerStep(s))
    ensures var l, mid := OwnerStep(s), Next(s, OwnerStep(s));
            if l.Unlock? then l == Unlock(s.owner.value) && mid.release.Unlocked? && !Dirty(s)
            else
              && (l == Load(s.owner.value) || (OfRelease(l) && l.t == s.owner.value))
              && mid.owner == s.owner
              && One(Dirty(s)) == One(l.Redo?) + One(Dirty(mid))
              && (One(l.Redo?) == 1
                  || Rank(Holder(mid)) < Rank(Holder(s))
                  || (Rank(Holder(mid)) == Rank(Holder(s))
                      && (Remaining(mid) < Remaining(s)
                          || (Remaining(mid) == Remaining(s) && One(MustLoad(mid)) < One(MustLoad(s))))))
  {
    var l := OwnerStep(s);
    if l.Load? {
      OwnerLoads(s);
    } else {
      OwnerReleaseWord(s);
      if !l.Redo? { OwnerMovesOn(s, l); }
    }
  }

  /** The owner's own steps lead to a free lock, after one further round if it was dirty, and its
      call has returned. */
  ghost predicate Unlocking(s: State, labels: seq<Label>, s': State, t: nat) {
    && Run(s, labels, s') && OnlyBy(labels, t) && s'.release.Unlocked? && Redos(labels) == One(Dirty(s))
    && s.CallOf(t).Release? && s'.CallOf(t) == Returned(s.CallOf(t).after)
  }

  lemma LastStep(s: State, l: Label, t: nat)
    requires Enabled(s, l) && l == Unlock(t) && Next(s, l).release.Unlocked? && !Dirty(s)
    ensures Unlocking(s, [l], Next(s, l), t)
  {
    assert Run(Next(s, l), [], Next(s, l));
    assert [l][1..] == [];
  }

  lemma SameCaller(s: State, l: Label, t: nat)
    requires Enabled(s, l) && (l == Load(t) || (OfRelease(l) && l.t == t)) && s.CallOf(t).Release? && Next(s, l).CallOf(t).Release?
    ensures Next(s, l).CallOf(t).after == s.CallOf(t).after
  {
  }

  lemma OneMoreStep(s: State, l: Label, rest: seq<Label>, s': State, t: nat)
    requires Enabled(s, l) && (l == Load(t) || (OfRelease(l) && l.t == t))
    requires Unlocking(Next(s, l), rest, s', t) && One(Dirty(s)) == One(l.Redo?) + One(Dirty(Next(s, l)))
    requires s.CallOf(t).Release?
    ensures Unlocking(s, [l] + rest, s', t)
  {
    hide Enabled, Next;
    assert ([l] + rest)[1..] == rest;
    SameCaller(s, l, t);
  }

  lemma HolderIsCall(s: State)
    requires s.owner.Some? && Holding(Holder(s))
    ensures s.CallOf(s.owner.value).Release?
  {
  }

  /** Left alone, the owner unlocks: at once in this round, or after one more if it was dirty. */
  lemma {:induction false} OwnerUnlocks(s: State)
    requires Inv(s) && s.owner.Some?
    ensures exists labels, s' :: Unlocking(s, labels, s', s.owner.value)
    decreases One(Dirty(s)), Rank(Holder(s)), Remaining(s), One(MustLoad(s))
  {
    hide *;
    OwnerCanStep(s);
    var l := OwnerStep(s);
    var mid := Next(s, l);
    var t := s.owner.value;
    HolderIsCall(s);
    OwnerGetsCloser(s);
    if l.Unlock? {
      LastStep(s, l, t);
    } else {
      StepInv(s, l);
      OwnerUnlocks(mid);
      var rest, s' :| Unlocking(mid, rest, s', t);
      OneMoreStep(s, l, rest, s', t);
    }
  }

  lemma OnlyMoves(s: State, l: Label, t: nat, u: nat)
    requires Enabled(s, l) && u != t && (l == Load(t) || (OfRelease(l) && l.t == t))
    ensures Next(s, l).CallOf(u) == s.CallOf(u)
  {
  }

  lemma {:induction false} OthersUnmoved(s: State, labels: seq<Label>, s': State, t: nat, u: nat)
    requires Run(s, labels, s') && OnlyBy(labels, t) && u != t
    ensures s'.CallOf(u) == s.CallOf(u)
    decreases |labels|
  {
    if labels != [] {
      var mid := Next(s, labels[0]);
      OnlyMoves(s, labels[0], t, u);
      OthersUnmoved(mid, labels[1..], s', t, u);
    }
  }

  lemma WaiterReleased(s: State, labels: seq<Label>, s': State, w: nat)
    requires Inv(s) && s.owner.Some? && s.CallOf(w).WaitCancel?
    requires Run(s, labels, s') && OnlyBy(labels, s.owner.value) && s'.release.Unlocked?
    ensures Enabled(s', WaitDone(w))
  {
    RunInv(s, labels, s');
    assert CallOk(s, w) && CallOk(s, s.owner.value);
    OthersUnmoved(s, labels, s', s.owner.value, w);
    assert WaiterOk(s', w);
  }

  /** A dropped future waits for nothing but the lock owner: from any reachable state the owner,
      running alone, unlocks, and by then every waiting cancellation has been accepted. */
  lemma CancellersReleased(s: State)
    requires Reachable(s) && s.owner.Some?
    ensures exists labels, s' :: Run(s, labels, s') && OnlyBy(labels, s.owner.value) && s'.release.Unlocked?
                                 && forall w: nat :: s.CallOf(w).WaitCancel? ==> Enabled(s', WaitDone(w))
  {
    ReachableInv(s);
    OwnerUnlocks(s);
    var labels, s' :| Unlocking(s, labels, s', s.owner.value);
    forall w: nat | s.CallOf(w).WaitCancel? ensures Enabled(s', WaitDone(w)) {
      WaiterReleased(s, labels, s', w);
    }
  }

  // ----- Every call can begin -----

  function Count3(a: bool, b: bool, c: bool): nat { One(a) + One(b) + One(c) }

  lemma ThreadMayBegin(s: State, t: nat, amount: nat)
    requires s.CallOf(t).Idle? && t !in s.waiters
    ensures Enabled(s, NewFuture(t, amount)) && Enabled(s, TryStart(t, amount))
    ensures Enabled(s, ReleaseStart(t, amount)) && Enabled(s, PoisonStart(t))
    ensures Enabled(s, GuardDrop(t, amount)) <==> amount <= s.guards
    ensures Enabled(s, GuardForget(amount)) <==> amount <= s.guards
  {
  }

  lemma FutureMayBegin(s: State, w: nat)
    requires s.CallOf(w).Idle? && w in s.waiters && WaiterOk(s, w)
    ensures Count3(Enabled(s, DropIdle(w)), Enabled(s, DropFinished(w)), Enabled(s, StartCancel(w))) == 1
    ensures Count3(Enabled(s, PollEnterStart(w)), Enabled(s, PollWaiting(w)), s.waiters[w].step.Done? || Enabled(s, StartCancel(w))) == 1
  {
  }

  /** Nobody has to wait to begin a call: a future that is not in one can be dropped at any time, in
      exactly one of the three ways, and polled unless it has returned its result or still waits; a
      thread that is not in one can try to acquire, release, poison, or drop any guards there are. */
  lemma CallsMayBegin(s: State, t: nat, amount: nat)
    requires Reachable(s) && s.CallOf(t).Idle?
    ensures t in s.waiters ==> Count3(Enabled(s, DropIdle(t)), Enabled(s, DropFinished(t)), Enabled(s, StartCancel(t))) == 1
    ensures t in s.waiters ==>
              Count3(Enabled(s, PollEnterStart(t)), Enabled(s, PollWaiting(t)), s.waiters[t].step.Done? || Enabled(s, StartCancel(t))) == 1
    ensures t !in s.waiters ==>
              && Enabled(s, NewFuture(t, amount)) && Enabled(s, TryStart(t, amount))
              && Enabled(s, ReleaseStart(t, amount)) && Enabled(s, PoisonStart(t))
              && (Enabled(s, GuardDrop(t, amount)) <==> amount <= s.guards)
              && (Enabled(s, GuardForget(amount)) <==> amount <= s.guards)
  {
    ReachableInv(s);
    assert t in s.waiters ==> WaiterOk(s, t);
    hide Inv, Enabled, WaiterOk, Count3;
    if t in s.waiters {
      FutureMayBegin(s, t);
    } else {
      ThreadMayBegin(s, t, amount);
    }
  }

  // ----- Every other call alone -----

  /** The labels are steps inside the call `t` is in. */
  predicate Inside(l: Label, t: nat) {
    || l == Load(t) || (OfRelease(l) && l.t == t)
    || l == EnterPoisoned(t) || l == EnterFast(t) || l == EnterPush(t) || l == CancelPush(t)
    || l == TryFail(t) || l == TryFast(t)
  }

  ghost predicate AllInside(labels: seq<Label>, t: nat) {
    forall i :: 0 <= i < |labels| ==> Inside(labels[i], t)
  }

  /** The call's own steps lead to its end, or to where the drop of a future waits for the lock owner. */
  ghost predicate Ends(s: State, t: nat) {
    exists labels, s' :: Run(s, labels, s') && AllInside(labels, t) && (s'.CallOf(t).Idle? || s'.CallOf(t).WaitCancel?)
  }

  lemma EndsNow(s: State, t: nat)
    requires s.CallOf(t).Idle? || s.CallOf(t).WaitCancel?
    ensures Ends(s, t)
  {
    assert Run(s, [], s) && AllInside([], t);
  }

  lemma EndsAfter(s: State, l: Label, t: nat)
    requires Enabled(s, l) && Inside(l, t) && Ends(Next(s, l), t)
    ensures Ends(s, t)
  {
    hide Enabled, Next, Inside;
    var rest, s' :| Run(Next(s, l), rest, s') && AllInside(rest, t) && (s'.CallOf(t).Idle? || s'.CallOf(t).WaitCancel?);
    assert ([l] + rest)[1..] == rest;
    assert Run(s, [l] + rest, s') && AllInside([l] + rest, t);
  }

  lemma OwnerEnds(s: State, t: nat)
    requires Inv(s) && s.owner == Some(t)
    ensures Ends(s, t)
  {
    hide Inv, Run;
    OwnerUnlocks(s);
    var labels, s' :| Unlocking(s, labels, s', t);
    assert AllInside(labels, t);
  }

  /** The step after the load that a retry loop begins with. */
  function Attempt(s: State, t: nat): Label {
    match s.CallOf(t)
    case PollEnter(_) =>
      if s.acquire == Available(Poison) then EnterPoisoned(t)
      else if t in s.waiters && MayTake(s.acquire, s.waiters[t].amount) then EnterFast(t)
      else EnterPush(t)
    case TryAcquire(amount, _) => if MayTake(s.acquire, amount) then TryFast(t) else TryFail(t)
    case PushCancel(_) => CancelPush(t)
    case _ => if s.release.Unlocked? then Lock(t) else Defer(t)
  }

  predicate Retries(c: Call) {
    c.PollEnter? || c.TryAcquire? || c.PushCancel?
  }

  lemma LockAttempt(s: State, t: nat)
    requires Owing(s.CallOf(t))
    ensures Enabled(s, Load(t)) && Inside(Attempt(s, t), t)
    ensures var mid := Next(s, Load(t));
            && Enabled(mid, Attempt(s, t))
            && var s' := Next(mid, Attempt(s, t));
               if s.release.Unlocked? then s'.owner == Some(t) else s'.CallOf(t) == Returned(s.CallOf(t).after)
  {
  }

  lemma AttemptSucceeds(s: State, t: nat)
    requires Retries(s.CallOf(t)) && (s.CallOf(t).PollEnter? || s.CallOf(t).PushCancel? ==> t in s.waiters)
    ensures Enabled(s, Load(t)) && Inside(Attempt(s, t), t)
    ensures var mid := Next(s, Load(t));
            && Enabled(mid, Attempt(s, t))
            && var s' := Next(mid, Attempt(s, t)); s'.CallOf(t).Idle? || Owing(s'.CallOf(t))
  {
  }

  lemma CallersLive(s: State, t: nat)
    requires Inv(s) && (s.CallOf(t).PollEnter? || s.CallOf(t).PushCancel?)
    ensures t in s.waiters
  {
    assert WaiterOk(s, t);
  }

  lemma OwingEnds(s: State, t: nat)
    requires Inv(s) && Owing(s.CallOf(t))
    ensures Ends(s, t)
  {
    LockAttempt(s, t);
    var mid, l := Next(s, Load(t)), Attempt(s, t);
    var s' := Next(mid, l);
    hide Inv, Enabled, Next, Inside, Ends, Attempt;
    StepInv(s, Load(t));
    StepInv(mid, l);
    if s.release.Unlocked? { OwnerEnds(s', t); } else { EndsNow(s', t); }
    EndsAfter(mid, l, t);
    EndsAfter(s, Load(t), t);
  }

  lemma RetriesEnd(s: State, t: nat)
    requires Inv(s) && Retries(s.CallOf(t))
    ensures Ends(s, t)
  {
    if s.CallOf(t).PollEnter? || s.CallOf(t).PushCancel? { CallersLive(s, t); }
    AttemptSucceeds(s, t);
    var mid, l := Next(s, Load(t)), Attempt(s, t);
    var s' := Next(mid, l);
    hide Inv, Enabled, Next, Inside, Ends, Attempt, Owing;
    StepInv(s, Load(t));
    StepInv(mid, l);
    if s'.CallOf(t).Idle? { EndsNow(s', t); } else { OwingEnds(s', t); }
    EndsAfter(mid, l, t);
    EndsAfter(s, Load(t), t);
  }

  /** Nothing but the drop of a waiting future ever waits: in every reachable state every call can be
      brought to its end by its own steps alone, except that such a drop gets to where it waits. */
  lemma OnlyDropsWait(s: State, t: nat)
    requires Reachable(s)
    ensures Ends(s, t)
  {
    ReachableInv(s);
    assert CallOk(s, t);
    hide Inv, Ends;
    if s.CallOf(t).Idle? || s.CallOf(t).WaitCancel? {
      EndsNow(s, t);
    } else if Owing(s.CallOf(t)) {
      OwingEnds(s, t);
    } else if Holding(s.CallOf(t)) {
      OwnerEnds(s, t);
    } else {
      RetriesEnd(s, t);
    }
  }
}
