/** Poison: when it takes effect, that it is permanent, and that `poison()` returning is not enough. */
module Poisoning {
  import opened Sequences
  import opened PermitValues
  import opened Protocol
  import opened Invariant
  import opened Steps
  import opened Refinement
  import opened Runs
  import Progress

  /** Poison has reached a place every acquire has to pass: the available count, or, while acquires
      are queued, the permits the lock owner serves them from. */
  predicate Poisoned(s: State) {
    || s.acquire == Available(Poison)
    || (s.acquire.Queued? && (s.release == Unlocked(Poison) || (Holder(s).Release? && Holder(s).releasable.Poison?)))
  }

  predicate Grants(l: Label) {
    l.Grant? || l.EnterFast? || l.TryFast?
  }

  lemma NoGrantWhenPoisoned(s: State, l: Label)
    requires Inv(s) && Poisoned(s) && Grants(l)
    ensures !Enabled(s, l)
  {
    if l.Grant? {
      assert CallOk(s, l.t);
    }
  }

  lemma PoisonedReleaseStep(s: State, l: Label)
    requires Inv(s) && Poisoned(s) && Enabled(s, l) && OfRelease(l)
    ensures Poisoned(Next(s, l))
  {
    assert CallOk(s, l.t);
  }

  lemma FutureWords(s: State, l: Label)
    requires Enabled(s, l) && OfFuture(l)
    ensures var s' := Next(s, l);
            && s'.release == s.release && s'.owner == s.owner
            && (s'.acquire == s.acquire || (s'.acquire.Queued? && (s.acquire.Queued? || s.acquire.permits.Count?))
                || (s'.acquire.Available? && s.acquire.Available? && s.acquire.permits.Count?))
  {
  }

  /** A step of a future leaves the release word and the lock owner alone, and it changes the
      acquire word only if that holds no poison. */
  lemma FutureKeeps(s: State, l: Label)
    requires Inv(s) && Enabled(s, l) && OfFuture(l)
    ensures var s' := Next(s, l);
            && s'.release == s.release && s'.owner == s.owner && Holder(s') == Holder(s)
            && (s'.acquire == s.acquire || (s'.acquire.Queued? && (s.acquire.Queued? || s.acquire.permits.Count?))
                || (s'.acquire.Available? && s.acquire.Available? && s.acquire.permits.Count?))
  {
    hide Inv, Enabled, Next;
    FutureWords(s, l);
    if s.owner.Some? { Progress.OtherFutureDoesNotInterfere(s, l); }
  }

  lemma CallWords(s: State, l: Label)
    requires Enabled(s, l) && !OfRelease(l) && !OfFuture(l)
    ensures var s' := Next(s, l);
            && s'.release == s.release && s'.owner == s.owner
            && (s'.acquire == s.acquire || (s'.acquire.Available? && s.acquire.Available? && s.acquire.permits.Count?))
  {
  }

  lemma OwnerLoads(s: State)
    requires Inv(s) && s.owner.Some? && Enabled(s, Load(s.owner.value))
    ensures var c, d := Holder(s), Holder(Next(s, Load(s.owner.value)));
            c.Release? && d.Release? && d.releasable == c.releasable
  {
    assert CallOk(s, s.owner.value);
  }

  /** So does a step that begins a call, loads a word, or tries to acquire. */
  lemma CallKeeps(s: State, l: Label)
    requires Inv(s) && Enabled(s, l) && !OfRelease(l) && !OfFuture(l)
    ensures var s' := Next(s, l);
            && s'.release == s.release && s'.owner == s.owner
            && (Holder(s') == Holder(s)
                || (Holder(s).Release? && Holder(s').Release? && Holder(s').releasable == Holder(s).releasable))
            && (s'.acquire == s.acquire || (s'.acquire.Available? && s.acquire.Available? && s.acquire.permits.Count?))
  {
    hide Inv, Enabled, Next;
    CallWords(s, l);
    if s.owner.Some? {
      if l == Load(s.owner.value) {
        OwnerLoads(s);
      } else {
        Progress.OtherCallDoesNotInterfere(s, l);
      }
    }
  }

  lemma PoisonedStep(s: State, l: Label)
    requires Inv(s) && Poisoned(s) && Enabled(s, l)
    ensures Poisoned(Next(s, l))
  {
    hide Inv, Enabled, Next, Holder;
    if OfRelease(l) {
      PoisonedReleaseStep(s, l);
    } else if OfFuture(l) {
      FutureKeeps(s, l);
    } else {
      CallKeeps(s, l);
    }
  }

  /** Poison is permanent: no run from a poisoned state grants a permit to anybody, by either fast
      path or by finishing a waiter. */
  lemma {:induction false} PoisonIsPermanent(s: State, labels: seq<Label>, s': State)
    requires Inv(s) && Poisoned(s) && Run(s, labels, s')
    ensures Poisoned(s')
    ensures forall i :: 0 <= i < |labels| ==> !Grants(labels[i])
    decreases |labels|
  {
    if labels != [] {
      PoisonedStep(s, labels[0]);
      StepInv(s, labels[0]);
      if Grants(labels[0]) { NoGrantWhenPoisoned(s, labels[0]); }
      PoisonIsPermanent(Next(s, labels[0]), labels[1..], s');
      assert forall i :: 1 <= i < |labels| ==> labels[i] == labels[1..][i - 1];
    }
  }

  /** Poison is never lost: wherever it is, in a caller's hands or in a word, some place keeps it. */
  lemma {:induction false} PoisonIsSomewhere(s: State, labels: seq<Label>, s': State)
    requires Inv(s) && BadPlaces(s) > 0 && Run(s, labels, s')
    ensures BadPlaces(s') > 0
    decreases |labels|
  {
    if labels != [] {
      StepRefines(s, labels[0]);
      StepInv(s, labels[0]);
      PoisonIsSomewhere(Next(s, labels[0]), labels[1..], s');
    }
  }

  /** A poisoned release has passed lock-or-defer: a shared word or the lock owner has its poison. */
  predicate Absorbed(s: State) {
    || s.acquire == Available(Poison)
    || (!s.release.Locked? && s.release.permits.Poison?)
    || (Holder(s).Release? && Holder(s).releasable.Poison?)
  }

  lemma AbsorbedReleaseStep(s: State, l: Label)
    requires Inv(s) && Absorbed(s) && Enabled(s, l) && OfRelease(l)
    ensures Absorbed(Next(s, l))
  {
    assert CallOk(s, l.t);
    if s.owner.Some? { assert CallOk(s, s.owner.value); }
  }

  lemma AbsorbedStep(s: State, l: Label)
    requires Inv(s) && Absorbed(s) && Enabled(s, l)
    ensures Absorbed(Next(s, l))
  {
    hide Inv, Enabled, Next, Holder;
    if OfRelease(l) {
      AbsorbedReleaseStep(s, l);
    } else if OfFuture(l) {
      FutureKeeps(s, l);
    } else {
      CallKeeps(s, l);
    }
  }

  /** A poisoned release that locks or defers leaves its poison with the owner or in the word. */
  lemma PoisonAbsorbed(s: State, t: nat, l: Label)
    requires Enabled(s, l) && (l == Lock(t) || l == Defer(t)) && s.CallOf(t).releasable.Poison?
    ensures Absorbed(Next(s, l))
  {
  }

  lemma UnlockedPoison(s: State)
    requires Inv(s) && Absorbed(s) && s.release.Unlocked?
    ensures Poisoned(s)
  {
  }

  /** It is never lost: in all runs from there `Available`, `Unlocked`, `LockedDirty` or the lock
      owner has it; and whenever the lock is free again, it has taken effect. */
  lemma {:induction false} PoisonIsNeverLost(s: State, labels: seq<Label>, s': State)
    requires Inv(s) && Absorbed(s) && Run(s, labels, s')
    ensures Absorbed(s')
    ensures s'.release.Unlocked? ==> Poisoned(s')
    decreases |labels|
  {
    if labels == [] {
      if s.release.Unlocked? { UnlockedPoison(s); }
    } else {
      hide Inv, Enabled, Next, Absorbed, Poisoned;
      AbsorbedStep(s, labels[0]);
      StepInv(s, labels[0]);
      PoisonIsNeverLost(Next(s, labels[0]), labels[1..], s');
    }
  }

  /** So whoever calls `poison`, or releases more than the maximum: once the call has locked or
      deferred, every run to a free lock ends in a poisoned state. */
  lemma PoisonTakesHold(s: State, t: nat, l: Label, labels: seq<Label>, s': State)
    requires Inv(s) && Enabled(s, l) && (l == Lock(t) || l == Defer(t)) && s.CallOf(t).releasable.Poison?
    requires Run(Next(s, l), labels, s') && s'.release.Unlocked?
    ensures Poisoned(s')
  {
    hide Inv, Enabled, Next, Absorbed, Poisoned, Run;
    PoisonAbsorbed(s, t, l);
    StepInv(s, l);
    PoisonIsNeverLost(Next(s, l), labels, s');
  }

  /** When a poisoned release locks or defers, the semaphore is poisoned from then on if and only if
      it was before or the call takes the lock while acquires are queued. In the other cases poison
      waits: in the owner's hands for the flip, or in `LockedDirty` for the owner to collect. */
  lemma PoisonTakesEffect(s: State, t: nat, l: Label)
    requires Inv(s) && Enabled(s, l) && (l == Lock(t) || l == Defer(t)) && s.CallOf(t).releasable.Poison?
    ensures Poisoned(Next(s, l)) <==> Poisoned(s) || (s.release.Unlocked? && s.acquire.Queued?)
    ensures if l.Lock? then Holder(Next(s, l)).releasable.Poison? else Next(s, l).release == LockedDirty(Poison)
  {
    assert CallOk(s, t);
    if s.owner.Some? { assert CallOk(s, s.owner.value); }
  }

  /** The owner's flip makes it effective, and so does the round that collects a deferred poison,
      unless permits are available, in which case that round's flip does. */
  lemma PoisonCollected(s: State, t: nat, l: Label)
    requires Inv(s) && Enabled(s, l)
    ensures l == FlipAvailable(t) && s.CallOf(t).releasable.Poison? ==> Next(s, l).acquire == Available(Poison)
    ensures l == Redo(t) && s.release.permits.Poison? ==>
              Holder(Next(s, l)).Release? && Holder(Next(s, l)).releasable.Poison? && (Poisoned(Next(s, l)) <==> s.acquire.Queued? || s.acquire.permits.Poison?)
  {
    assert CallOk(s, t);
  }

  // ----- No false errors -----

  /** The poll or `try_acquire` of `t` loaded a poisoned word and will report it. */
  predicate SawPoison(c: Call) {
    (c.PollEnter? && c.enterCur == Some(Available(Poison))) || (c.TryAcquire? && c.tryCur == Some(Available(Poison)))
  }

  predicate Failed(s: State, w: nat) {
    w in s.waiters && s.waiters[w].waker == Finished(true)
  }

  predicate ErrorsTrue(s: State, w: nat) {
    (SawPoison(s.CallOf(w)) ==> s.acquire == Available(Poison)) && (Failed(s, w) ==> Poisoned(s))
  }

  lemma AvailablePoisonStays(s: State, l: Label)
    requires Enabled(s, l) && s.acquire == Available(Poison)
    ensures Next(s, l).acquire == Available(Poison)
  {
    if OfFuture(l) {
      hide Enabled, Next;
      FutureWords(s, l);
    } else if !OfRelease(l) {
      hide Enabled, Next;
      CallWords(s, l);
    }
  }

  lemma ReleaseSees(s: State, l: Label, w: nat)
    requires Enabled(s, l) && OfRelease(l)
    ensures SawPoison(Next(s, l).CallOf(w)) ==> SawPoison(s.CallOf(w))
  {
  }

  lemma ReleaseFails(s: State, l: Label, w: nat)
    requires Inv(s) && Enabled(s, l) && OfRelease(l)
    ensures Failed(Next(s, l), w) ==> Failed(s, w) || Poisoned(s)
  {
    if l.Fail? { assert CallOk(s, l.t) && WaiterOk(s, s.list[0]); }
  }

  lemma FutureErrors(s: State, l: Label, w: nat)
    requires Enabled(s, l) && OfFuture(l)
    ensures SawPoison(Next(s, l).CallOf(w)) ==> SawPoison(s.CallOf(w))
    ensures Failed(Next(s, l), w) ==> Failed(s, w)
  {
  }

  lemma CallErrors(s: State, l: Label, w: nat)
    requires Enabled(s, l) && !OfRelease(l) && !OfFuture(l)
    ensures SawPoison(Next(s, l).CallOf(w)) ==> SawPoison(s.CallOf(w)) || s.acquire == Available(Poison)
    ensures Failed(Next(s, l), w) ==> Failed(s, w)
  {
  }

  lemma ErrorsStep(s: State, l: Label, w: nat)
    requires Inv(s) && Enabled(s, l) && ErrorsTrue(s, w)
    ensures ErrorsTrue(Next(s, l), w)
  {
    hide Inv, Enabled, Next, Poisoned, Failed, SawPoison;
    if OfRelease(l) {
      ReleaseSees(s, l, w);
      ReleaseFails(s, l, w);
    } else if OfFuture(l) {
      FutureErrors(s, l, w);
    } else {
      CallErrors(s, l, w);
    }
    if s.acquire == Available(Poison) { AvailablePoisonStays(s, l); }
    if Poisoned(s) { PoisonedStep(s, l); }
  }

  lemma {:induction false} ErrorsRun(s: State, labels: seq<Label>, s': State, w: nat)
    requires Inv(s) && ErrorsTrue(s, w) && Run(s, labels, s')
    ensures ErrorsTrue(s', w)
    decreases |labels|
  {
    hide Inv, Enabled, Next, ErrorsTrue;
    if labels != [] {
      ErrorsStep(s, labels[0], w);
      StepInv(s, labels[0]);
      ErrorsRun(Next(s, labels[0]), labels[1..], s', w);
    }
  }

  /** Nobody is told of poison for nothing: when a first poll or `try_acquire` returns the error, or a
      later poll of a failed acquire may, the semaphore is poisoned, and so it stays. */
  lemma ErrorsAreTrue(s: State, w: nat)
    requires Reachable(s)
    ensures Enabled(s, EnterPoisoned(w)) ==> s.acquire == Available(Poison)
    ensures s.CallOf(w).TryAcquire? && s.CallOf(w).tryCur == Some(Available(Poison)) ==> s.acquire == Available(Poison)
    ensures w in s.waiters && s.waiters[w].waker == Finished(true) ==> Poisoned(s)
  {
    var s0, labels :| Init(s0) && Run(s0, labels, s);
    var initial: nat, max: nat :| s0 == Fresh(max, initial);
    FreshInv(max, initial);
    assert ErrorsTrue(s0, w);
    hide Inv, Run;
    ErrorsRun(s0, labels, s, w);
  }

  // ----- Between poison() returning and poison taking effect -----

  ghost predicate Above(ids: set<nat>, t: nat) {
    forall i :: i in ids ==> i < t
  }

  lemma {:induction false} UnusedAddress(ids: set<nat>)
    ensures exists t: nat :: Above(ids, t)
    decreases ids
  {
    if ids == {} {
      assert Above(ids, 0);
    } else {
      var x :| x in ids;
      UnusedAddress(ids - {x});
      var t: nat :| Above(ids - {x}, t);
      forall i | i in ids ensures i < t + x + 1 {
        assert i == x || i in ids - {x};
      }
      assert Above(ids, t + x + 1);
    }
  }

  ghost predicate CanGrant(s: State) {
    exists labels, s', l :: Run(s, labels, s') && Grants(l) && Enabled(s', l)
  }

  lemma TrySteps(s: State, t: nat)
    requires s.acquire.Available? && s.acquire.permits.Count? && t !in s.waiters && t !in s.calls
    ensures Enabled(s, TryStart(t, 0))
    ensures var s1 := Next(s, TryStart(t, 0)); Enabled(s1, Load(t)) && Enabled(Next(s1, Load(t)), TryFast(t))
  {
  }

  /** A fresh `try_acquire(0)` that nobody interferes with. */
  lemma TryAlone(s: State, t: nat)
    requires s.acquire.Available? && s.acquire.permits.Count? && t !in s.waiters && t !in s.calls
    ensures exists labels, s' :: Run(s, labels, s') && Enabled(s', TryFast(t))
  {
    TrySteps(s, t);
    hide Enabled, Next, Run;
    TwoSteps(s, TryStart(t, 0), Load(t));
  }

  lemma AvailableCanGrant(s: State)
    requires s.acquire.Available? && s.acquire.permits.Count?
    ensures CanGrant(s)
  {
    UnusedAddress(s.waiters.Keys + s.calls.Keys);
    var t: nat :| Above(s.waiters.Keys + s.calls.Keys, t);
    assert t !in s.waiters.Keys && t !in s.calls.Keys;
    TryAlone(s, t);
    assert Grants(TryFast(t));
  }

  /** While permits are available, somebody can still be granted some exactly as long as the
      semaphore is not poisoned, whatever poison is on its way. */
  lemma AvailableGrantsUnlessPoisoned(s: State)
    requires Inv(s) && s.acquire.Available?
    ensures CanGrant(s) <==> !Poisoned(s)
  {
    if Poisoned(s) {
      forall labels, s', l | Run(s, labels, s') && Grants(l) ensures !Enabled(s', l) {
        PoisonIsPermanent(s, labels, s');
        RunInv(s, labels, s');
        NoGrantWhenPoisoned(s', l);
      }
    } else {
      AvailableCanGrant(s);
    }
  }

  /** The documentation says that all acquires fail once the semaphore is poisoned. The code does not
      keep that from the moment `poison` returns: called while some release holds the lock and permits
      are available, it defers and returns, and an acquire that begins later can still succeed. */
  lemma DeferredPoisonStillGrants(s: State, t: nat)
    requires Inv(s) && !s.release.Unlocked? && s.acquire.Available? && s.acquire.permits.Count?
    requires t !in s.waiters && s.CallOf(t).Idle?
    ensures exists s' :: Run(s, [PoisonStart(t), Load(t), Defer(t)], s') && s'.CallOf(t).Idle? && CanGrant(s')
  {
    ThreeSteps(s, PoisonStart(t), Load(t), Defer(t));
    AvailableCanGrant(Next(Next(Next(s, PoisonStart(t)), Load(t)), Defer(t)));
  }

  /** Such states are reached: a release of a semaphore with permits to spare takes the lock. */
  lemma LockedWithPermits(max: nat, initial: nat, t: nat, amount: nat)
    requires initial <= max
    ensures exists s :: Run(Fresh(max, initial), [ReleaseStart(t, amount), Load(t), Lock(t)], s)
                        && !s.release.Unlocked? && s.acquire == Available(Count(initial))
  {
    ThreeSteps(Fresh(max, initial), ReleaseStart(t, amount), Load(t), Lock(t));
  }
}
