/** The permits of one future: what it is granted is claimed or given back once, and only once. */
module Ledger {
  import opened Protocol
  import opened Invariant
  import opened Steps
  import opened Runs

  /** The waiter at `w` has its permits and has not been asked about them. */
  predicate Given(s: State, w: nat) {
    w in s.waiters && s.waiters[w].step.Waiting? && s.waiters[w].waker == Finished(false)
  }

  /** It may still be granted them. */
  predicate Open(s: State, w: nat) {
    w in s.waiters && s.waiters[w].waker.Pending?
  }

  predicate IsGrant(s: State, l: Label, w: nat) {
    l.Grant? && s.list != [] && s.list[0] == w
  }

  /** A poll that returns the guard, or a drop that finds the acquire finished and releases it. */
  predicate IsClaim(s: State, l: Label, w: nat) {
    (l == PollWaiting(w) || l == DropFinished(w)) && Given(s, w)
  }

  function GrantsOf(s: State, labels: seq<Label>, w: nat): nat
    decreases |labels|
  {
    if labels == [] || !Enabled(s, labels[0]) then 0
    else One(IsGrant(s, labels[0], w)) + GrantsOf(Next(s, labels[0]), labels[1..], w)
  }

  function ClaimsOf(s: State, labels: seq<Label>, w: nat): nat
    decreases |labels|
  {
    if labels == [] || !Enabled(s, labels[0]) then 0
    else One(IsClaim(s, labels[0], w)) + ClaimsOf(Next(s, labels[0]), labels[1..], w)
  }

  /** How many futures have lived at the address. */
  function FuturesOf(labels: seq<Label>, w: nat): nat {
    if labels == [] then 0 else One(labels[0].NewFuture? && labels[0].w == w) + FuturesOf(labels[1..], w)
  }

  lemma ReleaseStep(s: State, l: Label, w: nat)
    requires Inv(s) && Enabled(s, l) && OfRelease(l)
    ensures One(Given(s, w)) + One(IsGrant(s, l, w)) == One(Given(Next(s, l), w))
    ensures One(IsGrant(s, l, w)) + One(Open(Next(s, l), w)) <= One(Open(s, w))
  {
    if s.list != [] { assert WaiterOk(s, s.list[0]); }
    if l.Unlink? {
      assert CallOk(s, l.t) && WaiterOk(s, Taken(s)[0]);
    }
  }

  lemma WaiterAgrees(s: State, w: nat)
    requires Inv(s)
    ensures Agrees(s, w)
  {
    assert WaiterOk(s, w);
  }

  lemma FutureClaims(s: State, l: Label, w: nat)
    requires Agrees(s, w) && Enabled(s, l) && OfFuture(l)
    ensures One(Given(s, w)) == One(IsClaim(s, l, w)) + One(Given(Next(s, l), w))
  {
  }

  lemma FutureOpens(s: State, l: Label, w: nat)
    requires Enabled(s, l) && OfFuture(l)
    ensures One(Open(Next(s, l), w)) <= One(l.NewFuture? && l.w == w) + One(Open(s, w))
  {
  }

  lemma CallStep(s: State, l: Label, w: nat)
    requires Enabled(s, l) && !OfRelease(l) && !OfFuture(l)
    ensures Next(s, l).waiters == s.waiters
  {
  }

  lemma OneStepOf(s: State, l: Label, w: nat)
    requires Inv(s) && Enabled(s, l)
    ensures One(Given(s, w)) + One(IsGrant(s, l, w)) == One(IsClaim(s, l, w)) + One(Given(Next(s, l), w))
    ensures One(IsGrant(s, l, w)) + One(Open(Next(s, l), w)) <= One(l.NewFuture? && l.w == w) + One(Open(s, w))
  {
    hide Inv, Enabled, Next, Agrees;
    if OfRelease(l) {
      ReleaseStep(s, l, w);
    } else if OfFuture(l) {
      WaiterAgrees(s, w);
      FutureClaims(s, l, w);
      FutureOpens(s, l, w);
    } else {
      CallStep(s, l, w);
    }
  }

  /** Over every run: what a future was granted it has claimed, by its poll or by its drop, except for
      at most one grant that it has yet to hear of; and no future is granted its permits twice. */
  lemma {:induction false} GrantedOnceClaimedOnce(s: State, labels: seq<Label>, s': State, w: nat)
    requires Inv(s) && Run(s, labels, s')
    ensures One(Given(s, w)) + GrantsOf(s, labels, w) == ClaimsOf(s, labels, w) + One(Given(s', w))
    ensures GrantsOf(s, labels, w) + One(Open(s', w)) <= FuturesOf(labels, w) + One(Open(s, w))
    decreases |labels|
  {
    hide Inv, Enabled, Next, Given, Open, IsGrant, IsClaim;
    if labels != [] {
      OneStepOf(s, labels[0], w);
      StepInv(s, labels[0]);
      GrantedOnceClaimedOnce(Next(s, labels[0]), labels[1..], s', w);
    }
  }

  // ----- Each future has one result -----

  /** The future at `w` has not returned a result yet. */
  predicate Unresolved(s: State, w: nat) {
    w in s.waiters && !s.waiters[w].step.Done?
  }

  /** A poll of it returns `Ready`, with a guard or the error. */
  predicate Resolves(l: Label, w: nat) {
    l == EnterFast(w) || l == EnterPoisoned(w) || l == PollWaiting(w)
  }

  function ResultsOf(labels: seq<Label>, w: nat): nat {
    if labels == [] then 0 else One(Resolves(labels[0], w)) + ResultsOf(labels[1..], w)
  }

  lemma ReleaseResolves(s: State, l: Label, w: nat)
    requires Enabled(s, l) && OfRelease(l)
    ensures Unresolved(Next(s, l), w) ==> Unresolved(s, w)
  {
  }

  lemma FutureResolves(s: State, l: Label, w: nat)
    requires Agrees(s, w) && Enabled(s, l) && OfFuture(l)
    ensures One(Resolves(l, w)) + One(Unresolved(Next(s, l), w)) <= One(l.NewFuture? && l.w == w) + One(Unresolved(s, w))
  {
  }

  lemma OneStepResolves(s: State, l: Label, w: nat)
    requires Inv(s) && Enabled(s, l)
    ensures One(Resolves(l, w)) + One(Unresolved(Next(s, l), w)) <= One(l.NewFuture? && l.w == w) + One(Unresolved(s, w))
  {
    assert Resolves(l, w) ==> OfFuture(l) && !OfRelease(l);
    hide Inv, Enabled, Next, Agrees, Resolves, OfFuture, OfRelease;
    if OfRelease(l) {
      ReleaseResolves(s, l, w);
    } else if OfFuture(l) {
      WaiterAgrees(s, w);
      FutureResolves(s, l, w);
    } else {
      CallStep(s, l, w);
    }
  }

  /** Over every run a future returns at most one result, and none once it has. */
  lemma {:induction false} ResolvesOnce(s: State, labels: seq<Label>, s': State, w: nat)
    requires Inv(s) && Run(s, labels, s')
    ensures ResultsOf(labels, w) + One(Unresolved(s', w)) <= FuturesOf(labels, w) + One(Unresolved(s, w))
    decreases |labels|
  {
    hide Inv, Enabled, Next, Unresolved, Resolves;
    if labels != [] {
      OneStepResolves(s, labels[0], w);
      StepInv(s, labels[0]);
      ResolvesOnce(Next(s, labels[0]), labels[1..], s', w);
    }
  }
}
