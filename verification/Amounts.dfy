/** What a call asks for is what it gets. The state keeps the amount of every call that is under way;
    here it is followed through runs, from the label that begins the call to the steps that act on it. */
module Amounts {
  import opened Sequences
  import opened PermitValues
  import opened Protocol
  import opened Refinement
  import opened Runs

  // ----- acquire -----

  /** No other future is made at the address `w`. */
  ghost predicate SameFuture(labels: seq<Label>, w: nat) {
    forall i :: 0 <= i < |labels| ==> !(labels[i].NewFuture? && labels[i].w == w)
  }

  /** The future at `w`, while there is one, asks for `n`. */
  predicate AsksFor(s: State, w: nat, n: nat) {
    w in s.waiters ==> s.waiters[w].amount == n
  }

  lemma NoNewNode(s: State, l: Label, w: nat)
    requires Enabled(s, l) && OfRelease(l) && w in Next(s, l).waiters
    ensures w in s.waiters
  {
  }

  lemma NoNewFuture(s: State, l: Label, w: nat)
    requires Enabled(s, l) && OfFuture(l) && !(l.NewFuture? && l.w == w) && w in Next(s, l).waiters
    ensures w in s.waiters
  {
  }

  lemma NoNewWaiter(s: State, l: Label, w: nat)
    requires Enabled(s, l) && !(l.NewFuture? && l.w == w) && w in Next(s, l).waiters
    ensures w in s.waiters
  {
    hide Enabled, Next;
    if OfRelease(l) {
      NoNewNode(s, l, w);
    } else if OfFuture(l) {
      NoNewFuture(s, l, w);
    } else {
      CallKeepsAmount(s, l);
    }
  }

  lemma {:induction false} KeepsAsking(s: State, labels: seq<Label>, s': State, w: nat, n: nat)
    requires Run(s, labels, s') && SameFuture(labels, w) && AsksFor(s, w, n)
    ensures AsksFor(s', w, n)
    decreases |labels|
  {
    hide Enabled, Next;
    if labels != [] {
      var next := Next(s, labels[0]);
      if w in next.waiters {
        NoNewWaiter(s, labels[0], w);
        AmountKept(s, labels[0], w);
      }
      KeepsAsking(next, labels[1..], s', w, n);
    }
  }

  /** Available permits are taken: there are `n`, and a guard of `n` is made of them. */
  predicate Takes(s: State, s': State, n: nat) {
    && s.acquire.Available? && s.acquire.permits.Count? && n <= s.acquire.permits.n
    && s'.acquire == Available(Count(s.acquire.permits.n - n)) && s'.guards == s.guards + n
  }

  /** No permits can be taken: somebody is queued, there is poison, or there are fewer than `n`. */
  predicate Refuses(a: AcquireState, n: nat) {
    a.Queued? || a.permits.Poison? || a.permits.n < n
  }

  /** What the steps that act for the future at `w` do with the number it asks for. */
  predicate Honours(s: State, l: Label, w: nat, n: nat)
    requires Enabled(s, l)
  {
    var s' := Next(s, l);
    && (l == EnterFast(w) ==> Takes(s, s', n))
    && (l == EnterPush(w) ==>
          Refuses(s.acquire, n) && s.acquire != Available(Poison) && EventOf(s, l) == Enqueue(w, n) && s'.guards == s.guards)
    && (l.Grant? && s.list != [] && s.list[0] == w ==>
          var r, r' := s.CallOf(l.t), s'.CallOf(l.t);
          && EventOf(s, l) == GrantHead(w, n) && r.Release? && r'.Release?
          && r.releasable.Count? && n <= r.releasable.n && r'.releasable == Count(r.releasable.n - n))
    && (l == PollWaiting(w) ==>
          w in s.waiters && s.waiters[w].waker.Finished?
          && s'.guards == s.guards + if s.waiters[w].waker.poisoned then 0 else n)
    && (l == DropFinished(w) ==>
          w in s.waiters && s.waiters[w].waker.Finished?
          && if s.waiters[w].waker.poisoned then s'.calls == s.calls
             else s'.CallOf(w) == Release(New(s.max, n), Locking(None), ReturnUnit))
  }

  lemma AskedIsHonoured(s: State, l: Label, w: nat, n: nat)
    requires Enabled(s, l) && AsksFor(s, w, n) && !l.NewFuture?
    ensures Honours(s, l, w, n)
  {
  }

  lemma OtherFuture(s: State, l: Label, w: nat, n: nat)
    requires Enabled(s, l) && l.NewFuture?
    ensures Honours(s, l, w, n)
  {
  }

  /** `acquire(n)`: whatever becomes of its future, and whatever others do in between, its fast path
      takes `n` permits, its node is queued for `n` and served with `n`, and the guard that its poll
      returns has them, or its drop gives `n` back. */
  lemma AcquireAsked(s: State, w: nat, n: nat, labels: seq<Label>, mid: State, l: Label)
    requires Enabled(s, NewFuture(w, n)) && Run(Next(s, NewFuture(w, n)), labels, mid)
    requires SameFuture(labels + [l], w) && Enabled(mid, l)
    ensures Honours(mid, l, w, n)
  {
    var made := Next(s, NewFuture(w, n));
    assert AsksFor(made, w, n);
    assert forall i :: 0 <= i < |labels| ==> (labels + [l])[i] == labels[i];
    assert (labels + [l])[|labels|] == l;
    hide Enabled, Next, AsksFor, Honours;
    KeepsAsking(made, labels, mid, w, n);
    if l.NewFuture? {
      OtherFuture(mid, l, w, n);
    } else {
      AskedIsHonoured(mid, l, w, n);
    }
  }

  // ----- try_acquire -----

  /** The call of `t` does not begin again. */
  ghost predicate SameTry(labels: seq<Label>, t: nat) {
    forall i :: 0 <= i < |labels| ==> !(labels[i].TryStart? && labels[i].t == t)
  }

  /** The word was loaded by `t` on the way. */
  ghost predicate LoadedOnTheWay(s: State, labels: seq<Label>, t: nat, a: AcquireState) {
    exists i, at :: 0 <= i < |labels| && labels[i] == Load(t) && Run(s, labels[..i], at) && at.acquire == a
  }

  /** While the call of `t` is `try_acquire` it is for `n`, and it has loaded nothing but `cur`. */
  predicate Tries(s: State, t: nat, n: nat, cur: Option<AcquireState>) {
    s.CallOf(t).TryAcquire? ==> s.CallOf(t) == TryAcquire(n, cur)
  }

  lemma TryGoesOn(s: State, l: Label, t: nat, n: nat, cur: Option<AcquireState>)
    requires Enabled(s, l) && Tries(s, t, n, cur) && !(l.TryStart? && l.t == t)
    ensures Tries(Next(s, l), t, n, if l == Load(t) then Some(s.acquire) else cur)
  {
  }

  lemma LoadedLater(s: State, labels: seq<Label>, t: nat, a: AcquireState)
    requires labels != [] && Enabled(s, labels[0])
    ensures LoadedOnTheWay(Next(s, labels[0]), labels[1..], t, a) ==> LoadedOnTheWay(s, labels, t, a)
  {
    hide Enabled, Next;
    var next, rest := Next(s, labels[0]), labels[1..];
    if LoadedOnTheWay(next, rest, t, a) {
      var i, at :| 0 <= i < |rest| && rest[i] == Load(t) && Run(next, rest[..i], at) && at.acquire == a;
      assert labels[..i + 1][1..] == rest[..i] && labels[i + 1] == rest[i];
      assert Run(s, labels[..i + 1], at);
    }
  }

  lemma {:induction false} TryRun(s: State, labels: seq<Label>, s': State, t: nat, n: nat, cur: Option<AcquireState>)
    requires Run(s, labels, s') && SameTry(labels, t) && Tries(s, t, n, cur)
    ensures s'.CallOf(t).TryAcquire? ==>
              var k := s'.CallOf(t);
              k.amount == n && (k.tryCur == cur || (k.tryCur.Some? && LoadedOnTheWay(s, labels, t, k.tryCur.value)))
    decreases |labels|
  {
    hide Enabled, Next;
    if labels != [] {
      var l, next := labels[0], Next(s, labels[0]);
      var cur' := if l == Load(t) then Some(s.acquire) else cur;
      TryGoesOn(s, l, t, n, cur);
      TryRun(next, labels[1..], s', t, n, cur');
      if l == Load(t) {
        assert Run(s, labels[..0], s);
        assert LoadedOnTheWay(s, labels, t, s.acquire);
      }
      if s'.CallOf(t).TryAcquire? && s'.CallOf(t).tryCur.Some? {
        LoadedLater(s, labels, t, s'.CallOf(t).tryCur.value);
      }
    }
  }

  lemma TryEnds(s: State, t: nat, n: nat)
    requires s.CallOf(t).TryAcquire? ==> s.CallOf(t).amount == n
    ensures Enabled(s, TryFast(t)) ==> Takes(s, Next(s, TryFast(t)), n)
    ensures Enabled(s, TryFail(t)) ==>
              var s' := Next(s, TryFail(t));
              && s.CallOf(t).TryAcquire? && s.CallOf(t).tryCur.Some? && Refuses(s.CallOf(t).tryCur.value, n)
              && s'.acquire == s.acquire && s'.guards == s.guards
  {
  }

  /** `try_acquire(n)`: if it succeeds, there were `n` permits and it takes them; if it fails, it takes
      nothing, and it found somebody queued, poison, or fewer than `n` permits when it looked. */
  lemma TryAsked(s: State, t: nat, n: nat, labels: seq<Label>, mid: State)
    requires Enabled(s, TryStart(t, n)) && Run(Next(s, TryStart(t, n)), labels, mid) && SameTry(labels, t)
    ensures Enabled(mid, TryFast(t)) ==> Takes(mid, Next(mid, TryFast(t)), n)
    ensures Enabled(mid, TryFail(t)) ==>
              && Next(mid, TryFail(t)).acquire == mid.acquire && Next(mid, TryFail(t)).guards == mid.guards
              && exists a :: Refuses(a, n) && LoadedOnTheWay(Next(s, TryStart(t, n)), labels, t, a)
  {
    var begun := Next(s, TryStart(t, n));
    assert Tries(begun, t, n, None);
    hide Enabled, Next, Tries, Takes, Refuses, LoadedOnTheWay;
    TryRun(begun, labels, mid, t, n, None);
    TryEnds(mid, t, n);
  }
}
