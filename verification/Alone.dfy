/** The two readings of `release` agree: a call that nobody interferes with takes the protocol's
    state to where the contract of `Heap.ReleaseAction.Release` says. */
module Alone {
  import opened Sequences
  import opened PermitValues
  import opened Protocol
  import opened Invariant
  import opened Steps
  import opened Safety
  import opened Runs
  import Progress
  import H = Heap

  // ----- Runs of one call -----

  /** The call gets there by its own steps. */
  ghost predicate Leads(s: State, t: nat, s': State) {
    exists labels :: Run(s, labels, s') && Progress.OnlyBy(labels, t)
  }

  lemma LeadsOn(s: State, t: nat, mid: State, s': State)
    requires Leads(s, t, mid) && Leads(mid, t, s')
    ensures Leads(s, t, s')
  {
    hide Run;
    var a :| Run(s, a, mid) && Progress.OnlyBy(a, t);
    var b :| Run(mid, b, s') && Progress.OnlyBy(b, t);
    RunAppend(s, a, mid, b, s');
  }

  lemma LeadsByOne(s: State, t: nat, l: Label)
    requires Enabled(s, l) && (l == Load(t) || (OfRelease(l) && l.t == t))
    ensures Leads(s, t, Next(s, l))
  {
    hide Enabled, Next;
    OneStep(s, l);
    assert Progress.OnlyBy([l], t);
  }

  lemma LeadsByTwo(s: State, t: nat, k: Label, l: Label)
    requires Enabled(s, k) && (k == Load(t) || (OfRelease(k) && k.t == t))
    requires Enabled(Next(s, k), l) && (l == Load(t) || (OfRelease(l) && l.t == t))
    ensures Leads(s, t, Next(Next(s, k), l))
  {
    hide Enabled, Next;
    LeadsByOne(s, t, k);
    LeadsByOne(Next(s, k), t, l);
    LeadsOn(s, t, Next(s, k), Next(Next(s, k), l));
  }

  lemma LeadsToInv(s: State, t: nat, s': State)
    requires Inv(s) && Leads(s, t, s')
    ensures Inv(s')
  {
    hide Inv, Run, Progress.OnlyBy;
    var labels :| Run(s, labels, s') && Progress.OnlyBy(labels, t);
    RunInv(s, labels, s');
  }

  // ----- The pop loop -----

  ghost predicate AllIn(nodes: seq<nat>, waiters: map<nat, Waiter>) {
    forall i :: 0 <= i < |nodes| ==> nodes[i] in waiters
  }

  function Asks(nodes: seq<nat>, waiters: map<nat, Waiter>): (r: seq<(nat, bool)>)
    requires AllIn(nodes, waiters)
  {
    if nodes == [] then []
    else [(waiters[nodes[0]].amount, waiters[nodes[0]].waker.Cancelling?)] + Asks(nodes[1..], waiters)
  }

  lemma {:induction false} AsksSame(nodes: seq<nat>, a: map<nat, Waiter>, b: map<nat, Waiter>)
    requires AllIn(nodes, a) && AllIn(nodes, b) && forall i :: 0 <= i < |nodes| ==> a[nodes[i]] == b[nodes[i]]
    ensures Asks(nodes, a) == Asks(nodes, b)
  {
    if nodes != [] {
      AsksSame(nodes[1..], a, b);
    }
  }

  /** The `k` front waiters are finished, with or without poison, and nothing else has changed but
      the owner's program counter and its permits. */
  ghost predicate Popped(s: State, s': State, t: nat, k: nat, left: Permits) {
    var c := s.CallOf(t);
    && c.Release? && k <= |s.list|
    && s'.max == s.max && s'.acquire == s.acquire && s'.release == s.release && s'.stack == s.stack
    && s'.cancels == s.cancels && s'.owner == s.owner
    && s'.list == s.list[k..]
    && s'.CallOf(t) == Release(left, Unlocking(None), c.after)
    && (forall i :: 0 <= i < k ==> s.list[i] in s'.waiters && s'.waiters[s.list[i]].waker == Finished(c.releasable.Poison?))
    && (forall w :: w in s.waiters && w !in s.list[..k] ==> w in s'.waiters && s'.waiters[w] == s.waiters[w])
  }

  lemma ListLive(s: State)
    requires Inv(s)
    ensures AllIn(s.list, s.waiters)
  {
    forall i | 0 <= i < |s.list| ensures s.list[i] in s.waiters { assert WaiterOk(s, s.list[i]); }
  }

  lemma PopOne(s: State, t: nat, l: Label)
    requires Inv(s) && Pops(s, t) && Enabled(s, l) && (l == Grant(t) || l == Fail(t))
    ensures AllIn(s.list, s.waiters)
    ensures var s', c, w := Next(s, l), s.CallOf(t), s.list[0];
            && AllIn(s'.list, s'.waiters) && Pops(s', t)
            && H.Fits((s.waiters[w].amount, s.waiters[w].waker.Cancelling?), c.releasable)
            && s'.CallOf(t) == Release(H.Less(c.releasable, s.waiters[w].amount), Popping, c.after)
            && s'.list == s.list[1..] && Asks(s'.list, s'.waiters) == Asks(s.list, s.waiters)[1..]
            && s'.waiters == s.waiters[w := s.waiters[w].(waker := Finished(c.releasable.Poison?))]
            && s' == s.(list := s'.list, waiters := s'.waiters, calls := s'.calls)
  {
    ListLive(s);
    var s', w := Next(s, l), s.list[0];
    assert WaiterOk(s, w);
    assert s'.waiters == s.waiters[w := s.waiters[w].(waker := Finished(s.CallOf(t).releasable.Poison?))];
    assert w !in s'.list;
    AsksSame(s'.list, s.waiters, s'.waiters);
  }

  lemma PopStep(s: State, t: nat, l: Label, s': State, k: nat, left: Permits)
    requires Inv(s) && Pops(s, t) && Enabled(s, l) && (l == Grant(t) || l == Fail(t))
    requires Popped(Next(s, l), s', t, k, left)
    ensures Popped(s, s', t, k + 1, left)
  {
    PopOne(s, t, l);
    assert NoDup(s.list) && s.list != [];
    hide Inv, Enabled, Next;
    var mid, w := Next(s, l), s.list[0];
    assert s.list[1..][k..] == s.list[k + 1..];
    assert s.list[..k + 1] == [w] + mid.list[..k];
    assert w !in mid.list[..k];
    forall i | 0 <= i < k + 1 ensures s.list[i] in s'.waiters && s'.waiters[s.list[i]].waker == Finished(s.CallOf(t).releasable.Poison?) {
      if i > 0 { assert mid.list[i - 1] == s.list[i]; }
    }
    forall v | v in s.waiters && v !in s.list[..k + 1] ensures v in s'.waiters && s'.waiters[v] == s.waiters[v] {
      assert v != w && v !in mid.list[..k];
    }
  }

  lemma PopsStop(s: State, t: nat)
    requires Inv(s) && Pops(s, t) && Enabled(s, PopStop(t))
    ensures Popped(s, Next(s, PopStop(t)), t, 0, s.CallOf(t).releasable)
  {
  }

  /** The front is popped exactly if it fits in the sense of `Heap.Serve`. */
  lemma FrontStep(s: State, t: nat)
    requires Inv(s) && Pops(s, t)
    ensures AllIn(s.list, s.waiters)
    ensures s.list != [] && H.Fits(Asks(s.list, s.waiters)[0], s.CallOf(t).releasable) ==>
              Enabled(s, if s.CallOf(t).releasable.Count? then Grant(t) else Fail(t))
    ensures s.list == [] || !H.Fits(Asks(s.list, s.waiters)[0], s.CallOf(t).releasable) ==> Enabled(s, PopStop(t))
  {
    ListLive(s);
    if s.list != [] { assert WaiterOk(s, s.list[0]); }
  }

  /** The pop loop serves what `Heap.Serve` says. */
  lemma {:induction false} PopsAlone(s: State, t: nat)
    requires Inv(s) && Pops(s, t)
    ensures AllIn(s.list, s.waiters)
    ensures var (k, left) := H.Serve(Asks(s.list, s.waiters), s.CallOf(t).releasable);
            exists s' :: Leads(s, t, s') && Popped(s, s', t, k, left)
    decreases |s.list|
  {
    hide Inv, Enabled, Next, Leads, Popped, AllIn;
    FrontStep(s, t);
    var r, asks := s.CallOf(t).releasable, Asks(s.list, s.waiters);
    if s.list == [] || !H.Fits(asks[0], r) {
      PopsStop(s, t);
      LeadsByOne(s, t, PopStop(t));
    } else {
      var l := if r.Count? then Grant(t) else Fail(t);
      var mid := Next(s, l);
      PopOne(s, t, l);
      StepInv(s, l);
      PopsAlone(mid, t);
      var (k, left) := H.Serve(asks[1..], H.Less(r, asks[0].0));
      var s' :| Leads(mid, t, s') && Popped(mid, s', t, k, left);
      PopStep(s, t, l, s', k, left);
      LeadsByOne(s, t, l);
      LeadsOn(s, t, mid, s');
    }
  }

  // ----- The cancellations -----

  /** The taken chain is unlinked and accepted, and nothing else has changed. */
  ghost predicate Unlinked(s: State, s': State, t: nat, taken: seq<nat>) {
    var c := s.CallOf(t);
    && c.Release?
    && s'.max == s.max && s'.acquire == s.acquire && s'.release == s.release && s'.stack == s.stack
    && s'.cancels == s.cancels && s'.owner == s.owner
    && s'.list == WithoutAll(s.list, taken)
    && s'.CallOf(t) == Release(c.releasable, Popping, c.after)
    && (forall i :: 0 <= i < |taken| ==> taken[i] in s'.waiters && s'.waiters[taken[i]].waker == Cancelled)
    && (forall w :: w in s.waiters && w !in taken ==> w in s'.waiters && s'.waiters[w] == s.waiters[w])
  }

  lemma UnlinkStep(s: State, t: nat, s': State)
    requires Inv(s) && Unlinks(s, t) && Enabled(s, Unlink(t))
    requires Unlinked(Next(s, Unlink(t)), s', t, s.CallOf(t).phase.taken[1..])
    ensures Unlinked(s, s', t, s.CallOf(t).phase.taken)
  {
    var taken := s.CallOf(t).phase.taken;
    var w, mid := taken[0], Next(s, Unlink(t));
    assert CallOk(s, t);
    assert taken == [w] + taken[1..];
    assert w !in taken[1..] && w in mid.waiters && mid.waiters[w].waker == Cancelled;
    forall i | 0 <= i < |taken| ensures taken[i] in s'.waiters && s'.waiters[taken[i]].waker == Cancelled {
      if i > 0 { assert taken[1..][i - 1] == taken[i]; }
    }
  }

  lemma NextUnlink(s: State, t: nat)
    requires Inv(s) && Unlinks(s, t)
    ensures var taken := s.CallOf(t).phase.taken;
            if taken == [] then Enabled(s, UnlinkDone(t)) && Unlinked(s, Next(s, UnlinkDone(t)), t, [])
            else Enabled(s, Unlink(t)) && Unlinks(Next(s, Unlink(t)), t)
                 && Next(s, Unlink(t)).CallOf(t).phase.taken == taken[1..]
  {
    assert CallOk(s, t);
    var taken := Taken(s);
    if taken != [] { assert WaiterOk(s, taken[0]); }
  }

  lemma {:induction false} UnlinksAlone(s: State, t: nat)
    requires Inv(s) && Unlinks(s, t)
    ensures exists s' :: Leads(s, t, s') && Unlinked(s, s', t, s.CallOf(t).phase.taken)
    decreases |s.CallOf(t).phase.taken|
  {
    hide Inv, Enabled, Next, Leads, Unlinked;
    NextUnlink(s, t);
    if s.CallOf(t).phase.taken == [] {
      LeadsByOne(s, t, UnlinkDone(t));
    } else {
      var mid := Next(s, Unlink(t));
      StepInv(s, Unlink(t));
      UnlinksAlone(mid, t);
      var s' :| Leads(mid, t, s') && Unlinked(mid, s', t, mid.CallOf(t).phase.taken);
      UnlinkStep(s, t, s');
      LeadsByOne(s, t, Unlink(t));
      LeadsOn(s, t, mid, s');
    }
  }

  // ----- Locking, flipping and unlocking -----

  /** The call holds the lock and the cancel stack. */
  ghost predicate TookLock(s: State, s': State, t: nat) {
    var c := s.CallOf(t);
    && Owing(c) && s.release.Unlocked?
    && s'.max == s.max && s'.acquire == s.acquire && s'.release == Locked && s'.waiters == s.waiters
    && s'.list == s.list && s'.stack == s.stack && s'.cancels == []
    && s'.CallOf(t) == Release(Plus(s.max, c.releasable, s.release.permits), Flipping(s.cancels, None), c.after)
  }

  lemma LockSteps(s: State, t: nat)
    requires Owing(s.CallOf(t)) && s.release.Unlocked?
    ensures Enabled(s, Load(t)) && Enabled(Next(s, Load(t)), Lock(t))
    ensures var s2 := Next(Next(s, Load(t)), Lock(t));
            Enabled(s2, Swap(t)) && TookLock(s, Next(s2, Swap(t)), t)
  {
  }

  lemma LocksAlone(s: State, t: nat)
    requires Owing(s.CallOf(t)) && s.release.Unlocked?
    ensures exists s' :: Leads(s, t, s') && TookLock(s, s', t)
  {
    hide Enabled, Next, Leads, TookLock;
    LockSteps(s, t);
    var s2 := Next(Next(s, Load(t)), Lock(t));
    LeadsByTwo(s, t, Load(t), Lock(t));
    LeadsByOne(s2, t, Swap(t));
    LeadsOn(s, t, s2, Next(s2, Swap(t)));
  }

  /** The queue is all in the list, or the permits are available. */
  ghost predicate Flipped(s: State, s': State, t: nat) {
    var c := s.CallOf(t);
    && c.Release? && c.phase.Flipping?
    && s'.max == s.max && s'.release == s.release && s'.waiters == s.waiters && s'.cancels == s.cancels
    && s'.list == PendingQueue(s) && s'.stack == []
    && (if PendingQueue(s) == [] then
          && s'.CallOf(t) == Release(Count(0), Unlinking(c.phase.taken), c.after)
          && s'.acquire == Available(if s.acquire.Queued? then c.releasable
                                     else Plus(s.max, s.acquire.permits, c.releasable))
        else
          && s'.CallOf(t) == Release(c.releasable, Unlinking(c.phase.taken), c.after)
          && s'.acquire == Queued(Null))
  }

  /** The branch of `flip` for the word as it is. */
  function FlipOf(s: State, t: nat): Label {
    if s.acquire.Available? || (s.acquire.back.Null? && s.list == []) then FlipAvailable(t)
    else if s.acquire.back.Null? then FlipSkip(t)
    else FlipTake(t)
  }

  lemma FlipSteps(s: State, t: nat)
    requires Words(s) && Flips(s, t)
    ensures Enabled(s, Load(t)) && Enabled(Next(s, Load(t)), FlipOf(s, t))
    ensures Flipped(s, Next(Next(s, Load(t)), FlipOf(s, t)), t)
  {
    assert s.stack == [] ==> Reverse(s.stack) == [] && s.list + [] == s.list;
    assert s.stack != [] ==> PendingQueue(s) != [];
  }

  lemma FlipsAlone(s: State, t: nat)
    requires Inv(s) && Flips(s, t)
    ensures exists s' :: Leads(s, t, s') && Flipped(s, s', t)
  {
    FlipSteps(s, t);
    hide Enabled, Next, Leads, Flipped;
    LeadsByTwo(s, t, Load(t), FlipOf(s, t));
  }

  ghost predicate Released(s: State, s': State, t: nat) {
    var c := s.CallOf(t);
    && c.Release?
    && s'.max == s.max && s'.acquire == s.acquire && s'.waiters == s.waiters
    && s'.list == s.list && s'.stack == s.stack && s'.cancels == s.cancels
    && s'.release == Unlocked(c.releasable) && s'.CallOf(t) == Returned(c.after)
  }

  lemma UnlockSteps(s: State, t: nat)
    requires s.CallOf(t).Release? && s.CallOf(t).phase.Unlocking? && s.release.Locked?
    ensures Enabled(s, Load(t)) && Enabled(Next(s, Load(t)), Unlock(t))
    ensures Released(s, Next(Next(s, Load(t)), Unlock(t)), t)
  {
  }

  lemma UnlocksAlone(s: State, t: nat)
    requires s.CallOf(t).Release? && s.CallOf(t).phase.Unlocking? && s.release.Locked?
    ensures exists s' :: Leads(s, t, s') && Released(s, s', t)
  {
    hide Enabled, Next, Leads, Released;
    UnlockSteps(s, t);
    LeadsByTwo(s, t, Load(t), Unlock(t));
  }

  // ----- One release -----

  function Staying(s: State): seq<nat> {
    WithoutAll(PendingQueue(s), s.cancels)
  }

  lemma StayingLive(s: State)
    requires Inv(s)
    ensures AllIn(Staying(s), s.waiters) && NoDup(PendingQueue(s))
    ensures forall i :: 0 <= i < |Staying(s)| ==> Staying(s)[i] !in s.cancels
    ensures PendingQueue(s) == [] ==> Staying(s) == []
  {
    PendingNoDup(s);
    WithoutAllKeepsOrder(PendingQueue(s), s.cancels);
    forall i | 0 <= i < |Staying(s)| ensures Staying(s)[i] in s.waiters && Staying(s)[i] !in s.cancels {
      RemainingMember(PendingQueue(s), s.cancels, Staying(s)[i]);
      PendingMember(s, Staying(s)[i]);
      assert WaiterOk(s, Staying(s)[i]);
    }
  }

  /** What the contract of the method says of a release that takes the lock. */
  ghost predicate AsOnHeap(s: State, s': State, t: nat)
    requires AllIn(Staying(s), s.waiters) && s.CallOf(t).Release? && s.release.Unlocked?
  {
    var r := Plus(s.max, s.CallOf(t).releasable, s.release.permits);
    var q := Staying(s);
    var (k, left) := H.Serve(Asks(q, s.waiters), r);
    && s'.max == s.max && s'.stack == s'.cancels == []
    && s'.CallOf(t) == Returned(s.CallOf(t).after)
    && (forall i :: 0 <= i < |s.cancels| ==> s.cancels[i] in s'.waiters && s'.waiters[s.cancels[i]].waker == Cancelled)
    && if PendingQueue(s) == [] then
         && s'.list == [] && s'.release == Unlocked(Count(0))
         && s'.acquire == Available(if s.acquire.Queued? then r else Plus(s.max, s.acquire.permits, r))
       else
         && s'.acquire == Queued(Null) && s'.release == Unlocked(left) && k <= |q| && s'.list == q[k..]
         && (forall i :: 0 <= i < k ==> q[i] in s'.waiters && s'.waiters[q[i]].waker == Finished(r.Poison?))
         && (forall i :: k <= i < |q| ==> q[i] in s'.waiters && s'.waiters[q[i]] == s.waiters[q[i]])
  }

  /** The half of the round up to the pop loop. */
  ghost predicate Ready(s: State, b: State, t: nat)
    requires AllIn(Staying(s), s.waiters)
  {
    && s.CallOf(t).Release? && s.release.Unlocked?
    && Pops(b, t) && b.release == Locked && b.max == s.max && b.stack == b.cancels == [] && b.list == Staying(s)
    && AllIn(b.list, b.waiters) && (forall i :: 0 <= i < |b.list| ==> b.waiters[b.list[i]] == s.waiters[b.list[i]])
    && Asks(b.list, b.waiters) == Asks(Staying(s), s.waiters)
    && b.CallOf(t).after == s.CallOf(t).after
    && (forall i :: 0 <= i < |s.cancels| ==> s.cancels[i] in b.waiters && b.waiters[s.cancels[i]].waker == Cancelled)
    && (var r := Plus(s.max, s.CallOf(t).releasable, s.release.permits);
        if PendingQueue(s) == [] then
          && b.CallOf(t).releasable == Count(0)
          && b.acquire == Available(if s.acquire.Queued? then r else Plus(s.max, s.acquire.permits, r))
        else b.CallOf(t).releasable == r && b.acquire == Queued(Null))
  }

  lemma StayingSame(s: State, c: State)
    requires Inv(s) && c.list == Staying(s)
    requires forall w :: w in s.waiters && w !in s.cancels ==> w in c.waiters && c.waiters[w] == s.waiters[w]
    ensures AllIn(Staying(s), s.waiters) && AllIn(c.list, c.waiters)
    ensures forall i :: 0 <= i < |c.list| ==> c.waiters[c.list[i]] == s.waiters[c.list[i]]
    ensures Asks(c.list, c.waiters) == Asks(Staying(s), s.waiters)
    ensures PendingQueue(s) == [] ==> Staying(s) == []
  {
    StayingLive(s);
    forall i | 0 <= i < |c.list| ensures c.list[i] in c.waiters && c.waiters[c.list[i]] == s.waiters[c.list[i]] {
      assert c.list[i] in s.waiters && c.list[i] !in s.cancels;
    }
    AsksSame(c.list, s.waiters, c.waiters);
  }

  lemma BecomesReady(s: State, a: State, b: State, c: State, t: nat)
    requires Inv(s) && TookLock(s, a, t) && Flipped(a, b, t) && Unlinked(b, c, t, s.cancels)
    ensures AllIn(Staying(s), s.waiters) && Ready(s, c, t)
  {
    assert PendingQueue(a) == PendingQueue(s);
    StayingSame(s, c);
  }

  lemma ReadiesAlone(s: State, t: nat)
    requires Inv(s) && Owing(s.CallOf(t)) && s.release.Unlocked?
    ensures AllIn(Staying(s), s.waiters)
    ensures exists b :: Leads(s, t, b) && Ready(s, b, t)
  {
    hide Inv, Leads, PendingQueue, Staying, Ready;
    StayingLive(s);
    LocksAlone(s, t);
    var a :| Leads(s, t, a) && TookLock(s, a, t);
    LeadsToInv(s, t, a);
    FlipsAlone(a, t);
    var b :| Leads(a, t, b) && Flipped(a, b, t);
    LeadsToInv(a, t, b);
    UnlinksAlone(b, t);
    var c :| Leads(b, t, c) && Unlinked(b, c, t, b.CallOf(t).phase.taken);
    BecomesReady(s, a, b, c, t);
    LeadsOn(s, t, a, b);
    LeadsOn(s, t, b, c);
  }

  lemma Concludes(s: State, b: State, c: State, d: State, t: nat, k: nat, left: Permits)
    requires AllIn(Staying(s), s.waiters) && Inv(s) && Inv(b) && Inv(c)
    requires Ready(s, b, t) && Popped(b, c, t, k, left) && Released(c, d, t)
    requires (k, left) == H.Serve(Asks(b.list, b.waiters), b.CallOf(t).releasable)
    ensures AsOnHeap(s, d, t)
  {
    StayingLive(s);
    forall i | 0 <= i < |s.cancels| ensures s.cancels[i] in d.waiters && d.waiters[s.cancels[i]].waker == Cancelled {
      assert forall j :: 0 <= j < |b.list| ==> b.list[j] != s.cancels[i];
    }
    forall i | k <= i < |b.list| ensures b.list[i] in d.waiters && d.waiters[b.list[i]] == b.waiters[b.list[i]] {
      assert b.list[i] in b.waiters && b.list[i] !in b.list[..k];
    }
  }

  /** What a `try_acquire` of `n` permits leaves when it is over. */
  function Tried(s: State, t: nat, n: nat): State {
    if s.acquire.Available? && s.acquire.permits.Count? && n <= s.acquire.permits.n then
      s.(acquire := Available(Count(s.acquire.permits.n - n)), guards := s.guards + n).SetCall(t, Idle)
    else s.SetCall(t, Idle)
  }

  lemma TryLoads(s: State, t: nat, n: nat)
    requires Enabled(s, TryStart(t, n))
    ensures var a := Next(s, TryStart(t, n));
            Enabled(a, Load(t)) && Next(a, Load(t)) == s.SetCall(t, TryAcquire(n, Some(s.acquire)))
  {
    assert s.SetCall(t, TryAcquire(n, None)).SetCall(t, TryAcquire(n, Some(s.acquire))) == s.SetCall(t, TryAcquire(n, Some(s.acquire)));
  }

  lemma TryEnds(s: State, t: nat, n: nat)
    ensures var b, l := s.SetCall(t, TryAcquire(n, Some(s.acquire))), if MayTake(s.acquire, n) then TryFast(t) else TryFail(t);
            Enabled(b, l) && Next(b, l) == Tried(s, t, n)
  {
    assert s.SetCall(t, TryAcquire(n, Some(s.acquire))).SetCall(t, Idle) == s.SetCall(t, Idle);
  }

  /** A `try_acquire` that is left alone ends as the contract of `Heap.Semaphore.TryAcquire` says: it
      takes exactly `n` permits if that many are available, and otherwise changes nothing. */
  lemma TryAcquireAlone(s: State, t: nat, n: nat)
    requires Enabled(s, TryStart(t, n))
    ensures exists l :: (l == TryFast(t) || l == TryFail(t)) && Run(s, [TryStart(t, n), Load(t), l], Tried(s, t, n))
  {
    TryLoads(s, t, n);
    TryEnds(s, t, n);
    hide Enabled, Next, Run, Tried;
    var l := if MayTake(s.acquire, n) then TryFast(t) else TryFail(t);
    ThreeSteps(s, TryStart(t, n), Load(t), l);
  }

  /** Left alone, a release does in the protocol what it does on the heap: the waiters that stay are
      served first come first served, the cancelled ones are gone, and what is left is kept, or is
      available if nobody was in the queue. */
  lemma ReleaseAlone(s: State, t: nat)
    requires Inv(s) && Owing(s.CallOf(t)) && s.release.Unlocked?
    ensures AllIn(Staying(s), s.waiters)
    ensures exists s' :: Leads(s, t, s') && AsOnHeap(s, s', t)
  {
    hide Inv, Leads, PendingQueue, Staying, AsOnHeap;
    ReadiesAlone(s, t);
    var b :| Leads(s, t, b) && Ready(s, b, t);
    LeadsToInv(s, t, b);
    PopsAlone(b, t);
    var (k, left) := H.Serve(Asks(b.list, b.waiters), b.CallOf(t).releasable);
    var c :| Leads(b, t, c) && Popped(b, c, t, k, left);
    LeadsToInv(b, t, c);
    UnlocksAlone(c, t);
    var d :| Leads(c, t, d) && Released(c, d, t);
    Concludes(s, b, c, d, t, k, left);
    LeadsOn(s, t, b, c);
    LeadsOn(s, t, c, d);
  }
}
