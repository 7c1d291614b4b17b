/** Whole runs: first-in-first-out order, conservation of permits, and the number of rounds. */
module Runs {
  import opened Sequences
  import opened Sums
  import opened Protocol
  import opened Invariant
  import opened Steps
  import opened Safety
  import opened Refinement

  // ----- Traces -----

  ghost function Events(s: State, labels: seq<Label>): seq<Event>
    decreases |labels|
  {
    if labels == [] || !Enabled(s, labels[0]) then []
    else [EventOf(s, labels[0])] + Events(Next(s, labels[0]), labels[1..])
  }

  ghost predicate SpecRun(max: nat, a: Spec, events: seq<Event>, b: Spec)
    decreases |events|
  {
    if events == [] then a == b
    else exists mid :: SpecStep(max, a, events[0], mid) && SpecRun(max, mid, events[1..], b)
  }

  lemma SameMax(s: State, l: Label)
    requires Enabled(s, l)
    ensures Next(s, l).max == s.max
  {
  }

  /** Simulation: the trace of every run is a trace of the abstract semaphore. */
  lemma {:induction false} RunRefines(s: State, labels: seq<Label>, s': State)
    requires Inv(s) && Run(s, labels, s')
    ensures s'.max == s.max
    ensures SpecRun(s.max, Abs(s), Events(s, labels), Abs(s'))
    decreases |labels|
  {
    if labels != [] {
      var mid := Next(s, labels[0]);
      StepInv(s, labels[0]);
      StepRefines(s, labels[0]);
      SameMax(s, labels[0]);
      RunRefines(mid, labels[1..], s');
      assert Events(s, labels)[1..] == Events(mid, labels[1..]);
    }
  }

  // ----- First in, first out -----

  predicate Serves(e: Event, w: nat) {
    (e.GrantHead? && e.w == w) || (e.FailHead? && e.w == w)
  }

  predicate Leaves(e: Event, w: nat) {
    Serves(e, w) || (e.Withdraw? && e.w == w)
  }

  ghost predicate Before(q: seq<nat>, u: nat, v: nat) {
    exists i, j :: 0 <= i < j < |q| && q[i] == u && q[j] == v
  }

  lemma WithoutKeepsOrder(q: seq<nat>, w: nat, u: nat, v: nat)
    requires NoDup(q) && Before(q, u, v) && w in q && w != u && w != v
    ensures Before(Without(q, w), u, v)
  {
    var i, j :| 0 <= i < j < |q| && q[i] == u && q[j] == v;
    var k :| 0 <= k < |q| && q[k] == w;
    WithoutKeeps(q, k, i);
    WithoutKeeps(q, k, j);
    var i', j' := if k < i then i - 1 else i, if k < j then j - 1 else j;
    assert i' < j' && Without(q, w)[i'] == u && Without(q, w)[j'] == v;
  }

  lemma NamesKeepOrder(q: seq<nat>, e: Event, r: seq<nat>, u: nat, v: nat)
    requires NamesStep(q, e, r) && NoDup(q) && Before(q, u, v) && !Leaves(e, u)
    ensures NoDup(r) && !Serves(e, v)
    ensures Leaves(e, v) || Before(r, u, v)
  {
    var i, j :| 0 <= i < j < |q| && q[i] == u && q[j] == v;
    if e.Enqueue? {
      assert r[i] == u && r[j] == v;
    } else if e.GrantHead? || e.FailHead? {
      assert r[i - 1] == u && r[j - 1] == v;
    } else if e.Withdraw? {
      WithoutNoDup(q, e.w);
      if e.w != v {
        WithoutKeepsOrder(q, e.w, u, v);
      }
    }
  }

  lemma OneStepKeepsOrder(max: nat, a: Spec, e: Event, b: Spec, u: nat, v: nat)
    requires SpecStep(max, a, e, b) && NoDup(a.Pending()) && Before(a.Pending(), u, v) && !Leaves(e, u)
    ensures NoDup(b.Pending()) && !Serves(e, v)
    ensures Leaves(e, v) || Before(b.Pending(), u, v)
  {
    hide QueueStep, PermitStep, PoisonStep, NamesStep, Names, NoDup, Before, Leaves, Serves;
    QueueStepNames(a.queue, e, b.queue);
    NamesKeepOrder(a.Pending(), e, b.Pending(), u, v);
  }

  lemma HeadIsFirst(q: seq<nat>, u: nat, v: nat)
    requires NoDup(q) && Before(q, u, v)
    ensures q[0] != v && u != v
  {
  }

  /** Along any trace, `v` is not served while `u`, which was ahead of it, is still waiting. */
  lemma {:induction false} ServedInOrder(max: nat, a: Spec, events: seq<Event>, b: Spec, u: nat, v: nat, k: nat)
    requires SpecRun(max, a, events, b) && NoDup(a.Pending()) && Before(a.Pending(), u, v)
    requires k < |events| && Serves(events[k], v)
    requires forall j :: 0 <= j < k ==> !(events[j].Withdraw? && events[j].w == v)
    ensures exists j :: 0 <= j < k && Leaves(events[j], u)
    decreases |events|
  {
    if Leaves(events[0], u) {
      var mid :| SpecStep(max, a, events[0], mid) && SpecRun(max, mid, events[1..], b);
      if k == 0 {
        HeadIsFirst(a.Pending(), u, v);
      }
    } else {
      var mid :| SpecStep(max, a, events[0], mid) && SpecRun(max, mid, events[1..], b);
      OneStepKeepsOrder(max, a, events[0], mid, u, v);
      ServedInOrder(max, mid, events[1..], b, u, v, k - 1);
      var j :| 0 <= j < k - 1 && Leaves(events[1..][j], u);
      assert Leaves(events[j + 1], u);
    }
  }

  ghost predicate LeavesBefore(events: seq<Event>, u: nat, k: nat)
    requires k <= |events|
  {
    exists j :: 0 <= j < k && Leaves(events[j], u)
  }

  ghost predicate WithdrawnBefore(events: seq<Event>, v: nat, k: nat)
    requires k <= |events|
  {
    exists j :: 0 <= j < k && events[j].Withdraw? && events[j].w == v
  }

  /** Whenever `v` is served, unless it was withdrawn before (and its address used again), `u` was
      served or withdrawn before. */
  ghost predicate InOrder(events: seq<Event>, u: nat, v: nat) {
    forall k :: 0 <= k < |events| && Serves(events[k], v) && !WithdrawnBefore(events, v, k) ==> LeavesBefore(events, u, k)
  }

  /** Acquires finish in the order in which they were enqueued: in any run from a reachable state in
      which `u` is pending ahead of `v`, `v` is finished only after `u` was finished or withdrawn. */
  lemma FirstInFirstOut(s: State, labels: seq<Label>, s': State, u: nat, v: nat)
    requires Reachable(s) && Run(s, labels, s') && Before(PendingQueue(s), u, v)
    ensures InOrder(Events(s, labels), u, v)
  {
    ReachableInv(s);
    PendingNoDup(s);
    RunRefines(s, labels, s');
    var events := Events(s, labels);
    forall k | 0 <= k < |events| && Serves(events[k], v) && !WithdrawnBefore(events, v, k)
      ensures LeavesBefore(events, u, k)
    {
      ServedInOrder(s.max, Abs(s), events, Abs(s'), u, v, k);
    }
  }

  // ----- Conservation of permits -----

  /** Permits handed in by `release`, less the ones of forgotten guards. */
  function Balance(events: seq<Event>): int {
    if events == [] then 0
    else Balance(events[1..])
         + (if events[0].Credit? then events[0].amount else 0)
         - (if events[0].Forget? then events[0].amount else 0)
  }

  lemma {:induction false} SpecConserves(max: nat, a: Spec, events: seq<Event>, b: Spec)
    requires SpecRun(max, a, events, b)
    ensures a.poisoned ==> b.poisoned
    ensures !b.poisoned ==> b.free + b.granted == a.free + a.granted + Balance(events)
    decreases |events|
  {
    if events != [] {
      var mid :| SpecStep(max, a, events[0], mid) && SpecRun(max, mid, events[1..], b);
      SpecConserves(max, mid, events[1..], b);
    }
  }

  /** Unless poisoned, every permit is accounted for: in a shared word, in the hands of a release in
      progress, with a finished waiter that has not claimed it, or in a guard. */
  lemma PermitsConserved(max: nat, initial: nat, labels: seq<Label>, s: State)
    requires Run(Fresh(max, initial), labels, s) && BadPlaces(s) == 0
    ensures initial <= max
    ensures Free(s) + Granted(s) == initial + Balance(Events(Fresh(max, initial), labels))
  {
    var s0 := Fresh(max, initial);
    FreshInv(max, initial);
    RunRefines(s0, labels, s);
    SpecConserves(max, Abs(s0), Events(s0, labels), Abs(s));
    assert Sum<Call>(map[], CallAmount) == 0 && Sum<Call>(map[], CallBad) == 0 && Sum<Waiter>(map[], Unclaimed) == 0;
  }

  // ----- Rounds -----

  function Locks(labels: seq<Label>): nat {
    if labels == [] then 0 else (if labels[0].Lock? then 1 else 0) + Locks(labels[1..])
  }

  function Defers(labels: seq<Label>): nat {
    if labels == [] then 0 else (if labels[0].Defer? then 1 else 0) + Defers(labels[1..])
  }

  function Redos(labels: seq<Label>): nat {
    if labels == [] then 0 else (if labels[0].Redo? then 1 else 0) + Redos(labels[1..])
  }

  function Unlocks(labels: seq<Label>): nat {
    if labels == [] then 0 else (if labels[0].Unlock? then 1 else 0) + Unlocks(labels[1..])
  }

  function One(b: bool): nat { if b then 1 else 0 }

  /** What the labels that write the `release` word do to it. */
  lemma ReleaseWord(s: State, l: Label)
    requires Enabled(s, l)
    ensures var r, r' := s.release, Next(s, l).release;
            && (l.Lock? ==> r.Unlocked? && r'.Locked?)
            && (l.Redo? ==> r.LockedDirty? && r'.Locked?)
            && (l.Unlock? ==> r.Locked? && r'.Unlocked?)
            && (l.Defer? ==> !r.Unlocked? && r'.LockedDirty?)
            && (!l.Lock? && !l.Redo? && !l.Unlock? && !l.Defer? ==> r' == r)
  {
  }

  /** Rounds never outnumber the reasons for them: every round is begun by taking the lock or by a
      deferral, and the last deferral has had no round yet while the lock is dirty. Every call that
      took the lock has given it back, except the one in the critical section. */
  lemma {:induction false} RoundsBounded(s: State, labels: seq<Label>, s': State)
    requires Run(s, labels, s')
    ensures Redos(labels) + One(Dirty(s')) <= Defers(labels) + One(Dirty(s))
    ensures Locks(labels) + One(!s.release.Unlocked?) == Unlocks(labels) + One(!s'.release.Unlocked?)
    decreases |labels|
  {
    if labels != [] {
      ReleaseWord(s, labels[0]);
      RoundsBounded(Next(s, labels[0]), labels[1..], s');
    }
  }

  // ----- Putting runs together -----

  lemma OneStep(s: State, l: Label)
    requires Enabled(s, l)
    ensures Run(s, [l], Next(s, l))
  {
    assert Run(Next(s, l), [], Next(s, l));
  }

  lemma TwoSteps(s: State, k: Label, l: Label)
    requires Enabled(s, k) && Enabled(Next(s, k), l)
    ensures Run(s, [k, l], Next(Next(s, k), l))
  {
    OneStep(Next(s, k), l);
    assert [k, l][1..] == [l];
  }

  lemma ThreeSteps(s: State, j: Label, k: Label, l: Label)
    requires Enabled(s, j) && Enabled(Next(s, j), k) && Enabled(Next(Next(s, j), k), l)
    ensures Run(s, [j, k, l], Next(Next(Next(s, j), k), l))
  {
    TwoSteps(Next(s, j), k, l);
    assert [j, k, l][1..] == [k, l];
  }

  lemma {:induction false} RunAppend(s: State, a: seq<Label>, mid: State, b: seq<Label>, s': State)
    requires Run(s, a, mid) && Run(mid, b, s')
    ensures Run(s, a + b, s')
    decreases |a|
  {
    hide Enabled, Next;
    if a == [] {
      assert a + b == b;
    } else {
      RunAppend(Next(s, a[0]), a[1..], mid, b, s');
      assert (a + b)[1..] == a[1..] + b;
    }
  }

  lemma ReachesOn(s0: State, a: seq<Label>, s: State, b: seq<Label>, s': State)
    requires Init(s0) && Run(s0, a, s) && Run(s, b, s')
    ensures Reachable(s')
  {
    hide Run, Init;
    RunAppend(s0, a, s, b, s');
  }

  lemma ReachesNext(s: State, l: Label)
    requires Reachable(s) && Enabled(s, l)
    ensures Reachable(Next(s, l))
  {
    hide Enabled, Next, Init, Run;
    var s0, a :| Init(s0) && Run(s0, a, s);
    OneStep(s, l);
    ReachesOn(s0, a, s, [l], Next(s, l));
  }
}
