/** First in, first out: what the order is in. It is the order in which acquires enter the queue, and
    not the one in which they are called or first polled. */
module Order {
  import opened Sequences
  import opened PermitValues
  import opened Protocol
  import opened Steps
  import opened Safety
  import opened Refinement
  import opened Runs

  // ----- Traces -----

  lemma {:induction false} SpecSplit(max: nat, a: Spec, events: seq<Event>, b: Spec, m: nat)
    requires SpecRun(max, a, events, b) && m <= |events|
    ensures exists mid :: SpecRun(max, a, events[..m], mid) && SpecRun(max, mid, events[m..], b)
    decreases m
  {
    hide SpecStep;
    if m == 0 {
      assert events[..0] == [] && events[0..] == events;
      assert SpecRun(max, a, events[..0], a);
    } else {
      var next :| SpecStep(max, a, events[0], next) && SpecRun(max, next, events[1..], b);
      SpecSplit(max, next, events[1..], b, m - 1);
      var mid :| SpecRun(max, next, events[1..][..m - 1], mid) && SpecRun(max, mid, events[1..][m - 1..], b);
      assert events[..m][1..] == events[1..][..m - 1] && events[1..][m - 1..] == events[m..];
      assert SpecRun(max, a, events[..m], mid);
    }
  }

  lemma StepPending(max: nat, a: Spec, e: Event, b: Spec, u: nat)
    requires SpecStep(max, a, e, b) && NoDup(a.Pending())
    ensures NoDup(b.Pending())
    ensures u in a.Pending() && !Leaves(e, u) ==> u in b.Pending()
  {
    QueueStepNames(a.queue, e, b.queue);
    match e
    case Enqueue(w, _) =>
      assert a.Pending() == b.Pending()[..|a.Pending()|];
    case Withdraw(w) =>
      WithoutNoDup(a.Pending(), w);
      WithoutMember(a.Pending(), w, u);
    case GrantHead(w, _) => TailMember(a.Pending(), u);
    case FailHead(w) => TailMember(a.Pending(), u);
    case _ =>
  }

  /** Whoever is in the queue stays there until it is served or withdrawn. */
  lemma {:induction false} StaysPending(max: nat, a: Spec, events: seq<Event>, b: Spec, u: nat)
    requires SpecRun(max, a, events, b) && NoDup(a.Pending())
    ensures NoDup(b.Pending())
    ensures u in a.Pending() && (forall k :: 0 <= k < |events| ==> !Leaves(events[k], u)) ==> u in b.Pending()
    decreases |events|
  {
    hide SpecStep, Leaves;
    if events != [] {
      var next :| SpecStep(max, a, events[0], next) && SpecRun(max, next, events[1..], b);
      StepPending(max, a, events[0], next, u);
      StaysPending(max, next, events[1..], b, u);
    }
  }

  /** `u` enters the queue at `i` and is served at `k`, and that is all that happens to it. */
  ghost predicate WaitsFromTo(events: seq<Event>, u: nat, i: nat, k: nat) {
    && i < k < |events| && events[i].Enqueue? && events[i].w == u && Serves(events[k], u)
    && (forall m :: 0 <= m < |events| && m != k ==> !Leaves(events[m], u))
  }

  lemma EntersAt(max: nat, a: Spec, events: seq<Event>, b: Spec, i: nat)
    requires SpecRun(max, a, events, b) && NoDup(a.Pending()) && i < |events| && events[i].Enqueue?
    ensures exists mid: Spec, next: Spec ::
              && SpecRun(max, a, events[..i], mid) && NoDup(mid.Pending()) && next.Pending() == mid.Pending() + [events[i].w]
              && NoDup(next.Pending()) && SpecRun(max, next, events[i + 1..], b)
  {
    SpecSplit(max, a, events, b, i);
    var mid :| SpecRun(max, a, events[..i], mid) && SpecRun(max, mid, events[i..], b);
    StaysPending(max, a, events[..i], mid, 0);
    var next :| SpecStep(max, mid, events[i..][0], next) && SpecRun(max, next, events[i..][1..], b);
    assert events[i..][1..] == events[i + 1..];
    StepPending(max, mid, events[i], next, 0);
  }

  lemma Behind(q: seq<nat>, u: nat, v: nat)
    requires u in q
    ensures Before(q + [v], u, v)
  {
    var i :| 0 <= i < |q| && q[i] == u;
    assert (q + [v])[i] == u && (q + [v])[|q|] == v;
  }

  /** When `v` enters, `u` is ahead of it, unless it has left. */
  lemma AheadAt(max: nat, a: Spec, events: seq<Event>, b: Spec, u: nat, v: nat, i: nat, j: nat)
    requires SpecRun(max, a, events, b) && NoDup(a.Pending())
    requires i < j < |events| && events[i].Enqueue? && events[i].w == u && events[j].Enqueue? && events[j].w == v
    requires forall m :: i < m < j ==> !Leaves(events[m], u)
    ensures exists c: Spec :: NoDup(c.Pending()) && Before(c.Pending(), u, v) && SpecRun(max, c, events[j + 1..], b)
  {
    hide SpecRun, SpecStep, Leaves, Before, NoDup;
    EntersAt(max, a, events, b, i);
    var mid: Spec, next: Spec :| SpecRun(max, a, events[..i], mid) && NoDup(mid.Pending())
      && next.Pending() == mid.Pending() + [events[i].w] && NoDup(next.Pending()) && SpecRun(max, next, events[i + 1..], b);
    var rest, n := events[i + 1..], j - i - 1;
    assert rest[n] == events[j] && rest[n + 1..] == events[j + 1..];
    EntersAt(max, next, rest, b, n);
    var mid': Spec, next': Spec :| SpecRun(max, next, rest[..n], mid') && NoDup(mid'.Pending())
      && next'.Pending() == mid'.Pending() + [rest[n].w] && NoDup(next'.Pending()) && SpecRun(max, next', rest[n + 1..], b);
    assert next.Pending()[|mid.Pending()|] == u;
    StaysPending(max, next, rest[..n], mid', u);
    Behind(mid'.Pending(), u, v);
  }

  /** Whoever enters first is served first. */
  lemma FirstEntersFirst(max: nat, a: Spec, events: seq<Event>, b: Spec, u: nat, v: nat, i: nat, j: nat, k: nat, l: nat)
    requires SpecRun(max, a, events, b) && NoDup(a.Pending())
    requires WaitsFromTo(events, u, i, k) && WaitsFromTo(events, v, j, l) && i < j
    ensures k < l
  {
    hide SpecRun, SpecStep, Before, NoDup;
    if j < k {
      AheadAt(max, a, events, b, u, v, i, j);
      var c: Spec :| NoDup(c.Pending()) && Before(c.Pending(), u, v) && SpecRun(max, c, events[j + 1..], b);
      var rest := events[j + 1..];
      assert rest[l - j - 1] == events[l];
      assert forall m :: 0 <= m < l - j - 1 ==> rest[m] == events[j + 1 + m] && !Leaves(events[j + 1 + m], v);
      ServedInOrder(max, c, rest, b, u, v, l - j - 1);
      var m :| 0 <= m < l - j - 1 && Leaves(rest[m], u);
      assert Leaves(events[j + 1 + m], u);
    }
  }

  /** In every run, of two acquires that wait and are both finished, the one that entered the queue
      first is finished first, and only that one. */
  lemma ServedAsEntered(s: State, labels: seq<Label>, s': State, u: nat, v: nat, i: nat, j: nat, k: nat, l: nat)
    requires Reachable(s) && Run(s, labels, s') && u != v
    requires WaitsFromTo(Events(s, labels), u, i, k) && WaitsFromTo(Events(s, labels), v, j, l)
    ensures i < j <==> k < l
  {
    ReachableInv(s);
    PendingNoDup(s);
    RunRefines(s, labels, s');
    if i < j {
      FirstEntersFirst(s.max, Abs(s), Events(s, labels), Abs(s'), u, v, i, j, k, l);
    } else {
      FirstEntersFirst(s.max, Abs(s), Events(s, labels), Abs(s'), v, u, j, i, l, k);
    }
  }

  // ----- Not the order of calls -----

  /** Two acquires, the first of which was also polled first and has loaded the word. */
  function BothCalled(max: nat, initial: nat, a: nat, b: nat): State {
    Fresh(max, initial).(waiters := map[0 := Waiter(a, Entering, Pending, Null, Null), 1 := Waiter(b, Entering, Pending, Null, Null)],
    calls := map[0 := PollEnter(Some(Available(New(max, initial))))])
  }

  function Called(a: nat, b: nat): seq<Label> {
    [NewFuture(0, a), NewFuture(1, b)]
  }

  const POLLED: seq<Label> := [PollEnterStart(0), Load(0)]
  const SECOND: seq<Label> := [PollEnterStart(1), Load(1), EnterFast(1)]

  lemma CallsBoth(max: nat, initial: nat, a: nat, b: nat)
    ensures Run(Fresh(max, initial), Called(a, b) + POLLED, BothCalled(max, initial, a, b))
  {
    var s0 := Fresh(max, initial);
    var s2 := s0.(waiters := map[0 := Waiter(a, Entering, Pending, Null, Null), 1 := Waiter(b, Entering, Pending, Null, Null)]);
    assert Next(Next(s0, NewFuture(0, a)), NewFuture(1, b)) == s2;
    assert Next(Next(s2, PollEnterStart(0)), Load(0)) == BothCalled(max, initial, a, b);
    hide Run;
    TwoSteps(s0, NewFuture(0, a), NewFuture(1, b));
    TwoSteps(s2, PollEnterStart(0), Load(0));
    RunAppend(s0, Called(a, b), s2, POLLED, BothCalled(max, initial, a, b));
  }

  function SecondDone(max: nat, initial: nat, a: nat, b: nat): State
    requires b <= initial
  {
    BothCalled(max, initial, a, b).(
    acquire := Available(Count(initial - b)), guards := b,
    waiters := map[0 := Waiter(a, Entering, Pending, Null, Null), 1 := Waiter(b, Done, Pending, Null, Null)],
    calls := map[0 := PollEnter(Some(Available(New(max, initial)))), 1 := Idle])
  }

  function SecondLoaded(max: nat, initial: nat, a: nat, b: nat): State {
    BothCalled(max, initial, a, b).(calls := map[0 := PollEnter(Some(Available(New(max, initial)))),
                                           1 := PollEnter(Some(Available(New(max, initial))))])
  }

  lemma SecondLoads(max: nat, initial: nat, a: nat, b: nat)
    ensures var s := BothCalled(max, initial, a, b);
            && Enabled(s, PollEnterStart(1)) && Enabled(Next(s, PollEnterStart(1)), Load(1))
            && Next(Next(s, PollEnterStart(1)), Load(1)) == SecondLoaded(max, initial, a, b)
  {
  }

  lemma SecondEnters(max: nat, initial: nat, a: nat, b: nat)
    requires b <= initial <= max
    ensures Enabled(SecondLoaded(max, initial, a, b), EnterFast(1))
    ensures Next(SecondLoaded(max, initial, a, b), EnterFast(1)) == SecondDone(max, initial, a, b)
  {
  }

  /** The call that started later, and was polled later, can succeed first. */
  lemma LaterCallFirst(max: nat, initial: nat, a: nat, b: nat)
    requires b <= initial <= max
    ensures exists s :: Run(Fresh(max, initial), Called(a, b) + POLLED + SECOND, s) && s.waiters.Keys == {0, 1}
                        && s.waiters[0].step.Entering? && s.waiters[1].step.Done?
  {
    SecondLoads(max, initial, a, b);
    SecondEnters(max, initial, a, b);
    var s := SecondDone(max, initial, a, b);
    assert s.waiters.Keys == {0, 1} && s.waiters[0].step.Entering? && s.waiters[1].step.Done?;
    hide Run, Enabled, Next, Fresh, BothCalled, SecondLoaded, SecondDone, Called;
    CallsBoth(max, initial, a, b);
    ThreeSteps(BothCalled(max, initial, a, b), PollEnterStart(1), Load(1), EnterFast(1));
    RunAppend(Fresh(max, initial), Called(a, b) + POLLED, BothCalled(max, initial, a, b), SECOND, s);
  }
}
