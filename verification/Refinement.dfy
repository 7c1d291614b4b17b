/** The protocol refines a first-in-first-out weighted semaphore: a queue of pending acquires and what
    each asks for, a count of free permits, a count of granted permits and a poison flag. */
module Refinement {
  import opened Sequences
  import opened Sums
  import opened PermitValues
  import opened Protocol
  import opened Invariant
  import opened Steps
  import opened Safety

  // ----- The abstract semaphore -----

  datatype Ask = Ask(w: nat, amount: nat)

  function Names(queue: seq<Ask>): (r: seq<nat>)
    ensures |r| == |queue| && forall i :: 0 <= i < |r| ==> r[i] == queue[i].w
  {
    seq(|queue|, i requires 0 <= i < |queue| => queue[i].w)
  }

  datatype Spec = Spec(queue: seq<Ask>, free: nat, granted: nat, poisoned: bool) {
    function Pending(): seq<nat> {
      Names(queue)
    }
  }

  datatype Event =
    | Silent
    | Enqueue(w: nat, amount: nat)
    | GrantHead(w: nat, amount: nat)
    | FailHead(w: nat)
    | Withdraw(w: nat)
    | GrantNow(amount: nat)
    | Credit(amount: nat)
    | GiveBack(amount: nat)
    | Forget(amount: nat)
    | PoisonAll

  /** How each event moves the queue: only its head is ever served, with what it asked for. */
  predicate QueueStep(a: seq<Ask>, e: Event, b: seq<Ask>) {
    match e
    case Enqueue(w, amount) => w !in Names(a) && b == a + [Ask(w, amount)]
    case GrantHead(w, amount) => a != [] && a[0] == Ask(w, amount) && b == a[1..]
    case FailHead(w) => a != [] && a[0].w == w && b == a[1..]
    case Withdraw(w) => exists i :: 0 <= i < |a| && a[i].w == w && b == a[..i] + a[i + 1..]
    case GrantNow(_) => a == [] && b == []
    case _ => b == a
  }

  /** The same without the amounts. */
  predicate NamesStep(a: seq<nat>, e: Event, b: seq<nat>) {
    match e
    case Enqueue(w, _) => w !in a && b == a + [w]
    case GrantHead(w, _) => a != [] && a[0] == w && b == a[1..]
    case FailHead(w) => a != [] && a[0] == w && b == a[1..]
    case Withdraw(w) => w in a && b == Without(a, w)
    case GrantNow(_) => a == [] && b == []
    case _ => b == a
  }

  lemma NamesCut(a: seq<Ask>, i: nat)
    requires i < |a|
    ensures Names(a[..i] + a[i + 1..]) == Names(a)[..i] + Names(a)[i + 1..]
  {
    var p, b := Names(a), a[..i] + a[i + 1..];
    hide Names;
    forall j | 0 <= j < |b| ensures Names(b)[j] == (p[..i] + p[i + 1..])[j] {
      assert b[j] == a[if j < i then j else j + 1];
    }
  }

  lemma QueueStepNames(a: seq<Ask>, e: Event, b: seq<Ask>)
    requires QueueStep(a, e, b) && NoDup(Names(a))
    ensures NamesStep(Names(a), e, Names(b))
  {
    hide Names, NoDup, Without;
    if e.Withdraw? {
      var i :| 0 <= i < |a| && a[i].w == e.w && b == a[..i] + a[i + 1..];
      NamesCut(a, i);
      WithoutAt(Names(a), i);
    } else if e.GrantHead? || e.FailHead? {
      NamesCut(a, 0);
      assert a[..0] + a[1..] == a[1..] && Names(a)[..0] + Names(a)[1..] == Names(a)[1..];
    } else if e.Enqueue? {
      NamesCut(b, |a|);
      assert b[..|a|] + b[|a| + 1..] == a && Names(b)[..|a|] + Names(b)[|a| + 1..] == Names(b)[..|a|];
      assert Names(b) == Names(b)[..|a|] + [e.w];
    }
  }

  /** Whoever is in both queues asks for the same in both. */
  ghost predicate SameAmounts(a: seq<Ask>, b: seq<Ask>) {
    forall i, j :: 0 <= i < |a| && 0 <= j < |b| && a[i].w == b[j].w ==> a[i] == b[j]
  }

  lemma CutQueue(a: seq<Ask>, b: seq<Ask>, i: nat)
    requires SameAmounts(a, b) && i < |a| && Names(b) == Names(a)[..i] + Names(a)[i + 1..]
    ensures b == a[..i] + a[i + 1..]
  {
    var c := a[..i] + a[i + 1..];
    NamesCut(a, i);
    assert |b| == |c|;
    forall j | 0 <= j < |b| ensures b[j] == c[j] {
      assert Names(b)[j] == Names(c)[j] && c[j] == a[if j < i then j else j + 1];
    }
  }

  lemma WithdrawnQueue(a: seq<Ask>, b: seq<Ask>, w: nat)
    requires SameAmounts(a, b) && NoDup(Names(a)) && w in Names(a) && Names(b) == Without(Names(a), w)
    ensures exists i :: 0 <= i < |a| && a[i].w == w && b == a[..i] + a[i + 1..]
  {
    var p := Names(a);
    var i :| 0 <= i < |p| && p[i] == w;
    WithoutAt(p, i);
    hide Names, SameAmounts, NoDup, Without;
    CutQueue(a, b, i);
  }

  lemma SameQueue(a: seq<Ask>, b: seq<Ask>)
    requires SameAmounts(a, b) && Names(b) == Names(a)
    ensures b == a
  {
    forall j | 0 <= j < |b| ensures b[j] == a[j] {
      assert Names(b)[j] == Names(a)[j];
    }
  }

  lemma PushedQueue(a: seq<Ask>, b: seq<Ask>, w: nat, amount: nat)
    requires SameAmounts(a, b) && Names(b) == Names(a) + [w] && b[|b| - 1].amount == amount
    ensures b == a + [Ask(w, amount)]
  {
    forall j | 0 <= j < |a| ensures b[j] == a[j] {
      assert Names(b)[j] == Names(a)[j];
    }
    assert Names(b)[|a|] == w;
  }

  lemma NamesStepQueue(a: seq<Ask>, e: Event, b: seq<Ask>)
    requires NamesStep(Names(a), e, Names(b)) && NoDup(Names(a)) && SameAmounts(a, b)
    requires e.Enqueue? ==> b != [] && b[|b| - 1].amount == e.amount
    requires e.GrantHead? ==> a != [] && a[0].amount == e.amount
    ensures QueueStep(a, e, b)
  {
    var p := Names(a);
    hide Names, SameAmounts, NoDup, Without;
    if e.Enqueue? {
      PushedQueue(a, b, e.w, e.amount);
    } else if e.GrantHead? || e.FailHead? {
      assert p[1..] == p[..0] + p[1..] && a[1..] == a[..0] + a[1..];
      CutQueue(a, b, 0);
    } else if e.Withdraw? {
      WithdrawnQueue(a, b, e.w);
    } else {
      SameQueue(a, b);
    }
  }

  function Spent(e: Event): nat {
    match e
    case GrantHead(_, amount) => amount
    case GrantNow(amount) => amount
    case _ => 0
  }

  function Gained(e: Event): nat {
    match e
    case Credit(amount) => amount
    case GiveBack(amount) => amount
    case _ => 0
  }

  function Returned(e: Event): nat {
    match e
    case GiveBack(amount) => amount
    case Forget(amount) => amount
    case _ => 0
  }

  /** How each event moves permits between free and granted; `free` means nothing once poisoned. */
  predicate PermitStep(a: Spec, e: Event, b: Spec) {
    && Returned(e) <= a.granted
    && b.granted == a.granted + Spent(e) - Returned(e)
    && (!a.poisoned ==> Spent(e) <= a.free)
    && (!b.poisoned ==> b.free == a.free + Gained(e) - Spent(e))
  }

  /** Poison is permanent, it is the only reason for a failure, and it comes from a call to `poison`,
      from one release of more than `max`, or from more than `max` free permits meeting. */
  predicate PoisonStep(max: nat, a: Spec, e: Event, b: Spec) {
    && (a.poisoned ==> b.poisoned)
    && (e.FailHead? ==> a.poisoned)
    && (e.PoisonAll? ==> b.poisoned)
    && (b.poisoned && !a.poisoned ==> e.PoisonAll? || Gained(e) > max || (e.Silent? && a.free > max))
  }

  predicate SpecStep(max: nat, a: Spec, e: Event, b: Spec) {
    QueueStep(a.queue, e, b.queue) && PermitStep(a, e, b) && PoisonStep(max, a, e, b)
  }

  // ----- The refinement mapping -----

  function Amount(p: Permits): nat { if p.Count? then p.n else 0 }
  function Bad(p: Permits): nat { if p.Poison? then 1 else 0 }

  function CallAmount(c: Call): nat { if c.Release? then Amount(c.releasable) else 0 }
  function CallBad(c: Call): nat { if c.Release? then Bad(c.releasable) else 0 }

  /** Permits that a waiter was given and has not yet claimed. */
  function Unclaimed(x: Waiter): nat {
    if x.step.Waiting? && x.waker == Finished(false) then x.amount else 0
  }

  function WordAmount(s: State): nat {
    (if s.acquire.Available? then Amount(s.acquire.permits) else 0)
    + (if s.release.Locked? then 0 else Amount(s.release.permits))
  }

  function WordBad(s: State): nat {
    (if s.acquire.Available? then Bad(s.acquire.permits) else 0)
    + (if s.release.Locked? then 0 else Bad(s.release.permits))
  }

  ghost function Free(s: State): nat { WordAmount(s) + Sum(s.calls, CallAmount) }
  ghost function BadPlaces(s: State): nat { WordBad(s) + Sum(s.calls, CallBad) }
  ghost function Granted(s: State): nat { s.guards + Sum(s.waiters, Unclaimed) }

  /** The pending acquires and what they ask for. */
  function Asking(s: State): (r: seq<Ask>)
    ensures Names(r) == PendingQueue(s)
    ensures forall i :: 0 <= i < |r| ==> r[i].w in s.waiters ==> r[i].amount == s.waiters[r[i].w].amount
  {
    var q := PendingQueue(s);
    seq(|q|, i requires 0 <= i < |q| => Ask(q[i], if q[i] in s.waiters then s.waiters[q[i]].amount else 0))
  }

  ghost function Abs(s: State): Spec {
    Spec(Asking(s), Free(s), Granted(s), BadPlaces(s) > 0)
  }

  function EventOf(s: State, l: Label): Event
    requires Enabled(s, l)
  {
    match l
    case EnterPush(w) => Enqueue(w, s.waiters[w].amount)
    case Grant(t) => GrantHead(s.list[0], s.waiters[s.list[0]].amount)
    case Fail(t) => FailHead(s.list[0])
    case Unlink(t) => Withdraw(s.CallOf(t).phase.taken[0])
    case EnterFast(w) => GrantNow(s.waiters[w].amount)
    case TryFast(t) => GrantNow(s.CallOf(t).amount)
    case ReleaseStart(_, amount) => if amount <= s.max then Credit(amount) else PoisonAll
    case PoisonStart(_) => PoisonAll
    case GuardDrop(_, amount) => GiveBack(amount)
    case GuardForget(amount) => Forget(amount)
    case DropFinished(w) => if s.waiters[w].waker.poisoned then Silent else GiveBack(s.waiters[w].amount)
    case _ => Silent
  }

  // ----- The queue -----

  predicate MovesQueue(l: Label) {
    l.EnterPush? || l.FlipTake? || l.Unlink? || l.Grant? || l.Fail?
  }

  lemma QueueStays(s: State, l: Label)
    requires Enabled(s, l) && !MovesQueue(l)
    ensures Next(s, l).list == s.list && Next(s, l).stack == s.stack && PendingQueue(Next(s, l)) == PendingQueue(s)
  {
  }

  lemma PushMoves(s: State, w: nat)
    requires Inv(s) && Enabled(s, EnterPush(w))
    ensures w !in PendingQueue(s) && PendingQueue(Next(s, EnterPush(w))) == PendingQueue(s) + [w]
  {
    assert WaiterOk(s, w) && CallOk(s, w);
    PendingMember(s, w);
    assert ([w] + s.stack)[1..] == s.stack;
    assert s.list + (Reverse(s.stack) + [w]) == PendingQueue(s) + [w];
  }

  lemma FlipMoves(s: State, t: nat)
    requires Enabled(s, FlipTake(t))
    ensures PendingQueue(Next(s, FlipTake(t))) == PendingQueue(s)
  {
    assert Reverse<nat>([]) == [];
    assert PendingQueue(s) + [] == PendingQueue(s);
  }

  lemma UnlinkMoves(s: State, t: nat)
    requires Inv(s) && Enabled(s, Unlink(t))
    ensures var w := s.CallOf(t).phase.taken[0];
            w in PendingQueue(s) && PendingQueue(Next(s, Unlink(t))) == Without(PendingQueue(s), w)
  {
    var w := s.CallOf(t).phase.taken[0];
    assert CallOk(s, t) && w in Taken(s);
    assert WaiterOk(s, w);
    WithoutConcat(s.list, Reverse(s.stack), w);
  }

  lemma PopMoves(s: State, l: Label)
    requires Enabled(s, l) && (l.Grant? || l.Fail?)
    ensures PendingQueue(s) != [] && PendingQueue(s)[0] == s.list[0] && PendingQueue(Next(s, l)) == PendingQueue(s)[1..]
  {
    assert PendingQueue(s)[1..] == s.list[1..] + Reverse(s.stack);
  }

  lemma NothingPending(s: State, l: Label)
    requires Inv(s) && Enabled(s, l) && (l.EnterFast? || l.TryFast?)
    ensures PendingQueue(s) == []
  {
  }

  predicate OfQueue(e: Event) {
    e.Enqueue? || e.GrantHead? || e.FailHead? || e.Withdraw?
  }

  lemma OtherEvents(s: State, l: Label)
    requires Enabled(s, l) && !MovesQueue(l)
    ensures !OfQueue(EventOf(s, l)) && (EventOf(s, l).GrantNow? <==> l.EnterFast? || l.TryFast?)
  {
  }

  lemma NamesRefine(s: State, l: Label)
    requires Inv(s) && Enabled(s, l)
    ensures NamesStep(PendingQueue(s), EventOf(s, l), PendingQueue(Next(s, l)))
  {
    hide Inv, Next, PendingQueue;
    if l.EnterPush? {
      PushMoves(s, l.w);
    } else if l.FlipTake? {
      FlipMoves(s, l.t);
    } else if l.Unlink? {
      UnlinkMoves(s, l.t);
    } else if l.Grant? || l.Fail? {
      PopMoves(s, l);
    } else {
      QueueStays(s, l);
      OtherEvents(s, l);
      hide Enabled, EventOf;
      if l.EnterFast? || l.TryFast? { NothingPending(s, l); }
    }
  }

  // What a waiter asks for does not change.

  lemma ReleaseKeepsAmount(s: State, l: Label, w: nat)
    requires Enabled(s, l) && OfRelease(l) && w in s.waiters && w in Next(s, l).waiters
    ensures Next(s, l).waiters[w].amount == s.waiters[w].amount
  {
  }

  lemma FutureKeepsAmount(s: State, l: Label, w: nat)
    requires Enabled(s, l) && OfFuture(l) && w in s.waiters && w in Next(s, l).waiters
    ensures Next(s, l).waiters[w].amount == s.waiters[w].amount
  {
  }

  lemma CallKeepsAmount(s: State, l: Label)
    requires Enabled(s, l) && !OfRelease(l) && !OfFuture(l)
    ensures Next(s, l).waiters == s.waiters
  {
  }

  lemma AmountKept(s: State, l: Label, w: nat)
    requires Enabled(s, l) && w in s.waiters && w in Next(s, l).waiters
    ensures Next(s, l).waiters[w].amount == s.waiters[w].amount
  {
    hide Enabled, Next;
    if OfRelease(l) {
      ReleaseKeepsAmount(s, l, w);
    } else if OfFuture(l) {
      FutureKeepsAmount(s, l, w);
    } else {
      CallKeepsAmount(s, l);
    }
  }

  lemma PendingLive(s: State, w: nat)
    requires Inv(s) && w in PendingQueue(s)
    ensures w in s.waiters
  {
    PendingMember(s, w);
    assert WaiterOk(s, w);
  }

  lemma EventAmounts(s: State, l: Label)
    requires Enabled(s, l)
    ensures EventOf(s, l).Enqueue? ==>
              l.EnterPush? && EventOf(s, l) == Enqueue(l.w, s.waiters[l.w].amount) && l.w in Next(s, l).waiters
    ensures EventOf(s, l).GrantHead? ==>
              s.list != [] && EventOf(s, l) == GrantHead(s.list[0], s.waiters[s.list[0]].amount)
  {
  }

  lemma QueueRefines(s: State, l: Label)
    requires Inv(s) && Enabled(s, l)
    ensures QueueStep(Asking(s), EventOf(s, l), Asking(Next(s, l)))
  {
    var s', a, b := Next(s, l), Asking(s), Asking(Next(s, l));
    NamesRefine(s, l);
    PendingNoDup(s);
    StepInv(s, l);
    EventAmounts(s, l);
    hide Inv, Enabled, Next, PendingQueue, Asking, EventOf, NoDup;
    forall i, j | 0 <= i < |a| && 0 <= j < |b| && a[i].w == b[j].w ensures a[i] == b[j] {
      assert Names(a)[i] == a[i].w && Names(b)[j] == b[j].w;
      PendingLive(s, a[i].w);
      PendingLive(s', b[j].w);
      AmountKept(s, l, a[i].w);
    }
    if EventOf(s, l).Enqueue? {
      assert Names(b)[|b| - 1] == l.w;
      AmountKept(s, l, l.w);
    }
    if EventOf(s, l).GrantHead? {
      assert Names(a)[0] == EventOf(s, l).w;
      PendingLive(s, a[0].w);
    }
    NamesStepQueue(a, EventOf(s, l), b);
  }

  // ----- The permits -----

  /** The call whose program counter a step moves, and the node whose record it changes. */
  function Actor(l: Label): nat {
    match l
    case NewFuture(w, _) => w
    case PollEnterStart(w) => w
    case PollWaiting(w) => w
    case DropIdle(w) => w
    case DropFinished(w) => w
    case StartCancel(w) => w
    case EnterPoisoned(w) => w
    case EnterFast(w) => w
    case EnterPush(w) => w
    case CancelPush(w) => w
    case WaitDone(w) => w
    case GuardForget(_) => 0
    case _ => l.t
  }

  function Node(s: State, l: Label): nat
    requires Enabled(s, l)
  {
    match l
    case Grant(t) => s.list[0]
    case Fail(t) => s.list[0]
    case Unlink(t) => s.CallOf(t).phase.taken[0]
    case _ => Actor(l)
  }

  lemma OneCallRelease(s: State, l: Label)
    requires Enabled(s, l) && OfRelease(l)
    ensures Next(s, l).calls - {Actor(l)} == s.calls - {Actor(l)}
  {
  }

  lemma OneNodeRelease(s: State, l: Label)
    requires Enabled(s, l) && OfRelease(l)
    ensures Next(s, l).waiters - {Node(s, l)} == s.waiters - {Node(s, l)}
  {
  }

  lemma OneCallFuture(s: State, l: Label)
    requires Enabled(s, l) && OfFuture(l)
    ensures Next(s, l).calls - {Actor(l)} == s.calls - {Actor(l)}
  {
  }

  lemma OneNodeFuture(s: State, l: Label)
    requires Enabled(s, l) && OfFuture(l)
    ensures Next(s, l).waiters - {Node(s, l)} == s.waiters - {Node(s, l)}
  {
  }

  lemma OneCallOneNode(s: State, l: Label)
    requires Enabled(s, l)
    ensures Next(s, l).calls - {Actor(l)} == s.calls - {Actor(l)}
    ensures Next(s, l).waiters - {Node(s, l)} == s.waiters - {Node(s, l)}
  {
    if OfRelease(l) {
      OneCallRelease(s, l);
      OneNodeRelease(s, l);
    } else if OfFuture(l) {
      OneCallFuture(s, l);
      OneNodeFuture(s, l);
    }
  }

  /** How the sums change with the one call and the one node. */
  lemma SumsChange(s: State, l: Label)
    requires Enabled(s, l)
    ensures var s' := Next(s, l); var t := Actor(l);
            && Sum(s'.calls, CallAmount) + CallAmount(s.CallOf(t)) == Sum(s.calls, CallAmount) + CallAmount(s'.CallOf(t))
            && Sum(s'.calls, CallBad) + CallBad(s.CallOf(t)) == Sum(s.calls, CallBad) + CallBad(s'.CallOf(t))
    ensures var s' := Next(s, l); var w := Node(s, l);
            Sum(s'.waiters, Unclaimed) + At(s.waiters, Unclaimed, w) == Sum(s.waiters, Unclaimed) + At(s'.waiters, Unclaimed, w)
  {
    var s' := Next(s, l);
    OneCallOneNode(s, l);
    SumChange(s.calls, s'.calls, CallAmount, Actor(l));
    SumChange(s.calls, s'.calls, CallBad, Actor(l));
    SumChange(s.waiters, s'.waiters, Unclaimed, Node(s, l));
  }

  /** The permits and the poison of a step move as the abstract semaphore allows. */
  ghost predicate Moves(s: State, l: Label)
    requires Enabled(s, l)
  {
    && PermitStep(Abs(s), EventOf(s, l), Abs(Next(s, l)))
    && PoisonStep(s.max, Abs(s), EventOf(s, l), Abs(Next(s, l)))
  }

  lemma LockRefines(s: State, t: nat)
    requires Inv(s) && Enabled(s, Lock(t))
    ensures Moves(s, Lock(t))
  {
    SumsChange(s, Lock(t));
    assert CallOk(s, t);
    SumSplit(s.calls, CallAmount, t);
    SumSplit(s.calls, CallBad, t);
  }

  lemma DeferRefines(s: State, t: nat)
    requires Inv(s) && Enabled(s, Defer(t))
    ensures Moves(s, Defer(t))
  {
    SumsChange(s, Defer(t));
    assert CallOk(s, t);
    SumSplit(s.calls, CallAmount, t);
    SumSplit(s.calls, CallBad, t);
  }

  lemma FlipAvailableRefines(s: State, t: nat)
    requires Inv(s) && Enabled(s, FlipAvailable(t))
    ensures Moves(s, FlipAvailable(t))
  {
    SumsChange(s, FlipAvailable(t));
    assert CallOk(s, t);
    SumSplit(s.calls, CallAmount, t);
    SumSplit(s.calls, CallBad, t);
  }

  lemma RedoRefines(s: State, t: nat)
    requires Inv(s) && Enabled(s, Redo(t))
    ensures Moves(s, Redo(t))
  {
    SumsChange(s, Redo(t));
    assert CallOk(s, t);
    SumSplit(s.calls, CallAmount, t);
    SumSplit(s.calls, CallBad, t);
  }

  lemma UnlockRefines(s: State, t: nat)
    requires Inv(s) && Enabled(s, Unlock(t))
    ensures Moves(s, Unlock(t))
  {
    SumsChange(s, Unlock(t));
    assert CallOk(s, t);
    SumSplit(s.calls, CallAmount, t);
    SumSplit(s.calls, CallBad, t);
  }

  lemma GrantRefines(s: State, t: nat)
    requires Inv(s) && Enabled(s, Grant(t))
    ensures Moves(s, Grant(t))
  {
    SumsChange(s, Grant(t));
    assert CallOk(s, t);
    SumSplit(s.calls, CallAmount, t);
    SumSplit(s.calls, CallBad, t);
    assert WaiterOk(s, s.list[0]);
  }

  lemma FailRefines(s: State, t: nat)
    requires Inv(s) && Enabled(s, Fail(t))
    ensures Moves(s, Fail(t))
  {
    SumsChange(s, Fail(t));
    assert CallOk(s, t);
    SumSplit(s.calls, CallAmount, t);
    SumSplit(s.calls, CallBad, t);
    assert WaiterOk(s, s.list[0]);
  }

  lemma UnlinkRefines(s: State, t: nat)
    requires Inv(s) && Enabled(s, Unlink(t))
    ensures Moves(s, Unlink(t))
  {
    SumsChange(s, Unlink(t));
    assert CallOk(s, t);
    assert WaiterOk(s, s.CallOf(t).phase.taken[0]);
  }

  lemma PollWaitingRefines(s: State, w: nat)
    requires Inv(s) && Enabled(s, PollWaiting(w))
    ensures Moves(s, PollWaiting(w))
  {
    SumsChange(s, PollWaiting(w));
    assert CallOk(s, w);
    SumSplit(s.waiters, Unclaimed, w);
    assert WaiterOk(s, w);
  }

  lemma DropFailedRefines(s: State, w: nat)
    requires Inv(s) && Enabled(s, DropFinished(w)) && s.waiters[w].waker.poisoned
    ensures Moves(s, DropFinished(w))
  {
    SumsChange(s, DropFinished(w));
    assert CallOk(s, w);
  }

  lemma DropGrantedRefines(s: State, w: nat)
    requires Inv(s) && Enabled(s, DropFinished(w)) && !s.waiters[w].waker.poisoned
    ensures Moves(s, DropFinished(w))
  {
    SumsChange(s, DropFinished(w));
    assert CallOk(s, w);
    SumSplit(s.waiters, Unclaimed, w);
    assert WaiterOk(s, w);
  }

  lemma DropFinishedRefines(s: State, w: nat)
    requires Inv(s) && Enabled(s, DropFinished(w))
    ensures Moves(s, DropFinished(w))
  {
    hide Inv, Moves;
    if s.waiters[w].waker.poisoned { DropFailedRefines(s, w); } else { DropGrantedRefines(s, w); }
  }

  lemma EnterFastRefines(s: State, w: nat)
    requires Inv(s) && Enabled(s, EnterFast(w))
    ensures Moves(s, EnterFast(w))
  {
    SumsChange(s, EnterFast(w));
    assert CallOk(s, w);
    SumSplit(s.waiters, Unclaimed, w);
    assert WaiterOk(s, w);
  }

  lemma EnterPushRefines(s: State, w: nat)
    requires Inv(s) && Enabled(s, EnterPush(w))
    ensures Moves(s, EnterPush(w))
  {
    SumsChange(s, EnterPush(w));
    assert CallOk(s, w);
    SumSplit(s.waiters, Unclaimed, w);
    assert WaiterOk(s, w);
  }

  /** Steps that move the holder's permits, and steps of a future that move permits. */
  predicate MovesHeld(l: Label) {
    || l.Lock? || l.Defer? || l.FlipAvailable? || l.Redo? || l.Unlock? || l.Grant? || l.Fail? || l.Unlink?
  }

  predicate Claims(l: Label) {
    l.PollWaiting? || l.DropFinished? || l.EnterFast? || l.EnterPush?
  }

  lemma HeldRefines(s: State, l: Label)
    requires Inv(s) && Enabled(s, l) && MovesHeld(l)
    ensures Moves(s, l)
  {
    hide Inv, Enabled, Moves;
    match l
    case Lock(t) => LockRefines(s, t);
    case Defer(t) => DeferRefines(s, t);
    case FlipAvailable(t) => FlipAvailableRefines(s, t);
    case Redo(t) => RedoRefines(s, t);
    case Unlock(t) => UnlockRefines(s, t);
    case Grant(t) => GrantRefines(s, t);
    case Fail(t) => FailRefines(s, t);
    case Unlink(t) => UnlinkRefines(s, t);
  }

  lemma ClaimRefines(s: State, l: Label)
    requires Inv(s) && Enabled(s, l) && Claims(l)
    ensures Moves(s, l)
  {
    hide Inv, Enabled, Moves;
    match l
    case PollWaiting(w) => PollWaitingRefines(s, w);
    case DropFinished(w) => DropFinishedRefines(s, w);
    case EnterFast(w) => EnterFastRefines(s, w);
    case EnterPush(w) => EnterPushRefines(s, w);
  }

  /** A step that moves no permits at all. */
  ghost predicate Stationary(s: State, l: Label)
    requires Enabled(s, l)
  {
    var s', t, w := Next(s, l), Actor(l), Node(s, l);
    && EventOf(s, l).Silent?
    && WordAmount(s') == WordAmount(s) && WordBad(s') == WordBad(s) && s'.guards == s.guards
    && CallAmount(s'.CallOf(t)) == CallAmount(s.CallOf(t)) && CallBad(s'.CallOf(t)) == CallBad(s.CallOf(t))
    && At(s'.waiters, Unclaimed, w) == At(s.waiters, Unclaimed, w)
  }

  lemma StationaryMoves(s: State, l: Label)
    requires Enabled(s, l) && Stationary(s, l)
    ensures Moves(s, l)
  {
    SumsChange(s, l);
    hide Enabled, Next, EventOf, Actor, Node, WordAmount, WordBad, CallAmount, CallBad, At;
  }

  lemma PhaseRefines(s: State, l: Label)
    requires Inv(s) && Enabled(s, l) && OfRelease(l) && !MovesHeld(l)
    ensures Moves(s, l)
  {
    assert CallOk(s, l.t);
    assert Stationary(s, l);
    StationaryMoves(s, l);
  }

  lemma LifecycleRefines(s: State, l: Label)
    requires Inv(s) && Enabled(s, l) && (l.NewFuture? || l.PollEnterStart? || l.DropIdle? || l.StartCancel?)
    ensures Moves(s, l)
  {
    assert Stationary(s, l);
    StationaryMoves(s, l);
  }

  lemma FutureRefines(s: State, l: Label)
    requires Inv(s) && Enabled(s, l) && (l.EnterPoisoned? || l.CancelPush? || l.WaitDone?)
    ensures Moves(s, l)
  {
    assert WaiterOk(s, l.w);
    assert Stationary(s, l);
    StationaryMoves(s, l);
  }

  lemma TryFastRefines(s: State, t: nat)
    requires Inv(s) && Enabled(s, TryFast(t))
    ensures Moves(s, TryFast(t))
  {
    SumsChange(s, TryFast(t));
  }

  lemma ReleaseStartRefines(s: State, t: nat, amount: nat)
    requires Inv(s) && Enabled(s, ReleaseStart(t, amount))
    ensures Moves(s, ReleaseStart(t, amount))
  {
    SumsChange(s, ReleaseStart(t, amount));
  }

  lemma GuardDropRefines(s: State, t: nat, amount: nat)
    requires Inv(s) && Enabled(s, GuardDrop(t, amount))
    ensures Moves(s, GuardDrop(t, amount))
  {
    SumsChange(s, GuardDrop(t, amount));
  }

  lemma CallRefines(s: State, l: Label)
    requires Inv(s) && Enabled(s, l) && !OfRelease(l) && !OfFuture(l) && !l.TryFast?
    requires !l.ReleaseStart? && !l.GuardDrop?
    ensures Moves(s, l)
  {
    SumsChange(s, l);
  }

  lemma MovesRefine(s: State, l: Label)
    requires Inv(s) && Enabled(s, l)
    ensures Moves(s, l)
  {
    hide Inv, Enabled, Moves;
    if MovesHeld(l) {
      HeldRefines(s, l);
    } else if Claims(l) {
      ClaimRefines(s, l);
    } else if OfRelease(l) {
      PhaseRefines(s, l);
    } else if OfFuture(l) {
      if l.EnterPoisoned? || l.CancelPush? || l.WaitDone? {
        FutureRefines(s, l);
      } else {
        LifecycleRefines(s, l);
      }
    } else if l.TryFast? {
      TryFastRefines(s, l.t);
    } else if l.ReleaseStart? {
      ReleaseStartRefines(s, l.t, l.amount);
    } else if l.GuardDrop? {
      GuardDropRefines(s, l.t, l.amount);
    } else {
      CallRefines(s, l);
    }
  }

  /** Every step of every interleaving is one step of the abstract semaphore. */
  lemma StepRefines(s: State, l: Label)
    requires Inv(s) && Enabled(s, l)
    ensures SpecStep(s.max, Abs(s), EventOf(s, l), Abs(Next(s, l)))
  {
    QueueRefines(s, l);
    MovesRefine(s, l);
  }
}
