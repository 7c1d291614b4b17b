/** Every step of the composed system keeps its invariant: what a live waiter, its future's call and
    its cell know of each other, and whose turn it is while the lock owner calls a waker. */
module CompositionSteps {
  import opened Sequences
  import opened PermitValues
  import opened Invariant
  import opened WakerRefinement
  import opened Composition
  import Packing
  import P = Protocol
  import W = WakerProtocol
  import Steps
  import Refinement
  import Progress

  // ----- Steps keep the invariant -----

  lemma FutureLeavesProducer(s: W.Cell, l: W.Label)
    requires W.Enabled(s, l) && !W.OfProducer(l)
    ensures W.Next(s, l).producer == s.producer
  {
  }

  lemma ProducerLeavesFuture(s: W.Cell, l: W.Label)
    requires W.Enabled(s, l) && W.OfProducer(l)
    ensures var s' := W.Next(s, l); s'.future == s.future && s'.enqueued == s.enqueued && s'.latest == s.latest
  {
  }

  /** What both know of each other stays while only the cells of others and other calls move. */
  lemma SameAgrees(c: System, c': System, w: nat)
    requires AgreesAt(c, w) && c'.p.CallOf(w) == c.p.CallOf(w)
    requires (w in c'.p.waiters <==> w in c.p.waiters) && (w in c'.at <==> w in c.at) && (w in c'.armed <==> w in c.armed)
    requires w in c.p.waiters ==> c'.p.waiters[w] == c.p.waiters[w]
    requires w in c.at ==> c'.at[w] == c.at[w] && c.at[w] < |c'.cells| && c'.cells[c.at[w]] == c.cells[c.at[w]]
    ensures AgreesAt(c', w)
  {
  }

  lemma OneCallOneNode(s: P.State, l: P.Label, w: nat)
    requires P.Enabled(s, l) && w != Refinement.Actor(l) && w != Refinement.Node(s, l)
    ensures var s' := P.Next(s, l);
            && s'.CallOf(w) == s.CallOf(w) && (w in s'.waiters <==> w in s.waiters)
            && (w in s.waiters ==> s'.waiters[w] == s.waiters[w])
  {
    hide P.Enabled, P.Next;
    Refinement.OneCallOneNode(s, l);
    var s', t, n := P.Next(s, l), Refinement.Actor(l), Refinement.Node(s, l);
    assert (s'.calls - {t}).Keys == (s.calls - {t}).Keys;
    assert w in s'.calls <==> w in (s'.calls - {t});
    assert w in s.calls <==> w in (s.calls - {t});
    assert w in s.calls ==> (s'.calls - {t})[w] == s'.calls[w] && (s.calls - {t})[w] == s.calls[w];
    assert w in s'.waiters <==> w in (s'.waiters - {n});
    assert w in s.waiters <==> w in (s.waiters - {n});
    assert w in s.waiters ==> (s'.waiters - {n})[w] == s'.waiters[w] && (s.waiters - {n})[w] == s.waiters[w];
  }

  lemma PlainBooks(c: System, l: P.Label, w: nat)
    requires Enabled(c, Plain(l)) && w != Refinement.Actor(l)
    requires HasCell(c, Refinement.Actor(l)) && w in c.at ==> c.at[w] != c.at[Refinement.Actor(l)]
    requires w in c.at ==> c.at[w] < |c.cells|
    ensures var c' := Next(c, Plain(l));
            && c'.p == P.Next(c.p, l) && (w in c'.at <==> w in c.at) && (w in c'.armed <==> w in c.armed)
            && (w in c.at ==> c'.at[w] == c.at[w] && c.at[w] < |c'.cells| && c'.cells[c.at[w]] == c.cells[c.at[w]])
  {
    hide P.Next, W.Enabled, W.Next;
  }

  lemma PlainOthers(c: System, l: P.Label, w: nat)
    requires SystemInv(c) && Enabled(c, Plain(l)) && w != Refinement.Actor(l)
    ensures AgreesAt(Next(c, Plain(l)), w)
  {
    assert AgreesAt(c, w);
    OneCallOneNode(c.p, l, w);
    if HasCell(c, Refinement.Actor(l)) && w in c.at {
      assert c.at[w] != c.at[Refinement.Actor(l)];
    }
    hide SystemInv, P.Enabled, P.Next, W.Enabled, W.Next, Agreed, OfWaker;
    PlainBooks(c, l, w);
    SameAgrees(c, Next(c, Plain(l)), w);
  }

  // The future whose own call moves

  lemma NewFutureAgrees(c: System, w: nat, amount: nat)
    requires SystemInv(c) && Enabled(c, Plain(P.NewFuture(w, amount)))
    ensures AgreesAt(Next(c, Plain(P.NewFuture(w, amount))), w)
  {
    assert AgreesAt(c, w);
    var c' := Next(c, Plain(P.NewFuture(w, amount)));
    assert c'.p == P.Next(c.p, P.NewFuture(w, amount));
    assert CellOf(c', w) == W.New(c.wrap);
  }

  /** Between two calls of its waker, an idle future in `Entering` is idle there too. */
  lemma IdleThere(c: System, w: nat)
    requires SystemInv(c) && w in c.p.waiters && Between(c, w)
    requires c.p.CallOf(w).PollEnter? || (c.p.CallOf(w).Idle? && !c.p.waiters[w].step.Done?)
    requires c.p.CallOf(w).PollEnter? ==> c.p.waiters[w].step.Entering?
    ensures HasCell(c, w) && CellOf(c, w).future.Idle?
  {
    At(c, w);
  }

  lemma PollEnterStartAgrees(c: System, w: nat)
    requires SystemInv(c) && Enabled(c, Plain(P.PollEnterStart(w)))
    ensures AgreesAt(Next(c, Plain(P.PollEnterStart(w))), w)
  {
    At(c, w);
    IdleThere(c, w);
    assert Next(c, Plain(P.PollEnterStart(w))).p == P.Next(c.p, P.PollEnterStart(w));
  }

  lemma DropIdleAgrees(c: System, w: nat)
    requires SystemInv(c) && Enabled(c, Plain(P.DropIdle(w)))
    ensures AgreesAt(Next(c, Plain(P.DropIdle(w))), w)
  {
    assert AgreesAt(c, w);
    assert Next(c, Plain(P.DropIdle(w))).p == P.Next(c.p, P.DropIdle(w));
  }

  lemma EnterDoneAgrees(c: System, l: P.Label)
    requires SystemInv(c) && Enabled(c, Plain(l)) && (l.EnterPoisoned? || l.EnterFast?)
    ensures AgreesAt(Next(c, Plain(l)), l.w)
  {
    At(c, l.w);
    IdleThere(c, l.w);
    assert Next(c, Plain(l)).p == P.Next(c.p, l);
  }

  lemma EnterPushAgrees(c: System, w: nat)
    requires SystemInv(c) && Enabled(c, Plain(P.EnterPush(w)))
    ensures AgreesAt(Next(c, Plain(P.EnterPush(w))), w)
  {
    At(c, w);
    IdleThere(c, w);
    EnterPushFits(c, w);
    var c' := Next(c, Plain(P.EnterPush(w)));
    assert c'.p == P.Next(c.p, P.EnterPush(w));
    assert CellOf(c', w) == W.Next(CellOf(c, w), W.Enqueue);
  }

  lemma CancelPushMoves(p: P.State, w: nat)
    requires P.Enabled(p, P.CancelPush(w))
    ensures var p' := P.Next(p, P.CancelPush(w));
            && w in p.waiters && p.CallOf(w).PushCancel?
            && p'.waiters == p.waiters[w := p.waiters[w].(nextCancel := P.Top(p.cancels))]
            && p'.CallOf(w) == P.Release(Count(0), P.Locking(None), P.AwaitAccept)
  {
  }

  lemma CellPushes(x: P.Waiter, x': P.Waiter, k: P.Call, k': P.Call, s: W.Cell, armed: bool)
    requires Agreed(x, k, s, armed) && k.PushCancel? && W.Enabled(s, W.Push)
    requires x'.waker == x.waker && x'.step == x.step && k'.Release? && k'.after.AwaitAccept?
    ensures Agreed(x', k', W.Next(s, W.Push), armed)
  {
  }

  lemma CancelPushBooks(c: System, w: nat)
    requires Enabled(c, Plain(P.CancelPush(w))) && HasCell(c, w) && Fits(c, Plain(P.CancelPush(w)))
    ensures var c' := Next(c, Plain(P.CancelPush(w)));
            && W.Enabled(CellOf(c, w), W.Push)
            && c'.p == P.Next(c.p, P.CancelPush(w)) && c'.at == c.at && c'.armed == c.armed
            && c'.cells == c.cells[c.at[w] := W.Next(CellOf(c, w), W.Push)]
  {
    hide P.Next, W.Enabled, W.Next;
  }

  lemma CancelPushAgrees(c: System, w: nat)
    requires SystemInv(c) && Enabled(c, Plain(P.CancelPush(w)))
    ensures AgreesAt(Next(c, Plain(P.CancelPush(w))), w)
  {
    CancelPushMoves(c.p, w);
    At(c, w);
    CancelPushFits(c, w);
    CancelPushBooks(c, w);
    hide SystemInv, Enabled, P.Enabled, P.Next, W.Enabled, W.Next, Next, Agreed, W.ControlOk, Fits, CellStep;
    var p' := P.Next(c.p, P.CancelPush(w));
    CellPushes(c.p.waiters[w], p'.waiters[w], c.p.CallOf(w), p'.CallOf(w), CellOf(c, w), w in c.armed);
  }

  /** A step of a release moves it within `release`, or back to the caller. */
  lemma ReleaseMoves(p: P.State, l: P.Label)
    requires P.Enabled(p, l) && P.OfRelease(l) && !OfWaker(l)
    ensures var k, k' := p.CallOf(l.t), P.Next(p, l).CallOf(l.t);
            && k.Release? && P.Next(p, l).waiters == p.waiters
            && ((k'.Release? && k'.after == k.after) || k' == P.Returned(k.after))
  {
  }

  lemma ReleasedAgrees(x: P.Waiter, k: P.Call, k': P.Call, cell: W.Cell, armed: bool)
    requires Agreed(x, k, cell, armed) && k.Release?
    requires (k'.Release? && k'.after == k.after) || k' == P.Returned(k.after)
    ensures Agreed(x, k', cell, armed)
  {
  }

  lemma ReleaseBooks(c: System, l: P.Label)
    requires Enabled(c, Plain(l)) && P.OfRelease(l)
    ensures var c' := Next(c, Plain(l));
            c'.p == P.Next(c.p, l) && c'.cells == c.cells && c'.at == c.at && c'.armed == c.armed && c'.serving == c.serving
  {
    hide P.Next;
  }

  lemma ReleaseAgrees(c: System, l: P.Label)
    requires SystemInv(c) && Enabled(c, Plain(l)) && P.OfRelease(l)
    ensures AgreesAt(Next(c, Plain(l)), l.t)
  {
    assert AgreesAt(c, l.t) && !OfWaker(l) && P.Enabled(c.p, l);
    ReleaseMoves(c.p, l);
    ReleaseBooks(c, l);
    hide SystemInv, Enabled, P.Enabled, P.Next, P.OfRelease, OfWaker, Agreed, Next;
    var p' := P.Next(c.p, l);
    if l.t in c.at {
      ReleasedAgrees(c.p.waiters[l.t], c.p.CallOf(l.t), p'.CallOf(l.t), CellOf(c, l.t), l.t in c.armed);
    }
  }

  /** The beginning of a release or of a `try_acquire` is not a future's own call. */
  lemma CallMoves(p: P.State, l: P.Label)
    requires P.Enabled(p, l) && !P.OfRelease(l) && !P.OfFuture(l) && !l.GuardForget?
    ensures P.Next(p, l).waiters == p.waiters
    ensures l.Load? ==>
              var k, k' := p.CallOf(l.t), P.Next(p, l).CallOf(l.t);
              && (k'.PollEnter? <==> k.PollEnter?) && (k'.PushCancel? <==> k.PushCancel?)
              && (k'.Release? <==> k.Release?) && (k.Release? ==> k'.after == k.after)
              && !k.Idle? && !k.WaitCancel? && !k'.Idle? && !k'.WaitCancel?
    ensures l.TryFail? || l.TryFast? ==> p.CallOf(l.t).TryAcquire? && P.Next(p, l).CallOf(l.t).Idle?
    ensures !l.Load? && !l.TryFail? && !l.TryFast? ==> l.t !in p.waiters
  {
  }

  lemma CallBooks(c: System, l: P.Label)
    requires Enabled(c, Plain(l)) && !P.OfRelease(l) && !P.OfFuture(l)
    ensures var c' := Next(c, Plain(l));
            && c'.p == P.Next(c.p, l) && c'.cells == c.cells && c'.at == c.at && c'.serving == c.serving
            && c'.armed == if l.Load? then c.armed - {l.t} else c.armed
  {
    hide P.Next;
  }

  lemma OtherCallAgrees(c: System, l: P.Label)
    requires SystemInv(c) && Enabled(c, Plain(l)) && !P.OfRelease(l) && !P.OfFuture(l) && !l.GuardForget?
    ensures AgreesAt(Next(c, Plain(l)), l.t)
  {
    assert AgreesAt(c, l.t);
    if l.t in c.p.waiters { At(c, l.t); }
    CallMoves(c.p, l);
    hide SystemInv, P.Enabled, P.Next, P.OfRelease, P.OfFuture, OfWaker, Refinement.Actor;
    CallBooks(c, l);
  }

  lemma ForgetAgrees(c: System, amount: nat, w: nat)
    requires SystemInv(c) && Enabled(c, Plain(P.GuardForget(amount)))
    ensures AgreesAt(Next(c, Plain(P.GuardForget(amount))), w)
  {
    assert AgreesAt(c, w);
    CallBooks(c, P.GuardForget(amount));
    var c' := Next(c, Plain(P.GuardForget(amount)));
    assert c'.p.waiters == c.p.waiters && c'.p.calls == c.p.calls;
  }

  lemma OwnAgrees(c: System, l: P.Label)
    requires SystemInv(c) && Enabled(c, Plain(l)) && P.OfFuture(l)
    ensures AgreesAt(Next(c, Plain(l)), Refinement.Actor(l))
  {
    hide SystemInv, Next, AgreesAt, P.Enabled, P.Next;
    match l
    case NewFuture(w, amount) => NewFutureAgrees(c, w, amount);
    case PollEnterStart(w) => PollEnterStartAgrees(c, w);
    case DropIdle(w) => DropIdleAgrees(c, w);
    case EnterPoisoned(_) => EnterDoneAgrees(c, l);
    case EnterFast(_) => EnterDoneAgrees(c, l);
    case EnterPush(w) => EnterPushAgrees(c, w);
    case CancelPush(w) => CancelPushAgrees(c, w);
  }

  lemma PlainAgrees(c: System, l: P.Label, w: nat)
    requires SystemInv(c) && Enabled(c, Plain(l))
    ensures AgreesAt(Next(c, Plain(l)), w)
  {
    hide SystemInv, Next, AgreesAt, P.Enabled, P.Next;
    if l.GuardForget? {
      ForgetAgrees(c, l.amount, w);
    } else if w != Refinement.Actor(l) {
      PlainOthers(c, l, w);
    } else if P.OfRelease(l) {
      ReleaseAgrees(c, l);
    } else if !P.OfFuture(l) {
      OtherCallAgrees(c, l);
    } else {
      OwnAgrees(c, l);
    }
  }

  // A call of a future's own waker

  predicate OwnCall(l: Label) {
    l.PollStart? || l.CancelStart? || l.WaitStart? || l.Inner?
  }

  function OwnStep(l: Label): W.Label
    requires OwnCall(l)
  {
    match l
    case PollStart(_) => W.PollStart
    case CancelStart(_) => W.CancelStart
    case WaitStart(_) => W.WaitStart
    case Inner(_, step) => step
  }

  /** What such a step does to the books. */
  lemma OwnBooks(c: System, l: Label)
    requires Enabled(c, l) && OwnCall(l) && Fits(c, l)
    ensures var c' := Next(c, l); var i := c.at[l.w];
            && i < |c.cells| && W.Enabled(c.cells[i], OwnStep(l)) && !W.OfProducer(OwnStep(l))
            && c'.cells == c.cells[i := W.Next(c.cells[i], OwnStep(l))] && c'.serving == c.serving
            && (c'.at == c.at || (c'.at == c.at - {l.w} && (OwnStep(l).CancelLose? || OwnStep(l).WaitOver?)))
            && (OwnStep(l).CancelLose? || OwnStep(l).WaitOver? ==> c'.at == c.at - {l.w})
            && c'.armed == (if OwnStep(l).PollPending? && c.p.CallOf(l.w).PollEnter? then c.armed + {l.w} else c.armed)
            && c'.p == (if ProtocolStep(c, l).None? then c.p else P.Next(c.p, ProtocolStep(c, l).value))
  {
    hide P.Enabled, P.Next, W.Enabled, W.Next;
  }

  /** And which step it is in the protocol, if any: one of the same future. */
  lemma OwnProtocol(c: System, l: Label)
    requires Enabled(c, l) && OwnCall(l) && ProtocolStep(c, l).Some? && P.Enabled(c.p, ProtocolStep(c, l).value)
    ensures var pl := ProtocolStep(c, l).value;
            P.OfFuture(pl) && Refinement.Actor(pl) == l.w && Refinement.Node(c.p, pl) == l.w
  {
  }

  lemma OwnOthers(c: System, l: Label, v: nat)
    requires SystemInv(c) && Enabled(c, l) && OwnCall(l) && v != l.w
    ensures AgreesAt(Next(c, l), v)
  {
    CallsFit(c, l);
    assert AgreesAt(c, v);
    OwnBooks(c, l);
    if ProtocolStep(c, l).Some? {
      OwnProtocol(c, l);
      OneCallOneNode(c.p, ProtocolStep(c, l).value, v);
    }
    if v in c.at { assert c.at[v] != c.at[l.w]; }
    hide SystemInv, Enabled, P.Enabled, P.Next, W.Enabled, W.Next, Next, Agreed;
    SameAgrees(c, Next(c, l), v);
  }

  /** A step inside a call that neither decides nor returns. */
  predicate Returns(step: W.Label) {
    step.CancelWin? || step.PollReadyEarly? || step.PollReadyLate? || step.CancelLose? || step.WaitOver?
  }

  lemma CellOwnStep(x: P.Waiter, k: P.Call, s: W.Cell, step: W.Label, armed: bool)
    requires W.ControlOk(s) && W.Enabled(s, step) && Agreed(x, k, s, armed)
    requires InnerFuture(step) && !Returns(step)
    ensures Agreed(x, k, W.Next(s, step), armed || (step.PollPending? && k.PollEnter?))
  {
  }

  lemma CellBegins(x: P.Waiter, k: P.Call, s: W.Cell, step: W.Label, armed: bool)
    requires W.Enabled(s, step) && Agreed(x, k, s, armed)
    requires step.PollStart? ==> k.PollEnter? || (k.Idle? && x.step.Waiting?)
    requires step.CancelStart? ==> k.Idle? && x.step.Waiting?
    requires step.WaitStart? ==> k.WaitCancel?
    requires step.PollStart? || step.CancelStart? || step.WaitStart?
    ensures Agreed(x, k, W.Next(s, step), armed)
  {
  }

  lemma StepAgrees(c: System, c': System, w: nat, cell': W.Cell)
    requires HasCell(c, w) && c'.p == c.p && c'.at == c.at && c'.cells == c.cells[c.at[w] := cell']
    requires Agreed(c.p.waiters[w], c.p.CallOf(w), cell', w in c'.armed)
    ensures AgreesAt(c', w)
  {
    hide Agreed;
  }

  lemma ReturnsIsProtocol(c: System, l: Label)
    requires Enabled(c, l) && OwnCall(l)
    ensures ProtocolStep(c, l).Some? <==> l.Inner? && Returns(l.step)
  {
  }

  lemma InnerStutters(c: System, w: nat, step: W.Label)
    requires SystemInv(c) && Enabled(c, Inner(w, step)) && !Returns(step)
    ensures AgreesAt(Next(c, Inner(w, step)), w)
  {
    var l := Inner(w, step);
    CallsFit(c, l);
    At(c, w);
    OwnBooks(c, l);
    ReturnsIsProtocol(c, l);
    var s, c' := CellOf(c, w), Next(c, l);
    assert InnerFuture(step);
    hide SystemInv, Enabled, W.Enabled, W.Next, Next, Agreed, W.ControlOk, Fits, ProtocolStep, CellStep, InnerFuture, AgreesAt;
    CellOwnStep(c.p.waiters[w], c.p.CallOf(w), s, step, w in c.armed);
    StepAgrees(c, c', w, W.Next(s, step));
  }

  lemma MayBegin(c: System, l: Label)
    requires Enabled(c, l) && (l.PollStart? || l.CancelStart? || l.WaitStart?)
    ensures var x, k := c.p.waiters[l.w], c.p.CallOf(l.w);
            && (l.PollStart? ==> k.PollEnter? || (k.Idle? && x.step.Waiting?))
            && (l.CancelStart? ==> k.Idle? && x.step.Waiting?)
            && (l.WaitStart? ==> k.WaitCancel?)
  {
  }

  lemma CallStutters(c: System, l: Label)
    requires SystemInv(c) && Enabled(c, l) && (l.PollStart? || l.CancelStart? || l.WaitStart?)
    ensures AgreesAt(Next(c, l), l.w)
  {
    var w, step := l.w, OwnStep(l);
    CallsFit(c, l);
    At(c, w);
    OwnBooks(c, l);
    ReturnsIsProtocol(c, l);
    var s, c' := CellOf(c, w), Next(c, l);
    MayBegin(c, l);
    hide SystemInv, Enabled, W.Enabled, W.Next, Next, Agreed, W.ControlOk, Fits, ProtocolStep, CellStep, AgreesAt;
    CellBegins(c.p.waiters[w], c.p.CallOf(w), s, step, w in c.armed);
    StepAgrees(c, c', w, W.Next(s, step));
  }

  lemma CellCancels(x: P.Waiter, k: P.Call, k': P.Call, s: W.Cell, armed: bool)
    requires Agreed(x, k, s, armed) && W.Enabled(s, W.CancelWin) && k.Idle? && k'.PushCancel?
    ensures Agreed(x.(waker := P.Cancelling), k', W.Next(s, W.CancelWin), armed)
  {
  }

  lemma StartCancelMoves(p: P.State, w: nat)
    requires P.Enabled(p, P.StartCancel(w))
    ensures var p' := P.Next(p, P.StartCancel(w));
            && w in p.waiters && p.CallOf(w).Idle? && p'.CallOf(w).PushCancel?
            && p'.waiters == p.waiters[w := p.waiters[w].(waker := P.Cancelling)]
  {
  }

  lemma CancelWins(c: System, w: nat)
    requires SystemInv(c) && Enabled(c, Inner(w, W.CancelWin))
    ensures AgreesAt(Next(c, Inner(w, W.CancelWin)), w)
  {
    CallsFit(c, Inner(w, W.CancelWin));
    At(c, w);
    OwnBooks(c, Inner(w, W.CancelWin));
    StartCancelMoves(c.p, w);
    hide SystemInv, Enabled, P.Enabled, P.Next, W.Enabled, W.Next, Next, Agreed, W.ControlOk, Fits, CellStep;
    var p' := P.Next(c.p, P.StartCancel(w));
    CellCancels(c.p.waiters[w], c.p.CallOf(w), p'.CallOf(w), CellOf(c, w), w in c.armed);
  }

  lemma CellReturns(x: P.Waiter, k: P.Call, s: W.Cell, step: W.Label, armed: bool)
    requires W.ControlOk(s) && Agreed(x, k, s, armed) && W.Enabled(s, step) && (step.PollReadyEarly? || step.PollReadyLate?)
    requires k.Idle? && x.step.Waiting?
    ensures Agreed(x.(step := P.Done), k, W.Next(s, step), armed)
  {
  }

  lemma PollWaitingMoves(p: P.State, w: nat)
    requires P.Enabled(p, P.PollWaiting(w))
    ensures var p' := P.Next(p, P.PollWaiting(w));
            && w in p.waiters && p.CallOf(w).Idle? && p.waiters[w].step.Waiting? && p'.CallOf(w).Idle?
            && p'.waiters == p.waiters[w := p.waiters[w].(step := P.Done)]
  {
  }

  lemma PollReturns(c: System, w: nat, step: W.Label)
    requires SystemInv(c) && Enabled(c, Inner(w, step)) && (step.PollReadyEarly? || step.PollReadyLate?)
    ensures AgreesAt(Next(c, Inner(w, step)), w)
  {
    CallsFit(c, Inner(w, step));
    At(c, w);
    OwnBooks(c, Inner(w, step));
    PollWaitingMoves(c.p, w);
    hide SystemInv, Enabled, P.Enabled, P.Next, W.Enabled, W.Next, Next, Agreed, W.ControlOk, Fits, CellStep;
    CellReturns(c.p.waiters[w], c.p.CallOf(w), CellOf(c, w), step, w in c.armed);
  }

  lemma DropReturns(c: System, w: nat, step: W.Label)
    requires SystemInv(c) && Enabled(c, Inner(w, step)) && (step.CancelLose? || step.WaitOver?)
    ensures AgreesAt(Next(c, Inner(w, step)), w)
  {
    CallsFit(c, Inner(w, step));
    At(c, w);
    OwnBooks(c, Inner(w, step));
    InnerFrom(CellOf(c, w), step);
    var c' := Next(c, Inner(w, step));
    assert c'.p == P.Next(c.p, if step.CancelLose? then P.DropFinished(w) else P.WaitDone(w));
  }

  lemma OwnCallAgrees(c: System, l: Label, v: nat)
    requires SystemInv(c) && Enabled(c, l) && OwnCall(l)
    ensures AgreesAt(Next(c, l), v)
  {
    ReturnsIsProtocol(c, l);
    hide SystemInv, Enabled, Next, AgreesAt, ProtocolStep;
    if v != l.w {
      OwnOthers(c, l, v);
    } else if l.Inner? && Returns(l.step) {
      if l.step.CancelWin? {
        CancelWins(c, l.w);
      } else if l.step.PollReadyEarly? || l.step.PollReadyLate? {
        PollReturns(c, l.w, l.step);
      } else {
        DropReturns(c, l.w, l.step);
      }
    } else {
      if l.Inner? { InnerStutters(c, l.w, l.step); } else { CallStutters(c, l); }
    }
  }

  // A call that the lock owner makes

  predicate OwnersCall(l: Label) {
    l.FinishStart? || l.AcceptStart? || l.Produce?
  }

  lemma OwnersBooks(c: System, l: Label)
    requires Enabled(c, l) && OwnersCall(l) && Fits(c, l)
    ensures var c', i, step := Next(c, l), CellStep(c, l).value.0, CellStep(c, l).value.1;
            && i < |c.cells| && W.Enabled(c.cells[i], step) && W.OfProducer(step)
            && c'.cells == c.cells[i := W.Next(c.cells[i], step)] && c'.at == c.at && c'.armed == c.armed
            && c'.p == (if ProtocolStep(c, l).None? then c.p else P.Next(c.p, ProtocolStep(c, l).value))
  {
    hide P.Enabled, P.Next, W.Enabled, W.Next;
  }

  /** The owner's own call stays a release, and of the waiters one at most gets a new waker. */
  ghost predicate MovesOwner(p: P.State, p': P.State, t: nat, w: nat, waker: P.WakerState) {
    && w in p.waiters && p'.waiters == p.waiters[w := p.waiters[w].(waker := waker)]
    && (forall v :: v != t ==> p'.CallOf(v) == p.CallOf(v))
    && p.CallOf(t).Release? && p'.CallOf(t).Release? && p'.CallOf(t).after == p.CallOf(t).after
  }

  lemma WinMoves(p: P.State, l: P.Label, t: nat)
    requires P.Enabled(p, l) && (l == P.Grant(t) || l == P.Fail(t))
    ensures MovesOwner(p, P.Next(p, l), t, p.list[0], P.Finished(l.Fail?))
  {
  }

  lemma UnlinkMoves(p: P.State, t: nat)
    requires P.Enabled(p, P.Unlink(t))
    ensures MovesOwner(p, P.Next(p, P.Unlink(t)), t, p.CallOf(t).phase.taken[0], P.Cancelled)
  {
  }

  lemma StopMoves(p: P.State, t: nat)
    requires P.Enabled(p, P.PopStop(t)) && p.list != [] && p.list[0] in p.waiters
    ensures MovesOwner(p, P.Next(p, P.PopStop(t)), t, p.list[0], p.waiters[p.list[0]].waker)
  {
    var w := p.list[0];
    assert p.waiters[w].(waker := p.waiters[w].waker) == p.waiters[w];
  }

  lemma DecisionStates(s: W.Cell, step: W.Label)
    requires W.Enabled(s, step) && InnerProducer(step)
    ensures step.FinishWin? || step.FinishWinStoring? ==> W.Next(s, step).state == Packing.Finished(s.producer.poisoned)
    ensures step.FinishLose? ==> W.Next(s, step).state == s.state
    ensures step.AcceptWin? ==> W.Next(s, step).state == Packing.Cancelled
    ensures !step.FinishWin? && !step.FinishWinStoring? && !step.AcceptWin? ==> W.Next(s, step).state == s.state
  {
  }

  /** Which node a decision of the producer is about, and what its waker becomes. */
  lemma DecisionMoves(c: System, step: W.Label)
    requires SystemInv(c) && Enabled(c, Produce(step)) && ProtocolStep(c, Produce(step)).Some?
    ensures var i, s := c.serving.value, c.cells[c.serving.value];
            exists w :: w in c.at && c.at[w] == i
                        && MovesOwner(c.p, Next(c, Produce(step)).p, c.p.owner.value, w, Abstract(W.Next(s, step).state))
  {
    var l := Produce(step);
    CallsFit(c, l);
    OwnersBooks(c, l);
    var i, t := c.serving.value, c.p.owner.value;
    ProducerFrom(c.cells[i], step);
    DecisionStates(c.cells[i], step);
    if step.AcceptWin? {
      TurnOfAccept(c);
      hide SystemInv, P.Enabled, P.Next, W.Enabled, W.Next, Next;
      UnlinkMoves(c.p, t);
    } else {
      TurnOfFinish(c);
      hide SystemInv, P.Enabled, P.Next, W.Enabled, W.Next, Next;
      if step.FinishLose? {
        StopMoves(c.p, t);
      } else {
        WinMoves(c.p, ProtocolStep(c, l).value, t);
      }
    }
  }

  /** The owner's own waiter does not mind where its release is. */
  lemma SameKind(x: P.Waiter, k: P.Call, k': P.Call, cell: W.Cell, armed: bool)
    requires Agreed(x, k, cell, armed) && k.Release? && k'.Release? && k'.after == k.after
    ensures Agreed(x, k', cell, armed)
  {
  }

  /** Nor does a waiter mind a new state of its cell that its waker shows. */
  lemma SameFuture(x: P.Waiter, k: P.Call, cell: W.Cell, cell': W.Cell, armed: bool)
    requires Agreed(x, k, cell, armed)
    requires cell'.future == cell.future && cell'.enqueued == cell.enqueued && cell'.latest == cell.latest
    ensures Agreed(x.(waker := Abstract(cell'.state)), k, cell', armed)
  {
  }

  lemma MovedAgrees(c: System, c': System, t: nat, w: nat, cell': W.Cell, v: nat)
    requires AgreesAt(c, v) && w in c.at && c.at[w] < |c.cells| && (v in c.at && v != w ==> c.at[v] != c.at[w])
    requires MovesOwner(c.p, c'.p, t, w, Abstract(cell'.state))
    requires c'.at == c.at && c'.armed == c.armed && c'.cells == c.cells[c.at[w] := cell']
    requires var cell := c.cells[c.at[w]];
             cell'.future == cell.future && cell'.enqueued == cell.enqueued && cell'.latest == cell.latest
    ensures AgreesAt(c', v)
  {
    hide Agreed;
    if v in c.at {
      var x, k, k', armed := c.p.waiters[v], c.p.CallOf(v), c'.p.CallOf(v), v in c.armed;
      if v == w { SameFuture(x, k, CellOf(c, v), cell', armed); }
      if v == t { SameKind(c'.p.waiters[v], k, k', c'.cells[c.at[v]], armed); }
    }
  }

  lemma DecisionAgrees(c: System, step: W.Label, v: nat)
    requires SystemInv(c) && Enabled(c, Produce(step)) && ProtocolStep(c, Produce(step)).Some?
    ensures AgreesAt(Next(c, Produce(step)), v)
  {
    var l := Produce(step);
    CallsFit(c, l);
    OwnersBooks(c, l);
    DecisionMoves(c, step);
    assert AgreesAt(c, v);
    var i, t, c' := c.serving.value, c.p.owner.value, Next(c, l);
    ProducerLeavesFuture(c.cells[i], step);
    var cell' := W.Next(c.cells[i], step);
    var w :| w in c.at && c.at[w] == i && MovesOwner(c.p, c'.p, t, w, Abstract(cell'.state));
    if v in c.at && v != w { assert c.at[v] != c.at[w]; }
    hide SystemInv, Enabled, P.Enabled, P.Next, W.Enabled, W.Next, Next, AgreesAt, MovesOwner;
    MovedAgrees(c, c', t, w, cell', v);
  }

  lemma StateKept(c: System, l: Label)
    requires Enabled(c, l) && OwnersCall(l) && ProtocolStep(c, l).None? && Fits(c, l)
    ensures var s, step := c.cells[CellStep(c, l).value.0], CellStep(c, l).value.1; W.Next(s, step).state == s.state
  {
    if l.Produce? { DecisionStates(c.cells[c.serving.value], l.step); }
  }

  lemma StutterAgrees(c: System, c': System, i: nat, cell': W.Cell, v: nat)
    requires AgreesAt(c, v) && i < |c.cells| && c'.p == c.p && c'.at == c.at && c'.armed == c.armed
    requires c'.cells == c.cells[i := cell'] && cell'.state == c.cells[i].state
    requires cell'.future == c.cells[i].future && cell'.enqueued == c.cells[i].enqueued && cell'.latest == c.cells[i].latest
    ensures AgreesAt(c', v)
  {
    if v in c.at {
      SameFuture(c.p.waiters[v], c.p.CallOf(v), CellOf(c, v), c'.cells[c.at[v]], v in c.armed);
    }
  }

  lemma OwnersStutter(c: System, l: Label, v: nat)
    requires SystemInv(c) && Enabled(c, l) && OwnersCall(l) && ProtocolStep(c, l).None?
    ensures AgreesAt(Next(c, l), v)
  {
    assert AgreesAt(c, v);
    CallsFit(c, l);
    hide SystemInv, W.Enabled, W.Next, Next, Enabled, AgreesAt, P.Enabled, P.Next, ProtocolStep, CellStep;
    OwnersBooks(c, l);
    var i, step := CellStep(c, l).value.0, CellStep(c, l).value.1;
    ProducerLeavesFuture(c.cells[i], step);
    StateKept(c, l);
    StutterAgrees(c, Next(c, l), i, W.Next(c.cells[i], step), v);
  }

  lemma FreeBooks(c: System, i: nat)
    requires Enabled(c, Free(i))
    ensures var c' := Next(c, Free(i));
            && c'.p == c.p && c'.at == c.at && c'.armed == c.armed && |c'.cells| == |c.cells| && i !in c.at.Values
            && (forall j :: 0 <= j < |c.cells| && j != i ==> c'.cells[j] == c.cells[j])
  {
    hide W.Enabled, W.Next, P.Enabled, P.Next;
  }

  lemma FreeAgrees(c: System, i: nat, v: nat)
    requires SystemInv(c) && Enabled(c, Free(i))
    ensures AgreesAt(Next(c, Free(i)), v)
  {
    assert AgreesAt(c, v);
    hide SystemInv, Enabled, Next, Agreed;
    FreeBooks(c, i);
    if v in c.at { assert c.at[v] in c.at.Values; }
  }

  lemma DecidesInside(c: System, l: Label)
    requires Enabled(c, l) && OwnersCall(l) && ProtocolStep(c, l).Some?
    ensures l.Produce?
  {
  }

  lemma EverybodyAgrees(c: System, l: Label, v: nat)
    requires SystemInv(c) && Enabled(c, l)
    ensures AgreesAt(Next(c, l), v)
  {
    hide SystemInv, Enabled, Next, AgreesAt, ProtocolStep;
    if l.Plain? {
      PlainAgrees(c, l.l, v);
    } else if l.Free? {
      FreeAgrees(c, l.i, v);
    } else if OwnCall(l) {
      OwnCallAgrees(c, l, v);
    } else if ProtocolStep(c, l).None? {
      OwnersStutter(c, l, v);
    } else {
      DecidesInside(c, l);
      DecisionAgrees(c, l.step, v);
    }
  }

  // The owner's turn

  /** What the owner's turn depends on. */
  predicate SameTurn(p: P.State, p': P.State) {
    && p.owner.Some? && p'.owner == p.owner && p'.list == p.list
    && p'.CallOf(p.owner.value) == p.CallOf(p.owner.value)
  }

  predicate Waits(p: P.State, w: nat) {
    w in p.waiters && p.waiters[w].step.Waiting? && (p.waiters[w].waker.Pending? || p.waiters[w].waker.Cancelling?)
  }

  lemma NodesWait(p: P.State)
    requires Invariant.Inv(p)
    ensures p.list != [] ==> Waits(p, p.list[0])
    ensures Taken(p) != [] ==> Waits(p, Taken(p)[0])
  {
    assert p.list != [] ==> WaiterOk(p, p.list[0]);
    assert Taken(p) != [] ==> WaiterOk(p, Taken(p)[0]);
  }

  /** A waiter that waits stays, and asks for what it asked for. */
  lemma WaiterStays(p: P.State, l: P.Label, w: nat)
    requires P.Enabled(p, l) && Waits(p, w) && (P.OfFuture(l) || !OfWaker(l))
    ensures w in P.Next(p, l).waiters && P.Next(p, l).waiters[w].amount == p.waiters[w].amount
  {
    if P.OfFuture(l) {
      Progress.FutureWaiter(p, l, w);
    } else if P.OfRelease(l) {
      ReleaseMoves(p, l);
    } else {
      Progress.CallQueue(p, l);
    }
  }

  lemma TurnStays(c: System, c': System, i: nat)
    requires Invariant.Inv(c.p) && i < |c.cells| && OwnersTurn(c, i) && SameTurn(c.p, c'.p)
    requires i < |c'.cells| && c'.cells[i].producer == c.cells[i].producer
    requires forall w :: Waits(c.p, w) && HasCell(c, w) ==>
               HasCell(c', w) && c'.at[w] == c.at[w] && c'.p.waiters[w].amount == c.p.waiters[w].amount
    ensures OwnersTurn(c', i)
  {
    NodesWait(c.p);
    assert CallOk(c.p, c.p.owner.value);
    var t := c.p.owner.value;
    if W.Accepting(c.cells[i].producer) { assert Taken(c.p) == c.p.CallOf(t).phase.taken; }
  }

  /** While the owner is in a call of a waker, the steps outside are those of others. */
  lemma OwnerBusy(c: System, l: P.Label)
    requires SystemInv(c) && c.serving.Some? && Enabled(c, Plain(l))
    ensures c.p.owner.Some? && !(P.OfRelease(l) && c.p.owner == Some(l.t)) && l != P.Load(c.p.owner.value)
  {
  }

  lemma ReleaseOwner(p: P.State, l: P.Label)
    requires P.Enabled(p, l) && P.OfRelease(l) && p.owner.Some? && p.owner != Some(l.t)
    requires !p.release.Unlocked? && (p.CallOf(l.t).Release? ==> p.CallOf(l.t).phase.Locking?)
    ensures P.Next(p, l).owner == p.owner
  {
  }

  lemma OutsideOwnerKept(p: P.State, l: P.Label)
    requires P.Enabled(p, l) && !P.OfRelease(l)
    ensures P.Next(p, l).owner == p.owner
  {
  }

  lemma OwnerKept(p: P.State, l: P.Label)
    requires Invariant.Inv(p) && P.Enabled(p, l) && p.owner.Some?
    requires !(P.OfRelease(l) && p.owner == Some(l.t)) && l != P.Load(p.owner.value)
    ensures P.Next(p, l).owner == p.owner
  {
    if P.OfRelease(l) {
      assert CallOk(p, l.t);
      hide P.Enabled, P.Next;
      ReleaseOwner(p, l);
    } else {
      OutsideOwnerKept(p, l);
    }
  }

  lemma OthersStep(p: P.State, l: P.Label)
    requires Invariant.Inv(p) && P.Enabled(p, l) && p.owner.Some?
    requires !(P.OfRelease(l) && p.owner == Some(l.t)) && l != P.Load(p.owner.value)
    ensures SameTurn(p, P.Next(p, l))
  {
    Progress.OthersDoNotInterfere(p, l);
    OwnerKept(p, l);
  }

  lemma OutsideSteps(c: System, l: Label)
    requires Enabled(c, l) && !OwnersCall(l) && ProtocolStep(c, l).Some?
    ensures P.OfFuture(ProtocolStep(c, l).value) || !OfWaker(ProtocolStep(c, l).value)
  {
  }

  /** The books lose a waiter only with the protocol. */
  lemma BooksKeep(c: System, l: Label, w: nat)
    requires Enabled(c, l) && !OwnersCall(l) && Waits(c.p, w) && HasCell(c, w) && Fits(c, l)
    ensures var c' := Next(c, l);
            && c'.p == (if ProtocolStep(c, l).None? then c.p else P.Next(c.p, ProtocolStep(c, l).value))
            && w in c'.at && c'.at[w] == c.at[w] && c.at[w] < |c'.cells|
  {
    hide P.Next, W.Enabled, W.Next;
  }

  lemma AtStays(c: System, l: Label, w: nat)
    requires SystemInv(c) && Enabled(c, l) && !OwnersCall(l) && Waits(c.p, w) && HasCell(c, w)
    ensures HasCell(Next(c, l), w) && Next(c, l).at[w] == c.at[w]
    ensures Next(c, l).p.waiters[w].amount == c.p.waiters[w].amount
  {
    CallsFit(c, l);
    BooksKeep(c, l, w);
    if ProtocolStep(c, l).Some? {
      OutsideSteps(c, l);
      WaiterStays(c.p, ProtocolStep(c, l).value, w);
    }
    hide SystemInv, Enabled, P.Enabled, P.Next, Next;
  }

  lemma OutsideCells(c: System, l: Label)
    requires Enabled(c, l) && !OwnersCall(l) && CellStep(c, l).Some?
    ensures !W.OfProducer(CellStep(c, l).value.1)
  {
  }

  lemma ProducersStay(c: System, l: Label, i: nat)
    requires Enabled(c, l) && !OwnersCall(l) && i < |c.cells|
    ensures i < |Next(c, l).cells| && Next(c, l).cells[i].producer == c.cells[i].producer
  {
    if CellStep(c, l).Some? && CellStep(c, l).value.0 == i && W.Enabled(c.cells[i], CellStep(c, l).value.1) {
      OutsideCells(c, l);
      FutureLeavesProducer(c.cells[i], CellStep(c, l).value.1);
    }
    hide P.Enabled, P.Next, W.Enabled, W.Next;
  }

  lemma NewCells(c: System, l: Label)
    requires Enabled(c, l) && !OwnersCall(l)
    ensures Next(c, l).serving == c.serving && |c.cells| <= |Next(c, l).cells|
    ensures forall j :: |c.cells| <= j < |Next(c, l).cells| ==> Next(c, l).cells[j].producer.Waiting?
  {
    hide P.Enabled, P.Next, W.Enabled, W.Next;
  }

  lemma OutsideProtocol(c: System, l: Label)
    requires Enabled(c, l) && Fits(c, l)
    ensures Next(c, l).p == if ProtocolStep(c, l).None? then c.p else P.Next(c.p, ProtocolStep(c, l).value)
  {
    hide P.Enabled, P.Next, W.Enabled, W.Next;
  }

  lemma OwnIsFuture(c: System, l: Label)
    requires Enabled(c, l) && !OwnersCall(l) && !l.Plain? && ProtocolStep(c, l).Some? && c.p.owner.Some?
    ensures P.OfFuture(ProtocolStep(c, l).value) && !P.OfRelease(ProtocolStep(c, l).value)
    ensures !ProtocolStep(c, l).value.Load?
  {
  }

  lemma OutsideTurn(c: System, l: Label)
    requires SystemInv(c) && Enabled(c, l) && !OwnersCall(l) && c.serving.Some?
    ensures SameTurn(c.p, Next(c, l).p)
  {
    CallsFit(c, l);
    OutsideProtocol(c, l);
    if ProtocolStep(c, l).Some? {
      var pl := ProtocolStep(c, l).value;
      if l.Plain? {
        OwnerBusy(c, pl);
      } else {
        OwnIsFuture(c, l);
      }
      hide P.Enabled, P.Next, Enabled, Next, ProtocolStep, SameTurn;
      OthersStep(c.p, pl);
    }
  }

  lemma OutsideRest(c: System, l: Label, i: nat)
    requires SystemInv(c) && Enabled(c, l) && !OwnersCall(l)
    requires i < |Next(c, l).cells| && Next(c, l).serving != Some(i)
    ensures Resting(Next(c, l).cells[i].producer)
  {
    NewCells(c, l);
    if i < |c.cells| { ProducersStay(c, l, i); }
    hide Enabled, Next, Invariant.Inv, AgreesAt, W.ControlOk, OwnersTurn;
  }

  lemma OutsideOwner(c: System, l: Label, i: nat)
    requires SystemInv(c) && Enabled(c, l) && !OwnersCall(l) && c.serving == Some(i) && i < |c.cells| && OwnersTurn(c, i)
    ensures i < |Next(c, l).cells| && OwnersTurn(Next(c, l), i)
  {
    var c' := Next(c, l);
    assert Invariant.Inv(c.p);
    hide SystemInv, Invariant.Inv, Enabled, Next, SameTurn, OwnersTurn;
    ProducersStay(c, l, i);
    OutsideTurn(c, l);
    forall w | Waits(c.p, w) && HasCell(c, w)
      ensures HasCell(c', w) && c'.at[w] == c.at[w] && c'.p.waiters[w].amount == c.p.waiters[w].amount
    {
      AtStays(c, l, w);
    }
    TurnStays(c, c', i);
  }

  lemma OutsideServing(c: System, l: Label)
    requires SystemInv(c) && Enabled(c, l) && !OwnersCall(l)
    ensures Serving(Next(c, l))
  {
    assert c.serving.Some? ==> c.serving.value < |c.cells| && OwnersTurn(c, c.serving.value);
    hide SystemInv, Enabled, Next, OwnersTurn;
    var c' := Next(c, l);
    NewCells(c, l);
    forall i | 0 <= i < |c'.cells| && c'.serving != Some(i) ensures Resting(c'.cells[i].producer) {
      OutsideRest(c, l, i);
    }
    if c.serving.Some? { OutsideOwner(c, l, c.serving.value); }
  }

  // The owner in a call

  /** The owner's call goes on, decides, or is over. */
  lemma ProducerGoesOn(s: W.Cell, step: W.Label)
    requires W.ControlOk(s) && W.Enabled(s, step) && InnerProducer(step)
    ensures var q, q' := s.producer, W.Next(s, step).producer;
            if step.FinishLose? || step.FinishWinStoring? || step.DoWake? || step.DoUnpark? then Resting(q')
            else if step.FinishWin? then q'.Wake?
            else if step.AcceptWin? then q'.Unpark?
            else (Finishing(q) && Finishing(q') && q'.poisoned == q.poisoned) || (W.Accepting(q) && W.Accepting(q'))
  {
  }

  lemma ServingBooks(c: System, l: Label)
    requires Enabled(c, l) && OwnersCall(l)
    ensures CellStep(c, l).Some?
    ensures var i := CellStep(c, l).value.0;
            if l.Produce? then
              && c.serving == Some(i) && CellStep(c, l).value.1 == l.step
              && Next(c, l).serving == (if l.step.FinishLose? || l.step.FinishWinStoring? || l.step.DoWake? || l.step.DoUnpark?
                                        then None else Some(i))
            else Next(c, l).serving == Some(i) && c.serving.None?
  {
  }

  lemma OthersRest(c: System, l: Label)
    requires SystemInv(c) && Enabled(c, l) && OwnersCall(l)
    ensures var c' := Next(c, l);
            && |c'.cells| == |c.cells|
            && forall i :: 0 <= i < |c'.cells| && c'.serving != Some(i) ==> Resting(c'.cells[i].producer)
  {
    CallsFit(c, l);
    OwnersBooks(c, l);
    ServingBooks(c, l);
    if l.Produce? { ProducerGoesOn(c.cells[c.serving.value], l.step); }
    hide Invariant.Inv, P.Enabled, P.Next, W.Enabled, W.Next, Next, Enabled, OwnersTurn;
  }

  lemma FinishTurn(c: System)
    requires SystemInv(c) && Enabled(c, FinishStart)
    ensures Serving(Next(c, FinishStart))
  {
    OthersRest(c, FinishStart);
    CallsFit(c, FinishStart);
    var c' := Next(c, FinishStart);
    assert c'.p == c.p && c'.at == c.at;
    assert c'.cells[c'.serving.value].producer == W.FinishLoad(c.p.CallOf(c.p.owner.value).releasable.Poison?);
    hide SystemInv, P.Enabled, W.Enabled;
  }

  lemma AcceptTurn(c: System)
    requires SystemInv(c) && Enabled(c, AcceptStart)
    ensures Serving(Next(c, AcceptStart))
  {
    OthersRest(c, AcceptStart);
    CallsFit(c, AcceptStart);
    var c' := Next(c, AcceptStart);
    assert c'.p == c.p && c'.at == c.at;
    assert c'.cells[c'.serving.value].producer == W.AcceptLoad;
    hide SystemInv, P.Enabled, W.Enabled;
  }

  lemma WonTurn(p: P.State, l: P.Label, t: nat)
    requires P.Enabled(p, l) && p.owner == Some(t)
    ensures l == P.Grant(t) || l == P.Fail(t) ==> P.Next(p, l).owner == Some(t) && P.Pops(P.Next(p, l), t)
    ensures l == P.Unlink(t) ==> P.Next(p, l).owner == Some(t) && P.Unlinks(P.Next(p, l), t)
  {
  }

  lemma DecidedTurn(c: System, c': System, i: nat, t: nat)
    requires i < |c'.cells| && c'.p.owner == Some(t)
    requires (c'.cells[i].producer.Wake? && P.Pops(c'.p, t)) || (c'.cells[i].producer.Unpark? && P.Unlinks(c'.p, t))
    ensures OwnersTurn(c', i)
  {
  }

  lemma SameOwnersTurn(c: System, c': System, i: nat)
    requires i < |c.cells| && i < |c'.cells| && OwnersTurn(c, i) && c'.p == c.p && c'.at == c.at && |c'.cells| == |c.cells|
    requires var q, q' := c.cells[i].producer, c'.cells[i].producer;
             (Finishing(q) && Finishing(q') && q'.poisoned == q.poisoned) || (W.Accepting(q) && W.Accepting(q'))
    ensures OwnersTurn(c', i)
  {
  }

  lemma ProduceTurn(c: System, step: W.Label)
    requires SystemInv(c) && Enabled(c, Produce(step)) && Next(c, Produce(step)).serving.Some?
    ensures Next(c, Produce(step)).serving == c.serving && c.serving.value < |Next(c, Produce(step)).cells|
    ensures OwnersTurn(Next(c, Produce(step)), c.serving.value)
  {
    var l, i, t := Produce(step), c.serving.value, c.p.owner.value;
    CallsFit(c, l);
    OwnersBooks(c, l);
    ServingBooks(c, l);
    ProduceIs(c, step);
    assert OwnersTurn(c, i) && W.ControlOk(c.cells[i]);
    hide SystemInv, P.Enabled, P.Next, W.Enabled, W.Next, Next, Enabled, ProtocolStep, CellStep, W.ControlOk, OwnersTurn, InnerProducer;
    ProducerGoesOn(c.cells[i], step);
    if step.FinishWin? || step.AcceptWin? {
      WonTurn(c.p, ProtocolStep(c, l).value, t);
      DecidedTurn(c, Next(c, l), i, t);
    } else {
      SameOwnersTurn(c, Next(c, l), i);
    }
  }

  lemma OwnersServing(c: System, l: Label)
    requires SystemInv(c) && Enabled(c, l) && OwnersCall(l)
    ensures Serving(Next(c, l))
  {
    hide SystemInv, Enabled, Next, OwnersTurn;
    match l
    case FinishStart => FinishTurn(c);
    case AcceptStart => AcceptTurn(c);
    case Produce(step) =>
      OthersRest(c, l);
      if Next(c, l).serving.Some? { ProduceTurn(c, step); }
  }

  // ----- Every step -----

  lemma AtDistinct(c: System, l: Label)
    requires SystemInv(c) && Enabled(c, l)
    ensures Distinct(Next(c, l))
  {
    var c' := Next(c, l);
    forall v, w | v in c'.at && w in c'.at && v != w ensures c'.at[v] != c'.at[w] {
      assert AgreesAt(c, v) && AgreesAt(c, w);
    }
    hide P.Enabled, P.Next, W.Enabled, W.Next, AgreesAt, Invariant.Inv;
  }

  lemma NewControl(wrap: W.Pos)
    ensures W.ControlOk(W.New(wrap))
  {
  }

  lemma CellsControl(c: System, l: Label, i: nat)
    requires SystemInv(c) && Enabled(c, l) && i < |Next(c, l).cells|
    ensures W.ControlOk(Next(c, l).cells[i])
  {
    hide Invariant.Inv, P.Enabled, P.Next, W.Enabled, W.Next, W.ControlOk, AgreesAt, Serving;
    if i == |c.cells| {
      W.NewInv(c.wrap);
      NewControl(c.wrap);
    } else if CellStep(c, l).Some? && CellStep(c, l).value.0 == i && W.Enabled(c.cells[i], CellStep(c, l).value.1) {
      W.StepControl(c.cells[i], CellStep(c, l).value.1);
    }
  }

  lemma ProtocolInv(c: System, l: Label)
    requires SystemInv(c) && Enabled(c, l)
    ensures Invariant.Inv(Next(c, l).p)
  {
    CallsFit(c, l);
    OutsideProtocol(c, l);
    hide Invariant.Inv, P.Enabled, P.Next, Next, Enabled, ProtocolStep;
    if ProtocolStep(c, l).Some? { Steps.StepInv(c.p, ProtocolStep(c, l).value); }
  }

  lemma StepInv(c: System, l: Label)
    requires SystemInv(c) && Enabled(c, l)
    ensures SystemInv(Next(c, l))
  {
    var c' := Next(c, l);
    hide Invariant.Inv, Enabled, Next, AgreesAt, Distinct, Serving, W.ControlOk;
    ProtocolInv(c, l);
    AtDistinct(c, l);
    forall i | 0 <= i < |c'.cells| ensures W.ControlOk(c'.cells[i]) { CellsControl(c, l, i); }
    forall w: nat ensures AgreesAt(c', w) { EverybodyAgrees(c, l, w); }
    if OwnersCall(l) { OwnersServing(c, l); } else { OutsideServing(c, l); }
  }
}
