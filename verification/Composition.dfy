/** The semaphore and the wakers of its futures as one system. The protocol's program counters say
    when a call of a waker begins; the waker's own steps follow one by one, among the steps of all
    other calls; and where its call returns, the protocol takes the step that the code takes then.
    No guard looks at the one-word waker that the protocol keeps for a node. */
module Composition {
  import opened Sequences
  import opened Invariant
  import opened WakerRefinement
  import P = Protocol
  import W = WakerProtocol
  import Refinement

  /** `at` is where the cell of a live waiter is; a cell stays in `cells` when its future is gone.
      `armed` are the futures in `poll_enter` that have stored their waker since they loaded the word,
      and `serving` is the cell that the lock owner is in a call of. */
  datatype System = System(
    wrap: W.Pos,
    p: P.State,
    cells: seq<W.Cell>,
    at: map<nat, nat>,
    armed: set<nat>,
    serving: Option<nat>)

  function Fresh(wrap: W.Pos, max: nat, initial: nat): System {
    System(wrap, P.Fresh(max, initial), [], map[], {}, None)
  }

  datatype Label =
    // A step of the protocol outside the calls of wakers.
    | Plain(l: P.Label)
    // A future begins a call of its waker.
    | PollStart(w: nat)
    | CancelStart(w: nat)
    | WaitStart(w: nat)
    // A step inside such a call.
    | Inner(w: nat, step: W.Label)
    // The lock owner begins a call, and a step inside it.
    | FinishStart
    | AcceptStart
    | Produce(step: W.Label)
    // The memory of a cell is given back.
    | Free(i: nat)

  predicate HasCell(c: System, w: nat) {
    w in c.at && c.at[w] < |c.cells| && w in c.p.waiters
  }

  function CellOf(c: System, w: nat): W.Cell
    requires HasCell(c, w)
  {
    c.cells[c.at[w]]
  }

  predicate InPoll(f: W.Future) {
    f.PollFirst? || W.MidPoll(f)
  }

  /** The future is in a call of its waker. */
  predicate InCall(f: W.Future) {
    InPoll(f) || f.Cancel? || f.WaitCheck? || f.Parked?
  }

  predicate Between(c: System, w: nat) {
    HasCell(c, w) ==> !InCall(CellOf(c, w).future)
  }

  /** Steps of the protocol that stand for what a waker's call decides. */
  predicate OfWaker(l: P.Label) {
    l.PollWaiting? || l.DropFinished? || l.StartCancel? || l.WaitDone? || l.Unlink? || l.Grant? || l.Fail?
  }

  predicate InnerFuture(l: W.Label) {
    !W.OfProducer(l) && !l.PollStart? && !l.Enqueue? && !l.CancelStart? && !l.Push? && !l.WaitStart? && !l.DropCell?
  }

  predicate InnerProducer(l: W.Label) {
    W.OfProducer(l) && !l.FinishStart? && !l.AcceptStart?
  }

  // ----- Guards -----

  predicate MayPlain(c: System, l: P.Label) {
    && !OfWaker(l) && P.Enabled(c.p, l)
    && (l.GuardForget? || Between(c, Refinement.Actor(l)))
    && (l.EnterPush? ==> l.w in c.armed)
    && (l.UnlinkDone? ==> c.serving.None?)
    && (l.PopStop? ==> c.serving.None? && (c.p.list == [] || !P.FrontFits(c.p, c.p.CallOf(l.t).releasable)))
  }

  /** `poll_waiting`, or the poll in `poll_enter` before its compare-exchange. */
  predicate MayPoll(c: System, w: nat)
    requires HasCell(c, w)
  {
    var k, x := c.p.CallOf(w), c.p.waiters[w];
    || (k.Idle? && x.step.Waiting?)
    || (k.PollEnter? && k.enterCur.Some? && P.MustWait(k.enterCur.value, x.amount) && w !in c.armed)
  }

  predicate MayFinish(c: System) {
    && c.serving.None? && c.p.owner.Some? && P.Pops(c.p, c.p.owner.value) && c.p.list != []
    && HasCell(c, c.p.list[0]) && P.FrontFits(c.p, c.p.CallOf(c.p.owner.value).releasable)
  }

  predicate MayAccept(c: System) {
    && c.serving.None? && c.p.owner.Some? && P.Unlinks(c.p, c.p.owner.value)
    && c.p.CallOf(c.p.owner.value).phase.taken != [] && HasCell(c, c.p.CallOf(c.p.owner.value).phase.taken[0])
  }

  predicate Enabled(c: System, l: Label) {
    match l
    case Plain(pl) => MayPlain(c, pl)
    case PollStart(w) => HasCell(c, w) && CellOf(c, w).future.Idle? && MayPoll(c, w)
    case CancelStart(w) =>
      HasCell(c, w) && CellOf(c, w).future.Idle? && c.p.CallOf(w).Idle? && c.p.waiters[w].step.Waiting?
    case WaitStart(w) => HasCell(c, w) && CellOf(c, w).future == W.AwaitAccept(true) && c.p.CallOf(w).WaitCancel?
    case Inner(w, step) => HasCell(c, w) && InnerFuture(step) && W.Enabled(CellOf(c, w), step)
    case FinishStart => MayFinish(c)
    case AcceptStart => MayAccept(c)
    case Produce(step) =>
      && c.serving.Some? && c.serving.value < |c.cells| && c.p.owner.Some?
      && InnerProducer(step) && W.Enabled(c.cells[c.serving.value], step)
    case Free(i) => i < |c.cells| && i !in c.at.Values && W.Enabled(c.cells[i], W.DropCell)
  }

  // ----- Effects -----

  /** What the step is in the protocol. */
  function ProtocolStep(c: System, l: Label): Option<P.Label>
    requires Enabled(c, l)
  {
    match l
    case Plain(pl) => Some(pl)
    case Inner(w, step) =>
      if step.CancelWin? then Some(P.StartCancel(w))
      else if step.PollReadyEarly? || step.PollReadyLate? then Some(P.PollWaiting(w))
      else if step.CancelLose? then Some(P.DropFinished(w))
      else if step.WaitOver? then Some(P.WaitDone(w))
      else None
    case Produce(step) =>
      var t := c.p.owner.value;
      if step.FinishWin? || step.FinishWinStoring? then
        Some(if c.cells[c.serving.value].producer.poisoned then P.Fail(t) else P.Grant(t))
      else if step.FinishLose? then Some(P.PopStop(t))
      else if step.AcceptWin? then Some(P.Unlink(t))
      else None
    case _ => None
  }

  /** What it is in one of the cells. */
  function CellStep(c: System, l: Label): Option<(nat, W.Label)>
    requires Enabled(c, l)
  {
    match l
    case Plain(pl) =>
      if pl.EnterPush? && HasCell(c, pl.w) then Some((c.at[pl.w], W.Enqueue))
      else if pl.CancelPush? && HasCell(c, pl.w) then Some((c.at[pl.w], W.Push))
      else None
    case PollStart(w) => Some((c.at[w], W.PollStart))
    case CancelStart(w) => Some((c.at[w], W.CancelStart))
    case WaitStart(w) => Some((c.at[w], W.WaitStart))
    case Inner(w, step) => Some((c.at[w], step))
    case FinishStart =>
      Some((c.at[c.p.list[0]], W.FinishStart(c.p.CallOf(c.p.owner.value).releasable.Poison?)))
    case AcceptStart => Some((c.at[c.p.CallOf(c.p.owner.value).phase.taken[0]], W.AcceptStart))
    case Produce(step) => Some((c.serving.value, step))
    case Free(i) => Some((i, W.DropCell))
  }

  function AfterProtocol(p: P.State, l: Option<P.Label>): P.State {
    if l.Some? && P.Enabled(p, l.value) then P.Next(p, l.value) else p
  }

  function AfterCell(cells: seq<W.Cell>, l: Option<(nat, W.Label)>): seq<W.Cell> {
    if l.Some? && l.value.0 < |cells| && W.Enabled(cells[l.value.0], l.value.1) then
      cells[l.value.0 := W.Next(cells[l.value.0], l.value.1)]
    else cells
  }

  function NextAt(c: System, l: Label): map<nat, nat> {
    match l
    case Plain(pl) =>
      if pl.NewFuture? then c.at[pl.w := |c.cells|] else if pl.DropIdle? then c.at - {pl.w} else c.at
    case Inner(w, step) => if step.CancelLose? || step.WaitOver? then c.at - {w} else c.at
    case _ => c.at
  }

  function NextArmed(c: System, l: Label): set<nat> {
    match l
    case Plain(pl) =>
      if pl.DropIdle? || pl.Load? || pl.EnterFast? || pl.EnterPoisoned? || pl.EnterPush? then c.armed - {Refinement.Actor(pl)}
      else c.armed
    case Inner(w, step) => if step.PollPending? && c.p.CallOf(w).PollEnter? then c.armed + {w} else c.armed
    case _ => c.armed
  }

  function NextServing(c: System, l: Label): Option<nat>
    requires Enabled(c, l)
  {
    match l
    case FinishStart => Some(c.at[c.p.list[0]])
    case AcceptStart => Some(c.at[c.p.CallOf(c.p.owner.value).phase.taken[0]])
    case Produce(step) =>
      if step.FinishLose? || step.FinishWinStoring? || step.DoWake? || step.DoUnpark? then None else c.serving
    case _ => c.serving
  }

  function Next(c: System, l: Label): System
    requires Enabled(c, l)
  {
    System(
      c.wrap,
      AfterProtocol(c.p, ProtocolStep(c, l)),
      AfterCell(c.cells, CellStep(c, l)) + (if l.Plain? && l.l.NewFuture? then [W.New(c.wrap)] else []),
      NextAt(c, l),
      NextArmed(c, l),
      NextServing(c, l))
  }

  ghost predicate Run(c: System, labels: seq<Label>, c': System)
    decreases |labels|
  {
    if labels == [] then c' == c
    else Enabled(c, labels[0]) && Run(Next(c, labels[0]), labels[1..], c')
  }

  ghost predicate Reachable(c: System) {
    exists wrap: W.Pos, max, initial, labels :: Run(Fresh(wrap, max, initial), labels, c)
  }

  // ----- The invariant -----

  /** How a live waiter, its future's own call and its cell agree. */
  predicate Agreed(x: P.Waiter, k: P.Call, cell: W.Cell, armed: bool) {
    var f := cell.future;
    && x.waker == Abstract(cell.state)
    && (x.step.Entering? ==> !cell.enqueued)
    && (x.step.Waiting? ==> cell.enqueued)
    && !f.Gone?
    && (InPoll(f) ==> k.PollEnter? || (k.Idle? && x.step.Waiting?))
    && (f.Cancel? ==> k.Idle? && x.step.Waiting?)
    && (f == W.AwaitAccept(false) <==> k.PushCancel?)
    && (f == W.AwaitAccept(true) ==> k.WaitCancel? || (k.Release? && k.after.AwaitAccept?))
    && (k.Release? && k.after.AwaitAccept? ==> f == W.AwaitAccept(true))
    && (k.WaitCancel? ==> f == W.AwaitAccept(true) || f.WaitCheck? || f.Parked?)
    && (f.WaitCheck? || f.Parked? ==> k.WaitCancel?)
    && (f.Resolved? ==> x.step.Done? && f.outcome.DidFinish?)
    && (armed ==> k.PollEnter? && cell.latest.Some?)
  }

  predicate AgreesAt(c: System, w: nat) {
    && (w in c.at <==> w in c.p.waiters)
    && (w in c.armed ==> w in c.at)
    && (w in c.at ==> c.at[w] < |c.cells| && Agreed(c.p.waiters[w], c.p.CallOf(w), CellOf(c, w), w in c.armed))
  }

  ghost predicate Distinct(c: System) {
    forall v, w :: v in c.at && w in c.at && v != w ==> c.at[v] != c.at[w]
  }

  predicate Resting(p: W.Producer) {
    p.Waiting? || p.Done?
  }

  predicate Finishing(p: W.Producer) {
    p.FinishLoad? || p.FinishData? || p.FinishVtable? || p.FinishCas? || p.FinishStoring?
  }

  /** The lock owner is where the code calls the waker from, and its node is the one whose turn it is. */
  predicate OwnersTurn(c: System, i: nat)
    requires i < |c.cells|
  {
    var prod := c.cells[i].producer;
    && c.p.owner.Some?
    && (var t := c.p.owner.value;
        if Finishing(prod) then
          && P.Pops(c.p, t) && P.FrontFits(c.p, c.p.CallOf(t).releasable)
          && HasCell(c, c.p.list[0]) && c.at[c.p.list[0]] == i
          && c.p.CallOf(t).releasable.Poison? == prod.poisoned
        else if W.Accepting(prod) then
          && P.Unlinks(c.p, t) && c.p.CallOf(t).phase.taken != []
          && HasCell(c, c.p.CallOf(t).phase.taken[0]) && c.at[c.p.CallOf(t).phase.taken[0]] == i
        else (prod.Wake? && P.Pops(c.p, t)) || (prod.Unpark? && P.Unlinks(c.p, t)))
  }

  ghost predicate Serving(c: System) {
    && (forall i :: 0 <= i < |c.cells| && c.serving != Some(i) ==> Resting(c.cells[i].producer))
    && (c.serving.Some? ==> c.serving.value < |c.cells| && OwnersTurn(c, c.serving.value))
  }

  ghost predicate SystemInv(c: System) {
    && Invariant.Inv(c.p)
    && (forall i :: 0 <= i < |c.cells| ==> W.ControlOk(c.cells[i]))
    && (forall w: nat :: AgreesAt(c, w))
    && Distinct(c) && Serving(c)
  }

  // ----- Every call fits -----

  /** The steps that a label stands for can be taken: the waker is in a state in which the code may
      call it, and the protocol allows what the code does with what the call returns. */
  predicate Fits(c: System, l: Label)
    requires Enabled(c, l)
  {
    && (ProtocolStep(c, l).Some? ==> P.Enabled(c.p, ProtocolStep(c, l).value))
    && (CellStep(c, l).Some? ==>
          CellStep(c, l).value.0 < |c.cells| && W.Enabled(c.cells[CellStep(c, l).value.0], CellStep(c, l).value.1))
  }

  lemma At(c: System, w: nat)
    requires SystemInv(c) && w in c.p.waiters
    ensures HasCell(c, w) && Agreed(c.p.waiters[w], c.p.CallOf(w), CellOf(c, w), w in c.armed)
    ensures W.ControlOk(CellOf(c, w)) && WaiterOk(c.p, w)
    ensures c.serving != Some(c.at[w]) ==> Resting(CellOf(c, w).producer)
  {
    assert AgreesAt(c, w);
  }

  /** A node in the queue can still be finished or accepted. */
  lemma InQueueWaits(c: System, w: nat)
    requires SystemInv(c) && InQueue(c.p, w) && c.serving.None?
    ensures HasCell(c, w) && CellOf(c, w).producer.Waiting? && CellOf(c, w).enqueued
  {
    assert WaiterOk(c.p, w);
    At(c, w);
  }

  lemma EnterPushFits(c: System, w: nat)
    requires SystemInv(c) && Enabled(c, Plain(P.EnterPush(w)))
    ensures Fits(c, Plain(P.EnterPush(w)))
  {
    At(c, w);
  }

  lemma CancelPushFits(c: System, w: nat)
    requires SystemInv(c) && Enabled(c, Plain(P.CancelPush(w)))
    ensures Fits(c, Plain(P.CancelPush(w)))
  {
    At(c, w);
  }

  lemma CallFits(c: System, l: Label)
    requires SystemInv(c) && Enabled(c, l) && (l.PollStart? || l.CancelStart? || l.WaitStart?)
    ensures Fits(c, l)
  {
    At(c, l.w);
  }

  lemma FinishFits(c: System)
    requires SystemInv(c) && Enabled(c, FinishStart)
    ensures Fits(c, FinishStart)
  {
    InQueueWaits(c, c.p.list[0]);
  }

  /** The node that is cancelling is one whose drop has announced it. */
  lemma CancellingAwaits(c: System, w: nat)
    requires SystemInv(c) && w in Taken(c.p)
    ensures HasCell(c, w) && CellOf(c, w).state.Cancelling?
    ensures var f := CellOf(c, w).future; f == W.AwaitAccept(true) || f.WaitCheck? || f.Parked?
  {
    assert WaiterOk(c.p, w);
    At(c, w);
  }

  lemma AcceptFits(c: System)
    requires SystemInv(c) && Enabled(c, AcceptStart)
    ensures Fits(c, AcceptStart)
  {
    var t := c.p.owner.value;
    assert CallOk(c.p, t);
    var w := c.p.CallOf(t).phase.taken[0];
    CancellingAwaits(c, w);
    At(c, w);
  }

  /** Where the state was when a call of the future decided or returned. */
  lemma InnerFrom(s: W.Cell, step: W.Label)
    requires W.ControlOk(s) && W.Enabled(s, step) && InnerFuture(step)
    ensures step.CancelWin? ==> s.state.Pending? && s.future.Cancel?
    ensures step.PollReadyEarly? || step.PollReadyLate? ==> s.state.Finished? && InPoll(s.future) && s.enqueued
    ensures step.CancelLose? ==> s.state.Finished? && s.future.Cancel?
    ensures step.WaitOver? ==> s.state.Cancelled? && s.future.WaitCheck?
  {
  }

  lemma InnerFits(c: System, w: nat, step: W.Label)
    requires SystemInv(c) && Enabled(c, Inner(w, step))
    ensures Fits(c, Inner(w, step))
  {
    At(c, w);
    InnerFrom(CellOf(c, w), step);
    hide W.Enabled, W.ControlOk, InnerFuture;
  }

  lemma ProducerFrom(s: W.Cell, step: W.Label)
    requires W.ControlOk(s) && W.Enabled(s, step) && InnerProducer(step)
    ensures step.FinishWin? || step.FinishWinStoring? ==> Finishing(s.producer) && (s.state.Pending? || s.state.Storing?)
    ensures step.FinishLose? ==> Finishing(s.producer) && s.state.Cancelling?
    ensures step.AcceptWin? ==> W.Accepting(s.producer) && s.state.Cancelling?
  {
  }

  /** The lock owner's turn, in the words of the protocol. */
  lemma TurnOfFinish(c: System)
    requires SystemInv(c) && c.serving.Some? && Finishing(c.cells[c.serving.value].producer)
    ensures c.p.owner.Some?
    ensures var i, t := c.serving.value, c.p.owner.value;
            && P.Pops(c.p, t) && P.FrontFits(c.p, c.p.CallOf(t).releasable)
            && HasCell(c, c.p.list[0]) && c.at[c.p.list[0]] == i
            && c.p.CallOf(t).releasable.Poison? == c.cells[i].producer.poisoned
            && c.p.waiters[c.p.list[0]].waker == Abstract(c.cells[i].state)
  {
    At(c, c.p.list[0]);
  }

  lemma TurnOfAccept(c: System)
    requires SystemInv(c) && c.serving.Some? && W.Accepting(c.cells[c.serving.value].producer)
    ensures c.p.owner.Some?
    ensures var i, t := c.serving.value, c.p.owner.value;
            && P.Unlinks(c.p, t) && c.p.CallOf(t).phase.taken != [] && HasCell(c, c.p.CallOf(t).phase.taken[0])
            && c.at[c.p.CallOf(t).phase.taken[0]] == i
            && c.p.waiters[c.p.CallOf(t).phase.taken[0]].waker == Abstract(c.cells[i].state)
  {
    At(c, c.p.CallOf(c.p.owner.value).phase.taken[0]);
  }

  lemma ProduceIs(c: System, step: W.Label)
    requires Enabled(c, Produce(step))
    ensures var i, t := c.serving.value, c.p.owner.value;
            && i < |c.cells| && W.Enabled(c.cells[i], step) && InnerProducer(step)
            && CellStep(c, Produce(step)) == Some((i, step))
            && ProtocolStep(c, Produce(step)) ==
               if step.FinishWin? || step.FinishWinStoring? then
                 Some(if c.cells[i].producer.poisoned then P.Fail(t) else P.Grant(t))
               else if step.FinishLose? then Some(P.PopStop(t))
               else if step.AcceptWin? then Some(P.Unlink(t))
               else None
  {
  }

  lemma WinFits(c: System, step: W.Label)
    requires SystemInv(c) && Enabled(c, Produce(step)) && (step.FinishWin? || step.FinishWinStoring?)
    ensures Fits(c, Produce(step))
  {
    ProduceIs(c, step);
    ProducerFrom(c.cells[c.serving.value], step);
    TurnOfFinish(c);
    hide SystemInv, Enabled, P.Enabled, P.Next, W.Enabled, InnerProducer, ProtocolStep, CellStep;
    var t, w := c.p.owner.value, c.p.list[0];
    if c.cells[c.serving.value].producer.poisoned {
      FailFinishes(c.p, w, t);
    } else {
      GrantFinishes(c.p, w, t);
    }
  }

  lemma CancelStops(p: P.State, t: nat)
    requires P.Pops(p, t) && p.list != [] && p.list[0] in p.waiters && p.waiters[p.list[0]].waker.Cancelling?
    ensures P.Enabled(p, P.PopStop(t))
  {
  }

  lemma LoseFits(c: System)
    requires SystemInv(c) && Enabled(c, Produce(W.FinishLose))
    ensures Fits(c, Produce(W.FinishLose))
  {
    ProduceIs(c, W.FinishLose);
    ProducerFrom(c.cells[c.serving.value], W.FinishLose);
    TurnOfFinish(c);
    hide SystemInv, Enabled, P.Enabled, W.Enabled, InnerProducer, ProtocolStep, CellStep;
    CancelStops(c.p, c.p.owner.value);
  }

  lemma AcceptUnlinks(p: P.State, t: nat)
    requires P.Unlinks(p, t) && p.CallOf(t).phase.taken != [] && p.CallOf(t).phase.taken[0] in p.waiters
    ensures P.Enabled(p, P.Unlink(t))
  {
  }

  lemma AcceptedFits(c: System)
    requires SystemInv(c) && Enabled(c, Produce(W.AcceptWin))
    ensures Fits(c, Produce(W.AcceptWin))
  {
    ProduceIs(c, W.AcceptWin);
    ProducerFrom(c.cells[c.serving.value], W.AcceptWin);
    TurnOfAccept(c);
    hide SystemInv, Enabled, P.Enabled, W.Enabled, InnerProducer, ProtocolStep, CellStep;
    AcceptUnlinks(c.p, c.p.owner.value);
  }

  lemma ProduceFits(c: System, step: W.Label)
    requires SystemInv(c) && Enabled(c, Produce(step))
    ensures Fits(c, Produce(step))
  {
    if step.FinishWin? || step.FinishWinStoring? {
      WinFits(c, step);
    } else if step.FinishLose? {
      LoseFits(c);
    } else if step.AcceptWin? {
      AcceptedFits(c);
    } else {
      hide SystemInv, W.Enabled, InnerProducer;
    }
  }

  lemma CallsFit(c: System, l: Label)
    requires SystemInv(c) && Enabled(c, l)
    ensures Fits(c, l)
  {
    match l
    case Plain(pl) =>
      if pl.EnterPush? {
        EnterPushFits(c, pl.w);
      } else if pl.CancelPush? {
        CancelPushFits(c, pl.w);
      }
    case PollStart(_) => CallFits(c, l);
    case CancelStart(_) => CallFits(c, l);
    case WaitStart(_) => CallFits(c, l);
    case Inner(w, step) => InnerFits(c, w, step);
    case FinishStart => FinishFits(c);
    case AcceptStart => AcceptFits(c);
    case Produce(step) => ProduceFits(c, step);
    case Free(_) =>
  }
}
