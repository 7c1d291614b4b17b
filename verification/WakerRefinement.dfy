/** How a waker's cell looks to the semaphore's protocol, which keeps one word of it: a finish, a
    cancellation and its acceptance change that word, each in one step. */
module WakerRefinement {
  import opened Packing
  import opened W = WakerProtocol
  import P = Protocol

  /** A poll that is storing a waker does not show. */
  function Abstract(v: WakerState): P.WakerState {
    match v
    case Pending(_) => P.Pending
    case Storing(_) => P.Pending
    case Finished(poisoned) => P.Finished(poisoned)
    case Cancelling => P.Cancelling
    case Cancelled => P.Cancelled
  }

  /** The cell is the waker of the node at `w`. */
  predicate Matches(s: W.Cell, p: P.State, w: nat) {
    w in p.waiters && p.waiters[w].waker == Abstract(s.state)
  }

  predicate Decides(l: W.Label) {
    l.FinishWin? || l.FinishWinStoring? || l.CancelWin? || l.AcceptWin?
  }

  /** The caller of the cell is where the code calls it from: the owner finishes the front of its
      list with what it has to give, or accepts the cancellation of the node it is to unlink, and a
      future is cancelled by its drop while it waits. Nothing is said about the waker. */
  predicate Turn(s: W.Cell, l: W.Label, p: P.State, w: nat, t: nat)
    requires W.Enabled(s, l) && Decides(l)
  {
    if l.CancelWin? then w in p.waiters && p.CallOf(w).Idle? && p.waiters[w].step.Waiting?
    else if l.AcceptWin? then P.Unlinks(p, t) && p.CallOf(t).phase.taken != [] && p.CallOf(t).phase.taken[0] == w
    else
      && P.Pops(p, t) && P.FrontFits(p, p.CallOf(t).releasable) && p.list[0] == w
      && p.CallOf(t).releasable.Poison? == s.producer.poisoned
  }

  lemma GrantFinishes(p: P.State, w: nat, t: nat)
    requires P.Pops(p, t) && P.FrontFits(p, p.CallOf(t).releasable) && p.list[0] == w && p.waiters[w].waker.Pending?
    requires p.CallOf(t).releasable.Count?
    ensures P.Enabled(p, P.Grant(t)) && w in P.Next(p, P.Grant(t)).waiters
    ensures P.Next(p, P.Grant(t)).waiters[w].waker == P.Finished(false)
  {
  }

  lemma FailFinishes(p: P.State, w: nat, t: nat)
    requires P.Pops(p, t) && P.FrontFits(p, p.CallOf(t).releasable) && p.list[0] == w && p.waiters[w].waker.Pending?
    requires p.CallOf(t).releasable.Poison?
    ensures P.Enabled(p, P.Fail(t)) && w in P.Next(p, P.Fail(t)).waiters
    ensures P.Next(p, P.Fail(t)).waiters[w].waker == P.Finished(true)
  {
  }

  predicate HearsOfFinish(l: W.Label) {
    l.PollReadyEarly? || l.PollReadyLate? || l.CancelLose?
  }

  lemma ReturnsFinish(s: W.Cell, l: W.Label)
    requires PollOk(s) && FutureOk(s) && W.Enabled(s, l) && HearsOfFinish(l)
    ensures s.state.Finished? && W.Next(s, l).future == Resolved(DidFinish(s.state.poisoned))
  {
  }
}
