/** What the composed system promises: it runs as the protocol does, no call of a waker comes at the
    wrong time, and what the calls return is what the protocol says. */
module Composed {
  import opened Sequences
  import opened Invariant
  import opened WakerRefinement
  import opened Composition
  import opened CompositionSteps
  import P = Protocol
  import W = WakerProtocol
  import Steps

  lemma FreshInv(wrap: W.Pos, max: nat, initial: nat)
    ensures SystemInv(Fresh(wrap, max, initial))
  {
    Steps.FreshInv(max, initial);
    forall w: nat ensures AgreesAt(Fresh(wrap, max, initial), w) {}
  }

  lemma {:induction false} RunInv(c: System, labels: seq<Label>, c': System)
    requires SystemInv(c) && Run(c, labels, c')
    ensures SystemInv(c')
    decreases |labels|
  {
    hide SystemInv, Enabled, Next;
    if labels != [] {
      StepInv(c, labels[0]);
      RunInv(Next(c, labels[0]), labels[1..], c');
    }
  }

  lemma ReachableInv(c: System)
    requires Reachable(c)
    ensures SystemInv(c)
  {
    hide SystemInv, Run;
    var wrap: W.Pos, max, initial, labels :| Run(Fresh(wrap, max, initial), labels, c);
    FreshInv(wrap, max, initial);
    RunInv(Fresh(wrap, max, initial), labels, c);
  }

  // ----- The protocol's runs -----

  /** The steps of the protocol in a run of the system. */
  ghost function Projected(c: System, labels: seq<Label>): seq<P.Label>
    decreases |labels|
  {
    if labels == [] || !Enabled(c, labels[0]) then []
    else
      (if ProtocolStep(c, labels[0]).Some? then [ProtocolStep(c, labels[0]).value] else [])
      + Projected(Next(c, labels[0]), labels[1..])
  }

  lemma {:induction false} RunProjects(c: System, labels: seq<Label>, c': System)
    requires SystemInv(c) && Run(c, labels, c')
    ensures P.Run(c.p, Projected(c, labels), c'.p)
    decreases |labels|
  {
    if labels != [] {
      hide SystemInv, Enabled, Next, P.Enabled, P.Next, ProtocolStep;
      var l, mid := labels[0], Next(c, labels[0]);
      CallsFit(c, l);
      OutsideProtocol(c, l);
      StepInv(c, l);
      RunProjects(mid, labels[1..], c');
      if ProtocolStep(c, l).Some? {
        assert Projected(c, labels)[1..] == Projected(mid, labels[1..]);
      } else {
        assert Projected(c, labels) == Projected(mid, labels[1..]);
      }
    }
  }

  /** Every cell is one that its own protocol reaches. */
  ghost predicate CellsReached(c: System) {
    forall i :: 0 <= i < |c.cells| ==> W.Reachable(c.cells[i])
  }

  lemma CellReachesOn(s: W.Cell, l: W.Label)
    requires W.Reachable(s) && W.Enabled(s, l)
    ensures W.Reachable(W.Next(s, l))
  {
    hide W.Enabled, W.Next;
    var wrap: W.Pos, labels :| W.Run(W.New(wrap), labels, s);
    var s' := W.Next(s, l);
    assert W.Run(s', [], s');
    W.RunOne(s, l, [], s');
    W.RunAppend(W.New(wrap), labels, s, [l] + [], s');
  }

  lemma NewReached(wrap: W.Pos)
    ensures W.Reachable(W.New(wrap))
  {
    assert W.Run(W.New(wrap), [], W.New(wrap));
  }

  lemma CellsStepReached(c: System, l: Label)
    requires CellsReached(c) && Enabled(c, l)
    ensures CellsReached(Next(c, l))
  {
    hide P.Enabled, P.Next, W.Enabled, W.Next, W.Reachable;
    var c' := Next(c, l);
    forall i | 0 <= i < |c'.cells| ensures W.Reachable(c'.cells[i]) {
      if i == |c.cells| {
        NewReached(c.wrap);
      } else if CellStep(c, l).Some? && CellStep(c, l).value.0 == i && W.Enabled(c.cells[i], CellStep(c, l).value.1) {
        CellReachesOn(c.cells[i], CellStep(c, l).value.1);
      }
    }
  }

  lemma {:induction false} RunReachesCells(c: System, labels: seq<Label>, c': System)
    requires CellsReached(c) && Run(c, labels, c')
    ensures CellsReached(c')
    decreases |labels|
  {
    hide Enabled, Next, CellsReached;
    if labels != [] {
      CellsStepReached(c, labels[0]);
      RunReachesCells(Next(c, labels[0]), labels[1..], c');
    }
  }

  /** Every run of the system is a run of the protocol and, in each cell, one of its own protocol: so
      what is proved of all reachable states of either holds of the two together. */
  lemma SystemRefines(wrap: W.Pos, max: nat, initial: nat, labels: seq<Label>, c: System)
    requires Run(Fresh(wrap, max, initial), labels, c)
    ensures P.Run(P.Fresh(max, initial), Projected(Fresh(wrap, max, initial), labels), c.p)
    ensures P.Reachable(c.p)
    ensures forall i :: 0 <= i < |c.cells| ==> W.Reachable(c.cells[i])
  {
    var c0 := Fresh(wrap, max, initial);
    assert CellsReached(c0);
    RunReachesCells(c0, labels, c);
    FreshInv(wrap, max, initial);
    hide SystemInv, Run, P.Run;
    RunProjects(c0, labels, c);
    assert P.Init(c0.p);
  }

  // ----- Calls and what they return -----

  /** No call of a waker comes at a wrong time: where the protocol's program counters let a call begin,
      the waker is ready for it, and where the call decides or returns, the protocol's step for that
      is enabled. */
  lemma NoCallMisfits(c: System, l: Label)
    requires Reachable(c) && Enabled(c, l)
    ensures Fits(c, l)
  {
    hide SystemInv, Enabled, Fits;
    ReachableInv(c);
    CallsFit(c, l);
  }

  lemma AgreedMatches(c: System, w: nat)
    requires HasCell(c, w) && Agreed(c.p.waiters[w], c.p.CallOf(w), CellOf(c, w), w in c.armed)
    ensures Matches(CellOf(c, w), c.p, w)
  {
  }

  /** A live waiter always has its cell, and the one word the protocol keeps is what the cell shows. */
  lemma WakersMatch(c: System, w: nat)
    requires Reachable(c) && w in c.p.waiters
    ensures HasCell(c, w) && Matches(CellOf(c, w), c.p, w)
  {
    hide Agreed, Invariant.Inv;
    ReachableInv(c);
    At(c, w);
    AgreedMatches(c, w);
  }

  /** Where a compare-exchange of the lock owner decides, it is that node's turn: the node is live, its
      cell is the one that decides, and the owner stands where the code calls it from. */
  lemma TurnOfOwner(c: System, step: W.Label)
    requires Reachable(c) && Enabled(c, Produce(step)) && Decides(step)
    ensures c.p.owner.Some? && W.Enabled(c.cells[c.serving.value], step)
    ensures exists w :: HasCell(c, w) && c.at[w] == c.serving.value && Matches(CellOf(c, w), c.p, w)
                        && Turn(CellOf(c, w), step, c.p, w, c.p.owner.value)
  {
    ReachableInv(c);
    ProduceIs(c, step);
    ProducerFrom(c.cells[c.serving.value], step);
    if step.AcceptWin? {
      TurnOfAccept(c);
    } else {
      TurnOfFinish(c);
    }
    hide SystemInv, Enabled, W.Enabled;
  }

  /** And where one of a future decides, its drop has been called while it waits. */
  lemma TurnOfDrop(c: System, w: nat, t: nat)
    requires Reachable(c) && Enabled(c, Inner(w, W.CancelWin))
    ensures HasCell(c, w) && W.Enabled(CellOf(c, w), W.CancelWin) && Matches(CellOf(c, w), c.p, w)
    ensures Turn(CellOf(c, w), W.CancelWin, c.p, w, t)
  {
    ReachableInv(c);
    At(c, w);
    hide Invariant.Inv, W.ControlOk;
  }

  lemma HeardFinish(s: W.Cell, step: W.Label)
    requires W.ControlOk(s) && W.Enabled(s, step) && HearsOfFinish(step)
    ensures s.state.Finished? && W.Next(s, step).future == W.Resolved(W.DidFinish(s.state.poisoned))
  {
    ReturnsFinish(s, step);
  }

  /** A poll or a drop that hears of a finish gets the poison bit that the protocol acts on. */
  lemma OutcomesMatch(c: System, w: nat, step: W.Label)
    requires Reachable(c) && Enabled(c, Inner(w, step)) && HearsOfFinish(step)
    ensures w in c.p.waiters && c.p.waiters[w].waker.Finished?
    ensures W.Next(CellOf(c, w), step).future == W.Resolved(W.DidFinish(c.p.waiters[w].waker.poisoned))
  {
    hide Agreed, Invariant.Inv, W.Enabled, W.Next, W.ControlOk;
    ReachableInv(c);
    At(c, w);
    AgreedMatches(c, w);
    HeardFinish(CellOf(c, w), step);
  }

  /** The lock owner only ever finishes or accepts a waiter that is still there. */
  lemma ServedIsLive(c: System, i: nat)
    requires Reachable(c) && c.serving == Some(i)
    ensures i < |c.cells|
    ensures Finishing(c.cells[i].producer) || W.Accepting(c.cells[i].producer) ==> exists w :: HasCell(c, w) && c.at[w] == i
  {
    hide Invariant.Inv, W.ControlOk, AgreesAt;
    ReachableInv(c);
  }

  lemma FreeHasToken(c: System, w: nat)
    requires SystemInv(c) && HasCell(c, w) && CellOf(c, w).future.Parked? && c.p.release.Unlocked?
    ensures CellOf(c, w).state.Cancelled? && CellOf(c, w).token
  {
    At(c, w);
    assert c.p.CallOf(w).WaitCancel?;
    assert c.serving.None?;
    assert WaiterOk(c.p, w);
  }

  /** Nobody stays parked: when the lock is free, a parked future has its token, and its cancellation
      was accepted. */
  lemma ParkedHasToken(c: System, w: nat)
    requires Reachable(c) && HasCell(c, w) && CellOf(c, w).future.Parked? && c.p.release.Unlocked?
    ensures CellOf(c, w).state.Cancelled? && CellOf(c, w).token
  {
    ReachableInv(c);
    FreeHasToken(c, w);
  }

  // ----- Tasks are woken -----

  /** A finish that wins still holds the words that are in its cell. */
  predicate Current(c: System, l: Label)
    requires Enabled(c, l)
  {
    l.Produce? ==> W.Current(c.cells[c.serving.value], l.step)
  }

  /** A finish that wins does so before the sequence number has gone all the way round. */
  predicate InTime(c: System, l: Label)
    requires Enabled(c, l)
  {
    l.Produce? ==> W.InTime(c.cells[c.serving.value], l.step)
  }

  ghost predicate CurrentRun(c: System, labels: seq<Label>, c': System)
    decreases |labels|
  {
    if labels == [] then c' == c
    else Enabled(c, labels[0]) && Current(c, labels[0]) && CurrentRun(Next(c, labels[0]), labels[1..], c')
  }

  ghost predicate TimelyRun(c: System, labels: seq<Label>, c': System)
    decreases |labels|
  {
    if labels == [] then c' == c
    else Enabled(c, labels[0]) && InTime(c, labels[0]) && TimelyRun(Next(c, labels[0]), labels[1..], c')
  }

  ghost predicate CellsOk(c: System) {
    forall i :: 0 <= i < |c.cells| ==> W.Inv(c.cells[i])
  }

  /** The compare-exchanges that take a waker are the ones of the lock owner. */
  lemma OnlyProducersWin(c: System, l: Label)
    requires Enabled(c, l) && CellStep(c, l).Some? && CellStep(c, l).value.1.FinishWin?
    ensures l.Produce? && CellStep(c, l).value == (c.serving.value, l.step)
  {
  }

  lemma CellsStepOk(c: System, l: Label)
    requires CellsOk(c) && Enabled(c, l) && Current(c, l)
    ensures CellsOk(Next(c, l))
  {
    var c' := Next(c, l);
    if CellStep(c, l).Some? && CellStep(c, l).value.1.FinishWin? { OnlyProducersWin(c, l); }
    hide P.Enabled, P.Next, W.Enabled, W.Next, W.Inv;
    forall i | 0 <= i < |c'.cells| ensures W.Inv(c'.cells[i]) {
      if i == |c.cells| {
        W.NewInv(c.wrap);
      } else if CellStep(c, l).Some? && CellStep(c, l).value.0 == i && W.Enabled(c.cells[i], CellStep(c, l).value.1) {
        W.StepInv(c.cells[i], CellStep(c, l).value.1);
      }
    }
  }

  lemma {:induction false} CurrentRunInv(c: System, labels: seq<Label>, c': System)
    requires SystemInv(c) && CellsOk(c) && CurrentRun(c, labels, c')
    ensures SystemInv(c') && CellsOk(c')
    decreases |labels|
  {
    hide SystemInv, CellsOk, Enabled, Next, Current;
    if labels != [] {
      StepInv(c, labels[0]);
      CellsStepOk(c, labels[0]);
      CurrentRunInv(Next(c, labels[0]), labels[1..], c');
    }
  }

  ghost predicate ReachableCurrently(c: System) {
    exists wrap: W.Pos, max, initial, labels :: CurrentRun(Fresh(wrap, max, initial), labels, c)
  }

  lemma CurrentlyReachableInv(c: System)
    requires ReachableCurrently(c)
    ensures SystemInv(c) && CellsOk(c)
  {
    hide SystemInv, CurrentRun;
    var wrap: W.Pos, max, initial, labels :| CurrentRun(Fresh(wrap, max, initial), labels, c);
    FreshInv(wrap, max, initial);
    CurrentRunInv(Fresh(wrap, max, initial), labels, c);
  }

  lemma ProducedInTime(c: System, l: Label)
    requires CellsOk(c) && Enabled(c, l) && InTime(c, l)
    ensures Current(c, l)
  {
    if l.Produce? {
      hide W.Inv, W.Enabled;
      W.InTimeIsCurrent(c.cells[c.serving.value], l.step);
    }
  }

  /** It is enough that no cell is polled as often as there are sequence numbers between a finish's
      load and its compare-exchange. */
  lemma {:induction false} TimelyRunsAreCurrent(c: System, labels: seq<Label>, c': System)
    requires CellsOk(c) && TimelyRun(c, labels, c')
    ensures CurrentRun(c, labels, c')
    decreases |labels|
  {
    hide CellsOk, Enabled, Next, Current, InTime;
    if labels != [] {
      ProducedInTime(c, labels[0]);
      CellsStepOk(c, labels[0]);
      TimelyRunsAreCurrent(Next(c, labels[0]), labels[1..], c');
    }
  }

  lemma FinishedIsWoken(s: W.Cell)
    requires W.Inv(s) && s.state.Finished? && s.future.Idle?
    ensures s.latest.Some?
    ensures s.producer == W.Wake(s.state.poisoned, W.Whole(s.latest.value)) || s.woken[W.Whole(s.latest.value)] == 1
  {
    assert W.Hands(s, s.latest.value) == W.One(s.latest.value < s.clones);
  }

  /** No lost wakeup, for tasks: a future whose acquire was finished, or failed, and that is not just
      being polled, has had the waker of its last poll woken, once, unless the lock owner is about to.
      With the lock free it has. */
  lemma TaskWoken(c: System, w: nat)
    requires ReachableCurrently(c) && w in c.p.waiters && c.p.waiters[w].waker.Finished?
    ensures HasCell(c, w)
    ensures var s := CellOf(c, w);
            s.future.Idle? ==>
              && s.latest.Some?
              && (s.woken[W.Whole(s.latest.value)] == 1
                  || (c.serving == Some(c.at[w]) && c.p.owner.Some?
                      && s.producer == W.Wake(c.p.waiters[w].waker.poisoned, W.Whole(s.latest.value))))
              && (c.p.release.Unlocked? ==> s.woken[W.Whole(s.latest.value)] == 1)
  {
    CurrentlyReachableInv(c);
    At(c, w);
    AgreedMatches(c, w);
    var s := CellOf(c, w);
    assert c.p.release.Unlocked? ==> c.serving.None?;
    assert W.Inv(s);
    assert c.serving.Some? ==> c.p.owner.Some?;
    hide SystemInv, CellsOk, Agreed, W.Inv, W.ControlOk;
    if s.future.Idle? { FinishedIsWoken(s); }
  }

  lemma CellOwns(s: W.Cell, k: nat)
    requires W.Inv(s)
    ensures s.woken[W.Whole(k)] + s.dropped[W.Whole(k)] <= W.One(k < s.clones)
    ensures s.future.Gone? && !s.producer.Wake? ==> s.woken[W.Whole(k)] + s.dropped[W.Whole(k)] == W.One(k < s.clones)
    ensures forall words: W.Words :: words in s.woken || words in s.dropped ==> words.data == words.vtable
  {
    assert W.Hands(s, k) == W.One(k < s.clones);
  }

  /** And wakers are owned linearly: of every waker that a future of the semaphore ever stored, woken or
      dropped at most once, none is left over when its cell is gone and the lock owner done with it. */
  lemma WakersConsumedOnce(c: System, i: nat, k: nat)
    requires ReachableCurrently(c) && i < |c.cells|
    ensures var s := c.cells[i];
            && s.woken[W.Whole(k)] + s.dropped[W.Whole(k)] <= W.One(k < s.clones)
            && (s.future.Gone? && c.serving != Some(i) ==>
                  s.woken[W.Whole(k)] + s.dropped[W.Whole(k)] == W.One(k < s.clones))
            && (forall words: W.Words :: words in s.woken || words in s.dropped ==> words.data == words.vtable)
  {
    CurrentlyReachableInv(c);
    assert c.serving != Some(i) ==> Resting(c.cells[i].producer);
    assert W.Inv(c.cells[i]);
    hide SystemInv, CellsOk, W.Inv;
    CellOwns(c.cells[i], k);
  }
}
