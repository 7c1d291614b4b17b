/** What a step depends on: of all nodes, only on the ones that `Safety.Touched` names and the one of
    the future whose call it is. */
module Frames {
  import opened Protocol
  import opened Safety
  import opened Refinement

  predicate Uses(s: State, l: Label, w: nat)
    requires Enabled(s, l)
  {
    w in Touched(s, l) || w == Actor(l)
  }

  /** The maps have the same nodes where the step may look. */
  ghost predicate SameNodes(s: State, l: Label, m: map<nat, Waiter>)
    requires Enabled(s, l)
  {
    forall w :: Uses(s, l, w) ==> (w in m <==> w in s.waiters) && (w in s.waiters ==> m[w] == s.waiters[w])
  }

  /** The step does the same with other nodes around, and leaves those alone. */
  ghost predicate SameStep(s: State, l: Label, m: map<nat, Waiter>)
    requires Enabled(s, l)
  {
    var u := s.(waiters := m);
    && Enabled(u, l)
    && (var s', u' := Next(s, l), Next(u, l);
        && u'.(waiters := s'.waiters) == s'
        && (forall w :: Uses(s, l, w) ==> (w in u'.waiters <==> w in s'.waiters) && (w in s'.waiters ==> u'.waiters[w] == s'.waiters[w]))
        && (forall w :: !Uses(s, l, w) ==> (w in u'.waiters <==> w in m) && (w in m ==> u'.waiters[w] == m[w])))
  }

  lemma PopUses(s: State, l: Label, m: map<nat, Waiter>)
    requires Enabled(s, l) && (l.Grant? || l.Fail?) && SameNodes(s, l, m)
    ensures SameStep(s, l, m)
  {
    assert s.list[0] in s.list;
  }

  lemma StopUses(s: State, l: Label, m: map<nat, Waiter>)
    requires Enabled(s, l) && (l.PopStop? || l.Unlink?) && SameNodes(s, l, m)
    ensures SameStep(s, l, m)
  {
    if s.list != [] { assert s.list[0] in s.list; }
  }

  lemma LockUses(s: State, l: Label, m: map<nat, Waiter>)
    requires Enabled(s, l) && (l.Lock? || l.Defer? || l.Redo? || l.Unlock? || l.UnlinkDone?) && SameNodes(s, l, m)
    ensures SameStep(s, l, m)
  {
  }

  lemma FlipUses(s: State, l: Label, m: map<nat, Waiter>)
    requires Enabled(s, l) && (l.Swap? || l.FlipAvailable? || l.FlipSkip? || l.FlipTake?) && SameNodes(s, l, m)
    ensures SameStep(s, l, m)
  {
  }

  lemma PollUses(s: State, l: Label, m: map<nat, Waiter>)
    requires Enabled(s, l) && (l.NewFuture? || l.PollEnterStart? || l.PollWaiting? || l.EnterPoisoned?) && SameNodes(s, l, m)
    ensures SameStep(s, l, m)
  {
    assert Uses(s, l, l.w);
  }

  lemma EnterUses(s: State, l: Label, m: map<nat, Waiter>)
    requires Enabled(s, l) && (l.EnterFast? || l.EnterPush?) && SameNodes(s, l, m)
    ensures SameStep(s, l, m)
  {
    assert Uses(s, l, l.w);
  }

  lemma GoneUses(s: State, l: Label, m: map<nat, Waiter>)
    requires Enabled(s, l) && (l.DropIdle? || l.DropFinished? || l.WaitDone?) && SameNodes(s, l, m)
    ensures SameStep(s, l, m)
  {
    assert Uses(s, l, l.w);
  }

  lemma CancelUses(s: State, l: Label, m: map<nat, Waiter>)
    requires Enabled(s, l) && (l.StartCancel? || l.CancelPush?) && SameNodes(s, l, m)
    ensures SameStep(s, l, m)
  {
    assert Uses(s, l, l.w);
  }

  lemma CallUses(s: State, l: Label, m: map<nat, Waiter>)
    requires Enabled(s, l) && !OfRelease(l) && !OfFuture(l) && SameNodes(s, l, m)
    ensures SameStep(s, l, m)
  {
    assert Uses(s, l, Actor(l));
  }

  /** So a node that is not touched may be changed, dropped or made anew at the same time. */
  lemma OnlyTouched(s: State, l: Label, m: map<nat, Waiter>)
    requires Enabled(s, l) && SameNodes(s, l, m)
    ensures SameStep(s, l, m)
  {
    hide Enabled, SameNodes, SameStep;
    if l.Grant? || l.Fail? {
      PopUses(s, l, m);
    } else if l.PopStop? || l.Unlink? {
      StopUses(s, l, m);
    } else if l.Swap? || l.FlipAvailable? || l.FlipSkip? || l.FlipTake? {
      FlipUses(s, l, m);
    } else if OfRelease(l) {
      LockUses(s, l, m);
    } else if l.NewFuture? || l.PollEnterStart? || l.PollWaiting? || l.EnterPoisoned? {
      PollUses(s, l, m);
    } else if l.EnterFast? || l.EnterPush? {
      EnterUses(s, l, m);
    } else if l.StartCancel? || l.CancelPush? {
      CancelUses(s, l, m);
    } else if OfFuture(l) {
      GoneUses(s, l, m);
    } else {
      CallUses(s, l, m);
    }
  }
}
