/** The lock owner gets done, its calls of wakers included: left alone, it comes to a free lock. */
module ComposedProgress {
  import opened Sequences
  import opened Invariant
  import opened Composition
  import opened CompositionSteps
  import opened Composed
  import P = Protocol
  import W = WakerProtocol
  import Progress
  import Runs

  // ----- The owner's next step -----

  /** In a call of a waker, when no compare-exchange fails for nothing. */
  function ProducerStep(s: W.Cell): W.Label {
    match s.producer
    case FinishLoad(_) => if s.state.Cancelling? then W.FinishLose else W.FinishSee
    case FinishData(_, _, _) => W.FinishReadData
    case FinishVtable(_, _, _, _) => W.FinishReadVtable
    case FinishCas(_, cur, _, _) => if cur == s.state then W.FinishWin else W.FinishReload
    case FinishStoring(_, cur) => if cur == s.state then W.FinishWinStoring else W.FinishReload
    case Wake(_, _) => W.DoWake
    case AcceptLoad => W.AcceptSee
    case AcceptTake(_) => W.AcceptThread
    case AcceptCas(_) => W.AcceptWin
    case _ => W.DoUnpark
  }

  /** Outside of one, the step of the protocol, or the call that stands before it. */
  function OwnerLabel(c: System): Label
    requires c.p.owner.Some? && Holding(Holder(c.p)) && (c.serving.Some? ==> c.serving.value < |c.cells|)
  {
    if c.serving.Some? then Produce(ProducerStep(c.cells[c.serving.value]))
    else
      var l := Progress.OwnerStep(c.p);
      if l.Grant? || l.Fail? then FinishStart
      else if l.Unlink? then AcceptStart
      else if l.PopStop? && c.p.list != [] && P.FrontFits(c.p, Holder(c.p).releasable) then FinishStart
      else Plain(l)
  }

  lemma ProducerCanStep(s: W.Cell)
    requires W.ControlOk(s) && !Resting(s.producer)
    ensures W.Enabled(s, ProducerStep(s)) && InnerProducer(ProducerStep(s))
  {
  }

  // ----- It can be taken -----

  lemma OwnersCell(c: System)
    requires SystemInv(c) && c.serving.Some?
    ensures c.serving.value < |c.cells| && W.ControlOk(c.cells[c.serving.value]) && c.p.owner.Some?
    ensures !Resting(c.cells[c.serving.value].producer)
  {
  }

  /** The owner's own waker is not in a call of its future. */
  lemma OwnerBetween(c: System)
    requires SystemInv(c) && c.p.owner.Some? && Holding(Holder(c.p))
    ensures Between(c, c.p.owner.value)
  {
    var t := c.p.owner.value;
    if t in c.p.waiters { At(c, t); }
  }

  lemma NodesHaveCells(c: System)
    requires SystemInv(c)
    ensures c.p.list != [] ==> HasCell(c, c.p.list[0])
    ensures Taken(c.p) != [] ==> HasCell(c, Taken(c.p)[0])
  {
    NodesWait(c.p);
    if c.p.list != [] { At(c, c.p.list[0]); }
    if Taken(c.p) != [] { At(c, Taken(c.p)[0]); }
  }

  /** Where the protocol's step is one that a waker decides, the call before it may begin. */
  lemma CallMayBegin(c: System)
    requires SystemInv(c) && c.p.owner.Some? && Holding(Holder(c.p)) && c.serving.None?
    requires P.Enabled(c.p, Progress.OwnerStep(c.p))
    ensures OwnerLabel(c).FinishStart? ==> MayFinish(c)
    ensures OwnerLabel(c).AcceptStart? ==> MayAccept(c)
  {
    NodesHaveCells(c);
    hide SystemInv;
  }

  lemma PlainMayGo(c: System)
    requires SystemInv(c) && c.p.owner.Some? && Holding(Holder(c.p)) && c.serving.None?
    requires P.Enabled(c.p, Progress.OwnerStep(c.p)) && OwnerLabel(c).Plain?
    ensures MayPlain(c, Progress.OwnerStep(c.p)) && OwnerLabel(c) == Plain(Progress.OwnerStep(c.p))
  {
    OwnerBetween(c);
    hide SystemInv, P.Enabled, Between;
  }

  lemma OwnerMayStep(c: System)
    requires SystemInv(c) && c.p.owner.Some?
    ensures Holding(Holder(c.p)) && (c.serving.Some? ==> c.serving.value < |c.cells|)
    ensures Enabled(c, OwnerLabel(c))
  {
    assert Invariant.Inv(c.p);
    Progress.OwnerCanStep(c.p);
    if c.serving.Some? {
      OwnersCell(c);
      ProducerCanStep(c.cells[c.serving.value]);
      hide SystemInv, W.Enabled, InnerProducer, ProducerStep;
    } else {
      hide SystemInv, Invariant.Inv, P.Enabled, MayPlain, MayFinish, MayAccept;
      CallMayBegin(c);
      if OwnerLabel(c).Plain? { PlainMayGo(c); }
    }
  }

  // ----- It brings the end nearer -----

  /** What is left of a call of a waker; a state that has moved costs one reload. */
  function CellLeft(s: W.Cell): nat {
    match s.producer
    case FinishLoad(_) => 9
    case FinishData(_, cur, _) => if cur == s.state then 8 else 18
    case FinishVtable(_, cur, _, _) => if cur == s.state then 7 else 17
    case FinishCas(_, cur, _, _) => if cur == s.state then 6 else 16
    case FinishStoring(_, cur) => if cur == s.state then 6 else 16
    case AcceptLoad => 9
    case AcceptTake(_) => 8
    case AcceptCas(_) => 7
    case _ => 31
  }

  function CallLeft(c: System): nat {
    if c.serving.Some? && c.serving.value < |c.cells| then CellLeft(c.cells[c.serving.value]) else 30
  }

  /** The end of the owner's work is nearer: fewer deferrals to collect, a later phase, less in its
      loops, less of a call of a waker, or a fresh load. */
  predicate Nearer(c: System, c': System) {
    var d, d' := Runs.One(Dirty(c.p)), Runs.One(Dirty(c'.p));
    var r, r' := Progress.Rank(Holder(c.p)), Progress.Rank(Holder(c'.p));
    var m, m' := Progress.Remaining(c.p), Progress.Remaining(c'.p);
    var k, k' := CallLeft(c), CallLeft(c');
    || d' < d
    || (d' == d && r' < r)
    || (d' == d && r' == r && m' < m)
    || (d' == d && r' == r && m' == m && k' < k)
    || (d' == d && r' == r && m' == m && k' == k
        && Runs.One(Progress.MustLoad(c'.p)) < Runs.One(Progress.MustLoad(c.p)))
  }

  predicate Deciding(step: W.Label) {
    step.FinishWin? || step.FinishWinStoring? || step.FinishLose? || step.AcceptWin?
  }

  lemma ProducerGetsOn(s: W.Cell)
    requires W.ControlOk(s) && !Resting(s.producer) && W.Enabled(s, ProducerStep(s)) && !Deciding(ProducerStep(s))
    ensures var step, s' := ProducerStep(s), W.Next(s, ProducerStep(s));
            if step.DoWake? || step.DoUnpark? then CellLeft(s) == 31 else CellLeft(s') < CellLeft(s)
  {
  }

  /** A step of a call that decides nothing. */
  lemma CallGetsOn(c: System, step: W.Label)
    requires SystemInv(c) && Enabled(c, Produce(step)) && step == ProducerStep(c.cells[c.serving.value]) && !Deciding(step)
    ensures Next(c, Produce(step)).p == c.p && Nearer(c, Next(c, Produce(step)))
  {
    var l, i := Produce(step), c.serving.value;
    OwnersCell(c);
    CallsFit(c, l);
    OwnersBooks(c, l);
    ServingBooks(c, l);
    ProduceIs(c, step);
    hide SystemInv, Enabled, Next, W.Enabled, W.Next, W.ControlOk, ProtocolStep, CellStep, ProducerStep, CellLeft;
    ProducerGetsOn(c.cells[i]);
  }

  lemma PopWord(p: P.State, l: P.Label)
    requires P.Enabled(p, l) && (l.Grant? || l.Fail? || l.PopStop? || l.Unlink?)
    ensures P.OfRelease(l) && P.Next(p, l).release == p.release && P.Next(p, l).owner == p.owner
  {
  }

  lemma LaterIsNearer(c: System, c': System)
    requires Progress.Later(c.p, c'.p) && c'.p.release == c.p.release
    ensures Nearer(c, c')
  {
  }

  /** One that decides is a step of the owner in the protocol. */
  lemma DecisionGetsOn(c: System, step: W.Label)
    requires SystemInv(c) && Enabled(c, Produce(step)) && Deciding(step)
    ensures Next(c, Produce(step)).p.owner == c.p.owner && Nearer(c, Next(c, Produce(step)))
  {
    var l := Produce(step);
    assert Invariant.Inv(c.p);
    CallsFit(c, l);
    OutsideProtocol(c, l);
    ProduceIs(c, step);
    hide SystemInv, Invariant.Inv, Enabled, Next, P.Enabled, P.Next, W.Enabled, ProtocolStep, CellStep, Progress.Later;
    var pl := ProtocolStep(c, l).value;
    PopWord(c.p, pl);
    Progress.OwnerMovesOn(c.p, pl);
    LaterIsNearer(c, Next(c, l));
  }

  lemma BeginsWith(c: System, l: Label)
    requires Enabled(c, l) && (l.FinishStart? || l.AcceptStart?) && Fits(c, l)
    ensures ProtocolStep(c, l).None?
    ensures var s, step := c.cells[CellStep(c, l).value.0], CellStep(c, l).value.1; CellLeft(W.Next(s, step)) == 9
  {
  }

  lemma BeginsCall(c: System, l: Label)
    requires SystemInv(c) && Enabled(c, l) && (l.FinishStart? || l.AcceptStart?)
    ensures Next(c, l).p == c.p && Nearer(c, Next(c, l))
  {
    CallsFit(c, l);
    OwnersBooks(c, l);
    ServingBooks(c, l);
    BeginsWith(c, l);
    hide SystemInv, Enabled, Next, W.Enabled, ProtocolStep, CellStep, CellLeft;
  }

  lemma PlainBooksServing(c: System, l: P.Label)
    requires Enabled(c, Plain(l))
    ensures ProtocolStep(c, Plain(l)) == Some(l) && Next(c, Plain(l)).serving == c.serving
  {
    hide P.Enabled, P.Next, W.Enabled, W.Next;
  }

  lemma PlainGetsOn(c: System)
    requires SystemInv(c) && c.p.owner.Some? && Holding(Holder(c.p)) && c.serving.None?
    requires OwnerLabel(c).Plain? && Enabled(c, OwnerLabel(c))
    ensures var l, c' := OwnerLabel(c).l, Next(c, OwnerLabel(c));
            if l == P.Unlock(c.p.owner.value) then c'.p.release.Unlocked?
            else c'.p.owner == c.p.owner && Nearer(c, c')
  {
    var l := OwnerLabel(c);
    assert Invariant.Inv(c.p) && l == Plain(Progress.OwnerStep(c.p)) && P.Enabled(c.p, l.l);
    CallsFit(c, l);
    OutsideProtocol(c, l);
    PlainBooksServing(c, l.l);
    hide SystemInv, Invariant.Inv, Enabled, Next, P.Enabled, P.Next, ProtocolStep, CellStep, Fits;
    Progress.OwnerGetsCloser(c.p);
  }

  lemma OwnerGetsOn(c: System)
    requires SystemInv(c) && c.p.owner.Some? && Holding(Holder(c.p)) && (c.serving.Some? ==> c.serving.value < |c.cells|)
    requires Enabled(c, OwnerLabel(c))
    ensures var c' := Next(c, OwnerLabel(c));
            c'.p.release.Unlocked? || (c'.p.owner == c.p.owner && Nearer(c, c'))
  {
    hide SystemInv, Enabled, Next, Nearer, Progress.OwnerStep, ProducerStep, Deciding;
    var l := OwnerLabel(c);
    if c.serving.Some? {
      if Deciding(l.step) { DecisionGetsOn(c, l.step); } else { CallGetsOn(c, l.step); }
    } else if l.Plain? {
      PlainGetsOn(c);
    } else {
      BeginsCall(c, l);
    }
  }

  // ----- The owner alone -----

  /** A step of the lock owner `t`, in `release` or in a call it makes. */
  predicate OfOwner(l: Label, t: nat) {
    match l
    case Plain(pl) => pl == P.Load(t) || (P.OfRelease(pl) && pl.t == t)
    case _ => OwnersCall(l)
  }

  ghost predicate OnlyOwner(labels: seq<Label>, t: nat) {
    forall i :: 0 <= i < |labels| ==> OfOwner(labels[i], t)
  }

  lemma OwnerLabelIsOwners(c: System)
    requires c.p.owner.Some? && Holding(Holder(c.p)) && (c.serving.Some? ==> c.serving.value < |c.cells|)
    ensures OfOwner(OwnerLabel(c), c.p.owner.value)
  {
  }

  predicate Parked(c: System, w: nat) {
    HasCell(c, w) && CellOf(c, w).future.Parked?
  }

  /** Whoever was parked has been accepted and has its token. */
  ghost predicate LetsUp(c: System, c': System) {
    forall w :: Parked(c, w) ==> Parked(c', w) && CellOf(c', w).state.Cancelled? && CellOf(c', w).token
  }

  lemma OwnersStepInCells(c: System, l: Label, t: nat)
    requires SystemInv(c) && Enabled(c, l) && OfOwner(l, t)
    ensures NextAt(c, l) == c.at && !(l.Plain? && l.l.NewFuture?)
    ensures CellStep(c, l).Some? ==> W.OfProducer(CellStep(c, l).value.1)
  {
    hide SystemInv, P.Enabled, W.Enabled, MayFinish, MayAccept;
  }

  lemma ReleaseKeepsWaiters(p: P.State, l: P.Label)
    requires P.Enabled(p, l) && (l.Load? || P.OfRelease(l))
    ensures P.Next(p, l).waiters.Keys == p.waiters.Keys
  {
    hide P.FutureNext, P.Loaded, P.Locks, P.Flips, P.Unlocks, P.EnterHas, P.MustWait, P.MayTake;
  }

  lemma OwnersStepKeepsWaiters(c: System, l: Label, t: nat)
    requires SystemInv(c) && Enabled(c, l) && OfOwner(l, t)
    ensures Next(c, l).p.waiters.Keys == c.p.waiters.Keys
  {
    assert Invariant.Inv(c.p);
    hide SystemInv, Invariant.Inv, P.Enabled, P.Next, W.Enabled, W.Next, MayFinish, MayAccept;
    if ProtocolStep(c, l).Some? && P.Enabled(c.p, ProtocolStep(c, l).value) {
      ReleaseKeepsWaiters(c.p, ProtocolStep(c, l).value);
    }
  }

  lemma ProducerKeepsFuture(s: W.Cell, l: W.Label)
    requires W.Enabled(s, l) && W.OfProducer(l)
    ensures W.Next(s, l).future == s.future
  {
  }

  lemma OwnerKeepsParked(c: System, l: Label, t: nat, w: nat)
    requires SystemInv(c) && Enabled(c, l) && OfOwner(l, t) && Parked(c, w)
    ensures Parked(Next(c, l), w)
  {
    OwnersStepInCells(c, l, t);
    OwnersStepKeepsWaiters(c, l, t);
    hide SystemInv, Enabled, OfOwner, ProtocolStep, CellStep, W.Enabled, W.Next;
    if CellStep(c, l).Some? && CellStep(c, l).value.0 == c.at[w] && W.Enabled(CellOf(c, w), CellStep(c, l).value.1) {
      ProducerKeepsFuture(CellOf(c, w), CellStep(c, l).value.1);
    }
  }

  ghost predicate ComesFree(c: System, t: nat) {
    exists labels, c' :: Run(c, labels, c') && OnlyOwner(labels, t) && c'.p.release.Unlocked? && LetsUp(c, c')
  }

  lemma FreeNow(c: System, t: nat)
    requires SystemInv(c) && c.p.release.Unlocked?
    ensures ComesFree(c, t)
  {
    forall w | Parked(c, w) ensures CellOf(c, w).state.Cancelled? && CellOf(c, w).token {
      FreeHasToken(c, w);
    }
    assert Run(c, [], c) && OnlyOwner([], t) && LetsUp(c, c);
  }

  lemma FreeAfter(c: System, l: Label, t: nat)
    requires SystemInv(c) && Enabled(c, l) && OfOwner(l, t) && ComesFree(Next(c, l), t)
    ensures ComesFree(c, t)
  {
    hide SystemInv, Enabled, Next, OfOwner, Parked;
    var rest, c' :| Run(Next(c, l), rest, c') && OnlyOwner(rest, t) && c'.p.release.Unlocked? && LetsUp(Next(c, l), c');
    forall w | Parked(c, w) ensures Parked(Next(c, l), w) {
      OwnerKeepsParked(c, l, t, w);
    }
    assert ([l] + rest)[1..] == rest;
    assert Run(c, [l] + rest, c') && OnlyOwner([l] + rest, t) && LetsUp(c, c');
  }

  /** From every state of the system the lock owner, by its own steps alone, with every step of the
      finishes and acceptances it makes, comes to a free lock, and whoever was parked can get up. */
  lemma {:induction false} OwnerComesFree(c: System)
    requires SystemInv(c) && c.p.owner.Some?
    ensures ComesFree(c, c.p.owner.value)
    decreases Runs.One(Dirty(c.p)), Progress.Rank(Holder(c.p)), Progress.Remaining(c.p), CallLeft(c),
              Runs.One(Progress.MustLoad(c.p))
  {
    hide SystemInv, Enabled, Next, OwnerLabel, OfOwner, ComesFree, Dirty, Holder, CallLeft, Progress.Rank, Progress.Remaining,
      Progress.MustLoad, Runs.One;
    OwnerMayStep(c);
    var l, c' := OwnerLabel(c), Next(c, OwnerLabel(c));
    OwnerGetsOn(c);
    OwnerLabelIsOwners(c);
    StepInv(c, l);
    if c'.p.release.Unlocked? {
      FreeNow(c', c.p.owner.value);
    } else {
      OwnerComesFree(c');
    }
    FreeAfter(c, l, c.p.owner.value);
  }
}
