/** The calls of the future return: by their own steps, and with the outcome that the state says. */
module WakerProgress {
  import opened Sequences
  import opened Packing
  import opened WakerProtocol

  // ----- The end of a call -----

  /** The future is in no call, or in one that waits for the producer. */
  predicate Returned(s: Cell) {
    var f := s.future;
    f.Idle? || f.AwaitAccept? || f.Resolved? || f.Gone? || ((f.WaitCheck? || f.Parked?) && s.state.Cancelling?)
  }

  /** The next step of the call in progress, when no compare-exchange fails for nothing. */
  function FutureStep(s: Cell): Label {
    match s.future
    case PollFirst(_, cur) =>
      if cur != Some(s.state) then PollLoad else if s.state.Finished? then PollReadyEarly else PollClaim
    case ReadData(_, _) => LoadData
    case ReadVtable(_, _, _) => LoadVtable
    case WriteData(_, _, _) => StoreData
    case WriteVtable(_, _, _) => StoreVtable
    case DropOld(_, _, _) => DropPrevious
    case PollLast(_, last) => if last != s.state then PollReload else if last.Finished? then PollReadyLate else PollPending
    case Cancel(cur) =>
      if cur != Some(s.state) then CancelLoad else if s.state.Finished? then CancelLose else CancelWin
    case Parked => WakeUp
    case _ => WaitOver
  }

  /** How many steps are left. */
  function StepsLeft(s: Cell): nat {
    match s.future
    case PollFirst(_, cur) => if cur == Some(s.state) then 8 else 9
    case ReadData(_, _) => 7
    case ReadVtable(_, _, _) => 6
    case WriteData(_, _, _) => 5
    case WriteVtable(_, _, _) => 4
    case DropOld(_, _, _) => 3
    case PollLast(_, last) => if last == s.state then 1 else 2
    case Cancel(cur) => if cur == Some(s.state) then 1 else 2
    case Parked => 2
    case WaitCheck => 1
    case _ => 0
  }

  /** What the call in progress at `s` comes to if the producer does nothing meanwhile. */
  predicate AsStateSays(s: Cell, s': Cell) {
    if s.state.Finished? then s'.future == Resolved(DidFinish(s.state.poisoned))
    else if s.state.Cancelled? then s'.future == Resolved(DidCancel)
    else if s.future.Cancel? then s'.future == AwaitAccept(false) && s'.state.Cancelling?
    else (s.future.PollFirst? || MidPoll(s.future)) && s'.future.Idle? && s'.state.Pending? && s'.latest == Some(s.future.k)
  }

  predicate Calls(f: Future) {
    f.PollFirst? || MidPoll(f) || f.Cancel? || f.WaitCheck? || f.Parked?
  }

  /** The next step can be taken and is one fewer to go. */
  predicate Advances(s: Cell) {
    && Enabled(s, FutureStep(s)) && !OfProducer(FutureStep(s)) && Calls(s.future)
    && StepsLeft(Next(s, FutureStep(s))) < StepsLeft(s)
  }

  /** What the call comes to after that step is what it comes to. */
  predicate StillSays(s: Cell, s': Cell)
    requires Enabled(s, FutureStep(s))
  {
    var next := Next(s, FutureStep(s));
    (if Returned(next) then s' == next else AsStateSays(next, s')) ==> AsStateSays(s, s')
  }

  lemma ReadsOn(s: Cell, s': Cell)
    requires PollOk(s) && (s.future.ReadData? || s.future.ReadVtable?)
    ensures Advances(s) && StillSays(s, s')
  {
    assert FutureStep(s) == if s.future.ReadData? then LoadData else LoadVtable;
  }

  lemma WritesOn(s: Cell, s': Cell)
    requires PollOk(s) && (s.future.WriteData? || s.future.WriteVtable?)
    ensures Advances(s) && StillSays(s, s')
  {
    assert FutureStep(s) == if s.future.WriteData? then StoreData else StoreVtable;
  }

  lemma DropsOldOn(s: Cell, s': Cell)
    requires PollOk(s) && s.future.DropOld?
    ensures Advances(s) && StillSays(s, s')
  {
    assert FutureStep(s) == DropPrevious;
  }

  lemma PollLoads(s: Cell, s': Cell)
    requires PollOk(s) && s.future.PollFirst? && s.future.cur != Some(s.state)
    ensures Advances(s) && StillSays(s, s')
  {
    assert FutureStep(s) == PollLoad;
  }

  lemma PollBegins(s: Cell, s': Cell)
    requires PollOk(s) && s.future.PollFirst? && s.future.cur == Some(s.state)
    ensures Advances(s) && StillSays(s, s')
  {
    assert FutureStep(s) == if s.state.Finished? then PollReadyEarly else PollClaim;
  }

  lemma PollEnds(s: Cell, s': Cell)
    requires PollOk(s) && s.future.PollLast?
    ensures Advances(s) && StillSays(s, s')
  {
    assert FutureStep(s) == if s.future.last != s.state then PollReload else if s.state.Finished? then PollReadyLate else PollPending;
  }

  lemma CancelsOn(s: Cell, s': Cell)
    requires FutureOk(s) && s.future.Cancel?
    ensures Advances(s) && StillSays(s, s')
  {
    assert FutureStep(s) == if s.future.ccur != Some(s.state) then CancelLoad else if s.state.Finished? then CancelLose else CancelWin;
  }

  lemma WaitsOn(s: Cell, s': Cell)
    requires FutureOk(s) && (s.future.WaitCheck? || s.future.Parked?) && !Returned(s)
    ensures Advances(s) && StillSays(s, s')
  {
    assert FutureStep(s) == if s.future.Parked? then WakeUp else WaitOver;
  }

  lemma GoesOn(s: Cell, s': Cell)
    requires ControlOk(s) && !Returned(s)
    ensures Advances(s) && StillSays(s, s')
  {
    hide PollOk, FutureOk, ProducerOk, FinishOk, Advances, StillSays;
    if s.future.PollFirst? {
      if s.future.cur == Some(s.state) { PollBegins(s, s'); } else { PollLoads(s, s'); }
    } else if s.future.ReadData? || s.future.ReadVtable? {
      ReadsOn(s, s');
    } else if s.future.WriteData? || s.future.WriteVtable? {
      WritesOn(s, s');
    } else if s.future.DropOld? {
      DropsOldOn(s, s');
    } else if s.future.PollLast? {
      PollEnds(s, s');
    } else if s.future.Cancel? {
      CancelsOn(s, s');
    } else {
      WaitsOn(s, s');
    }
  }

  ghost predicate ByFuture(labels: seq<Label>) {
    forall i :: 0 <= i < |labels| ==> !OfProducer(labels[i])
  }

  /** The steps of the future alone lead from `s` to `s'`, where the call is over. */
  ghost predicate EndsAt(s: Cell, s': Cell) {
    exists labels :: Run(s, labels, s') && ByFuture(labels) && Returned(s')
  }

  lemma EndsAfter(s: Cell, l: Label, s': Cell)
    requires Enabled(s, l) && !OfProducer(l) && EndsAt(Next(s, l), s')
    ensures EndsAt(s, s')
  {
    hide Enabled, Next, OfProducer;
    var rest :| Run(Next(s, l), rest, s') && ByFuture(rest) && Returned(s');
    RunOne(s, l, rest, s');
    assert ByFuture([l] + rest);
  }

  /** A call of the future that has begun can always be brought to its end by its own steps, and it
      ends as the state says: a poll or a drop hears of a finish and its poison bit, a wait of the
      acceptance, a poll of a pending waker leaves its own waker in the cell, and a drop cancels it. */
  lemma {:induction false} FutureReturns(s: Cell)
    requires ControlOk(s) && !Returned(s)
    ensures exists s' :: EndsAt(s, s') && AsStateSays(s, s')
    decreases StepsLeft(s)
  {
    GoesOn(s, s);
    var l, next := FutureStep(s), Next(s, FutureStep(s));
    hide ControlOk, Enabled, Next, AsStateSays, StepsLeft, FutureStep, OfProducer;
    StepControl(s, l);
    if Returned(next) {
      assert Run(next, [], next) && ByFuture([]);
      EndsAfter(s, l, next);
      GoesOn(s, next);
    } else {
      FutureReturns(next);
      var s' :| EndsAt(next, s') && AsStateSays(next, s');
      EndsAfter(s, l, s');
      GoesOn(s, s');
    }
  }

  // ----- The thread handle -----

  /** The producer has the handle of the thread in its hands, or has used it up. */
  predicate HandleTaken(p: Producer) {
    p.AcceptCas? || p.Unpark? || (p.Done? && p.outcome.DidCancel?)
  }

  /** The handle is in one place: a producer that has it has taken it out of the cell. */
  predicate HandleOk(s: Cell) {
    HandleTaken(s.producer) ==> !s.thread
  }

  lemma HandleStep(s: Cell, l: Label)
    requires ControlOk(s) && HandleOk(s) && Enabled(s, l)
    ensures HandleOk(Next(s, l))
  {
  }

  lemma {:induction false} HandleRun(s: Cell, labels: seq<Label>, s': Cell)
    requires ControlOk(s) && HandleOk(s) && Run(s, labels, s')
    ensures HandleOk(s')
    decreases |labels|
  {
    hide ControlOk, HandleOk, Enabled, Next;
    if labels != [] {
      StepControl(s, labels[0]);
      HandleStep(s, labels[0]);
      HandleRun(Next(s, labels[0]), labels[1..], s');
    }
  }

  /** The handle of the thread to unpark is never in two places and never missing: while the future
      waits, either the cell or the producer has it, and once it was used neither does. */
  lemma HandleMoves(s: Cell)
    requires Reachable(s)
    ensures s.state.Cancelling? ==> (s.thread <==> !s.producer.AcceptCas?)
    ensures s.state.Cancelled? ==> !s.thread
  {
    ReachableControl(s);
    var wrap: Pos, labels :| Run(New(wrap), labels, s);
    NewInv(wrap);
    assert HandleOk(New(wrap));
    hide Run;
    HandleRun(New(wrap), labels, s);
  }
}
