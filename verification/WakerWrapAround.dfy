/** The bound on polls is needed: for every number `wrap` of sequence numbers there is a run in
    which `wrap` polls complete between a finish's load and its compare-exchange, which then
    succeeds and wakes a waker that was dropped long ago, while the current one is never woken. */
module WakerWrapAround {
  import opened Sequences
  import opened Packing
  import opened WakerProtocol

  /** The clones below `n`. */
  function Dropped(n: nat): multiset<Words> {
    if n == 0 then multiset{} else Dropped(n - 1) + multiset{Whole(n - 1)}
  }

  lemma {:induction false} DroppedOnce(n: nat, k: nat)
    ensures Dropped(n)[Whole(k)] == One(k < n)
  {
    if n > 0 {
      DroppedOnce(n - 1, k);
    }
  }

  // ----- One poll that nobody disturbs -----

  const CLAIM: seq<Label> := [PollStart, PollLoad, PollClaim]
  const STORE: seq<Label> := [LoadData, LoadVtable, StoreData, StoreVtable]
  const RETURN: seq<Label> := [DropPrevious, PollPending]

  function Claimed(s: Cell): Cell
    requires s.state.Pending?
  {
    s.(state := Storing(s.state.seqno), future := ReadData(s.clones, s.state.seqno), clones := s.clones + 1)
  }

  function Stored(s: Cell): Cell
    requires s.future.ReadData?
  {
    s.(words := Whole(s.future.k), future := DropOld(s.future.k, s.future.seqno, s.words))
  }

  function Polled(s: Cell): Cell
    requires s.state.Storing? && s.future.DropOld?
  {
    s.(state := Pending((s.future.seqno + 1) % s.wrap), future := Idle, polls := s.polls + 1,
    latest := Some(s.future.k), dropped := Consumed(s.dropped, s.future.prior))
  }

  lemma TwoSteps(s: Cell, k: Label, l: Label, s': Cell)
    requires Enabled(s, k) && Enabled(Next(s, k), l) && Next(Next(s, k), l) == s'
    ensures Run(s, [k, l], s')
  {
    hide Enabled, Next;
    assert Run(s', [], s');
    assert [l] == [l] + [] && [k, l] == [k] + [l];
    RunOne(Next(s, k), l, [], s');
    RunOne(s, k, [l], s');
  }

  lemma ClaimSteps(s: Cell)
    requires s.future.Idle? && s.state.Pending?
    ensures Enabled(s, PollStart)
    ensures var s1 := Next(s, PollStart);
            && Enabled(s1, PollLoad) && Enabled(Next(s1, PollLoad), PollClaim)
            && Next(Next(s1, PollLoad), PollClaim) == Claimed(s)
  {
  }

  lemma Claims(s: Cell)
    requires s.future.Idle? && s.state.Pending?
    ensures Run(s, CLAIM, Claimed(s))
  {
    hide Enabled, Next, Run;
    ClaimSteps(s);
    TwoSteps(Next(s, PollStart), PollLoad, PollClaim, Claimed(s));
    RunOne(s, PollStart, [PollLoad, PollClaim], Claimed(s));
    assert [PollStart] + [PollLoad, PollClaim] == CLAIM;
  }

  function Loaded(s: Cell): Cell
    requires s.future.ReadData?
  {
    s.(future := WriteData(s.future.k, s.future.seqno, s.words))
  }

  lemma LoadSteps(s: Cell)
    requires s.future.ReadData?
    ensures Enabled(s, LoadData) && Enabled(Next(s, LoadData), LoadVtable)
    ensures Next(Next(s, LoadData), LoadVtable) == Loaded(s)
  {
  }

  lemma StoreSteps(s: Cell)
    requires s.future.ReadData?
    ensures Enabled(Loaded(s), StoreData) && Enabled(Next(Loaded(s), StoreData), StoreVtable)
    ensures Next(Next(Loaded(s), StoreData), StoreVtable) == Stored(s)
  {
  }

  lemma Stores(s: Cell)
    requires s.future.ReadData?
    ensures Run(s, STORE, Stored(s))
  {
    hide Run;
    hide Enabled, Next;
    LoadSteps(s);
    StoreSteps(s);
    TwoSteps(s, LoadData, LoadVtable, Loaded(s));
    TwoSteps(Loaded(s), StoreData, StoreVtable, Stored(s));
    RunAppend(s, [LoadData, LoadVtable], Loaded(s), [StoreData, StoreVtable], Stored(s));
    assert [LoadData, LoadVtable] + [StoreData, StoreVtable] == STORE;
  }

  lemma Returns(s: Cell)
    requires s.state.Storing? && s.future.DropOld? && s.state.seqno == s.future.seqno
    ensures Run(s, RETURN, Polled(s))
  {
    hide Run;
    TwoSteps(s, DropPrevious, PollPending, Polled(s));
  }

  lemma OnePoll(s: Cell)
    requires s.future.Idle? && s.state.Pending?
    ensures Run(s, CLAIM + (STORE + RETURN), Polled(Stored(Claimed(s))))
  {
    hide Run;
    var s1 := Claimed(s);
    var s2 := Stored(s1);
    Claims(s);
    Stores(s1);
    Returns(s2);
    RunAppend(s1, STORE, s2, RETURN, Polled(s2));
    RunAppend(s, CLAIM, s1, STORE + RETURN, Polled(s2));
  }

  // ----- All the way round -----

  /** The finish has loaded the state and read the words of clone 0, and `n` more polls completed. */
  function Waited(wrap: Pos, n: nat): Cell {
    Cell(wrap, Pending((n + 1) % wrap), Whole(n), false, false, true, Idle,
         FinishCas(false, Pending(1 % wrap), 1, Whole(0)), n + 1, n + 1, Some(n), multiset{}, Dropped(n))
  }

  const READ: seq<Label> := [Enqueue, FinishStart(false), FinishSee, FinishReadData, FinishReadVtable]

  function Seeing(s: Cell): Cell
  {
    s.(enqueued := true, producer := FinishLoad(false))
  }

  function Reading(s: Cell): Cell
    requires s.state.Pending?
  {
    s.(enqueued := true, producer := FinishVtable(false, s.state, s.polls, s.words.data))
  }

  lemma Enqueues(s: Cell)
    requires s.future.Idle? && !s.enqueued && s.latest.Some? && s.producer.Waiting?
    ensures Run(s, [Enqueue, FinishStart(false)], Seeing(s))
  {
    hide Run;
    TwoSteps(s, Enqueue, FinishStart(false), Seeing(s));
  }

  lemma ReadsData(s: Cell)
    requires s.state.Pending?
    ensures Run(Seeing(s), [FinishSee, FinishReadData], Reading(s))
  {
    hide Run;
    TwoSteps(Seeing(s), FinishSee, FinishReadData, Reading(s));
  }

  lemma ReadsVtable(s: Cell, end: Cell)
    requires s.state.Pending? && end == s.(enqueued := true, producer := FinishCas(false, s.state, s.polls, s.words))
    ensures Run(Reading(s), [FinishReadVtable], end)
  {
    assert Run(end, [], end);
    hide Run;
    RunOne(Reading(s), FinishReadVtable, [], end);
    assert [FinishReadVtable] + [] == [FinishReadVtable];
  }

  lemma FinishReads(s: Cell)
    requires s.future.Idle? && !s.enqueued && s.latest.Some? && s.producer.Waiting? && s.state.Pending?
    ensures Run(s, READ, s.(enqueued := true, producer := FinishCas(false, s.state, s.polls, s.words)))
  {
    hide Run;
    var end := s.(enqueued := true, producer := FinishCas(false, s.state, s.polls, s.words));
    Enqueues(s);
    ReadsData(s);
    ReadsVtable(s, end);
    RunAppend(Seeing(s), [FinishSee, FinishReadData], Reading(s), [FinishReadVtable], end);
    RunAppend(s, [Enqueue, FinishStart(false)], Seeing(s), [FinishSee, FinishReadData] + [FinishReadVtable], end);
    assert [Enqueue, FinishStart(false)] + ([FinishSee, FinishReadData] + [FinishReadVtable]) == READ;
  }

  lemma Reads(wrap: Pos)
    ensures Run(New(wrap), CLAIM + (STORE + RETURN) + READ, Waited(wrap, 0))
  {
    hide Run;
    OnePoll(New(wrap));
    SmallMod(0, wrap);
    NextSeqno(0, wrap);
    var s := Polled(Stored(Claimed(New(wrap))));
    FinishReads(s);
    RunAppend(New(wrap), CLAIM + (STORE + RETURN), s, READ, Waited(wrap, 0));
  }

  lemma PollsOn(wrap: Pos, n: nat)
    ensures Run(Waited(wrap, n), CLAIM + (STORE + RETURN), Waited(wrap, n + 1))
  {
    hide Run;
    NextSeqno(n + 1, wrap);
    OnePoll(Waited(wrap, n));
  }

  lemma {:induction false} Waits(wrap: Pos, n: nat)
    ensures exists labels :: Run(New(wrap), labels, Waited(wrap, n))
  {
    hide Run, Waited;
    if n == 0 {
      Reads(wrap);
    } else {
      Waits(wrap, n - 1);
      var labels :| Run(New(wrap), labels, Waited(wrap, n - 1));
      PollsOn(wrap, n - 1);
      RunAppend(New(wrap), labels, Waited(wrap, n - 1), CLAIM + (STORE + RETURN), Waited(wrap, n));
    }
  }

  lemma SameSeqno(wrap: Pos)
    ensures (wrap + 1) % wrap == 1 % wrap
  {
    if wrap > 1 {
      ModOfMultiple(1, wrap, 1);
      SmallMod(1, wrap);
    }
  }

  /** With `wrap` polls in between, the compare-exchange finds the number it loaded and succeeds. The
      waker it then wakes has been dropped, and the one the future waits for is not woken. */
  lemma StaleWakerWoken(wrap: Pos)
    ensures exists labels, s ::
              && Run(New(wrap), labels, s) && s.state == Finished(false) && s.future.Idle?
              && s.producer == Done(DidFinish(false)) && s.latest == Some(wrap) && s.woken[Whole(wrap)] == 0
              && s.woken[Whole(0)] == 1 && s.dropped[Whole(0)] == 1
  {
    hide Run;
    Waits(wrap, wrap);
    var s := Waited(wrap, wrap);
    var labels :| Run(New(wrap), labels, s);
    SameSeqno(wrap);
    var end := Next(Next(s, FinishWin), DoWake);
    TwoSteps(s, FinishWin, DoWake, end);
    DroppedOnce(wrap, 0);
    RunAppend(New(wrap), labels, s, [FinishWin, DoWake], end);
  }

  /** One poll fewer and the same compare-exchange is in time, and fails for the waker it holds is
      stale: with `n < wrap` polls in between it succeeds only if there were none. */
  lemma NotYetRound(wrap: Pos, n: nat)
    requires n < wrap
    ensures InTime(Waited(wrap, n), FinishWin)
    ensures Enabled(Waited(wrap, n), FinishWin) <==> n == 0
  {
    if Enabled(Waited(wrap, n), FinishWin) {
      SameRemainder(1, n + 1, wrap);
    }
  }
}
