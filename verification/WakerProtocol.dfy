/** `AtomicWaker`: a future that polls, cancels and drops against a producer that finishes or accepts
    the cancellation. Every load, store and compare-exchange is a step; a failed compare-exchange
    reloads like the load before its loop. A waker is two words, read and written separately; a word
    names the clone it belongs to, so a torn waker is one whose words name different clones. */
module WakerProtocol {
  import opened Sequences
  import opened Packing

  type Pos = n: nat | n > 0 witness 1

  datatype Words = Words(data: Option<nat>, vtable: Option<nat>)

  function Whole(k: nat): Words { Words(Some(k), Some(k)) }

  datatype Outcome = DidFinish(poisoned: bool) | DidCancel

  datatype Future =
    | Idle
    // poll
    | PollFirst(k: nat, cur: Option<WakerState>)
    | ReadData(k: nat, seqno: nat)
    | ReadVtable(k: nat, seqno: nat, prior: Words)
    | WriteData(k: nat, seqno: nat, prior: Words)
    | WriteVtable(k: nat, seqno: nat, prior: Words)
    | DropOld(k: nat, seqno: nat, prior: Words)
    | PollLast(k: nat, last: WakerState)
    // start_cancel, wait_cancel
    | Cancel(ccur: Option<WakerState>)
    | AwaitAccept(pushed: bool)
    | WaitCheck
    | Parked
    // a call returned the outcome
    | Resolved(outcome: Outcome)
    | Gone

  datatype Producer =
    | Waiting
    // finish
    | FinishLoad(poisoned: bool)
    | FinishData(poisoned: bool, fcur: WakerState, at: nat)
    | FinishVtable(poisoned: bool, fcur: WakerState, at: nat, data: Option<nat>)
    | FinishCas(poisoned: bool, fcur: WakerState, at: nat, words: Words)
    | FinishStoring(poisoned: bool, fcur: WakerState)
    | Wake(poisoned: bool, words: Words)
    // accept_cancel
    | AcceptLoad
    | AcceptTake(acur: WakerState)
    | AcceptCas(acur: WakerState)
    | Unpark
    | Done(outcome: Outcome)

  /** `wrap` is the number of sequence numbers. The last fields are history: `clones` wakers were
      cloned, `polls` polls have returned `Pending`, the last of them for clone `latest`, and `woken`
      and `dropped` are the wakers that were consumed. */
  datatype Cell = Cell(
    wrap: Pos,
    state: WakerState,
    words: Words,
    thread: bool,
    token: bool,
    enqueued: bool,
    future: Future,
    producer: Producer,
    clones: nat,
    polls: nat,
    latest: Option<nat>,
    woken: multiset<Words>,
    dropped: multiset<Words>)

  function New(wrap: Pos): Cell {
    Cell(wrap, Pending(0), Words(None, None), false, false, false, Idle, Waiting, 0, 0, None, multiset{}, multiset{})
  }

  datatype Label =
    | PollStart | PollLoad | PollClaim | PollReadyEarly
    | LoadData | LoadVtable | StoreData | StoreVtable | DropPrevious
    | PollReload | PollPending | PollReadyLate
    | Enqueue
    | CancelStart | CancelLoad | CancelWin | CancelLose | Push | WaitStart
    | Park | WakeUp | WaitOver
    | DropCell
    | FinishStart(poisoned: bool) | FinishSee | FinishReadData | FinishReadVtable | FinishReload
    | FinishWin | FinishWinStoring | FinishLose | DoWake
    | AcceptStart | AcceptSee | AcceptThread | AcceptRetry | AcceptWin | DoUnpark

  predicate MidPoll(f: Future) {
    f.ReadData? || f.ReadVtable? || f.WriteData? || f.WriteVtable? || f.DropOld? || f.PollLast?
  }

  predicate Enabled(s: Cell, l: Label) {
    var f, p := s.future, s.producer;
    match l
    case PollStart => f.Idle?
    case PollLoad => f.PollFirst?
    case PollClaim => f.PollFirst? && f.cur == Some(s.state) && s.state.Pending?
    case PollReadyEarly => f.PollFirst? && f.cur.Some? && f.cur.value.Finished?
    case LoadData => f.ReadData?
    case LoadVtable => f.ReadVtable?
    case StoreData => f.WriteData?
    case StoreVtable => f.WriteVtable?
    case DropPrevious => f.DropOld?
    case PollReload => f.PollLast? && f.last.Storing?
    case PollPending => f.PollLast? && f.last.Storing? && s.state == f.last
    case PollReadyLate => f.PollLast? && f.last.Finished?
    // poll_enter publishes the node only after a poll has returned Pending.
    case Enqueue => f.Idle? && !s.enqueued && s.latest.Some?
    case CancelStart => f.Idle? && s.enqueued
    case CancelLoad => f.Cancel?
    case CancelWin => f.Cancel? && f.ccur == Some(s.state) && s.state.Pending?
    case CancelLose => f.Cancel? && f.ccur.Some? && f.ccur.value.Finished?
    case Push => f == AwaitAccept(false)
    case WaitStart => f == AwaitAccept(true)
    case Park => f.WaitCheck? && s.state.Cancelling?
    case WakeUp => f.Parked?
    case WaitOver => f.WaitCheck? && s.state.Cancelled?
    case DropCell => f.Resolved? || (f.Idle? && !s.enqueued)
    case FinishStart(_) => p.Waiting? && s.enqueued
    case FinishSee => p.FinishLoad?
    case FinishReadData => p.FinishData?
    case FinishReadVtable => p.FinishVtable?
    case FinishReload => p.FinishCas? || p.FinishStoring?
    case FinishWin => p.FinishCas? && s.state == p.fcur
    case FinishWinStoring => p.FinishStoring? && s.state == p.fcur
    case FinishLose => p.FinishLoad? && s.state.Cancelling?
    case DoWake => p.Wake?
    case AcceptStart =>
      p.Waiting? && (f == AwaitAccept(true) || f.WaitCheck? || f.Parked?) && s.state.Cancelling?
    case AcceptSee => p.AcceptLoad?
    case AcceptThread => p.AcceptTake? && p.acur.Cancelling? && s.thread
    case AcceptRetry => p.AcceptCas?
    case AcceptWin => p.AcceptCas? && s.state == p.acur
    case DoUnpark => p.Unpark?
  }

  /** A load in `finish`: a pending waker's words are read next; one being stored is left alone. */
  function Seen(s: Cell, poisoned: bool): Producer {
    match s.state
    case Pending(_) => FinishData(poisoned, s.state, s.polls)
    case Storing(_) => FinishStoring(poisoned, s.state)
    case _ => FinishLoad(poisoned)
  }

  function Consumed(pool: multiset<Words>, words: Words): multiset<Words> {
    if words.vtable.None? then pool else pool + multiset{words}
  }

  function FutureNext(s: Cell, l: Label): Cell
    requires Enabled(s, l)
  {
    var f := s.future;
    match l
    case PollStart => s.(future := PollFirst(s.clones, None), clones := s.clones + 1)
    case PollLoad => s.(future := PollFirst(f.k, Some(s.state)))
    case PollClaim => s.(state := Storing(s.state.seqno), future := ReadData(f.k, s.state.seqno))
    case PollReadyEarly =>
      s.(future := Resolved(DidFinish(f.cur.value.poisoned)), dropped := s.dropped + multiset{Whole(f.k)})
    case LoadData => s.(future := ReadVtable(f.k, f.seqno, Words(s.words.data, None)))
    case LoadVtable => s.(future := WriteData(f.k, f.seqno, Words(f.prior.data, s.words.vtable)))
    case StoreData => s.(words := Words(Some(f.k), s.words.vtable), future := WriteVtable(f.k, f.seqno, f.prior))
    case StoreVtable => s.(words := Words(s.words.data, Some(f.k)), future := DropOld(f.k, f.seqno, f.prior))
    case DropPrevious => s.(future := PollLast(f.k, Storing(f.seqno)), dropped := Consumed(s.dropped, f.prior))
    case PollReload => s.(future := PollLast(f.k, s.state))
    case PollPending =>
      s.(state := Pending((f.last.seqno + 1) % s.wrap),
      future := Idle, polls := s.polls + 1, latest := Some(f.k))
    case PollReadyLate =>
      s.(future := Resolved(DidFinish(f.last.poisoned)), dropped := s.dropped + multiset{Whole(f.k)})
    case Enqueue => s.(enqueued := true)
    case CancelStart => s.(thread := true, future := Cancel(None))
    case CancelLoad => s.(future := Cancel(Some(s.state)))
    case CancelWin => s.(state := Cancelling, future := AwaitAccept(false))
    case CancelLose => s.(future := Resolved(DidFinish(f.ccur.value.poisoned)))
    case Push => s.(future := AwaitAccept(true))
    case WaitStart => s.(future := WaitCheck)
    case Park => s.(future := Parked)
    // park returns when there is a token, and may return without one.
    case WakeUp => s.(token := false, future := WaitCheck)
    case WaitOver => s.(future := Resolved(DidCancel))
    case DropCell =>
      s.(future := Gone,
      dropped := if s.state.Pending? || s.state.Cancelled? then Consumed(s.dropped, s.words) else s.dropped)
    case _ => s
  }

  function ProducerNext(s: Cell, l: Label): Cell
    requires Enabled(s, l)
  {
    var p := s.producer;
    match l
    case FinishStart(poisoned) => s.(producer := FinishLoad(poisoned))
    case FinishSee => s.(producer := Seen(s, p.poisoned))
    case FinishReadData => s.(producer := FinishVtable(p.poisoned, p.fcur, p.at, s.words.data))
    case FinishReadVtable => s.(producer := FinishCas(p.poisoned, p.fcur, p.at, Words(p.data, s.words.vtable)))
    case FinishReload => s.(producer := Seen(s, p.poisoned))
    case FinishWin => s.(state := Finished(p.poisoned), producer := Wake(p.poisoned, p.words))
    case FinishWinStoring => s.(state := Finished(p.poisoned), producer := Done(DidFinish(p.poisoned)))
    case FinishLose => s.(producer := Waiting)
    case DoWake => s.(woken := Consumed(s.woken, p.words), producer := Done(DidFinish(p.poisoned)))
    case AcceptStart => s.(producer := AcceptLoad)
    case AcceptSee => s.(producer := AcceptTake(s.state))
    case AcceptThread => s.(thread := false, producer := AcceptCas(p.acur))
    case AcceptRetry => s.(thread := true, producer := AcceptTake(s.state))
    case AcceptWin => s.(state := Cancelled, producer := Unpark)
    case DoUnpark => s.(token := true, producer := Done(DidCancel))
    case _ => s
  }

  predicate OfProducer(l: Label) {
    || l.FinishStart? || l.FinishSee? || l.FinishReadData? || l.FinishReadVtable? || l.FinishReload?
    || l.FinishWin? || l.FinishWinStoring? || l.FinishLose? || l.DoWake?
    || l.AcceptStart? || l.AcceptSee? || l.AcceptThread? || l.AcceptRetry? || l.AcceptWin? || l.DoUnpark?
  }

  function Next(s: Cell, l: Label): Cell
    requires Enabled(s, l)
  {
    if OfProducer(l) then ProducerNext(s, l) else FutureNext(s, l)
  }

  // ----- Finishes with a current waker -----

  /** A finish that read the waker's words and wins holds the words that are still in the cell. */
  predicate Current(s: Cell, l: Label) {
    l.FinishWin? && s.producer.FinishCas? ==> s.producer.words == s.words
  }

  /** The compare-exchange of such a finish comes before the sequence number has gone all the way
      round since the finish loaded the state. */
  predicate InTime(s: Cell, l: Label) {
    l.FinishWin? && s.producer.FinishCas? ==> s.polls < s.producer.at + s.wrap
  }

  ghost predicate Run(s: Cell, labels: seq<Label>, s': Cell)
    decreases |labels|
  {
    if labels == [] then s' == s
    else Enabled(s, labels[0]) && Run(Next(s, labels[0]), labels[1..], s')
  }

  /** A run in which no finish wins with words that were replaced meanwhile. */
  ghost predicate CurrentRun(s: Cell, labels: seq<Label>, s': Cell)
    decreases |labels|
  {
    if labels == [] then s' == s
    else Enabled(s, labels[0]) && Current(s, labels[0]) && CurrentRun(Next(s, labels[0]), labels[1..], s')
  }

  /** A run in which every finish that wins is in time. */
  ghost predicate TimelyRun(s: Cell, labels: seq<Label>, s': Cell)
    decreases |labels|
  {
    if labels == [] then s' == s
    else Enabled(s, labels[0]) && InTime(s, labels[0]) && TimelyRun(Next(s, labels[0]), labels[1..], s')
  }

  lemma RunOne(s: Cell, l: Label, rest: seq<Label>, s': Cell)
    requires Enabled(s, l) && Run(Next(s, l), rest, s')
    ensures Run(s, [l] + rest, s')
  {
    assert ([l] + rest)[1..] == rest;
  }

  lemma {:induction false} RunAppend(s: Cell, a: seq<Label>, mid: Cell, b: seq<Label>, s': Cell)
    requires Run(s, a, mid) && Run(mid, b, s')
    ensures Run(s, a + b, s')
    decreases |a|
  {
    if a == [] {
      assert a + b == b;
    } else {
      RunAppend(Next(s, a[0]), a[1..], mid, b, s');
      assert (a + b)[1..] == a[1..] + b;
    }
  }

  // ----- The invariant -----

  /** The sequence number in the word is the number of polls, as far as it fits. */
  predicate Counted(s: Cell) {
    s.state.Pending? || s.state.Storing? ==> s.state.seqno == s.polls % s.wrap
  }

  /** Where a poll is, the words are as far replaced. */
  predicate PollOk(s: Cell) {
    var f := s.future;
    && (MidPoll(f) ==> s.state.Storing? || s.state.Finished?)
    && (s.state.Storing? ==> MidPoll(f))
    && (match f
        case PollFirst(_, cur) =>
          && (cur.Some? ==> cur.value.Pending? || (cur.value.Finished? && s.state == cur.value))
          && (s.state.Pending? || s.state.Finished?)
        case ReadData(_, q) => (s.state.Storing? ==> s.state.seqno == q) && s.words == Words(s.latest, s.latest)
        case ReadVtable(_, q, prior) =>
          && (s.state.Storing? ==> s.state.seqno == q) && s.words == Words(s.latest, s.latest) && prior.data == s.latest
        case WriteData(_, q, prior) =>
          (s.state.Storing? ==> s.state.seqno == q) && s.words == Words(s.latest, s.latest) && prior == s.words
        case WriteVtable(k, q, prior) =>
          && (s.state.Storing? ==> s.state.seqno == q) && s.words == Words(Some(k), s.latest) && prior == Words(s.latest, s.latest)
        case DropOld(k, q, prior) =>
          && (s.state.Storing? ==> s.state.seqno == q) && s.words == Whole(k) && prior == Words(s.latest, s.latest)
        case PollLast(k, last) =>
          && s.words == Whole(k)
          && (last.Storing? || last.Finished?)
          && (last.Finished? ==> s.state == last)
          && (last.Storing? && s.state.Storing? ==> s.state == last)
        case _ => true)
    && (!MidPoll(f) && !s.state.Finished? ==> s.words == Words(s.latest, s.latest))
    && (s.enqueued ==> s.latest.Some?)
  }

  /** How the calls of the future agree with the state. */
  predicate FutureOk(s: Cell) {
    match s.future
    case Idle => s.state.Pending? || s.state.Finished?
    case Cancel(cur) =>
      && s.enqueued && s.thread && (s.state.Pending? || s.state.Finished?)
      && (cur.Some? ==> cur.value.Pending? || s.state == cur.value)
    case AwaitAccept(pushed) => s.enqueued && (s.state.Cancelling? || (pushed && s.state.Cancelled?))
    case WaitCheck => s.enqueued && (s.state.Cancelling? || s.state.Cancelled?)
    case Parked =>
      s.enqueued && (s.state.Cancelling? || (s.state.Cancelled? && (s.token || s.producer.Unpark?)))
    case Resolved(o) => s.enqueued && s.state == if o.DidCancel? then Cancelled else Finished(o.poisoned)
    case Gone => if s.enqueued then s.state.Finished? || s.state.Cancelled? else s.state.Pending?
    case _ => s.state.Finished? ==> s.enqueued
  }

  predicate Accepting(p: Producer) {
    p.AcceptLoad? || p.AcceptTake? || p.AcceptCas?
  }

  /** How the calls of the producer agree with the state. */
  predicate ProducerOk(s: Cell) {
    var p := s.producer;
    && (!p.Waiting? ==> s.enqueued)
    && (s.state.Finished? <==> p.Wake? || (p.Done? && p.outcome.DidFinish?))
    && (s.state.Cancelled? <==> p.Unpark? || (p.Done? && p.outcome.DidCancel?))
    && (p.Wake? ==> s.state == Finished(p.poisoned))
    && (p.Done? && p.outcome.DidFinish? ==> s.state == Finished(p.outcome.poisoned))
    && (Accepting(p) ==> s.state.Cancelling? && (s.future == AwaitAccept(true) || s.future.WaitCheck? || s.future.Parked?))
    && (p.AcceptTake? ==> p.acur.Cancelling?)
    && (p.AcceptCas? ==> p.acur.Cancelling?)
    && (s.state.Cancelling? && !p.AcceptCas? ==> s.thread)
  }

  /** What a finish has seen and read, however old it is. */
  predicate FinishOk(s: Cell) {
    var p := s.producer;
    match p
    case FinishData(_, cur, _) => cur.Pending?
    case FinishVtable(_, cur, _, _) => cur.Pending?
    case FinishCas(_, cur, _, words) => cur.Pending? && words.vtable.Some?
    case FinishStoring(_, cur) => cur.Storing?
    case Wake(_, words) => words.vtable.Some?
    case _ => true
  }

  /** What every step keeps, in any run. */
  predicate ControlOk(s: Cell) {
    PollOk(s) && FutureOk(s) && ProducerOk(s) && FinishOk(s)
  }

  /** The waker that a finish is about to wake is the one of the last poll. */
  predicate TakenOk(s: Cell) {
    s.producer.Wake? ==> s.producer.words == Words(s.latest, s.latest)
  }

  /** A future that saw its last poll pending has been woken since the finish, or is about to be. */
  predicate WokenOk(s: Cell) {
    s.state.Finished? && (s.future.Idle? || s.future.PollFirst? || s.future.Cancel?) ==>
      s.producer.Wake? || (s.latest.Some? && s.woken[Whole(s.latest.value)] > 0)
  }

  /** What a finish has read is current unless polls have completed since it loaded the state. */
  predicate SnapshotOk(s: Cell) {
    var p := s.producer;
    match p
    case FinishData(_, cur, at) => cur == Pending(at % s.wrap) && at <= s.polls
    case FinishVtable(_, cur, at, data) =>
      cur == Pending(at % s.wrap) && at <= s.polls && (at == s.polls && !MidPoll(s.future) ==> data == s.words.data)
    case FinishCas(_, cur, at, words) =>
      cur == Pending(at % s.wrap) && at <= s.polls && (at == s.polls && !MidPoll(s.future) ==> words == s.words)
    case _ => true
  }

  // ----- Ownership of wakers -----

  function One(b: bool): nat { if b then 1 else 0 }

  /** The clone a poll in progress still has to hand over or drop. */
  predicate HeldByPoll(s: Cell, k: nat) {
    var f := s.future;
    (f.PollFirst? || MidPoll(f)) && f.k == k
  }

  /** The waker the cell had before the poll in progress, until the poll drops it. */
  predicate Replaced(s: Cell, k: nat) {
    var f := s.future;
    MidPoll(f) && !f.PollLast? && s.latest == Some(k)
  }

  /** The waker whose words are in the cell for a later wake or drop. */
  predicate HeldByCell(s: Cell, k: nat) {
    !MidPoll(s.future) && !s.future.Gone? && !s.state.Finished? && s.latest == Some(k)
  }

  predicate HeldByFinish(s: Cell, k: nat) {
    s.producer.Wake? && s.producer.words == Whole(k)
  }

  /** In how many hands the clone is, or was when it was woken or dropped. */
  function Hands(s: Cell, k: nat): nat {
    One(HeldByPoll(s, k)) + One(Replaced(s, k)) + One(HeldByCell(s, k)) + One(HeldByFinish(s, k))
    + s.woken[Whole(k)] + s.dropped[Whole(k)]
  }

  /** Every clone made so far is in exactly one hand, and nothing torn was ever consumed. */
  ghost predicate Owned(s: Cell) {
    && (forall k: nat :: Hands(s, k) == One(k < s.clones))
    && (forall w: Words :: w in s.woken || w in s.dropped ==> w.data == w.vtable && w.data.Some?)
  }

  ghost predicate Inv(s: Cell) {
    ControlOk(s) && Counted(s) && TakenOk(s) && WokenOk(s) && SnapshotOk(s) && Owned(s)
  }

  lemma SameRemainder(a: nat, b: nat, n: Pos)
    requires a <= b < a + n && a % n == b % n
    ensures a == b
  {
    var q := b / n - a / n;
    assert b - a == n * q;
    assert q >= 1 ==> n * q >= n;
  }

  /** In time means that no poll has completed since the load, and then the words are current. */
  lemma InTimeIsCurrent(s: Cell, l: Label)
    requires Inv(s) && Enabled(s, l) && InTime(s, l)
    ensures Current(s, l)
    ensures l.FinishWin? ==> s.producer.at == s.polls
  {
    if l.FinishWin? {
      SameRemainder(s.producer.at, s.polls, s.wrap);
    }
  }

  lemma CurrentIsLatest(s: Cell)
    requires SnapshotOk(s) && PollOk(s) && Enabled(s, FinishWin) && Current(s, FinishWin)
    ensures s.producer.words == Words(s.latest, s.latest) && !MidPoll(s.future)
  {
  }

  lemma NextSeqno(polls: nat, wrap: Pos)
    ensures (polls % wrap + 1) % wrap == (polls + 1) % wrap
  {
    var q := polls / wrap;
    if polls % wrap + 1 == wrap {
      assert polls + 1 == (q + 1) * wrap + 0;
      ModOfMultiple(q + 1, wrap, 0);
    } else {
      assert polls + 1 == q * wrap + (polls % wrap + 1);
      ModOfMultiple(q, wrap, polls % wrap + 1);
      SmallMod(polls % wrap + 1, wrap);
    }
  }

  lemma FutureCounts(s: Cell, l: Label)
    requires Inv(s) && Enabled(s, l) && !OfProducer(l)
    ensures Counted(Next(s, l))
  {
    NextSeqno(s.polls, s.wrap);
  }

  predicate OfPoll(l: Label) {
    || l.PollStart? || l.PollLoad? || l.PollClaim? || l.PollReadyEarly? || l.LoadData? || l.LoadVtable?
    || l.StoreData? || l.StoreVtable? || l.DropPrevious? || l.PollReload? || l.PollPending? || l.PollReadyLate?
  }

  lemma PollPolls(s: Cell, l: Label)
    requires ControlOk(s) && Enabled(s, l) && OfPoll(l)
    ensures PollOk(Next(s, l))
  {
  }

  lemma FuturePolls(s: Cell, l: Label)
    requires ControlOk(s) && Enabled(s, l) && !OfProducer(l) && !OfPoll(l)
    ensures PollOk(Next(s, l))
  {
  }

  lemma PollCalls(s: Cell, l: Label)
    requires ControlOk(s) && Enabled(s, l) && OfPoll(l)
    ensures FutureOk(Next(s, l))
  {
  }

  lemma PollProducer(s: Cell, l: Label)
    requires PollOk(s) && ProducerOk(s) && FinishOk(s) && Enabled(s, l) && OfPoll(l)
    ensures ProducerOk(Next(s, l)) && FinishOk(Next(s, l))
  {
  }

  lemma FutureCalls(s: Cell, l: Label)
    requires ControlOk(s) && Enabled(s, l) && !OfProducer(l) && !OfPoll(l)
    ensures FutureOk(Next(s, l)) && ProducerOk(Next(s, l)) && FinishOk(Next(s, l))
  {
  }

  lemma ProducerPolls(s: Cell, l: Label)
    requires ControlOk(s) && Enabled(s, l) && OfProducer(l)
    ensures PollOk(Next(s, l))
  {
  }

  lemma ProducerCalls(s: Cell, l: Label)
    requires ControlOk(s) && Enabled(s, l) && OfProducer(l)
    ensures FutureOk(Next(s, l)) && ProducerOk(Next(s, l))
  {
  }

  lemma ProducerReads(s: Cell, l: Label)
    requires ControlOk(s) && Enabled(s, l) && OfProducer(l)
    ensures FinishOk(Next(s, l))
  {
  }

  /** Every step of either party, whatever the finish has read. */
  lemma StepControl(s: Cell, l: Label)
    requires ControlOk(s) && Enabled(s, l)
    ensures ControlOk(Next(s, l))
  {
    hide Enabled, Next, OfPoll, OfProducer, PollOk, FutureOk, ProducerOk, FinishOk;
    if OfProducer(l) {
      ProducerPolls(s, l);
      ProducerCalls(s, l);
      ProducerReads(s, l);
    } else if OfPoll(l) {
      PollPolls(s, l);
      PollCalls(s, l);
      PollProducer(s, l);
    } else {
      FuturePolls(s, l);
      FutureCalls(s, l);
    }
  }

  lemma {:induction false} RunControl(s: Cell, labels: seq<Label>, s': Cell)
    requires ControlOk(s) && Run(s, labels, s')
    ensures ControlOk(s')
    decreases |labels|
  {
    hide ControlOk, Enabled, Next;
    if labels != [] {
      StepControl(s, labels[0]);
      RunControl(Next(s, labels[0]), labels[1..], s');
    }
  }

  lemma PollWoken(s: Cell, l: Label)
    requires Inv(s) && Enabled(s, l) && OfPoll(l)
    ensures WokenOk(Next(s, l)) && TakenOk(Next(s, l))
  {
  }

  lemma FutureWoken(s: Cell, l: Label)
    requires Inv(s) && Enabled(s, l) && !OfProducer(l) && !OfPoll(l)
    ensures WokenOk(Next(s, l)) && TakenOk(Next(s, l))
  {
  }

  lemma FutureSnapshot(s: Cell, l: Label)
    requires Inv(s) && Enabled(s, l) && !OfProducer(l)
    ensures SnapshotOk(Next(s, l))
  {
  }

  predicate Drops(l: Label) {
    l.PollReadyEarly? || l.DropPrevious? || l.PollReadyLate? || l.DropCell?
  }

  lemma Held(s: Cell, k: nat)
    requires Inv(s)
    ensures Hands(s, k) == One(k < s.clones)
  {
    hide Hands, Counted, PollOk, FutureOk, ProducerOk, WokenOk, SnapshotOk;
  }

  /** A new poll clones one waker more. */
  lemma Clones(s: Cell, k: nat)
    requires Inv(s) && Enabled(s, PollStart)
    ensures Hands(Next(s, PollStart), k) == One(k < Next(s, PollStart).clones)
  {
    assert Hands(s, k) == One(k < s.clones);
  }

  /** The claim takes the stored waker from the cell into the poll. */
  lemma Claims(s: Cell, k: nat)
    requires Inv(s) && Enabled(s, PollClaim)
    ensures Hands(Next(s, PollClaim), k) == One(k < Next(s, PollClaim).clones)
  {
    assert Hands(s, k) == One(k < s.clones);
  }

  /** A poll that returns `Pending` leaves its clone in the cell. */
  lemma Leaves(s: Cell, k: nat)
    requires Inv(s) && Enabled(s, PollPending)
    ensures Hands(Next(s, PollPending), k) == One(k < Next(s, PollPending).clones)
  {
    assert Hands(s, k) == One(k < s.clones);
  }

  predicate MovesWords(l: Label) {
    l.PollLoad? || l.LoadData? || l.LoadVtable? || l.StoreData? || l.StoreVtable? || l.PollReload?
  }

  lemma MovesOnlyWords(s: Cell, l: Label, k: nat)
    requires Enabled(s, l) && MovesWords(l)
    ensures Hands(Next(s, l), k) == Hands(s, k) && Next(s, l).clones == s.clones
  {
  }

  /** A step of a poll that moves a waker from hand to hand without consuming it. */
  lemma PollPassesOn(s: Cell, l: Label, k: nat)
    requires Inv(s) && Enabled(s, l) && OfPoll(l) && !Drops(l)
    ensures Hands(Next(s, l), k) == One(k < Next(s, l).clones)
  {
    hide Enabled, Hands, Next;
    if l.PollStart? {
      Clones(s, k);
    } else if l.PollClaim? {
      Claims(s, k);
    } else if l.PollPending? {
      Leaves(s, k);
    } else {
      MovesOnlyWords(s, l, k);
      Held(s, k);
    }
  }

  lemma KeepsWakers(s: Cell, l: Label, k: nat)
    requires PollOk(s) && FutureOk(s) && Enabled(s, l) && !OfProducer(l) && !OfPoll(l) && !Drops(l)
    ensures Hands(Next(s, l), k) == Hands(s, k) && Next(s, l).clones == s.clones
  {
  }

  lemma PoolsStay(s: Cell, l: Label)
    requires Enabled(s, l) && !OfProducer(l) && !Drops(l)
    ensures Next(s, l).woken == s.woken && Next(s, l).dropped == s.dropped
  {
  }

  /** A poll that returns `Ready` drops its own clone. */
  lemma DropsClone(s: Cell, l: Label, k: nat)
    requires Enabled(s, l) && s.state.Finished? && (l.PollReadyEarly? || l.PollReadyLate?)
    ensures Hands(Next(s, l), k) == Hands(s, k) && Next(s, l).clones == s.clones
  {
    var s' := Next(s, l);
    assert s'.dropped[Whole(k)] == s.dropped[Whole(k)] + One(s.future.k == k);
  }

  lemma ReadyIsFinished(s: Cell, l: Label)
    requires PollOk(s) && Enabled(s, l) && (l.PollReadyEarly? || l.PollReadyLate?)
    ensures s.state.Finished?
  {
  }

  lemma DropsPrevious(s: Cell, k: nat)
    requires Inv(s) && Enabled(s, DropPrevious)
    ensures Hands(Next(s, DropPrevious), k) == One(k < Next(s, DropPrevious).clones)
  {
    assert Hands(s, k) == One(k < s.clones);
    var s' := Next(s, DropPrevious);
    assert s'.dropped[Whole(k)] == s.dropped[Whole(k)] + One(s.latest == Some(k));
  }

  /** What is dropped with the cell is whole, and the last waker stored. */
  lemma StoredIsWhole(s: Cell)
    requires Inv(s) && Enabled(s, DropCell)
    ensures s.state.Pending? || s.state.Cancelled? || s.state.Finished?
    ensures !s.state.Finished? ==> s.words == Words(s.latest, s.latest)
  {
  }

  lemma DropsOne(s: Cell, k: nat)
    requires Enabled(s, DropCell) && (s.state.Pending? || s.state.Cancelled? || s.state.Finished?)
    requires !s.state.Finished? ==> s.words == Words(s.latest, s.latest)
    ensures Hands(Next(s, DropCell), k) == Hands(s, k)
  {
    var s' := Next(s, DropCell);
    assert s'.dropped[Whole(k)] == s.dropped[Whole(k)] + One(!s.state.Finished? && s.latest == Some(k));
  }

  lemma DropsStored(s: Cell, k: nat)
    requires Inv(s) && Enabled(s, DropCell)
    ensures Hands(Next(s, DropCell), k) == One(k < Next(s, DropCell).clones)
  {
    StoredIsWhole(s);
    assert Hands(s, k) == One(k < s.clones);
    DropsOne(s, k);
  }

  lemma DropsWhole(s: Cell, l: Label)
    requires Inv(s) && Enabled(s, l) && Drops(l)
    ensures Next(s, l).woken == s.woken
    ensures forall w: Words :: w in Next(s, l).dropped ==> w in s.dropped || (w.data == w.vtable && w.data.Some?)
  {
  }

  lemma HandsKept(s: Cell, l: Label, k: nat)
    requires Inv(s) && Enabled(s, l) && !OfProducer(l)
    ensures Hands(Next(s, l), k) == One(k < Next(s, l).clones)
  {
    if l.PollReadyEarly? || l.PollReadyLate? {
      ReadyIsFinished(s, l);
      DropsClone(s, l, k);
      Held(s, k);
    } else if l.DropPrevious? {
      DropsPrevious(s, k);
    } else if l.DropCell? {
      DropsStored(s, k);
    } else if OfPoll(l) {
      PollPassesOn(s, l, k);
    } else {
      KeepsWakers(s, l, k);
      Held(s, k);
    }
  }

  lemma FutureOwns(s: Cell, l: Label)
    requires Inv(s) && Enabled(s, l) && !OfProducer(l)
    ensures Owned(Next(s, l))
  {
    forall k: nat ensures Hands(Next(s, l), k) == One(k < Next(s, l).clones) { HandsKept(s, l, k); }
    if Drops(l) { DropsWhole(s, l); } else { PoolsStay(s, l); }
  }

  lemma ProducerCounts(s: Cell, l: Label)
    requires Inv(s) && Enabled(s, l) && OfProducer(l)
    ensures Counted(Next(s, l))
  {
  }

  lemma ProducerWoken(s: Cell, l: Label)
    requires Inv(s) && Enabled(s, l) && OfProducer(l) && Current(s, l)
    ensures WokenOk(Next(s, l)) && TakenOk(Next(s, l))
  {
    if l.FinishWin? { CurrentIsLatest(s); }
  }

  lemma ProducerSnapshot(s: Cell, l: Label)
    requires Inv(s) && Enabled(s, l) && OfProducer(l) && Current(s, l)
    ensures SnapshotOk(Next(s, l))
  {
  }

  /** Winning with a current waker, the finish takes the stored waker over from the cell. */
  lemma Takes(s: Cell, k: nat)
    requires Inv(s) && Enabled(s, FinishWin) && Current(s, FinishWin)
    ensures Hands(Next(s, FinishWin), k) == One(k < Next(s, FinishWin).clones)
  {
    CurrentIsLatest(s);
    assert Hands(s, k) == One(k < s.clones);
  }

  lemma Wakes(s: Cell, k: nat)
    requires Inv(s) && Enabled(s, DoWake)
    ensures Hands(Next(s, DoWake), k) == One(k < Next(s, DoWake).clones)
    ensures s.latest.Some? && s.producer.words == Whole(s.latest.value)
  {
    assert Hands(s, k) == One(k < s.clones);
    var s' := Next(s, DoWake);
    assert s'.woken[Whole(k)] == s.woken[Whole(k)] + One(s.latest == Some(k));
  }

  lemma LeavesWakers(s: Cell, l: Label, k: nat)
    requires ControlOk(s) && Enabled(s, l) && OfProducer(l) && !l.FinishWin? && !l.DoWake?
    ensures Hands(Next(s, l), k) == Hands(s, k) && Next(s, l).clones == s.clones
  {
  }

  lemma ProducerHands(s: Cell, l: Label, k: nat)
    requires Inv(s) && Enabled(s, l) && OfProducer(l) && Current(s, l)
    ensures Hands(Next(s, l), k) == One(k < Next(s, l).clones)
  {
    hide Enabled, Hands, Next;
    if l.FinishWin? {
      Takes(s, k);
    } else if l.DoWake? {
      Wakes(s, k);
    } else {
      LeavesWakers(s, l, k);
      Held(s, k);
    }
  }

  lemma ProducerPools(s: Cell, l: Label)
    requires Enabled(s, l) && OfProducer(l)
    ensures Next(s, l).dropped == s.dropped
    ensures Next(s, l).woken == if l.DoWake? then Consumed(s.woken, s.producer.words) else s.woken
  {
  }

  lemma ProducerOwns(s: Cell, l: Label)
    requires Inv(s) && Enabled(s, l) && OfProducer(l) && Current(s, l)
    ensures Owned(Next(s, l))
  {
    hide Enabled, Hands, Next;
    forall k: nat ensures Hands(Next(s, l), k) == One(k < Next(s, l).clones) { ProducerHands(s, l, k); }
    ProducerPools(s, l);
    if l.DoWake? { Wakes(s, 0); }
  }

  lemma StepInv(s: Cell, l: Label)
    requires Inv(s) && Enabled(s, l) && Current(s, l)
    ensures Inv(Next(s, l))
  {
    StepControl(s, l);
    if OfProducer(l) {
      ProducerCounts(s, l);
      ProducerWoken(s, l);
      ProducerSnapshot(s, l);
      ProducerOwns(s, l);
    } else {
      FutureCounts(s, l);
      if OfPoll(l) {
        PollWoken(s, l);
      } else {
        FutureWoken(s, l);
      }
      FutureSnapshot(s, l);
      FutureOwns(s, l);
    }
  }

  lemma NewInv(wrap: Pos)
    ensures Inv(New(wrap))
  {
  }

  lemma {:induction false} RunInv(s: Cell, labels: seq<Label>, s': Cell)
    requires Inv(s) && CurrentRun(s, labels, s')
    ensures Inv(s')
    decreases |labels|
  {
    if labels != [] {
      StepInv(s, labels[0]);
      RunInv(Next(s, labels[0]), labels[1..], s');
    }
  }

  // ----- What the cell promises in every run -----

  ghost predicate Reachable(s: Cell) {
    exists wrap: Pos, labels :: Run(New(wrap), labels, s)
  }

  lemma ReachableControl(s: Cell)
    requires Reachable(s)
    ensures ControlOk(s)
  {
    hide Run;
    var wrap: Pos, labels :| Run(New(wrap), labels, s);
    NewInv(wrap);
    RunControl(New(wrap), labels, s);
  }

  /** Finish and cancel agree: both sides see the one outcome, and the same poison bit. */
  lemma OutcomesAgree(s: Cell)
    requires Reachable(s)
    ensures s.future.Resolved? && s.producer.Done? ==> s.future.outcome == s.producer.outcome
    ensures s.future.Resolved? && s.future.outcome.DidFinish? ==>
              (s.producer.Wake? && s.producer.poisoned == s.future.outcome.poisoned) || s.producer == Done(s.future.outcome)
    ensures s.future.Resolved? && s.future.outcome.DidCancel? ==> s.producer.Unpark? || s.producer == Done(DidCancel)
  {
    ReachableControl(s);
  }

  /** The unpark is never lost: a future that is parked is one whose cancellation is still to be
      accepted, or it has its token, or is about to get it. */
  lemma UnparkNotLost(s: Cell)
    requires Reachable(s) && s.future.Parked?
    ensures s.state.Cancelling? || (s.state.Cancelled? && (s.token || Enabled(s, DoUnpark)))
  {
    ReachableControl(s);
  }

  /** Where the code would panic. */
  predicate Panics(s: Cell) {
    var f, p := s.future, s.producer;
    || (f.PollFirst? && f.cur.Some? && !f.cur.value.Pending? && !f.cur.value.Finished?)
    || (f.PollLast? && !f.last.Storing? && !f.last.Finished?)
    || (f.Cancel? && f.ccur.Some? && !f.ccur.value.Pending? && !f.ccur.value.Finished?)
    || (f.WaitCheck? && !s.state.Cancelling? && !s.state.Cancelled?)
    || (f.Resolved? && (s.state.Storing? || s.state.Cancelling?))
    || (p.FinishLoad? && (s.state.Finished? || s.state.Cancelled?))
    || (p.AcceptTake? && (!p.acur.Cancelling? || !s.thread))
    || (p.Wake? && p.words.vtable.None?)
  }

  lemma NeverPanics(s: Cell)
    requires Reachable(s)
    ensures !Panics(s)
  {
    ReachableControl(s);
  }

  /** The producer's fields of the cell are still there while it uses them. */
  lemma CellOutlivesProducer(s: Cell)
    requires Reachable(s) && s.future.Gone?
    ensures s.producer.Waiting? || s.producer.Wake? || s.producer.Unpark? || s.producer.Done?
    ensures s.producer.Waiting? ==> !s.enqueued
  {
    ReachableControl(s);
  }

  /** No poll returns `Pending` once the finish has won: it can only go on to return `Ready`. */
  lemma NoPendingAfterFinish(s: Cell)
    requires Reachable(s) && s.state.Finished?
    ensures !Enabled(s, PollPending)
    ensures s.future.PollLast? ==> Enabled(s, PollReload) || Enabled(s, PollReadyLate)
  {
    ReachableControl(s);
  }

  // ----- What it promises when finishes are current -----

  ghost predicate ReachableCurrently(s: Cell) {
    exists wrap: Pos, labels :: CurrentRun(New(wrap), labels, s)
  }

  lemma ReachableInv(s: Cell)
    requires ReachableCurrently(s)
    ensures Inv(s)
  {
    var wrap: Pos, labels :| CurrentRun(New(wrap), labels, s);
    NewInv(wrap);
    RunInv(New(wrap), labels, s);
  }

  /** Fewer polls than there are sequence numbers between a finish's load and its compare-exchange
      are enough for all that follows. */
  lemma {:induction false} TimelyRunsAreCurrent(s: Cell, labels: seq<Label>, s': Cell)
    requires Inv(s) && TimelyRun(s, labels, s')
    ensures CurrentRun(s, labels, s')
    decreases |labels|
  {
    hide Inv, Enabled, Next, InTime, Current;
    if labels != [] {
      InTimeIsCurrent(s, labels[0]);
      StepInv(s, labels[0]);
      TimelyRunsAreCurrent(Next(s, labels[0]), labels[1..], s');
    }
  }

  /** A finish that wins in time takes exactly the waker of the last poll that returned `Pending`,
      although it read the two words one after the other. */
  lemma WakerSnapshot(s: Cell)
    requires ReachableCurrently(s) && Enabled(s, FinishWin)
    ensures s.latest.Some? && s.words == Whole(s.latest.value)
    ensures InTime(s, FinishWin) ==> s.producer.words == Whole(s.latest.value) && s.polls == s.producer.at
  {
    ReachableInv(s);
    if InTime(s, FinishWin) {
      InTimeIsCurrent(s, FinishWin);
    }
  }

  /** The condition on runs is exact: a finish that wins wakes the waker of the last poll if and only
      if the words it read are still in the cell. If not, that waker is never woken by it. */
  lemma WakesLatestIffCurrent(s: Cell)
    requires ReachableCurrently(s) && Enabled(s, FinishWin)
    ensures var s' := Next(s, FinishWin);
            && Enabled(s', DoWake) && s.latest.Some?
            && Next(s', DoWake).woken[Whole(s.latest.value)] == One(Current(s, FinishWin))
  {
    ReachableInv(s);
    assert Hands(s, s.latest.value) == One(s.latest.value < s.clones);
  }

  /** No finish is missed: once the state is `Finished`, a future that is not being polled has had
      the waker of its last poll woken, or the finish is about to do it. A poll in
      progress cannot return `Pending` any more, by `NoPendingAfterFinish`. */
  lemma NoMissedFinish(s: Cell)
    requires ReachableCurrently(s) && s.state.Finished?
    ensures s.latest.Some?
    ensures s.future.Idle? ==> s.producer == Wake(s.state.poisoned, Whole(s.latest.value))
                               || s.woken[Whole(s.latest.value)] == 1
  {
    ReachableInv(s);
    assert Hands(s, s.latest.value) == One(s.latest.value < s.clones);
  }

  /** Wakers are linear: when both parties are through, every clone was woken or dropped, once. */
  lemma WakersConsumedOnce(s: Cell, k: nat)
    requires ReachableCurrently(s)
    ensures s.woken[Whole(k)] + s.dropped[Whole(k)] <= One(k < s.clones)
    ensures s.future.Gone? && !s.producer.Wake? ==> s.woken[Whole(k)] + s.dropped[Whole(k)] == One(k < s.clones)
    ensures forall w: Words :: w in s.woken || w in s.dropped ==> w.data == w.vtable
  {
    ReachableInv(s);
    assert Hands(s, k) == One(k < s.clones);
  }
}
