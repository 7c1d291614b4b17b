/** Machine words of any width `w`: permit arithmetic that saturates, and the bit packing of the
    three atomics. Shifting left by three and or-ing in a tag below eight is `8 * x + tag`, reduced
    to the width of the word where bits can fall off its top. */
module Packing {
  import opened Sequences
  import opened PermitValues
  import P = Protocol

  function Pow2(n: nat): (p: nat)
    ensures p >= 1
  {
    if n == 0 then 1 else 2 * Pow2(n - 1)
  }

  function UsizeMax(w: nat): nat { Pow2(w) - 1 }

  /** `Semaphore::MAX_AVAILABLE` */
  function MaxAvailable(w: nat): nat
    requires w >= 3
  {
    Pow2(w - 3) - 1
  }

  lemma Widths(w: nat)
    requires w >= 3
    ensures Pow2(w) == 8 * Pow2(w - 3)
  {
    assert Pow2(w) == 2 * Pow2(w - 1) && Pow2(w - 1) == 2 * Pow2(w - 2) && Pow2(w - 2) == 2 * Pow2(w - 3);
  }

  /** The number that bits stand for, the lowest first. */
  function OfBits(bits: seq<bool>): nat {
    if bits == [] then 0 else (if bits[0] then 1 else 0) + 2 * OfBits(bits[1..])
  }

  function BitsOf(w: nat, x: nat): (bits: seq<bool>)
    ensures |bits| == w
  {
    if w == 0 then [] else [x % 2 == 1] + BitsOf(w - 1, x / 2)
  }

  lemma {:induction false} BitsFit(bits: seq<bool>)
    ensures OfBits(bits) <= UsizeMax(|bits|)
  {
    if bits != [] { BitsFit(bits[1..]); }
  }

  lemma {:induction false} FitsInBits(w: nat, x: nat)
    requires x <= UsizeMax(w)
    ensures OfBits(BitsOf(w, x)) == x
  {
    if w > 0 {
      FitsInBits(w - 1, x / 2);
      assert BitsOf(w, x)[1..] == BitsOf(w - 1, x / 2);
    }
  }

  /** A word is `w` bits: its values are the numbers that `w` bits stand for, and no others. The most
      permits are what is left of it beside a tag of three bits, with all of these bits set. */
  lemma MaxAvailableFillsWord(w: nat, x: nat)
    requires w >= 3
    ensures x <= UsizeMax(w) <==> exists bits :: |bits| == w && OfBits(bits) == x
    ensures x <= MaxAvailable(w) <==> exists bits :: |bits| == w - 3 && OfBits(bits) == x
    ensures 8 * MaxAvailable(w) + 7 == UsizeMax(w)
  {
    Widths(w);
    if x <= UsizeMax(w) { FitsInBits(w, x); }
    if x <= MaxAvailable(w) { FitsInBits(w - 3, x); }
    forall bits: seq<bool> ensures OfBits(bits) <= UsizeMax(|bits|) {
      BitsFit(bits);
    }
  }

  /** The bits of `x` that fit into a word. */
  function Truncate(w: nat, x: nat): (r: nat)
    ensures r <= UsizeMax(w)
  {
    x % Pow2(w)
  }

  lemma SmallMod(x: nat, n: nat)
    requires x < n
    ensures x % n == x
  {
  }

  lemma TruncateSmall(w: nat, x: nat)
    requires x <= UsizeMax(w)
    ensures Truncate(w, x) == x
  {
    SmallMod(x, Pow2(w));
  }

  /** Or-ing a tag into the low bits, and taking it off again. */
  lemma Tagged(x: nat, tag: nat)
    ensures tag < 8 ==> (8 * x + tag) % 8 == tag && (8 * x + tag) / 8 == x
    ensures tag < 2 ==> (2 * x + tag) % 2 == tag && (2 * x + tag) / 2 == x
  {
  }

  // ----- Permits -----

  /** `Permits(usize)` */
  datatype RawPermits = RawPermits(raw: nat)

  predicate Fits(w: nat, p: RawPermits) { p.raw <= UsizeMax(w) }

  function IntoUsize(w: nat, p: RawPermits): Option<nat>
    requires w >= 3
  {
    if p.raw <= MaxAvailable(w) then Some(p.raw) else None
  }

  function RawPoison(w: nat): RawPermits { RawPermits(UsizeMax(w)) }

  /** `saturating_add` */
  function Add(w: nat, a: RawPermits, b: RawPermits): RawPermits {
    RawPermits(if a.raw + b.raw <= UsizeMax(w) then a.raw + b.raw else UsizeMax(w))
  }

  /** What the protocol calls this number of permits. */
  function Value(w: nat, p: RawPermits): Permits
    requires w >= 3
  {
    match IntoUsize(w, p)
    case None => Poison
    case Some(n) => Count(n)
  }

  /** Machine arithmetic implements the protocol's: no sum wraps, and poison absorbs. */
  lemma AddImplementsPlus(w: nat, a: RawPermits, b: RawPermits)
    requires w >= 3 && Fits(w, a) && Fits(w, b)
    ensures Fits(w, Add(w, a, b))
    ensures Value(w, Add(w, a, b)) == Plus(MaxAvailable(w), Value(w, a), Value(w, b))
    ensures Value(w, RawPermits(a.raw)) == New(MaxAvailable(w), a.raw)
    ensures Value(w, RawPoison(w)) == Poison && Add(w, RawPoison(w), b) == RawPoison(w)
  {
    Widths(w);
  }

  // ----- The release word -----

  datatype ReleaseState = Unlocked(permits: RawPermits) | Locked | LockedDirty(permits: RawPermits)

  function EncodeRelease(w: nat, v: ReleaseState): nat
    requires w >= 3
  {
    match v
    case Locked => 0
    case Unlocked(p) => if IntoUsize(w, p).None? then 1 else Truncate(w, 8 * p.raw) + 2
    case LockedDirty(p) => if IntoUsize(w, p).None? then 3 else Truncate(w, 8 * p.raw) + 4
  }

  /** `None` where the code says `unreachable!()`. */
  function DecodeRelease(w: nat, word: nat): Option<ReleaseState> {
    match word % 8
    case 0 => Some(Locked)
    case 1 => Some(Unlocked(RawPoison(w)))
    case 2 => Some(Unlocked(RawPermits(word / 8)))
    case 3 => Some(LockedDirty(RawPoison(w)))
    case 4 => Some(LockedDirty(RawPermits(word / 8)))
    case _ => None
  }

  function ReleaseValue(w: nat, v: ReleaseState): P.ReleaseState
    requires w >= 3
  {
    match v
    case Locked => P.Locked
    case Unlocked(p) => P.Unlocked(Value(w, p))
    case LockedDirty(p) => P.LockedDirty(Value(w, p))
  }

  /** Decoding undoes encoding, up to which number stands for poison, and the word has room for it. */
  lemma ReleaseRoundTrip(w: nat, v: ReleaseState)
    requires w >= 3
    ensures EncodeRelease(w, v) <= UsizeMax(w)
    ensures var d := DecodeRelease(w, EncodeRelease(w, v));
            && d.Some? && ReleaseValue(w, d.value) == ReleaseValue(w, v)
            && EncodeRelease(w, d.value) == EncodeRelease(w, v)
  {
    Widths(w);
    if !v.Locked? && IntoUsize(w, v.permits).Some? {
      var x := v.permits.raw;
      TruncateSmall(w, 8 * x);
      Tagged(x, 2);
      Tagged(x, 4);
    }
  }

  /** A compare-exchange on words succeeds exactly when the values are equal; in particular `Locked`
      and `LockedDirty(0)` are different words. */
  lemma ReleaseWordsAreValues(w: nat, a: ReleaseState, b: ReleaseState)
    requires w >= 3
    ensures EncodeRelease(w, a) == EncodeRelease(w, b) <==> ReleaseValue(w, a) == ReleaseValue(w, b)
    ensures EncodeRelease(w, LockedDirty(RawPermits(0))) != EncodeRelease(w, Locked)
  {
    ReleaseRoundTrip(w, a);
    ReleaseRoundTrip(w, b);
    if ReleaseValue(w, a) == ReleaseValue(w, b) {
      Widths(w);
    }
  }

  // ----- The acquire word -----

  /** Waiters are aligned to two bytes, so their addresses are even. */
  datatype AcquireState = Queued(back: nat) | Available(permits: RawPermits)

  predicate Aligned(w: nat, v: AcquireState) {
    v.Queued? ==> v.back % 2 == 0 && v.back <= UsizeMax(w)
  }

  function EncodeAcquire(w: nat, v: AcquireState): nat
    requires w >= 3
  {
    match v
    case Queued(back) => back
    case Available(p) => if IntoUsize(w, p).None? then UsizeMax(w) else Truncate(w, 2 * p.raw) + 1
  }

  function DecodeAcquire(w: nat, word: nat): AcquireState {
    if word % 2 == 1 then
      if word == UsizeMax(w) then Available(RawPoison(w)) else Available(RawPermits(word / 2))
    else Queued(word)
  }

  function AcquireValue(w: nat, v: AcquireState): P.AcquireState
    requires w >= 3
  {
    match v
    case Queued(back) => P.Queued(if back == 0 then P.Null else P.Ref(back))
    case Available(p) => P.Available(Value(w, p))
  }

  lemma AcquireRoundTrip(w: nat, v: AcquireState)
    requires w >= 3 && Aligned(w, v)
    ensures EncodeAcquire(w, v) <= UsizeMax(w)
    ensures var d := DecodeAcquire(w, EncodeAcquire(w, v));
            && Aligned(w, d) && AcquireValue(w, d) == AcquireValue(w, v)
            && EncodeAcquire(w, d) == EncodeAcquire(w, v)
  {
    Widths(w);
    if v.Available? && IntoUsize(w, v.permits).Some? {
      var x := v.permits.raw;
      TruncateSmall(w, 2 * x);
      Tagged(x, 1);
    }
  }

  lemma AcquireWordsAreValues(w: nat, a: AcquireState, b: AcquireState)
    requires w >= 3 && Aligned(w, a) && Aligned(w, b)
    ensures EncodeAcquire(w, a) == EncodeAcquire(w, b) <==> AcquireValue(w, a) == AcquireValue(w, b)
  {
    AcquireRoundTrip(w, a);
    AcquireRoundTrip(w, b);
    if AcquireValue(w, a) == AcquireValue(w, b) {
      Widths(w);
    }
  }

  // ----- The waker word -----

  datatype WakerState =
    | Pending(seqno: nat)
    | Storing(seqno: nat)
    | Finished(poisoned: bool)
    | Cancelling
    | Cancelled

  function EncodeWaker(w: nat, v: WakerState): nat {
    match v
    case Pending(seqno) => Truncate(w, 8 * seqno)
    case Storing(seqno) => Truncate(w, 8 * seqno) + 1
    case Finished(poisoned) => if poisoned then 3 else 2
    case Cancelling => 4
    case Cancelled => 5
  }

  function DecodeWaker(word: nat): Option<WakerState> {
    match word % 8
    case 0 => Some(Pending(word / 8))
    case 1 => Some(Storing(word / 8))
    case 2 => Some(Finished(false))
    case 3 => Some(Finished(true))
    case 4 => Some(Cancelling)
    case 5 => Some(Cancelled)
    case _ => None
  }

  /** The sequence number that fits into the word. */
  function Truncated(w: nat, v: WakerState): WakerState
    requires w >= 3
  {
    match v
    case Pending(seqno) => Pending(seqno % Pow2(w - 3))
    case Storing(seqno) => Storing(seqno % Pow2(w - 3))
    case _ => v
  }

  lemma ModOfMultiple(q: nat, n: nat, r: nat)
    requires r < n
    ensures (q * n + r) % n == r
  {
    var a := q * n + r;
    var d := a / n - q;
    assert n * d == r - a % n;
    assert d >= 1 ==> n * d >= n;
    assert d <= -1 ==> n * d + n <= 0;
  }

  lemma ModScales(x: nat, m: nat)
    requires m > 0
    ensures 8 * x % (8 * m) == 8 * (x % m)
  {
    var q, r := x / m, x % m;
    assert x == q * m + r;
    assert 8 * x == q * (8 * m) + 8 * r;
    ModOfMultiple(q, 8 * m, 8 * r);
  }

  /** Shifting a sequence number left by three drops what does not fit into `w - 3` bits. */
  lemma ShiftedSeqno(w: nat, seqno: nat)
    requires w >= 3
    ensures Truncate(w, 8 * seqno) == 8 * (seqno % Pow2(w - 3)) <= UsizeMax(w) - 7
    ensures (seqno % Pow2(w - 3)) % Pow2(w - 3) == seqno % Pow2(w - 3)
  {
    Widths(w);
    var m := Pow2(w - 3);
    ModScales(seqno, m);
    SmallMod(seqno % m, m);
  }

  lemma SeqnoRoundTrip(w: nat, seqno: nat, tag: nat)
    requires w >= 3 && tag < 2
    ensures var word := Truncate(w, 8 * seqno) + tag;
            word <= UsizeMax(w) && word % 8 == tag && word / 8 == seqno % Pow2(w - 3)
    ensures Truncate(w, 8 * (seqno % Pow2(w - 3))) == Truncate(w, 8 * seqno)
  {
    var y := seqno % Pow2(w - 3);
    ShiftedSeqno(w, seqno);
    ShiftedSeqno(w, y);
    Tagged(y, tag);
  }

  /** Packing keeps a waker state up to the sequence number's wrap at `2^(w-3)`, and nothing less. */
  lemma WakerRoundTrip(w: nat, v: WakerState)
    requires w >= 3
    ensures EncodeWaker(w, v) <= UsizeMax(w)
    ensures DecodeWaker(EncodeWaker(w, v)) == Some(Truncated(w, v))
    ensures EncodeWaker(w, Truncated(w, v)) == EncodeWaker(w, v)
  {
    Widths(w);
    if v.Pending? || v.Storing? {
      SeqnoRoundTrip(w, v.seqno, if v.Pending? then 0 else 1);
      hide Truncate, Pow2;
    }
  }

  lemma WakerWordsAreStates(w: nat, a: WakerState, b: WakerState)
    requires w >= 3
    ensures EncodeWaker(w, a) == EncodeWaker(w, b) <==> Truncated(w, a) == Truncated(w, b)
  {
    WakerRoundTrip(w, a);
    WakerRoundTrip(w, b);
  }

  // ----- Grouping does not matter -----

  /** A history of permits: amounts that were merged in some order, with every intermediate result
      passing through any of the shared words. */
  datatype History =
    | Amount(n: nat)
    | PoisonCall
    | Merge(left: History, right: History)
    | ThroughUnlocked(inner: History)
    | ThroughDirty(inner: History)
    | ThroughAvailable(inner: History)

  predicate WordSized(w: nat, h: History) {
    match h
    case Amount(n) => n <= UsizeMax(w)
    case PoisonCall => true
    case Merge(l, r) => WordSized(w, l) && WordSized(w, r)
    case ThroughUnlocked(i) => WordSized(w, i)
    case ThroughDirty(i) => WordSized(w, i)
    case ThroughAvailable(i) => WordSized(w, i)
  }

  /** What the code computes. */
  function Computed(w: nat, h: History): RawPermits
    requires w >= 3
  {
    match h
    case Amount(n) => RawPermits(n)
    case PoisonCall => RawPoison(w)
    case Merge(l, r) => Add(w, Computed(w, l), Computed(w, r))
    case ThroughUnlocked(i) =>
      (match DecodeRelease(w, EncodeRelease(w, Unlocked(Computed(w, i))))
       case Some(Unlocked(p)) => p
       case _ => RawPermits(0))
    case ThroughDirty(i) =>
      (match DecodeRelease(w, EncodeRelease(w, LockedDirty(Computed(w, i))))
       case Some(LockedDirty(p)) => p
       case _ => RawPermits(0))
    case ThroughAvailable(i) =>
      (match DecodeAcquire(w, EncodeAcquire(w, Available(Computed(w, i))))
       case Available(p) => p
       case _ => RawPermits(0))
  }

  /** The amounts added up as numbers, `None` once poison was among them. */
  function TrueSum(h: History): Option<nat> {
    match h
    case Amount(n) => Some(n)
    case PoisonCall => None
    case Merge(l, r) =>
      if TrueSum(l).Some? && TrueSum(r).Some? then Some(TrueSum(l).value + TrueSum(r).value) else None
    case ThroughUnlocked(i) => TrueSum(i)
    case ThroughDirty(i) => TrueSum(i)
    case ThroughAvailable(i) => TrueSum(i)
  }

  /** However amounts are grouped, deferred and packed, the result counts their true sum if that is
      at most `MAX_AVAILABLE`, and is poison otherwise. */
  lemma {:induction false} GroupingDoesNotMatter(w: nat, h: History)
    requires w >= 3 && WordSized(w, h)
    ensures Fits(w, Computed(w, h))
    ensures var sum := TrueSum(h);
            IntoUsize(w, Computed(w, h)) == if sum.Some? && sum.value <= MaxAvailable(w) then sum else None
    decreases h
  {
    Widths(w);
    match h
    case Amount(n) =>
    case PoisonCall =>
    case Merge(l, r) =>
      GroupingDoesNotMatter(w, l);
      GroupingDoesNotMatter(w, r);
    case ThroughUnlocked(i) =>
      GroupingDoesNotMatter(w, i);
      ReleaseRoundTrip(w, Unlocked(Computed(w, i)));
    case ThroughDirty(i) =>
      GroupingDoesNotMatter(w, i);
      ReleaseRoundTrip(w, LockedDirty(Computed(w, i)));
    case ThroughAvailable(i) =>
      GroupingDoesNotMatter(w, i);
      AcquireRoundTrip(w, Available(Computed(w, i)));
  }
}
