/** src/atomic.rs: a machine word that holds a packed value, and the three that the semaphore and its
    waiters have. */
module AtomicWord {
  import opened Sequences
  import opened Packing

  class Atomic<T(!new)> {
    var word: nat
    const encode: T -> nat
    const decode: nat -> Option<T>
    /** The values that may be packed. */
    const packable: T -> bool

    /** An encoding decodes, and to something that encodes the same. */
    ghost predicate Codec() {
      forall v: T :: packable(v) ==>
        decode(encode(v)).Some? && packable(decode(encode(v)).value) && encode(decode(encode(v)).value) == encode(v)
    }

    ghost predicate Valid()
      reads this
    {
      Codec() && exists v: T :: packable(v) && word == encode(v)
    }

    constructor (v: T, encode: T -> nat, decode: nat -> Option<T>, packable: T -> bool)
      requires packable(v)
      requires forall v: T :: packable(v) ==>
        decode(encode(v)).Some? && packable(decode(encode(v)).value) && encode(decode(encode(v)).value) == encode(v)
      ensures Valid() && word == encode(v)
      ensures this.encode == encode && this.decode == decode && this.packable == packable
    {
      word := encode(v);
      this.encode := encode;
      this.decode := decode;
      this.packable := packable;
    }

    method Load() returns (v: T)
      requires Valid()
      ensures packable(v) && encode(v) == word
    {
      v := decode(word).value;
    }

    method Store(v: T)
      requires Valid() && packable(v)
      modifies this
      ensures Valid() && word == encode(v)
    {
      word := encode(v);
    }

    method Swap(v: T) returns (previous: T)
      requires Valid() && packable(v)
      modifies this
      ensures Valid() && word == encode(v) && packable(previous) && encode(previous) == old(word)
    {
      previous := decode(word).value;
      word := encode(v);
    }

    /** Succeeds only if the word holds `current`; fails if it does not, and sometimes although it
        does. After a failure `next` is what the word held. */
    method CmpxchgWeak(current: T, new_: T) returns (ok: bool, next: T, ghost spurious: bool)
      requires Valid() && packable(current) && packable(new_)
      modifies this
      ensures Valid() && packable(next)
      ensures ok ==> old(word) == encode(current) && word == encode(new_) && next == current
      ensures !ok ==> word == old(word) && encode(next) == word
      ensures ok <==> old(word) == encode(current) && !spurious
    {
      var fails: bool := *;
      spurious := fails;
      if word == encode(current) && !fails {
        word := encode(new_);
        return true, current, spurious;
      }
      return false, decode(word).value, spurious;
    }
  }

  /** `Semaphore::release` */
  method ReleaseWord(w: nat, v: ReleaseState) returns (a: Atomic<ReleaseState>)
    requires w >= 3
    ensures fresh(a) && a.Valid() && a.word == EncodeRelease(w, v)
    ensures forall x: ReleaseState :: a.packable(x) && a.encode(x) == EncodeRelease(w, x)
  {
    forall x: ReleaseState { ReleaseRoundTrip(w, x); }
    a := new Atomic(v, (x: ReleaseState) => EncodeRelease(w, x), n => DecodeRelease(w, n), x => true);
  }

  /** `Semaphore::acquire` */
  method AcquireWord(w: nat, v: AcquireState) returns (a: Atomic<AcquireState>)
    requires w >= 3 && Aligned(w, v)
    ensures fresh(a) && a.Valid() && a.word == EncodeAcquire(w, v)
    ensures forall x: AcquireState :: a.encode(x) == EncodeAcquire(w, x) && a.packable(x) == Aligned(w, x)
  {
    forall x: AcquireState | Aligned(w, x) { AcquireRoundTrip(w, x); }
    a := new Atomic(v, (x: AcquireState) => EncodeAcquire(w, x), n => Some(DecodeAcquire(w, n)), (x: AcquireState) => Aligned(w, x));
  }

  /** `AtomicWaker::state` */
  method WakerWord(w: nat, v: WakerState) returns (a: Atomic<WakerState>)
    requires w >= 3
    ensures fresh(a) && a.Valid() && a.word == EncodeWaker(w, v)
    ensures forall x: WakerState :: a.packable(x) && a.encode(x) == EncodeWaker(w, x)
  {
    forall x: WakerState { WakerRoundTrip(w, x); }
    a := new Atomic(v, (x: WakerState) => EncodeWaker(w, x), n => DecodeWaker(n), x => true);
  }

  /** A compare-exchange of the release word that succeeds found the value it expected, and one that
      fails without spurious failure did not. */
  method CmpxchgRelease(w: nat, a: Atomic<ReleaseState>, held: ReleaseState, current: ReleaseState, new_: ReleaseState)
    returns (ok: bool, next: ReleaseState, ghost spurious: bool)
    requires w >= 3 && a.Valid() && a.word == EncodeRelease(w, held)
    requires forall x: ReleaseState :: a.packable(x) && a.encode(x) == EncodeRelease(w, x)
    modifies a
    ensures a.Valid()
    ensures ok <==> ReleaseValue(w, held) == ReleaseValue(w, current) && !spurious
    ensures a.word == EncodeRelease(w, if ok then new_ else held)
    ensures !ok ==> ReleaseValue(w, next) == ReleaseValue(w, held)
  {
    ok, next, spurious := a.CmpxchgWeak(current, new_);
    ReleaseWordsAreValues(w, held, current);
    ReleaseWordsAreValues(w, held, next);
  }
}
