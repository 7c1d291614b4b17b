/** The queue as the code builds it: waiters linked by `next` and `prev`, edited in place by whoever
    holds the release lock. */
module Heap {
  import opened Sequences
  import opened PermitValues
  import P = Protocol

  class Waiter {
    const amount: nat
    var waker: P.WakerState
    var next: Waiter?
    var prev: Waiter?
    var nextCancel: Waiter?
    /** The word that told the owner that its wait is over, and what it left the fields at. */
    ghost var outcome: Option<P.WakerState>
    ghost var left: (P.WakerState, Waiter?, Waiter?, Waiter?)

    constructor (amount: nat)
      ensures this.amount == amount && waker.Pending? && next == prev == nextCancel == null && outcome.None?
    {
      this.amount := amount;
      waker := P.Pending;
      next, prev, nextCancel := null, null, null;
      outcome := None;
    }

    /** Nobody has written the node since its owner got it back. */
    ghost predicate Untouched()
      reads this
    {
      left == (waker, next, prev, nextCancel)
    }

    /** What the waker's word says now is what the owner is told. From then on it may drop the node,
        so every field may change to anything at once. */
    method HandBack()
      modifies this
      ensures outcome == Some(old(waker)) && Untouched()
    {
      outcome := Some(waker);
      waker := *;
      next := *;
      prev := *;
      nextCancel := *;
      left := (waker, next, prev, nextCancel);
    }

    /** `AtomicWaker::finish` */
    method Finish(poisoned: bool) returns (finished: bool)
      requires waker.Pending? || waker.Cancelling?
      modifies this
      ensures finished <==> old(waker).Pending?
      ensures finished ==> outcome == Some(P.Finished(poisoned)) && Untouched()
      ensures !finished ==> unchanged(this)
    {
      if waker.Cancelling? {
        return false;
      }
      waker := P.Finished(poisoned);
      HandBack();
      return true;
    }

    /** `AtomicWaker::accept_cancel` */
    method AcceptCancel()
      requires waker.Cancelling?
      modifies this
      ensures outcome == Some(P.Cancelled) && Untouched()
    {
      waker := P.Cancelled;
      HandBack();
    }
  }

  function NodeAt(nodes: seq<Waiter>, i: int): Waiter? {
    if 0 <= i < |nodes| then nodes[i] else null
  }

  ghost predicate Edges(nodes: seq<Waiter>)
    reads nodes`next, nodes`prev
  {
    && (forall i {:trigger nodes[i].next} :: 0 <= i < |nodes| ==> nodes[i].next == NodeAt(nodes, i + 1))
    && (forall i {:trigger nodes[i].prev} :: 0 <= i < |nodes| ==> nodes[i].prev == NodeAt(nodes, i - 1))
  }

  /** `front` and `middle` are the ends of the doubly linked list `nodes`. */
  ghost predicate Linked(nodes: seq<Waiter>, front: Waiter?, middle: Waiter?)
    reads nodes`next, nodes`prev
  {
    && NoDup(nodes)
    && front == NodeAt(nodes, 0)
    && middle == NodeAt(nodes, |nodes| - 1)
    && Edges(nodes)
  }

  /** The stack as the pushing futures leave it: only `prev` edges, newest first. */
  ghost predicate Stacked(stack: seq<Waiter>)
    reads stack`next, stack`prev
  {
    && NoDup(stack)
    && (forall i {:trigger stack[i].prev} :: 0 <= i < |stack| ==> stack[i].prev == NodeAt(stack, i + 1))
    && (forall i {:trigger stack[i].next} :: 0 <= i < |stack| ==> stack[i].next == null)
  }

  ghost predicate Disjoint(a: seq<Waiter>, b: seq<Waiter>) {
    forall i, j :: 0 <= i < |a| && 0 <= j < |b| ==> a[i] != b[j]
  }

  function After(nodes: seq<Waiter>, stack: seq<Waiter>, i: nat): Waiter? {
    if i + 1 < |nodes| then nodes[i + 1] else NodeAt(stack, |stack| - 1)
  }

  function Ahead(nodes: seq<Waiter>, stack: seq<Waiter>, i: nat): Waiter? {
    if i + 1 < |stack| then stack[i + 1] else NodeAt(nodes, |nodes| - 1)
  }

  /** The stack is linked backwards behind the list. */
  ghost predicate LinkedBehind(nodes: seq<Waiter>, stack: seq<Waiter>)
    reads nodes, stack
  {
    && stack != []
    && (forall i {:trigger nodes[i].next} :: 0 <= i < |nodes| ==> nodes[i].next == After(nodes, stack, i))
    && (forall i {:trigger nodes[i].prev} :: 0 <= i < |nodes| ==> nodes[i].prev == NodeAt(nodes, i - 1))
    && (forall i {:trigger stack[i].next} :: 0 <= i < |stack| ==> stack[i].next == NodeAt(stack, i - 1))
    && (forall i {:trigger stack[i].prev} :: 0 <= i < |stack| ==> stack[i].prev == Ahead(nodes, stack, i))
  }

  lemma {:induction false} JoinedAt(nodes: seq<Waiter>, stack: seq<Waiter>, i: nat)
    requires i < |nodes| + |stack|
    ensures (nodes + Reverse(stack))[i] == if i < |nodes| then nodes[i] else stack[|nodes| + |stack| - 1 - i]
  {
    if i >= |nodes| { ReverseAt(stack, i - |nodes|); }
  }

  lemma {:induction false} JoinedNeighbours(nodes: seq<Waiter>, stack: seq<Waiter>, i: nat)
    requires LinkedBehind(nodes, stack) && i < |nodes| + |stack|
    ensures var r := nodes + Reverse(stack);
            r[i].next == NodeAt(r, i + 1) && r[i].prev == NodeAt(r, i - 1)
  {
    JoinedAt(nodes, stack, i);
    if i + 1 < |nodes| + |stack| { JoinedAt(nodes, stack, i + 1); }
    if i > 0 { JoinedAt(nodes, stack, i - 1); }
    if i >= |nodes| {
      var j := |nodes| + |stack| - 1 - i;
      assert stack[j].next == NodeAt(stack, j - 1);
      assert stack[j].prev == Ahead(nodes, stack, j);
    }
  }

  lemma {:induction false} LinkedBehindIsLinked(nodes: seq<Waiter>, stack: seq<Waiter>, front: Waiter)
    requires NoDup(nodes) && NoDup(stack) && Disjoint(nodes, stack) && LinkedBehind(nodes, stack)
    requires front == if nodes == [] then stack[|stack| - 1] else nodes[0]
    ensures Linked(nodes + Reverse(stack), front, stack[0])
  {
    var r := nodes + Reverse(stack);
    ReverseNoDup(stack);
    forall x | x in nodes ensures x !in Reverse(stack) { ReverseMember(stack, x); }
    ConcatNoDup(nodes, Reverse(stack));
    forall i | 0 <= i < |r| ensures r[i].next == NodeAt(r, i + 1) && r[i].prev == NodeAt(r, i - 1) {
      JoinedNeighbours(nodes, stack, i);
    }
    JoinedAt(nodes, stack, 0);
    JoinedAt(nodes, stack, |r| - 1);
  }

  /** Where the edges of node `i` lead once node `k` is left out. */
  function NextAround(nodes: seq<Waiter>, k: nat, i: nat): Waiter? {
    if i + 1 == k then NodeAt(nodes, k + 1) else NodeAt(nodes, i + 1)
  }

  function PrevAround(nodes: seq<Waiter>, k: nat, i: nat): Waiter? {
    if i == k + 1 then NodeAt(nodes, k - 1) else NodeAt(nodes, i - 1)
  }

  ghost predicate LinkedAround(nodes: seq<Waiter>, k: nat)
    reads nodes
  {
    && (forall i {:trigger nodes[i].next} :: 0 <= i < |nodes| && i != k ==> nodes[i].next == NextAround(nodes, k, i))
    && (forall i {:trigger nodes[i].prev} :: 0 <= i < |nodes| && i != k ==> nodes[i].prev == PrevAround(nodes, k, i))
  }

  lemma {:induction false} AroundEdges(nodes: seq<Waiter>, k: nat)
    requires k < |nodes| && LinkedAround(nodes, k)
    ensures Edges(nodes[..k] + nodes[k + 1..])
  {
    var r := nodes[..k] + nodes[k + 1..];
    forall i | 0 <= i < |r| ensures r[i].next == NodeAt(r, i + 1) && r[i].prev == NodeAt(r, i - 1) {
      var j := if i < k then i else i + 1;
      assert r[i] == nodes[j];
      assert nodes[j].next == NextAround(nodes, k, j) && nodes[j].prev == PrevAround(nodes, k, j);
    }
  }

  lemma {:induction false} LinkedAroundIsLinked(nodes: seq<Waiter>, k: nat)
    requires NoDup(nodes) && k < |nodes| && LinkedAround(nodes, k)
    ensures Linked(Without(nodes, nodes[k]),
                   if k == 0 then NodeAt(nodes, 1) else nodes[0],
                   if k == |nodes| - 1 then NodeAt(nodes, k - 1) else nodes[|nodes| - 1])
  {
    var r := Without(nodes, nodes[k]);
    WithoutAt(nodes, k);
    WithoutNoDup(nodes, nodes[k]);
    AroundEdges(nodes, k);
  }

  /** From position `k` on the chain of cancelling nodes is as their owners pushed it. */
  ghost predicate CancelChain(chain: seq<Waiter>, k: nat)
    reads chain`waker, chain`nextCancel
  {
    && (forall i {:trigger chain[i].waker} :: k <= i < |chain| ==> chain[i].waker.Cancelling?)
    && (forall i {:trigger chain[i].nextCancel} :: k <= i < |chain| ==> chain[i].nextCancel == NodeAt(chain, i + 1))
  }

  /** The nodes are live: nobody has been given back and `repr` holds them all. */
  ghost predicate Live(nodes: seq<Waiter>, repr: set<Waiter>)
    reads nodes`outcome
  {
    && (forall i :: 0 <= i < |nodes| ==> nodes[i] in repr)
    && (forall i {:trigger nodes[i].outcome} :: 0 <= i < |nodes| ==> nodes[i].outcome.None?)
  }

  lemma {:induction false} LiveWithout(nodes: seq<Waiter>, k: nat, repr: set<Waiter>)
    requires NoDup(nodes) && k < |nodes|
    requires forall i :: 0 <= i < |nodes| && i != k ==> nodes[i] in repr
    requires forall i {:trigger nodes[i].outcome} :: 0 <= i < |nodes| && i != k ==> nodes[i].outcome.None?
    ensures Live(Without(nodes, nodes[k]), repr)
  {
    WithoutAt(nodes, k);
    var r := Without(nodes, nodes[k]);
    forall i | 0 <= i < |r| ensures r[i] in repr && r[i].outcome.None? {
      assert r[i] == nodes[if i < k then i else i + 1];
    }
  }

  /** No wait in the queue is over yet. */
  ghost predicate Waits(nodes: seq<Waiter>)
    reads nodes`waker
  {
    forall i {:trigger nodes[i].waker} :: 0 <= i < |nodes| ==> nodes[i].waker.Pending? || nodes[i].waker.Cancelling?
  }

  datatype AcquireState = Queued(back: Waiter?) | Available(permits: Permits)

  datatype TryResult = Granted | WouldBlock | Poisoned

  /** `WakerResult` */
  datatype CancelResult = Cancelling | Finished(poisoned: bool)

  lemma {:induction false} JoinLive(nodes: seq<Waiter>, stack: seq<Waiter>, repr: set<Waiter>)
    requires Live(nodes, repr) && Live(stack, repr) && Waits(nodes) && Waits(stack)
    ensures Live(nodes + Reverse(stack), repr) && Waits(nodes + Reverse(stack))
    ensures forall x: Waiter :: x in nodes || x in stack ==> x in nodes + Reverse(stack)
  {
    var r := nodes + Reverse(stack);
    forall i | 0 <= i < |r| ensures r[i] in repr && r[i].outcome.None? && (r[i].waker.Pending? || r[i].waker.Cancelling?) {
      JoinedAt(nodes, stack, i);
    }
    forall x: Waiter | x in nodes || x in stack ensures x in r { ReverseMember(stack, x); }
  }

  class Semaphore {
    const max: nat
    var acquire: AcquireState
    var release: P.ReleaseState
    var front: Waiter?
    var middle: Waiter?
    var nextCancel: Waiter?
    /** How many more times a weak compare-exchange may fail for no reason. */
    var patience: nat

    ghost var list: seq<Waiter>
    ghost var stack: seq<Waiter>
    ghost var chain: seq<Waiter>
    ghost var repr: set<Waiter>

    /** `list` is what `front` and `middle` lead to, `stack` what `acquire` does, and `chain` what
        `next_cancel` does. */
    ghost predicate Valid()
      reads this`acquire, this`front, this`middle, this`nextCancel, this`list, this`stack, this`chain, this`repr
      reads repr, list, stack, chain
    {
      && Linked(list, front, middle) && Live(list, repr) && Waits(list)
      && Stacked(stack) && Live(stack, repr) && Waits(stack) && Disjoint(list, stack)
      && (if acquire.Queued? then acquire.back == NodeAt(stack, 0) else list == stack == [])
      && NoDup(chain) && nextCancel == NodeAt(chain, 0) && CancelChain(chain, 0)
      && (forall i :: 0 <= i < |chain| ==> chain[i] in list || chain[i] in stack)
    }

    constructor (max: nat, initial: nat, patience: nat)
      ensures Valid() && this.max == max
      ensures acquire == Available(New(max, initial)) && release == P.Unlocked(Count(0))
      ensures list == stack == chain == []
    {
      this.max := max;
      this.patience := patience;
      acquire, release := Available(New(max, initial)), P.Unlocked(Count(0));
      front, middle, nextCancel := null, null, null;
      list, stack, chain, repr := [], [], [], {};
    }

    /** A weak compare-exchange of a word nobody else writes fails only spuriously. */
    method FailsSpuriously() returns (fails: bool)
      modifies this`patience
      ensures patience <= old(patience)
      ensures fails ==> patience < old(patience)
    {
      fails := *;
      if patience == 0 {
        fails := false;
      }
      if fails {
        patience := patience - 1;
      }
    }

    /** `try_acquire`, when no other thread writes the word meanwhile. */
    method TryAcquire(amount: nat) returns (result: TryResult)
      requires Valid()
      modifies this`acquire, this`patience
      ensures Valid()
      ensures result.Granted? <==> old(acquire).Available? && old(acquire).permits.Count? && amount <= old(acquire).permits.n
      ensures result.Poisoned? <==> old(acquire) == Available(Poison)
      ensures acquire == if result.Granted? then Available(Count(old(acquire).permits.n - amount)) else old(acquire)
    {
      var current := acquire;
      while true
        invariant Valid() && current == acquire == old(acquire)
        decreases patience
      {
        if current.Queued? {
          return WouldBlock;
        }
        if current.permits.Poison? {
          return Poisoned;
        }
        if current.permits.n < amount {
          return WouldBlock;
        }
        var fails := FailsSpuriously();
        if !fails {
          acquire := Available(Count(current.permits.n - amount));
          return Granted;
        }
      }
    }

    /** The compare-exchange that puts a prepared node on the stack. */
    method Publish(w: Waiter)
      requires Valid() && w !in repr && w.waker.Pending? && w.next == null && w.outcome.None?
      requires w.prev == if acquire.Queued? then acquire.back else null
      modifies this`acquire, this`stack, this`repr
      ensures Valid() && acquire == Queued(w)
      ensures stack == [w] + old(stack) && repr == old(repr) + {w}
    {
      hide Linked, CancelChain;
      acquire := Queued(w);
      stack := [w] + stack;
      repr := repr + {w};
    }

    /** The push in `poll_enter`: the node goes on top of the stack and takes the available permits,
        which its caller then has to release. */
    method Push(w: Waiter) returns (available: nat)
      requires Valid() && w !in repr && w.waker.Pending? && w.next == null && w.outcome.None?
      requires acquire.Available? ==> acquire.permits.Count? && acquire.permits.n < w.amount
      modifies this`acquire, this`stack, this`repr, this`patience, w`prev
      ensures Valid() && acquire == Queued(w)
      ensures stack == [w] + old(stack) && list == old(list) && chain == old(chain) && repr == old(repr) + {w}
      ensures available == if old(acquire).Available? then old(acquire).permits.n else 0
    {
      hide Linked, Stacked, CancelChain, Waits;
      var current := acquire;
      while true
        invariant Valid() && current == acquire == old(acquire) && stack == old(stack) && repr == old(repr)
        decreases patience
      {
        available := if current.Available? then current.permits.n else 0;
        w.prev := if current.Queued? then current.back else null;
        var fails := FailsSpuriously();
        if !fails {
          Publish(w);
          return;
        }
      }
    }

    /** The compare-exchange that puts a prepared node on the cancel stack. */
    method PublishCancel(w: Waiter)
      requires Valid() && (w in list || w in stack) && w !in chain && w.waker.Cancelling? && w.nextCancel == nextCancel
      modifies this`nextCancel, this`chain
      ensures Valid() && chain == [w] + old(chain)
    {
      hide Linked, Stacked, Waits, Live;
      nextCancel := w;
      chain := [w] + chain;
    }

    /** The push in `drop`, once `start_cancel` has won. */
    method PushCancel(w: Waiter)
      requires Valid() && (w in list || w in stack) && w !in chain && w.waker.Cancelling?
      modifies this`nextCancel, this`chain, this`patience, w`nextCancel
      ensures Valid()
      ensures chain == [w] + old(chain)
    {
      hide Linked, Stacked, Waits, Live;
      var current := nextCancel;
      while true
        invariant Valid() && current == nextCancel && chain == old(chain)
        decreases patience
      {
        w.nextCancel := current;
        var fails := FailsSpuriously();
        if !fails {
          PublishCancel(w);
          return;
        }
      }
    }

    /** `AtomicWaker::start_cancel` on a waiter that is still in the queue or was finished. */
    method StartCancel(w: Waiter) returns (result: CancelResult)
      requires Valid() && (w.waker.Finished? || (w.waker.Pending? && (w in list || w in stack)))
      modifies w`waker
      ensures result == if old(w.waker).Pending? then Cancelling else Finished(old(w.waker).poisoned)
      ensures Valid() && (result.Cancelling? ==> w !in chain && w.waker.Cancelling?)
      ensures result.Finished? ==> unchanged(w)
    {
      hide Linked, Stacked;
      if w.waker.Finished? {
        return Finished(w.waker.poisoned);
      }
      w.waker := P.Cancelling;
      return Cancelling;
    }

    /** The end of the walk: the oldest node of the stack goes behind the list. */
    method Attach(waiter: Waiter, ghost nodes: seq<Waiter>, ghost stack: seq<Waiter>)
      requires front == NodeAt(nodes, 0) && middle == NodeAt(nodes, |nodes| - 1)
      requires stack != [] && waiter == stack[|stack| - 1]
      requires forall i :: 0 <= i < |nodes| ==> nodes[i] != waiter
      requires forall i :: 0 <= i < |nodes| - 1 ==> nodes[i] != middle
      requires forall i :: 0 <= i < |stack| ==> stack[i] != middle
      requires forall i :: 0 <= i < |stack| - 1 ==> stack[i] != waiter
      requires Edges(nodes)
      requires forall i {:trigger stack[i].prev} :: 0 <= i < |stack| ==> stack[i].prev == NodeAt(stack, i + 1)
      requires forall i {:trigger stack[i].next} :: 0 <= i < |stack| ==> stack[i].next == NodeAt(stack, i - 1)
      modifies this`front, this`middle, nodes`next, stack`prev
      ensures LinkedBehind(nodes, stack)
      ensures front == if nodes == [] then waiter else nodes[0]
    {
      if middle == null {
        front := waiter;
        middle := waiter;
      } else {
        middle.next := waiter;
        waiter.prev := middle;
      }
    }

    /** The walk of `flip` once it has taken the stack: add the `next` edges and append. */
    method LinkStack(back: Waiter, ghost nodes: seq<Waiter>, ghost stack: seq<Waiter>)
      requires Linked(nodes, front, middle) && Stacked(stack) && Disjoint(nodes, stack)
      requires stack != [] && stack[0] == back
      modifies this`front, this`middle, nodes`next, stack`next, stack`prev
      ensures Linked(nodes + Reverse(stack), front, middle)
    {
      var waiter: Waiter? := back;
      ghost var k := 0;
      while waiter != null
        invariant 0 <= k < |stack| && waiter == stack[k]
        invariant Linked(nodes, front, middle)
        invariant forall i {:trigger stack[i].prev} :: 0 <= i < |stack| ==> stack[i].prev == NodeAt(stack, i + 1)
        invariant forall i {:trigger stack[i].next} :: 0 <= i <= k ==> stack[i].next == NodeAt(stack, i - 1)
        decreases |stack| - k
      {
        var prev := waiter.prev;
        if prev == null {
          Attach(waiter, nodes, stack);
          break;
        }
        prev.next := waiter;
        waiter := prev;
        k := k + 1;
      }
      middle := back;
      LinkedBehindIsLinked(nodes, stack, front);
    }

    /** `flip` with waiters on the stack: take it and append it to the list. */
    method TakeStack(back: Waiter)
      requires Valid() && acquire == Queued(back)
      modifies this`acquire, this`front, this`middle, this`list, this`stack, repr`next, repr`prev
      ensures Valid() && acquire == Queued(null)
      ensures stack == [] && list == old(list) + Reverse(old(stack)) && list != []
    {
      hide Linked, Reverse;
      acquire := Queued(null);
      LinkStack(back, list, stack);
      JoinLive(list, stack, repr);
      list := list + Reverse(stack);
      stack := [];
    }

    /** The pointer surgery of `cancel` on one node: only its neighbours' edges change. */
    method Unlink(w: Waiter, ghost nodes: seq<Waiter>, ghost k: nat)
      requires front == NodeAt(nodes, 0) && middle == NodeAt(nodes, |nodes| - 1) && Edges(nodes)
      requires k < |nodes| && nodes[k] == w
      requires forall i :: 0 <= i < |nodes| && i != k - 1 ==> nodes[i] != NodeAt(nodes, k - 1)
      requires forall i :: 0 <= i < |nodes| && i != k + 1 ==> nodes[i] != NodeAt(nodes, k + 1)
      modifies this`front, this`middle, {w.prev}`next, {w.next}`prev
      ensures LinkedAround(nodes, k)
      ensures front == if k == 0 then NodeAt(nodes, 1) else nodes[0]
      ensures middle == if k == |nodes| - 1 then NodeAt(nodes, k - 1) else nodes[|nodes| - 1]
    {
      var next := w.next;
      var prev := w.prev;
      if prev == null {
        front := next;
      } else {
        prev.next := next;
      }
      if next == null {
        middle := prev;
      } else {
        next.prev := prev;
      }
    }

    /** `cancel` for one node; its `next_cancel` edge is read before the node is given back. */
    method CancelOne(w: Waiter, ghost nodes: seq<Waiter>, ghost repr: set<Waiter>) returns (nextCancel: Waiter?)
      requires Linked(nodes, front, middle) && w in nodes && w.waker.Cancelling? && Live(nodes, repr)
      modifies this`front, this`middle, {w.prev}`next, {w.next}`prev, w
      ensures nextCancel == old(w.nextCancel)
      ensures Linked(Without(nodes, w), front, middle) && Live(Without(nodes, w), repr)
      ensures w.outcome == Some(P.Cancelled) && w.Untouched()
    {
      ghost var k :| 0 <= k < |nodes| && nodes[k] == w;
      Unlink(w, nodes, k);
      nextCancel := w.nextCancel;
      w.AcceptCancel();
      LinkedAroundIsLinked(nodes, k);
      LiveWithout(nodes, k, repr);
    }

    /** `next_cancel.swap(null)` */
    method SwapCancels() returns (first: Waiter?, ghost taken: seq<Waiter>)
      requires Valid()
      modifies this`nextCancel, this`chain
      ensures Valid() && chain == []
      ensures taken == old(chain) && first == NodeAt(taken, 0) && NoDup(taken) && CancelChain(taken, 0)
      ensures forall i :: 0 <= i < |taken| ==> (taken[i] in list || taken[i] in stack) && taken[i] in repr
    {
      first := nextCancel;
      taken := chain;
      nextCancel := null;
      chain := [];
    }

    /** The state of `cancel` after `k` nodes of the chain: they are out of the list and given back. */
    ghost predicate Cancelled(nodes: seq<Waiter>, chain: seq<Waiter>, k: nat, repr: set<Waiter>)
      requires k <= |chain|
      reads this, repr, chain, WithoutAll(nodes, chain[..k])
    {
      var list := WithoutAll(nodes, chain[..k]);
      && Linked(list, front, middle) && Live(list, repr)
      && CancelChain(chain, k)
      && (forall i :: 0 <= i < k ==> chain[i].outcome == Some(P.Cancelled) && chain[i].Untouched())
    }

    /** One iteration of `cancel`. */
    method CancelNext(w: Waiter, ghost nodes: seq<Waiter>, ghost chain: seq<Waiter>, ghost k: nat, ghost repr: set<Waiter>)
      returns (nextCancel: Waiter?)
      requires NoDup(nodes) && NoDup(chain) && k < |chain| && chain[k] == w && w in nodes
      requires Cancelled(nodes, chain, k, repr)
      modifies this`front, this`middle, repr
      ensures Cancelled(nodes, chain, k + 1, repr) && nextCancel == NodeAt(chain, k + 1)
      ensures forall x :: x in repr && x.outcome.None? ==> old(x.outcome).None? && x.waker == old(x.waker)
    {
      ghost var list := WithoutAll(nodes, chain[..k]);
      WithoutAllNext(nodes, chain, k);
      ghost var j :| 0 <= j < |list| && list[j] == w;
      assert w.prev == NodeAt(list, j - 1) && w.next == NodeAt(list, j + 1);
      nextCancel := CancelOne(w, list, repr);
    }

    /** `ReleaseAction::cancel`: unlink the chain of cancelling nodes and give each back. */
    method Cancel(first: Waiter?, ghost nodes: seq<Waiter>, ghost chain: seq<Waiter>, ghost repr: set<Waiter>)
      requires Linked(nodes, front, middle) && Live(nodes, repr)
      requires NoDup(chain) && first == NodeAt(chain, 0) && CancelChain(chain, 0)
      requires forall i :: 0 <= i < |chain| ==> chain[i] in nodes
      modifies this`front, this`middle, repr
      ensures Linked(WithoutAll(nodes, chain), front, middle) && Live(WithoutAll(nodes, chain), repr)
      ensures forall i :: 0 <= i < |chain| ==> chain[i].outcome == Some(P.Cancelled) && chain[i].Untouched()
      ensures forall x :: x in repr && x.outcome.None? ==> old(x.outcome).None? && x.waker == old(x.waker)
    {
      var nextCancel: Waiter? := first;
      ghost var k := 0;
      assert chain[..0] == [];
      while nextCancel != null
        invariant 0 <= k <= |chain| && nextCancel == NodeAt(chain, k)
        invariant Cancelled(nodes, chain, k, repr)
        invariant forall x :: x in repr && x.outcome.None? ==> old(x.outcome).None? && x.waker == old(x.waker)
        decreases |chain| - k
      {
        nextCancel := CancelNext(nextCancel, nodes, chain, k, repr);
        k := k + 1;
      }
      assert chain[..k] == chain;
    }
  }

  // ----- Finishing waiters in order -----

  /** What each waiter in a queue asks for, and whether it is cancelling. */
  function Requests(nodes: seq<Waiter>): (r: seq<(nat, bool)>)
    reads nodes`waker
    ensures |r| == |nodes|
    ensures forall i :: 0 <= i < |nodes| ==> r[i] == (nodes[i].amount, nodes[i].waker.Cancelling?)
  {
    if nodes == [] then [] else [(nodes[0].amount, nodes[0].waker.Cancelling?)] + Requests(nodes[1..])
  }

  predicate Fits(request: (nat, bool), r: Permits) {
    !request.1 && (r.Count? ==> request.0 <= r.n)
  }

  function Less(r: Permits, amount: nat): Permits
    requires r.Count? ==> amount <= r.n
  {
    if r.Count? then Count(r.n - amount) else Poison
  }

  /** How many of the requests are served, first come first served, and the permits left over. */
  function Serve(requests: seq<(nat, bool)>, r: Permits): (nat, Permits) {
    if requests == [] || !Fits(requests[0], r) then (0, r)
    else
      var (k, left) := Serve(requests[1..], Less(r, requests[0].0));
      (k + 1, left)
  }

  function Total(requests: seq<(nat, bool)>): nat {
    if requests == [] then 0 else requests[0].0 + Total(requests[1..])
  }

  /** Serving stops only at a request that is cancelling or asks for more than is left, and it
      spends exactly what the served requests asked for. */
  lemma {:induction false} ServeIsGreedy(requests: seq<(nat, bool)>, r: Permits)
    ensures var (k, left) := Serve(requests, r);
            && k <= |requests|
            && (k < |requests| ==> !Fits(requests[k], left))
            && (r.Count? ==> left.Count? && left.n + Total(requests[..k]) == r.n)
            && (r.Poison? ==> left.Poison?)
            && (forall i :: 0 <= i < k ==> !requests[i].1)
  {
    if requests != [] && Fits(requests[0], r) {
      ServeIsGreedy(requests[1..], Less(r, requests[0].0));
      var (k, left) := Serve(requests, r);
      assert requests[..k][1..] == requests[1..][..k - 1];
    }
  }

  /** The queue `q` was served with `r` permits: the front waiters that this reaches were given back,
      finished or failed, the others are `rest`, and `left` permits are left. */
  ghost predicate Reached(q: seq<Waiter>, requests: seq<(nat, bool)>, r: Permits, rest: seq<Waiter>, left: Permits)
    reads q
  {
    var (k, remaining) := Serve(requests, r);
    && left == remaining && k <= |q| && rest == q[k..]
    && (forall i :: 0 <= i < k ==> q[i].outcome == Some(P.Finished(r.Poison?)) && q[i].Untouched())
  }

  /** The same, and the semaphore is left with the others in its list and the lock free. */
  ghost predicate Served(sem: Semaphore, q: seq<Waiter>, requests: seq<(nat, bool)>, r: Permits)
    reads sem, q
  {
    && sem.acquire == Queued(null) && sem.stack == sem.chain == []
    && sem.release.Unlocked? && Reached(q, requests, r, sem.list, sem.release.permits)
  }

  /** Every cancellation of the chain was accepted. */
  ghost predicate Accepted(chain: seq<Waiter>)
    reads chain
  {
    forall i :: 0 <= i < |chain| ==> chain[i].outcome == Some(P.Cancelled) && chain[i].Untouched()
  }

  /** All waiters in order, and the ones that stay once the announced cancellations are gone. */
  ghost function Queue(sem: Semaphore): seq<Waiter>
    reads sem`list, sem`stack
  {
    sem.list + Reverse(sem.stack)
  }

  ghost function Staying(sem: Semaphore): seq<Waiter>
    reads sem`list, sem`stack, sem`chain
  {
    WithoutAll(Queue(sem), sem.chain)
  }

  lemma {:induction false} RestWaits(nodes: seq<Waiter>, gone: seq<Waiter>)
    requires NoDup(nodes) && Waits(nodes)
    ensures Waits(WithoutAll(nodes, gone))
    ensures nodes == [] ==> WithoutAll(nodes, gone) == []
  {
    var rest := WithoutAll(nodes, gone);
    WithoutAllKeepsOrder(nodes, gone);
    forall i | 0 <= i < |rest| ensures rest[i].waker.Pending? || rest[i].waker.Cancelling? {
      RemainingMember(nodes, gone, rest[i]);
    }
  }

  /** One call of `ReleaseAction::release`, with the permits it carries. */
  class ReleaseAction {
    const sem: Semaphore
    var releasable: Permits

    constructor (sem: Semaphore, releasable: Permits)
      ensures this.sem == sem && this.releasable == releasable
    {
      this.sem := sem;
      this.releasable := releasable;
    }

    /** `try_pop`: finish the front waiter if it fits. Everything that is needed of the node is read
        before it is given back. */
    method TryPop(ghost nodes: seq<Waiter>, ghost repr: set<Waiter>) returns (popped: bool)
      requires Linked(nodes, sem.front, sem.middle) && Live(nodes, repr) && nodes != []
      requires nodes[0].waker.Pending? || nodes[0].waker.Cancelling?
      modifies this, sem`front, sem`middle, repr
      ensures popped <==> Fits((nodes[0].amount, old(nodes[0].waker.Cancelling?)), old(releasable))
      ensures !popped ==> releasable == old(releasable) && unchanged(sem) && forall x :: x in repr ==> unchanged(x)
      ensures popped ==> releasable == Less(old(releasable), nodes[0].amount)
      ensures popped ==> Linked(nodes[1..], sem.front, sem.middle) && Live(nodes[1..], repr)
      ensures popped ==> nodes[0].outcome == Some(P.Finished(old(releasable).Poison?)) && nodes[0].Untouched()
      ensures forall x :: x in repr && x != nodes[0] ==> x.outcome == old(x.outcome) && x.waker == old(x.waker)
                                                         && (x.outcome.Some? ==> unchanged(x))
    {
      var front: Waiter := sem.front;
      var amount := front.amount;
      var next := front.next;
      if releasable.Count? && releasable.n < amount {
        return false;
      }
      var finished := front.Finish(releasable.Poison?);
      if !finished {
        return false;
      }
      if releasable.Count? {
        releasable := Count(releasable.n - amount);
      }
      sem.front := next;
      if next == null {
        sem.middle := null;
      } else {
        next.prev := null;
      }
      return true;
    }

    /** The state of the pop loop after `k` nodes were finished; `requests` and `r0` are what the
        nodes asked for and what the action held when the loop began. */
    ghost predicate Popped(nodes: seq<Waiter>, requests: seq<(nat, bool)>, r0: Permits, k: nat, repr: set<Waiter>)
      reads this, sem, nodes, repr
    {
      && k <= |nodes| == |requests|
      && Linked(nodes[k..], sem.front, sem.middle) && Live(nodes[k..], repr) && Waits(nodes[k..])
      && (forall i {:trigger nodes[i].waker} :: k <= i < |nodes| ==> requests[i] == (nodes[i].amount, nodes[i].waker.Cancelling?))
      && (forall i :: 0 <= i < k ==> nodes[i].outcome == Some(P.Finished(r0.Poison?)) && nodes[i].Untouched())
      && (releasable.Poison? <==> r0.Poison?)
      && Serve(requests, r0) == (var (j, left) := Serve(requests[k..], releasable); (j + k, left))
    }

    /** One iteration of the pop loop. */
    method PopNext(ghost nodes: seq<Waiter>, ghost requests: seq<(nat, bool)>, ghost r0: Permits, ghost k: nat, ghost repr: set<Waiter>)
      returns (popped: bool)
      requires Popped(nodes, requests, r0, k, repr) && k < |nodes|
      modifies this, sem`front, sem`middle, repr
      ensures popped ==> Popped(nodes, requests, r0, k + 1, repr)
      ensures !popped ==> Popped(nodes, requests, r0, k, repr) && !Fits(requests[k], releasable)
      ensures forall x :: x in repr && old(x.outcome).Some? ==> unchanged(x)
    {
      assert nodes[k..][0] == nodes[k] && nodes[k..][1..] == nodes[k + 1..];
      assert requests[k..][0] == requests[k] && requests[k..][1..] == requests[k + 1..];
      assert nodes[k].waker == nodes[k..][0].waker;
      popped := TryPop(nodes[k..], repr);
    }

    /** The pop loop of `release`: finish nodes until stuck. */
    method FinishUntilStuck(ghost nodes: seq<Waiter>, ghost repr: set<Waiter>)
      requires Linked(nodes, sem.front, sem.middle) && Live(nodes, repr) && Waits(nodes)
      modifies this, sem`front, sem`middle, repr
      ensures var (k, left) := Serve(old(Requests(nodes)), old(releasable));
              && k <= |nodes| && releasable == left
              && Linked(nodes[k..], sem.front, sem.middle) && Live(nodes[k..], repr) && Waits(nodes[k..])
              && (forall i :: 0 <= i < k ==> nodes[i].outcome == Some(P.Finished(old(releasable).Poison?)) && nodes[i].Untouched())
      ensures forall x :: x in repr && old(x.outcome).Some? ==> unchanged(x)
    {
      hide Live, Waits, Requests;
      ghost var requests := Requests(nodes);
      ghost var k := 0;
      var more := true;
      assert nodes[0..] == nodes && requests[0..] == requests;
      while sem.front != null && more
        invariant Popped(nodes, requests, old(releasable), k, repr)
        invariant !more ==> k < |nodes| && !Fits(requests[k], releasable)
        invariant forall x :: x in repr && old(x.outcome).Some? ==> unchanged(x)
        decreases |nodes| - k, more
      {
        more := PopNext(nodes, requests, old(releasable), k, repr);
        if more {
          k := k + 1;
        }
      }
    }

    /** `lock_or_else_defer`, when no other thread writes the word meanwhile. */
    method LockOrElseDefer() returns (locked: bool)
      modifies this, sem`release, sem`patience
      ensures locked <==> old(sem.release).Unlocked?
      ensures locked ==> sem.release.Locked? && releasable == Plus(sem.max, old(releasable), old(sem.release).permits)
      ensures !locked ==> releasable == old(releasable)
      ensures old(sem.release).Locked? ==> sem.release == P.LockedDirty(old(releasable))
      ensures old(sem.release).LockedDirty? ==>
                sem.release == P.LockedDirty(Plus(sem.max, old(sem.release).permits, old(releasable)))
    {
      var current := sem.release;
      while true
        invariant current == sem.release == old(sem.release) && releasable == old(releasable)
        decreases sem.patience
      {
        var fails := sem.FailsSpuriously();
        if !fails {
          match current
          case Unlocked(available) =>
            sem.release := P.Locked;
            releasable := Plus(sem.max, releasable, available);
            return true;
          case Locked =>
            sem.release := P.LockedDirty(releasable);
            return false;
          case LockedDirty(available) =>
            sem.release := P.LockedDirty(Plus(sem.max, available, releasable));
            return false;
        }
      }
    }

    /** `try_unlock`, when no other thread writes the word meanwhile. */
    method TryUnlock() returns (unlocked: bool)
      requires !sem.release.Unlocked?
      modifies this, sem`release, sem`patience
      ensures unlocked <==> old(sem.release).Locked?
      ensures unlocked ==> sem.release == P.Unlocked(releasable) && releasable == old(releasable)
      ensures !unlocked ==> sem.release.Locked? && releasable == Plus(sem.max, old(releasable), old(sem.release).permits)
    {
      var current := sem.release;
      while true
        invariant current == sem.release == old(sem.release) && releasable == old(releasable)
        decreases sem.patience
      {
        var fails := sem.FailsSpuriously();
        if !fails {
          if current.LockedDirty? {
            sem.release := P.Locked;
            releasable := Plus(sem.max, releasable, current.permits);
            return false;
          } else {
            sem.release := P.Unlocked(releasable);
            return true;
          }
        }
      }
    }

    /** `flip`: make the permits available if nobody waits, otherwise take the stack over. */
    method Flip()
      requires sem.Valid()
      modifies this, sem`acquire, sem`front, sem`middle, sem`list, sem`stack, sem`patience, sem.repr`next, sem.repr`prev
      ensures sem.Valid() && sem.stack == []
      ensures sem.list == old(sem.list) + Reverse(old(sem.stack))
      ensures if sem.list == [] then
                && sem.acquire == Available(if old(sem.acquire).Queued? then old(releasable)
                                            else Plus(sem.max, old(sem.acquire).permits, old(releasable)))
                && releasable == Count(0)
              else sem.acquire == Queued(null) && releasable == old(releasable)
    {
      var current := sem.acquire;
      while true
        invariant sem.Valid() && current == sem.acquire == old(sem.acquire) && releasable == old(releasable)
        invariant sem.list == old(sem.list) && sem.stack == old(sem.stack)
        decreases sem.patience
      {
        var fails := sem.FailsSpuriously();
        if current.Queued? && current.back == null && sem.front == null {
          if !fails {
            sem.acquire := Available(releasable);
            releasable := Count(0);
            break;
          }
        } else if current.Available? {
          if !fails {
            sem.acquire := Available(Plus(sem.max, current.permits, releasable));
            assert sem.front == null;
            releasable := Count(0);
            break;
          }
        } else if current.back == null {
          break;
        } else if !fails {
          sem.TakeStack(current.back);
          break;
        }
      }
    }

    /** `cancel` on the owner's list. */
    method CancelTaken(first: Waiter?, ghost taken: seq<Waiter>)
      requires sem.Valid() && sem.chain == [] && sem.stack == []
      requires NoDup(taken) && first == NodeAt(taken, 0) && CancelChain(taken, 0)
      requires forall i :: 0 <= i < |taken| ==> taken[i] in sem.list
      modifies sem`front, sem`middle, sem`list, sem.repr
      ensures sem.Valid() && sem.list == WithoutAll(old(sem.list), taken)
      ensures old(sem.list) == [] ==> sem.list == []
      ensures Requests(sem.list) == old(Requests(WithoutAll(sem.list, taken)))
      ensures forall i :: 0 <= i < |taken| ==> taken[i].outcome == Some(P.Cancelled) && taken[i].Untouched()
    {
      hide WithoutAll, Requests, Remaining;
      ghost var rest := WithoutAll(sem.list, taken);
      ghost var requests := Requests(rest);
      RestWaits(sem.list, taken);
      sem.Cancel(first, sem.list, taken, sem.repr);
      sem.list := rest;
      forall i | 0 <= i < |rest| ensures rest[i].waker == old(rest[i].waker) {
        assert rest[i] in sem.repr && rest[i].outcome.None?;
      }
      assert Requests(rest) == requests;
    }

    /** The pop loop on the owner's list; nodes given back before stay as they are. */
    method PopAll(ghost taken: seq<Waiter>)
      requires sem.Valid() && sem.chain == [] && sem.stack == []
      requires Accepted(taken) && forall i :: 0 <= i < |taken| ==> taken[i] in sem.repr
      modifies this, sem`front, sem`middle, sem`list, sem.repr
      ensures sem.Valid() && Accepted(taken)
      ensures Reached(old(sem.list), old(Requests(sem.list)), old(releasable), sem.list, releasable)
      ensures old(sem.list) == [] ==> sem.list == [] && releasable == old(releasable)
    {
      ghost var k := Serve(Requests(sem.list), releasable).0;
      FinishUntilStuck(sem.list, sem.repr);
      sem.list := sem.list[k..];
    }

    /** The first half of a round: swap the cancel stack out, flip, and unlink what was swapped. The
        order makes sure that every cancelled node has its edges by then. */
    method TakeOver()
      requires sem.Valid()
      modifies this, sem`acquire, sem`front, sem`middle, sem`nextCancel, sem`list, sem`stack, sem`chain, sem`patience, sem.repr
      ensures sem.Valid() && sem.stack == [] && sem.chain == []
      ensures sem.list == old(Staying(sem)) && Requests(sem.list) == old(Requests(Staying(sem)))
      ensures old(Queue(sem)) == [] ==>
                && releasable == Count(0) && sem.list == []
                && sem.acquire == Available(if old(sem.acquire).Queued? then old(releasable)
                                            else Plus(sem.max, old(sem.acquire).permits, old(releasable)))
      ensures old(Queue(sem)) != [] ==> sem.acquire == Queued(null) && releasable == old(releasable)
      ensures Accepted(old(sem.chain)) && forall i :: 0 <= i < |old(sem.chain)| ==> old(sem.chain)[i] in sem.repr
    {
      hide Semaphore.Valid, CancelChain, WithoutAll, Reverse, Requests;
      var first, taken := sem.SwapCancels();
      Flip();
      forall i | 0 <= i < |taken| ensures taken[i] in sem.list {
        ReverseMember(old(sem.stack), taken[i]);
      }
      assert WithoutAll(sem.list, taken) == old(Staying(sem));
      assert Requests(WithoutAll(sem.list, taken)) == old(Requests(Staying(sem)));
      CancelTaken(first, taken);
    }

    /** The second half: finish nodes until stuck, then unlock. */
    method FinishAndUnlock(ghost taken: seq<Waiter>) returns (unlocked: bool)
      requires sem.Valid() && sem.chain == [] && sem.stack == [] && sem.release.Locked?
      requires Accepted(taken) && forall i :: 0 <= i < |taken| ==> taken[i] in sem.repr
      modifies this, sem`release, sem`front, sem`middle, sem`list, sem`patience, sem.repr
      ensures unlocked && sem.Valid() && Accepted(taken)
      ensures old(sem.list) == [] ==> sem.list == [] && sem.release == P.Unlocked(old(releasable))
      ensures sem.acquire == Queued(null) ==> Served(sem, old(sem.list), old(Requests(sem.list)), old(releasable))
    {
      hide Semaphore.Valid, Requests, Reached, Accepted;
      PopAll(taken);
      unlocked := TryUnlock();
    }

    /** `release`, when no other thread takes part: one round, and the lock is free again. The permits
        go to the waiters that stay, first come first served, and what is left is kept for the next
        one; only with nobody in the queue they become available. Under somebody else's lock they
        are deferred and nothing else happens. */
    method Release()
      requires sem.Valid()
      modifies this, sem, sem.repr
      ensures sem.Valid()
      ensures !old(sem.release).Unlocked? ==>
                && sem.list == old(sem.list) && sem.stack == old(sem.stack) && sem.chain == old(sem.chain)
                && sem.acquire == old(sem.acquire)
                && sem.release == P.LockedDirty(if old(sem.release).Locked? then old(releasable)
                                                else Plus(sem.max, old(sem.release).permits, old(releasable)))
      ensures old(sem.release).Unlocked? && old(Queue(sem)) == [] ==>
                var r := Plus(sem.max, old(releasable), old(sem.release).permits);
                && sem.release == P.Unlocked(Count(0)) && sem.list == sem.stack == sem.chain == []
                && sem.acquire == Available(if old(sem.acquire).Queued? then r else Plus(sem.max, old(sem.acquire).permits, r))
      ensures old(sem.release).Unlocked? && old(Queue(sem)) != [] ==>
                Served(sem, old(Staying(sem)), old(Requests(Staying(sem))), Plus(sem.max, old(releasable), old(sem.release).permits))
      ensures old(sem.release).Unlocked? ==> Accepted(old(sem.chain))
    {
      hide *;
      var locked := LockOrElseDefer();
      if !locked {
        return;
      }
      assert Requests(Staying(sem)) == old(Requests(Staying(sem)));
      ghost var taken := sem.chain;
      TakeOver();
      var unlocked := FinishAndUnlock(taken);
    }
  }

  datatype PollResult = Acquired | PoisonError | Waiting

  /** The permits that `poll_enter` takes over when it starts the queue. */
  function Unclaimed(a: AcquireState): nat {
    if a.Available? && a.permits.Count? then a.permits.n else 0
  }

  /** The queue once `w` is behind it and the announced cancellations are gone. */
  ghost function Joined(sem: Semaphore, w: Waiter): seq<Waiter>
    reads sem`list, sem`stack, sem`chain
  {
    WithoutAll(Queue(sem) + [w], sem.chain)
  }

  lemma UnclaimedIs(a: AcquireState)
    requires a.Available? ==> a.permits.Count?
    ensures Unclaimed(a) == if a.Available? then a.permits.n else 0
  {
  }

  lemma JoinedIs(sem: Semaphore, w: Waiter)
    ensures Joined(sem, w) == WithoutAll(sem.list + Reverse(sem.stack) + [w], sem.chain)
  {
  }

  lemma StayingIs(sem: Semaphore)
    ensures Staying(sem) == WithoutAll(sem.list + Reverse(sem.stack), sem.chain)
  {
  }

  lemma PushJoins(list: seq<Waiter>, stack: seq<Waiter>, chain: seq<Waiter>, w: Waiter)
    ensures WithoutAll(list + Reverse([w] + stack), chain) == WithoutAll(list + Reverse(stack) + [w], chain)
  {
    assert ([w] + stack)[1..] == stack;
    assert list + (Reverse(stack) + [w]) == list + Reverse(stack) + [w];
  }

  lemma QueueNotEmpty(sem: Semaphore)
    requires sem.stack != []
    ensures Queue(sem) != []
  {
  }

  /** `poll_enter`, when no other thread takes part. The future waits behind everybody else unless it
      can have its permits at once. The release it makes then takes over the available permits and
      goes through the queue; under somebody else's lock it only marks the lock. */
  method PollEnter(sem: Semaphore, w: Waiter) returns (result: PollResult)
    requires sem.Valid() && w !in sem.repr && w.waker.Pending? && w.next == null && w.outcome.None?
    modifies sem, sem.repr, w
    ensures sem.Valid()
    ensures result.PoisonError? <==> old(sem.acquire) == Available(Poison)
    ensures result.Acquired? <==> old(sem.acquire).Available? && old(sem.acquire).permits.Count?
                                  && w.amount <= old(sem.acquire).permits.n
    ensures !result.Waiting? ==>
              && sem.list == old(sem.list) && sem.stack == old(sem.stack) && sem.chain == old(sem.chain)
              && sem.release == old(sem.release)
              && sem.acquire == if result.Acquired? then Available(Count(old(sem.acquire).permits.n - w.amount)) else old(sem.acquire)
    ensures result.Waiting? && !old(sem.release).Unlocked? ==>
              var r := New(sem.max, Unclaimed(old(sem.acquire)));
              && sem.acquire == Queued(w) && sem.list == old(sem.list) && sem.stack == [w] + old(sem.stack)
              && sem.chain == old(sem.chain)
              && sem.release == P.LockedDirty(if old(sem.release).Locked? then r else Plus(sem.max, old(sem.release).permits, r))
    ensures result.Waiting? && old(sem.release).Unlocked? ==>
              && Served(sem, old(Joined(sem, w)), old(Requests(Joined(sem, w))),
                        Plus(sem.max, New(sem.max, Unclaimed(old(sem.acquire))), old(sem.release).permits))
              && Accepted(old(sem.chain))
  {
    hide *;
    if sem.acquire == Available(Poison) {
      return PoisonError;
    }
    var attempt := sem.TryAcquire(w.amount);
    if attempt.Granted? {
      return Acquired;
    }
    ghost var joined := Joined(sem, w);
    ghost var list, stack, chain := sem.list, sem.stack, sem.chain;
    JoinedIs(sem, w);
    UnclaimedIs(sem.acquire);
    var available := sem.Push(w);
    StayingIs(sem);
    QueueNotEmpty(sem);
    PushJoins(list, stack, chain, w);
    assert Staying(sem) == joined;
    assert Requests(joined) == old(Requests(joined));
    var action := new ReleaseAction(sem, New(sem.max, available));
    action.Release();
    return Waiting;
  }

  /** The queue once `w` and the announced cancellations are gone. */
  ghost function Left(sem: Semaphore, w: Waiter): seq<Waiter>
    reads sem`list, sem`stack, sem`chain
  {
    WithoutAll(Queue(sem), [w] + sem.chain)
  }

  lemma LeftIs(sem: Semaphore, w: Waiter)
    ensures Left(sem, w) == WithoutAll(sem.list + Reverse(sem.stack), [w] + sem.chain)
  {
  }

  lemma LeavesAlone(sem: Semaphore, w: Waiter)
    requires sem.Valid()
    ensures w !in Left(sem, w)
  {
    var gone := [w] + sem.chain;
    ReverseNoDup(sem.stack);
    forall x | x in sem.list ensures x !in Reverse(sem.stack) { ReverseMember(sem.stack, x); }
    ConcatNoDup(sem.list, Reverse(sem.stack));
    WithoutAllKeepsOrder(Queue(sem), gone);
    RemainingMember(Queue(sem), gone, w);
    assert gone[0] == w;
  }

  lemma InQueue(sem: Semaphore, w: Waiter)
    requires w in sem.list || w in sem.stack
    ensures Queue(sem) != []
  {
  }

  lemma NotInList(sem: Semaphore, w: Waiter)
    requires sem.Valid() && w.outcome.Some?
    ensures w !in sem.list
  {
  }

  lemma AcceptedParts(a: seq<Waiter>, b: seq<Waiter>)
    requires Accepted(a + b)
    ensures Accepted(a) && Accepted(b)
    ensures a != [] ==> a[0].outcome == Some(P.Cancelled) && a[0].Untouched()
  {
    assert forall i :: 0 <= i < |a| ==> (a + b)[i] == a[i];
    assert forall i :: 0 <= i < |b| ==> (a + b)[|a| + i] == b[i];
  }

  /** The first half of `drop`: the cancellation wins and is announced. */
  method Announce(sem: Semaphore, w: Waiter)
    requires sem.Valid() && (w in sem.list || w in sem.stack) && w.waker.Pending?
    modifies sem`nextCancel, sem`chain, sem`patience, w`waker, w`nextCancel
    ensures sem.Valid() && sem.chain == [w] + old(sem.chain)
    ensures Staying(sem) == old(Left(sem, w)) && w !in Staying(sem)
    ensures Requests(Staying(sem)) == old(Requests(Left(sem, w))) && Queue(sem) != []
  {
    LeavesAlone(sem, w);
    InQueue(sem, w);
    hide *;
    ghost var rest := Left(sem, w);
    LeftIs(sem, w);
    var _ := sem.StartCancel(w);
    assert Requests(rest) == old(Requests(rest));
    sem.PushCancel(w);
    StayingIs(sem);
    assert Staying(sem) == rest;
  }

  /** `drop` of a waiting future when `start_cancel` wins and no other thread takes part. If the lock is
      free, the node is out of the queue when it is over, nobody writes it any more, and the wait has
      been accepted; the others keep their order, and its release serves those that were stuck behind
      it. Under somebody else's lock the cancellation is announced and the lock marked, and the drop
      has to wait for that thread. */
  method DropWaiting(sem: Semaphore, w: Waiter) returns (accepted: bool)
    requires sem.Valid() && (w in sem.list || w in sem.stack) && w.waker.Pending?
    modifies sem, sem.repr, w
    ensures sem.Valid() && (accepted <==> old(sem.release).Unlocked?)
    ensures accepted ==>
              && w !in sem.list && w.outcome == Some(P.Cancelled) && w.Untouched()
              && Served(sem, old(Left(sem, w)), old(Requests(Left(sem, w))), Plus(sem.max, Count(0), old(sem.release).permits))
              && Accepted(old(sem.chain))
    ensures !accepted ==>
              && sem.list == old(sem.list) && sem.stack == old(sem.stack) && sem.acquire == old(sem.acquire)
              && sem.chain == [w] + old(sem.chain)
              && sem.release == P.LockedDirty(if old(sem.release).Locked? then Count(0)
                                              else Plus(sem.max, old(sem.release).permits, Count(0)))
  {
    hide *;
    ghost var chain := sem.chain;
    accepted := sem.release.Unlocked?;
    Announce(sem, w);
    var action := new ReleaseAction(sem, Count(0));
    assert Requests(Staying(sem)) == old(Requests(Left(sem, w)));
    action.Release();
    if accepted {
      AcceptedParts([w], chain);
      NotInList(sem, w);
    }
  }

  /** `drop` of a waiting future that was finished before: its permits are released, unless it failed. */
  method DropFinished(sem: Semaphore, w: Waiter)
    requires sem.Valid() && w.waker.Finished?
    modifies sem, sem.repr, w`waker
    ensures sem.Valid()
    ensures old(w.waker).poisoned ==>
              && sem.list == old(sem.list) && sem.stack == old(sem.stack) && sem.chain == old(sem.chain)
              && sem.acquire == old(sem.acquire) && sem.release == old(sem.release)
    ensures !old(w.waker).poisoned && !old(sem.release).Unlocked? ==>
              var r := New(sem.max, w.amount);
              && sem.list == old(sem.list) && sem.stack == old(sem.stack) && sem.chain == old(sem.chain)
              && sem.acquire == old(sem.acquire)
              && sem.release == P.LockedDirty(if old(sem.release).Locked? then r else Plus(sem.max, old(sem.release).permits, r))
    ensures !old(w.waker).poisoned && old(sem.release).Unlocked? ==>
              var r := Plus(sem.max, New(sem.max, w.amount), old(sem.release).permits);
              && Accepted(old(sem.chain))
              && if old(Queue(sem)) == [] then
                   && sem.release == P.Unlocked(Count(0)) && sem.list == sem.stack == sem.chain == []
                   && sem.acquire == Available(if old(sem.acquire).Queued? then r else Plus(sem.max, old(sem.acquire).permits, r))
                 else Served(sem, old(Staying(sem)), old(Requests(Staying(sem))), r)
  {
    hide *;
    var result := sem.StartCancel(w);
    if !result.poisoned {
      assert Requests(Staying(sem)) == old(Requests(Staying(sem)));
      var action := new ReleaseAction(sem, New(sem.max, w.amount));
      assert Requests(Staying(sem)) == old(Requests(Staying(sem)));
      action.Release();
    }
  }
}
