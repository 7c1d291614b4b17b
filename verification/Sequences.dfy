/** Finite sequences without repetitions, as used for the acquire queue and the cancel stack. */
module Sequences {

  datatype Option<+T> = None | Some(value: T)

  ghost predicate NoDup<T>(s: seq<T>) {
    forall i, j :: 0 <= i < j < |s| ==> s[i] != s[j]
  }

  function Reverse<T>(s: seq<T>): (r: seq<T>)
    ensures |r| == |s|
  {
    if s == [] then [] else Reverse(s[1..]) + [s[0]]
  }

  /** `s` without the (first) occurrence of `x`. */
  function Without<T(==)>(s: seq<T>, x: T): seq<T> {
    if s == [] then [] else if s[0] == x then s[1..] else [s[0]] + Without(s[1..], x)
  }

  lemma {:induction false} ReverseAt<T>(s: seq<T>, k: nat)
    requires k < |s|
    ensures Reverse(s)[k] == s[|s| - 1 - k]
  {
    if k < |s| - 1 { ReverseAt(s[1..], k); }
  }

  lemma {:induction false} ReverseMember<T>(s: seq<T>, x: T)
    ensures x in Reverse(s) <==> x in s
  {
    if s != [] {
      ReverseMember(s[1..], x);
      assert s == [s[0]] + s[1..];
    }
  }

  lemma ReverseNoDup<T>(s: seq<T>)
    requires NoDup(s)
    ensures NoDup(Reverse(s))
  {
    forall i, j | 0 <= i < j < |s| ensures Reverse(s)[i] != Reverse(s)[j] {
      ReverseAt(s, i);
      ReverseAt(s, j);
    }
  }

  lemma ConcatNoDup<T>(a: seq<T>, b: seq<T>)
    requires NoDup(a) && NoDup(b)
    requires forall x :: x in a ==> x !in b
    ensures NoDup(a + b)
  {
    forall i, j | 0 <= i < j < |a + b| ensures (a + b)[i] != (a + b)[j] {
      if i < |a| <= j {
        assert a[i] in a && b[j - |a|] in b;
      }
    }
  }

  lemma TailMember<T>(s: seq<T>, x: T)
    requires NoDup(s) && s != []
    ensures NoDup(s[1..])
    ensures x in s[1..] <==> x in s && x != s[0]
  {
    assert s == [s[0]] + s[1..];
    assert forall i :: 0 <= i < |s[1..]| ==> s[1..][i] == s[i + 1];
  }

  lemma {:induction false} WithoutAt<T>(s: seq<T>, i: nat)
    requires NoDup(s) && i < |s|
    ensures Without(s, s[i]) == s[..i] + s[i + 1..]
  {
    if i > 0 {
      assert s[1..][i - 1] == s[i];
      WithoutAt(s[1..], i - 1);
      assert s[1..][..i - 1] == s[1..i];
      assert s[1..][i..] == s[i + 1..];
      assert [s[0]] + s[1..i] == s[..i];
    }
  }

  lemma WithoutKeeps<T>(s: seq<T>, k: nat, i: nat)
    requires NoDup(s) && k < |s| && i < |s| && i != k
    ensures var i' := if k < i then i - 1 else i;
            i' < |Without(s, s[k])| && Without(s, s[k])[i'] == s[i]
  {
    WithoutAt(s, k);
  }

  lemma {:induction false} WithoutMember<T>(s: seq<T>, w: T, x: T)
    requires NoDup(s)
    ensures x in Without(s, w) <==> x in s && x != w
  {
    if s != [] {
      TailMember(s, x);
      TailMember(s, w);
      if s[0] != w {
        WithoutMember(s[1..], w, x);
      }
    }
  }

  lemma {:induction false} WithoutNoDup<T>(s: seq<T>, w: T)
    requires NoDup(s)
    ensures NoDup(Without(s, w))
  {
    if s != [] && s[0] != w {
      TailMember(s, s[0]);
      WithoutNoDup(s[1..], w);
      WithoutMember(s[1..], w, s[0]);
    }
  }

  lemma {:induction false} WithoutConcat<T>(a: seq<T>, b: seq<T>, w: T)
    requires w in a
    ensures Without(a + b, w) == Without(a, w) + b
  {
    assert (a + b)[1..] == a[1..] + b;
    if a[0] != w {
      assert a == [a[0]] + a[1..];
      WithoutConcat(a[1..], b, w);
    }
  }

  /** `s` without the elements of `gone`, taken out one after the other. */
  function WithoutAll<T(==)>(s: seq<T>, gone: seq<T>): seq<T>
    decreases |gone|
  {
    if gone == [] then s else WithoutAll(Without(s, gone[0]), gone[1..])
  }

  lemma {:induction false} WithoutAllNext<T>(s: seq<T>, gone: seq<T>, k: nat)
    requires NoDup(s) && NoDup(gone) && k < |gone| && gone[k] in s
    ensures gone[k] in WithoutAll(s, gone[..k])
    ensures WithoutAll(s, gone[..k + 1]) == Without(WithoutAll(s, gone[..k]), gone[k])
    decreases k
  {
    if k > 0 {
      WithoutNoDup(s, gone[0]);
      WithoutMember(s, gone[0], gone[k]);
      assert gone[..k][1..] == gone[1..][..k - 1] && gone[..k + 1][1..] == gone[1..][..k];
      WithoutAllNext(Without(s, gone[0]), gone[1..], k - 1);
    }
  }

  /** `s` without the elements of `gone`, in one pass over `s`. */
  function Remaining<T(==)>(s: seq<T>, gone: seq<T>): seq<T> {
    if s == [] then [] else (if s[0] in gone then [] else [s[0]]) + Remaining(s[1..], gone)
  }

  lemma {:induction false} RemainingSame<T>(s: seq<T>, gone: seq<T>)
    requires gone != [] && gone[0] !in s
    ensures Remaining(s, gone[1..]) == Remaining(s, gone)
  {
    assert forall x :: x in gone <==> x == gone[0] || x in gone[1..];
    if s != [] {
      assert s[0] in s;
      RemainingSame(s[1..], gone);
    }
  }

  lemma {:induction false} RemainingWithout<T>(s: seq<T>, gone: seq<T>)
    requires NoDup(s) && gone != []
    ensures Remaining(Without(s, gone[0]), gone[1..]) == Remaining(s, gone)
  {
    assert forall x :: x in gone <==> x == gone[0] || x in gone[1..];
    if s != [] {
      TailMember(s, s[0]);
      if s[0] == gone[0] {
        RemainingSame(s[1..], gone);
      } else {
        RemainingWithout(s[1..], gone);
        assert ([s[0]] + Without(s[1..], gone[0]))[1..] == Without(s[1..], gone[0]);
      }
    }
  }

  lemma {:induction false} RemainingNone<T>(s: seq<T>)
    ensures Remaining(s, []) == s
  {
    if s != [] {
      RemainingNone(s[1..]);
    }
  }

  /** Taking elements out one by one, in whatever order, leaves the others in theirs. */
  lemma {:induction false} WithoutAllKeepsOrder<T>(s: seq<T>, gone: seq<T>)
    requires NoDup(s)
    ensures WithoutAll(s, gone) == Remaining(s, gone)
    decreases |gone|
  {
    if gone == [] {
      RemainingNone(s);
    } else {
      WithoutNoDup(s, gone[0]);
      WithoutAllKeepsOrder(Without(s, gone[0]), gone[1..]);
      RemainingWithout(s, gone);
    }
  }

  lemma {:induction false} RemainingMember<T>(s: seq<T>, gone: seq<T>, x: T)
    ensures x in Remaining(s, gone) <==> x in s && x !in gone
  {
    if s != [] {
      RemainingMember(s[1..], gone, x);
      assert s == [s[0]] + s[1..];
    }
  }
}
