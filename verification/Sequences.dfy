/** Options and order-preserving sub-sequences, shared by the other modules. */
module Sequences {

  datatype Option<+T> = None | Some(value: T) {
    predicate IsFailure() {
      None?
    }

    function PropagateFailure<U>(): Option<U>
      requires None?
    {
      None
    }

    function Extract(): T
      requires Some?
    {
      value
    }
  }

  function Last<T>(s: seq<T>): T
    requires s != []
  {
    s[|s| - 1]
  }

  function Front<T>(s: seq<T>): seq<T>
    requires s != []
  {
    s[..|s| - 1]
  }

  /** `a` is obtained from `b` by deleting elements: a lossy channel that keeps the order. */
  predicate Subsequence<T(==)>(a: seq<T>, b: seq<T>)
    decreases |b|
  {
    || a == []
    || (b != [] && Last(a) == Last(b) && Subsequence(Front(a), Front(b)))
    || (b != [] && Subsequence(a, Front(b)))
  }

  lemma {:induction false} SubsequenceReflexive<T>(a: seq<T>)
    ensures Subsequence(a, a)
    decreases |a|
  {
    if a != [] {
      SubsequenceReflexive(Front(a));
    }
  }

  lemma {:induction false} SubsequenceTransitive<T>(a: seq<T>, b: seq<T>, c: seq<T>)
    requires Subsequence(a, b) && Subsequence(b, c)
    ensures Subsequence(a, c)
    decreases |c|
  {
    if a != [] {
      if Last(b) == Last(c) && Subsequence(Front(b), Front(c)) {
        if Last(a) == Last(b) && Subsequence(Front(a), Front(b)) {
          SubsequenceTransitive(Front(a), Front(b), Front(c));
        } else {
          SubsequenceTransitive(a, Front(b), Front(c));
        }
      } else {
        SubsequenceTransitive(a, b, Front(c));
      }
    }
  }

  lemma SubsequenceSnoc<T>(a: seq<T>, b: seq<T>, x: T)
    requires Subsequence(a, b)
    ensures Subsequence(a, b + [x]) && Subsequence(a + [x], b + [x])
  {
    assert Front(b + [x]) == b && Front(a + [x]) == a;
  }

  /** Deleting a tail is one way to lose elements. */
  lemma {:induction false} SubsequenceOfPrefix<T>(a: seq<T>, b: seq<T>, tail: seq<T>)
    requires Subsequence(a, b)
    ensures Subsequence(a, b + tail)
    decreases |tail|
  {
    if tail == [] {
      assert b + tail == b;
    } else {
      SubsequenceOfPrefix(a, b, Front(tail));
      SubsequenceSnoc(a, b + Front(tail), Last(tail));
      assert b + tail == (b + Front(tail)) + [Last(tail)];
    }
  }

  lemma {:induction false} SubsequenceMembers<T>(a: seq<T>, b: seq<T>)
    requires Subsequence(a, b)
    ensures |a| <= |b| && forall x :: x in a ==> x in b
    decreases |b|
  {
    if a != [] {
      assert a == Front(a) + [Last(a)] && b == Front(b) + [Last(b)];
      if Last(a) == Last(b) && Subsequence(Front(a), Front(b)) {
        SubsequenceMembers(Front(a), Front(b));
      } else {
        SubsequenceMembers(a, Front(b));
      }
    }
  }

  lemma {:induction false} SubsequenceOfSameLength<T>(a: seq<T>, b: seq<T>)
    requires Subsequence(a, b) && |a| == |b|
    ensures a == b
    decreases |b|
  {
    if a != [] {
      if Last(a) == Last(b) && Subsequence(Front(a), Front(b)) {
        SubsequenceOfSameLength(Front(a), Front(b));
        assert a == Front(a) + [Last(a)] && b == Front(b) + [Last(b)];
      } else {
        SubsequenceMembers(a, Front(b));
      }
    }
  }
}
