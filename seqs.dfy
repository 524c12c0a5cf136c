/** Sequence helpers: first-seen order of distinct values and positions in it. */
module Seqs {

  /** No value occurs twice in `s`: none occurs before its own position. */
  predicate NoDup<T(==)>(s: seq<T>) {
    forall i :: 0 <= i < |s| ==> s[i] !in s[..i]
  }

  lemma NoDupSnoc<T>(s: seq<T>, x: T)
    requires NoDup(s) && x !in s
    ensures NoDup(s + [x])
  {
    forall i | 0 <= i < |s| + 1
      ensures (s + [x])[i] !in (s + [x])[..i]
    {
      if i < |s| {
        assert (s + [x])[..i] == s[..i];
      } else {
        assert (s + [x])[..i] == s;
      }
    }
  }

  /** In a sequence without duplicates, a value sits at one position only. */
  lemma NoDupSameIndex<T>(s: seq<T>, i: nat, j: nat)
    requires NoDup(s) && i < |s| && j < |s| && s[i] == s[j]
    ensures i == j
  {
  }

  /** The distinct values of `s`, each at the place where it is first seen. */
  function FirstSeen<T(==)>(s: seq<T>): (d: seq<T>)
    ensures forall x :: x in s ==> x in d
    ensures forall x :: x in d ==> x in s
    ensures |d| <= |s|
  {
    if s == [] then []
    else
      var p := FirstSeen(s[..|s| - 1]);
      var x := s[|s| - 1];
      assert forall y :: y in s ==> y in s[..|s| - 1] || y == x;
      if x in p then p else p + [x]
  }

  lemma {:induction false} FirstSeenNoDup<T>(s: seq<T>)
    ensures NoDup(FirstSeen(s))
  {
    if s != [] {
      var p := FirstSeen(s[..|s| - 1]);
      FirstSeenNoDup(s[..|s| - 1]);
      if s[|s| - 1] !in p {
        NoDupSnoc(p, s[|s| - 1]);
      }
    }
  }

  lemma FirstSeenSnoc<T>(s: seq<T>, x: T)
    ensures FirstSeen(s + [x]) == if x in s then FirstSeen(s) else FirstSeen(s) + [x]
  {
    assert (s + [x])[..|s|] == s;
  }

  lemma TakeSnoc<T>(s: seq<T>, n: nat)
    requires n < |s|
    ensures s[..n + 1] == s[..n] + [s[n]]
  {
  }

  /** Seeing more values only ever extends the first-seen order. */
  lemma {:induction false} FirstSeenPrefix<T>(s: seq<T>, n: nat)
    requires n <= |s|
    ensures |FirstSeen(s[..n])| <= |FirstSeen(s)|
    ensures FirstSeen(s[..n]) == FirstSeen(s)[..|FirstSeen(s[..n])|]
    decreases |s| - n
  {
    if n < |s| {
      FirstSeenPrefix(s, n + 1);
      FirstSeenSnoc(s[..n], s[n]);
      assert s[..n + 1] == s[..n] + [s[n]];
    } else {
      assert s[..n] == s;
    }
  }

  /** Position of the first `x` in `s`. */
  function IndexOf<T(==)>(s: seq<T>, x: T): (i: nat)
    requires x in s
    ensures i < |s| && s[i] == x
    ensures x !in s[..i]
  {
    if s[0] == x then 0
    else
      var j := IndexOf(s[1..], x);
      assert s[1..][..j] == s[1..j + 1];
      j + 1
  }

  /** How many times `x` occurs in `s`. */
  function Count<T(==)>(s: seq<T>, x: T): (c: nat)
    ensures c <= |s|
  {
    if s == [] then 0 else (if s[0] == x then 1 else 0) + Count(s[1..], x)
  }

  /** In a sequence without duplicates a member occurs exactly once. */
  lemma {:induction false} NoDupCount<T>(s: seq<T>, x: T)
    requires NoDup(s) && x in s
    ensures Count(s, x) == 1
  {
    if s[0] == x {
      NoDupTailOut(s);
      NotInCount(s[1..], x);
    } else {
      NoDupTail(s);
      NoDupCount(s[1..], x);
    }
  }

  lemma {:induction false} NotInCount<T>(s: seq<T>, x: T)
    requires x !in s
    ensures Count(s, x) == 0
  {
    if s != [] {
      NotInCount(s[1..], x);
    }
  }

  lemma NoDupTail<T>(s: seq<T>)
    requires NoDup(s) && s != []
    ensures NoDup(s[1..])
  {
    forall i | 0 <= i < |s[1..]|
      ensures s[1..][i] !in s[1..][..i]
    {
      assert s[1..][..i] == s[1..i + 1];
      assert s[i + 1] !in s[..i + 1];
    }
  }

  lemma NoDupTailOut<T>(s: seq<T>)
    requires NoDup(s) && s != []
    ensures s[0] !in s[1..]
  {
    forall i | 0 <= i < |s[1..]|
      ensures s[1..][i] != s[0]
    {
      assert s[0] in s[..i + 1];
    }
  }
}
