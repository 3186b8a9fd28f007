/**
 Small definitions that several components share.
 */
module Basics {

  datatype Option<+T> = None | Some(value: T)

  function Max(a: int, b: int): int { if a >= b then a else b }

  // The first place of x, or the length of the sequence.
  function IndexOf<T(==)>(s: seq<T>, x: T): (i: nat)
    ensures i <= |s| && (i < |s| <==> x in s)
    ensures i < |s| ==> s[i] == x
    ensures forall j :: 0 <= j < i ==> s[j] != x
  {
    if s == [] || s[0] == x then 0 else 1 + IndexOf(s[1..], x)
  }

  ghost predicate Distinct<T>(s: seq<T>) {
    forall i, j :: 0 <= i < j < |s| ==> s[i] != s[j]
  }

  // a is b with some elements left out.
  ghost predicate Subsequence<T>(a: seq<T>, b: seq<T>)
    decreases |b|
  {
    a == [] || (b != [] && ((a[0] == b[0] && Subsequence(a[1..], b[1..])) || Subsequence(a, b[1..])))
  }

  lemma {:induction false} SubsequenceRefl<T>(a: seq<T>)
    ensures Subsequence(a, a)
  {
    if a == [] {
    } else {
      SubsequenceRefl(a[1..]);
    }
  }

  lemma {:induction false} SubsequenceMembers<T>(a: seq<T>, b: seq<T>)
    requires Subsequence(a, b)
    ensures forall x :: x in a ==> x in b
    decreases |b|
  {
    if a == [] {
    } else if a[0] == b[0] && Subsequence(a[1..], b[1..]) {
      SubsequenceMembers(a[1..], b[1..]);
      assert a == [a[0]] + a[1..];
    } else {
      SubsequenceMembers(a, b[1..]);
    }
  }

  lemma {:induction false} SubsequenceDistinct<T>(a: seq<T>, b: seq<T>)
    requires Subsequence(a, b) && Distinct(b)
    ensures Distinct(a)
    decreases |b|
  {
    if a == [] {
    } else if a[0] == b[0] && Subsequence(a[1..], b[1..]) {
      SubsequenceDistinct(a[1..], b[1..]);
      SubsequenceMembers(a[1..], b[1..]);
      assert forall j :: 1 <= j < |a| ==> a[j] in a[1..];
    } else {
      SubsequenceDistinct(a, b[1..]);
    }
  }

  lemma {:induction false} PrefixIsSubsequence<T>(c: seq<T>, n: nat)
    requires n <= |c|
    ensures Subsequence(c[..n], c)
    decreases n
  {
    if n == 0 {
    } else {
      PrefixIsSubsequence(c[1..], n - 1);
      assert c[..n][1..] == c[1..][..n - 1];
    }
  }

  // Behind a subsequence of b, a first part of c.
  lemma {:induction false} SubsequenceAppend<T>(a: seq<T>, b: seq<T>, c: seq<T>, n: nat)
    requires Subsequence(a, b) && n <= |c|
    ensures Subsequence(a + c[..n], b + c)
    decreases |b|
  {
    if b == [] {
      assert a + c[..n] == c[..n] && b + c == c;
      PrefixIsSubsequence(c, n);
    } else {
      assert (b + c)[1..] == b[1..] + c;
      if a != [] && a[0] == b[0] && Subsequence(a[1..], b[1..]) {
        SubsequenceAppend(a[1..], b[1..], c, n);
        assert (a + c[..n])[1..] == a[1..] + c[..n];
      } else {
        SubsequenceAppend(a, b[1..], c, n);
      }
    }
  }
}
