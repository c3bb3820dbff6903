/** Vocabulary shared by every part of the model. */
module Basics {
  datatype Option<+T> = None | Some(value: T)

  /** The result of a check that either accepts with a value or raises. */
  datatype Result<+T> = Accept(value: T) | Reject

  /** Identifiers and public keys are text, compared and ordered as text. */
  type Id = string
  type Key = string

  /** An instant, in microseconds since some fixed origin. */
  type Time = int

  /** An ideal signature: it verifies for exactly one key and one message. */
  datatype Signature<+T> = Signature(key: Key, message: T)

  predicate NoDuplicates<T(==)>(xs: seq<T>) {
    forall i, j :: 0 <= i < j < |xs| ==> xs[i] != xs[j]
  }

  function Elements<T>(xs: seq<T>): set<T> {
    set x | x in xs
  }

  lemma SplitLast<T>(xs: seq<T>)
    requires xs != []
    ensures xs == xs[..|xs| - 1] + [xs[|xs| - 1]]
  {}

  lemma ShorterConcat<T>(xs: seq<T>, ys: seq<T>)
    requires ys != []
    ensures (xs + ys)[..|xs + ys| - 1] == xs + ys[..|ys| - 1]
    ensures (xs + ys)[|xs + ys| - 1] == ys[|ys| - 1]
  {}

  lemma ElementsEmpty<T>(xs: seq<T>)
    ensures Elements(xs) == {} <==> xs == []
  {
    if xs != [] {
      assert xs[0] in Elements(xs);
    }
  }

  /** Two repetition-free listings of one set are permutations of each other. */
  lemma {:induction false} DistinctMultiset<T>(xs: seq<T>)
    requires NoDuplicates(xs)
    ensures multiset(xs) == multiset(Elements(xs))
  {
    if xs != [] {
      SplitLast(xs);
      var init, last := xs[..|xs| - 1], xs[|xs| - 1];
      DistinctMultiset(init);
      assert last !in init;
      assert Elements(xs) == Elements(init) + {last};
      assert multiset(xs) == multiset(init) + multiset{last};
    }
  }

  lemma RemoveAt<T>(xs: seq<T>, k: nat)
    requires k < |xs|
    ensures multiset(xs) == multiset(xs[..k] + xs[k + 1..]) + multiset{xs[k]}
  {
    assert xs == xs[..k] + [xs[k]] + xs[k + 1..];
  }

  /** In a permutation, the last element of one listing can be taken out of the other. */
  lemma RemoveMatching<T>(xs: seq<T>, ys: seq<T>) returns (k: nat)
    requires xs != [] && multiset(xs) == multiset(ys)
    ensures k < |ys| && ys[k] == xs[|xs| - 1]
    ensures multiset(xs[..|xs| - 1]) == multiset(ys[..k] + ys[k + 1..])
  {
    var last := xs[|xs| - 1];
    assert last in multiset(ys);
    k :| 0 <= k < |ys| && ys[k] == last;
    RemoveAt(ys, k);
    SplitLast(xs);
    assert multiset(xs[..|xs| - 1]) == multiset(xs) - multiset{last};
    assert multiset(ys[..k] + ys[k + 1..]) == multiset(ys) - multiset{last};
  }

  function Sum(xs: seq<int>): int {
    if xs == [] then 0 else Sum(xs[..|xs| - 1]) + xs[|xs| - 1]
  }

  lemma {:induction false} SumAppend(xs: seq<int>, ys: seq<int>)
    ensures Sum(xs + ys) == Sum(xs) + Sum(ys)
  {
    if ys == [] {
      assert xs + ys == xs;
    } else {
      SumAppend(xs, ys[..|ys| - 1]);
      assert (xs + ys)[..|xs + ys| - 1] == xs + ys[..|ys| - 1];
    }
  }

  lemma {:induction false} SumLower(xs: seq<int>, low: int)
    requires forall i :: 0 <= i < |xs| ==> low <= xs[i]
    ensures low * |xs| <= Sum(xs)
  {
    if xs != [] {
      SumLower(xs[..|xs| - 1], low);
    }
  }

  lemma {:induction false} SumUpper(xs: seq<int>, high: int)
    requires forall i :: 0 <= i < |xs| ==> xs[i] <= high
    ensures Sum(xs) <= high * |xs|
  {
    if xs != [] {
      SumUpper(xs[..|xs| - 1], high);
    }
  }

  lemma SumSplitAt(xs: seq<int>, i: nat)
    requires i < |xs|
    ensures Sum(xs) == Sum(xs[..i]) + xs[i] + Sum(xs[i + 1..])
  {
    assert xs == xs[..i] + ([xs[i]] + xs[i + 1..]);
    SumAppend(xs[..i], [xs[i]] + xs[i + 1..]);
    SumAppend([xs[i]], xs[i + 1..]);
    assert Sum([xs[i]]) == xs[i] by { assert [xs[i]][..0] == []; }
  }

  lemma SumNonNegativeElement(xs: seq<int>, i: nat)
    requires forall k :: 0 <= k < |xs| ==> 0 <= xs[k]
    requires i < |xs|
    ensures xs[i] <= Sum(xs)
  {
    SumSplitAt(xs, i);
    SumLower(xs[..i], 0);
    SumLower(xs[i + 1..], 0);
  }

  lemma SumUpdate(xs: seq<int>, i: nat, v: int)
    requires i < |xs|
    ensures Sum(xs[i := v]) == Sum(xs) - xs[i] + v
  {
    SumSplitAt(xs, i);
    SumSplitAt(xs[i := v], i);
    assert xs[i := v][..i] == xs[..i] && xs[i := v][i + 1..] == xs[i + 1..];
  }

  /** A set of numbers below n has at most n elements. */
  lemma {:induction false} BoundedSetSize(s: set<nat>, n: nat)
    requires forall x :: x in s ==> x < n
    ensures |s| <= n
  {
    if n == 0 {
      assert s == {};
    } else {
      BoundedSetSize(s - {n - 1}, n - 1);
      if n - 1 in s {
        assert s == (s - {n - 1}) + {n - 1};
      }
    }
  }

  /** The numbers below n. */
  function Range(n: nat): (r: set<nat>)
    ensures forall i: nat :: i in r <==> i < n
    ensures |r| == n
  {
    if n == 0 then {} else Range(n - 1) + {n - 1}
  }

  lemma SubsetSize<T>(a: set<T>, b: set<T>)
    requires a <= b
    ensures |a| <= |b|
    ensures |a| == |b| ==> a == b
  {
    assert b == a + (b - a);
    assert |b| == |a| + |b - a|;
  }
}
