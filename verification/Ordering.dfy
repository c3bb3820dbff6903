/** Total orders, Python's text order, and the sorting of sets and of integer sequences. */
module Ordering {
  import opened Basics

  ghost predicate TotalOrder<T(!new)>(le: (T, T) -> bool) {
    && (forall x, y :: le(x, y) || le(y, x))
    && (forall x, y :: le(x, y) && le(y, x) ==> x == y)
    && (forall x, y, z :: le(x, y) && le(y, z) ==> le(x, z))
  }

  // ----- Text -----

  /** Text is compared by code point, a proper prefix first. */
  predicate TextLe(a: string, b: string) {
    if a == "" then true
    else if b == "" then false
    else if a[0] == b[0] then TextLe(a[1..], b[1..])
    else a[0] < b[0]
  }

  lemma {:induction false} TextLeTotal(a: string, b: string)
    ensures TextLe(a, b) || TextLe(b, a)
    ensures TextLe(a, b) && TextLe(b, a) ==> a == b
  {
    if a != "" && b != "" && a[0] == b[0] {
      TextLeTotal(a[1..], b[1..]);
      assert a == [a[0]] + a[1..] && b == [b[0]] + b[1..];
    }
  }

  lemma {:induction false} TextLeTransitive(a: string, b: string, c: string)
    requires TextLe(a, b) && TextLe(b, c)
    ensures TextLe(a, c)
  {
    if a != "" && b != "" && c != "" && a[0] == b[0] == c[0] {
      TextLeTransitive(a[1..], b[1..], c[1..]);
    }
  }

  lemma TextOrder()
    ensures TotalOrder(TextLe)
  {
    forall a, b ensures TextLe(a, b) || TextLe(b, a) { TextLeTotal(a, b); }
    forall a, b ensures TextLe(a, b) && TextLe(b, a) ==> a == b { TextLeTotal(a, b); }
    forall a, b, c | TextLe(a, b) && TextLe(b, c) ensures TextLe(a, c) { TextLeTransitive(a, b, c); }
  }

  /** The first difference decides. */
  predicate FirstDiffers(a: string, b: string, k: nat) {
    k < |a| && k < |b| && a[..k] == b[..k] && a[k] < b[k]
  }

  /** Text order is lexicographic: a prefix comes first, otherwise the smaller character at the first difference. */
  lemma {:induction false} TextLeExactly(a: string, b: string)
    ensures TextLe(a, b) <==> a <= b || exists k: nat :: FirstDiffers(a, b, k)
  {
    if a != "" && b != "" && a[0] == b[0] {
      TextLeExactly(a[1..], b[1..]);
      assert a == [a[0]] + a[1..] && b == [b[0]] + b[1..];
      if k: nat :| FirstDiffers(a[1..], b[1..], k) {
        assert a[..k + 1] == [a[0]] + a[1..][..k] && b[..k + 1] == [b[0]] + b[1..][..k];
        assert FirstDiffers(a, b, k + 1);
      }
      if k: nat :| FirstDiffers(a, b, k) {
        assert k > 0;
        assert a[1..][..k - 1] == a[..k][1..] && b[1..][..k - 1] == b[..k][1..];
        assert FirstDiffers(a[1..], b[1..], k - 1);
      }
    } else if a != "" && b != "" {
      if a[0] < b[0] {
        assert FirstDiffers(a, b, 0);
      }
      if k: nat :| FirstDiffers(a, b, k) {
        assert k > 0 ==> a[..k][0] == b[..k][0];
      }
    }
  }

  // ----- Sorting a set -----

  predicate IsLeast<T(==)>(le: (T, T) -> bool, m: T, s: set<T>) {
    m in s && forall x :: x in s ==> le(m, x)
  }

  lemma {:induction false} LeastExists<T(!new)>(le: (T, T) -> bool, s: set<T>)
    requires TotalOrder(le) && s != {}
    ensures exists m :: IsLeast(le, m, s)
  {
    var y :| y in s;
    assert le(y, y);
    if s == {y} {
      assert IsLeast(le, y, s);
    } else {
      assert s == (s - {y}) + {y};
      LeastExists(le, s - {y});
      var k :| IsLeast(le, k, s - {y});
      if le(k, y) {
        assert IsLeast(le, k, s);
      } else {
        assert IsLeast(le, y, s);
      }
    }
  }

  function Least<T(!new, ==)>(le: (T, T) -> bool, s: set<T>): (m: T)
    requires TotalOrder(le) && s != {}
    ensures IsLeast(le, m, s)
  {
    LeastExists(le, s);
    assert forall m, n :: IsLeast(le, m, s) && IsLeast(le, n, s) ==> m == n;
    var m :| m in s && IsLeast(le, m, s);
    m
  }

  ghost predicate SortedBy<T>(le: (T, T) -> bool, xs: seq<T>) {
    forall i, j :: 0 <= i < j < |xs| ==> le(xs[i], xs[j]) && xs[i] != xs[j]
  }

  /** sorted(s) for a set. */
  function SortedSet<T(!new, ==)>(le: (T, T) -> bool, s: set<T>): (xs: seq<T>)
    requires TotalOrder(le)
    ensures Elements(xs) == s
    ensures |xs| == |s|
    ensures SortedBy(le, xs)
  {
    if s == {} then []
    else
      var m := Least(le, s);
      var rest := SortedSet(le, s - {m});
      ConsSorted(le, m, rest, s);
      [m] + rest
  }

  lemma ConsSorted<T>(le: (T, T) -> bool, m: T, rest: seq<T>, s: set<T>)
    requires IsLeast(le, m, s)
    requires Elements(rest) == s - {m} && SortedBy(le, rest)
    ensures Elements([m] + rest) == s && SortedBy(le, [m] + rest)
  {
    forall i | 0 <= i < |rest| ensures le(m, rest[i]) && m != rest[i] {
      assert rest[i] in Elements(rest);
    }
    forall x ensures x in Elements([m] + rest) <==> x in s {
      assert x in rest <==> x in Elements(rest);
    }
  }

  /** A sorted enumeration of a set is unique, so it does not depend on how the set was built. */
  lemma {:induction false} SortedUnique<T(!new)>(le: (T, T) -> bool, xs: seq<T>, ys: seq<T>)
    requires TotalOrder(le)
    requires SortedBy(le, xs) && SortedBy(le, ys) && Elements(xs) == Elements(ys)
    ensures xs == ys
  {
    ElementsEmpty(xs);
    ElementsEmpty(ys);
    if xs != [] {
      assert xs[0] in Elements(ys) && ys[0] in Elements(xs);
      assert le(xs[0], ys[0]) && le(ys[0], xs[0]);
      TailElements(le, xs);
      TailElements(le, ys);
      SortedUnique(le, xs[1..], ys[1..]);
      assert xs == [xs[0]] + xs[1..] && ys == [ys[0]] + ys[1..];
    }
  }

  lemma TailElements<T>(le: (T, T) -> bool, xs: seq<T>)
    requires xs != [] && SortedBy(le, xs)
    ensures Elements(xs[1..]) == Elements(xs) - {xs[0]}
  {
    assert xs == [xs[0]] + xs[1..];
    assert xs[0] !in xs[1..];
  }

  /** sorted(s) for a set of text. */
  function SortedTexts(s: set<string>): (xs: seq<string>)
    ensures Elements(xs) == s
    ensures |xs| == |s|
    ensures NoDuplicates(xs)
    ensures SortedBy(TextLe, xs)
  {
    TextOrder();
    SortedSet(TextLe, s)
  }

  // ----- Sorting integers -----

  ghost predicate IntSorted(xs: seq<int>) {
    forall i, j :: 0 <= i < j < |xs| ==> xs[i] <= xs[j]
  }

  /** sorted(xs) for integers. */
  function SortedInts(xs: seq<int>): (ys: seq<int>)
    ensures |ys| == |xs|
    ensures IntSorted(ys)
    ensures multiset(ys) == multiset(xs)
  {
    if xs == [] then []
    else
      assert xs == xs[..|xs| - 1] + [xs[|xs| - 1]];
      InsertInt(xs[|xs| - 1], SortedInts(xs[..|xs| - 1]))
  }

  function InsertInt(x: int, ys: seq<int>): (zs: seq<int>)
    requires IntSorted(ys)
    ensures |zs| == |ys| + 1
    ensures IntSorted(zs)
    ensures multiset(zs) == multiset(ys) + multiset{x}
  {
    if ys == [] then [x]
    else if x <= ys[0] then [x] + ys
    else
      assert ys == [ys[0]] + ys[1..];
      var rest := InsertInt(x, ys[1..]);
      InsertedAbove(x, ys, rest);
      [ys[0]] + rest
  }

  lemma InsertedAbove(x: int, ys: seq<int>, rest: seq<int>)
    requires ys != [] && ys[0] < x && IntSorted(ys)
    requires IntSorted(rest) && multiset(rest) == multiset(ys[1..]) + multiset{x}
    ensures IntSorted([ys[0]] + rest)
  {
    forall i | 0 <= i < |rest| ensures ys[0] <= rest[i] {
      assert rest[i] in multiset(rest);
      if rest[i] != x {
        assert rest[i] in multiset(ys[1..]);
        assert rest[i] in ys[1..];
      }
    }
  }

  lemma SameSmallest(xs: seq<int>, ys: seq<int>)
    requires xs != [] && ys != [] && IntSorted(xs) && IntSorted(ys) && multiset(xs) == multiset(ys)
    ensures xs[0] == ys[0]
  {
    assert xs[0] in multiset(ys) && ys[0] in multiset(xs);
  }

  lemma TailMultiset(xs: seq<int>)
    requires xs != []
    ensures multiset(xs[1..]) == multiset(xs) - multiset{xs[0]}
  {
    assert xs == [xs[0]] + xs[1..];
  }

  lemma {:induction false} SortedIntsUnique(xs: seq<int>, ys: seq<int>)
    requires IntSorted(xs) && IntSorted(ys) && multiset(xs) == multiset(ys)
    ensures xs == ys
  {
    assert |multiset(xs)| == |xs| && |multiset(ys)| == |ys|;
    if xs != [] {
      SameSmallest(xs, ys);
      TailMultiset(xs);
      TailMultiset(ys);
      TailSorted(xs);
      TailSorted(ys);
      hide IntSorted;
      SortedIntsUnique(xs[1..], ys[1..]);
      assert xs == [xs[0]] + xs[1..] && ys == [ys[0]] + ys[1..];
    }
  }

  lemma TailSorted(xs: seq<int>)
    requires xs != [] && IntSorted(xs)
    ensures IntSorted(xs[1..])
  {}
}
