/** The integer median used to aggregate ballots, and how far a minority of values can move it. */
module Medians {
  import opened Basics
  import opened Ordering

  function Median(values: seq<int>): int
    requires values != []
  {
    MiddleOf(SortedInts(values))
  }

  function MiddleOf(ordered: seq<int>): int
    requires ordered != []
  {
    var middle := |ordered| / 2;
    if |ordered| % 2 == 1 then ordered[middle] else (ordered[middle - 1] + ordered[middle]) / 2
  }

  /** The order in which values arrive is irrelevant. */
  lemma MedianOrderFree(values: seq<int>, others: seq<int>)
    requires values != [] && others != [] && multiset(values) == multiset(others)
    ensures Median(values) == Median(others)
  {
    SortedIntsUnique(SortedInts(values), SortedInts(others));
  }

  /** However the values are put in order, the median is half the sum of the two in the middle, rounded down. */
  lemma MedianOfArrangement(values: seq<int>, ordered: seq<int>)
    requires values != [] && IntSorted(ordered) && multiset(ordered) == multiset(values)
    ensures |ordered| == |values|
    ensures Median(values) == (ordered[(|ordered| - 1) / 2] + ordered[|ordered| / 2]) / 2
  {
    assert |multiset(ordered)| == |ordered| && |multiset(values)| == |values|;
    SortedIntsUnique(SortedInts(values), ordered);
  }

  function Highest(values: seq<int>): (h: int)
    requires values != []
    ensures h in values && forall x :: x in values ==> x <= h
  {
    if |values| == 1 then values[0]
    else
      assert values == [values[0]] + values[1..];
      var h := Highest(values[1..]);
      if values[0] > h then values[0] else h
  }

  function Lowest(values: seq<int>): (l: int)
    requires values != []
    ensures l in values && forall x :: x in values ==> l <= x
  {
    if |values| == 1 then values[0]
    else
      assert values == [values[0]] + values[1..];
      var l := Lowest(values[1..]);
      if values[0] < l then values[0] else l
  }

  lemma SameExtremes(xs: seq<int>, ys: seq<int>)
    requires xs != [] && ys != [] && multiset(xs) == multiset(ys)
    ensures Highest(xs) == Highest(ys) && Lowest(xs) == Lowest(ys)
  {
    assert forall x :: x in xs <==> x in multiset(xs);
    assert forall y :: y in ys <==> y in multiset(ys);
  }

  function CountWithin(values: seq<int>, low: int, high: int): nat {
    if values == [] then 0
    else (if low <= values[0] <= high then 1 else 0) + CountWithin(values[1..], low, high)
  }

  lemma {:induction false} CountAppend(xs: seq<int>, ys: seq<int>, low: int, high: int)
    ensures CountWithin(xs + ys, low, high) == CountWithin(xs, low, high) + CountWithin(ys, low, high)
  {
    if xs == [] {
      assert xs + ys == ys;
    } else {
      assert (xs + ys)[1..] == xs[1..] + ys;
      CountAppend(xs[1..], ys, low, high);
    }
  }

  lemma {:induction false} CountOutside(xs: seq<int>, low: int, high: int)
    requires forall i :: 0 <= i < |xs| ==> !(low <= xs[i] <= high)
    ensures CountWithin(xs, low, high) == 0
  {
    if xs != [] { CountOutside(xs[1..], low, high); }
  }

  lemma {:induction false} CountAtMost(xs: seq<int>, low: int, high: int)
    ensures CountWithin(xs, low, high) <= |xs|
  {
    if xs != [] { CountAtMost(xs[1..], low, high); }
  }

  lemma {:induction false} InsertKeeps(x: int, ys: seq<int>, low: int, high: int)
    requires IntSorted(ys)
    ensures CountWithin(InsertInt(x, ys), low, high) == CountWithin([x], low, high) + CountWithin(ys, low, high)
    ensures Sum(InsertInt(x, ys)) == x + Sum(ys)
  {
    if ys == [] || x <= ys[0] {
      CountAppend([x], ys, low, high);
      SumAppend([x], ys);
      assert [x] + [] == [x] && [x][..0] == [];
    } else {
      InsertKeeps(x, ys[1..], low, high);
      var rest := InsertInt(x, ys[1..]);
      CountAppend([ys[0]], rest, low, high);
      CountAppend([ys[0]], ys[1..], low, high);
      SumAppend([ys[0]], rest);
      SumAppend([ys[0]], ys[1..]);
      assert ys == [ys[0]] + ys[1..];
    }
  }

  lemma SplitsSorted(values: seq<int>)
    requires values != []
    ensures SortedInts(values) == InsertInt(values[|values| - 1], SortedInts(values[..|values| - 1]))
    ensures Sum(values) == Sum(values[..|values| - 1]) + values[|values| - 1]
  {}

  /** Sorting changes neither the total nor how many values lie in a range. */
  lemma {:induction false} SortingKeeps(values: seq<int>, low: int, high: int)
    ensures CountWithin(SortedInts(values), low, high) == CountWithin(values, low, high)
    ensures Sum(SortedInts(values)) == Sum(values)
  {
    if values != [] {
      var init, last := values[..|values| - 1], values[|values| - 1];
      SortingKeeps(init, low, high);
      InsertKeeps(last, SortedInts(init), low, high);
      CountAppend(init, [last], low, high);
      SplitLast(values);
      SplitsSorted(values);
    }
  }

  lemma CountSplit(values: seq<int>, low: int, high: int, k: nat)
    requires k <= |values|
    ensures CountWithin(values, low, high) == CountWithin(values[..k], low, high) + CountWithin(values[k..], low, high)
    ensures CountWithin(values[..k], low, high) <= k
    ensures CountWithin(values[k..], low, high) <= |values| - k
  {
    CountAppend(values[..k], values[k..], low, high);
    assert values[..k] + values[k..] == values;
    CountAtMost(values[k..], low, high);
    CountAtMost(values[..k], low, high);
  }

  /** In a sorted sequence, a position outside the range shuts out everything on its far side. */
  lemma MajorityPosition(ordered: seq<int>, low: int, high: int, k: nat)
    requires IntSorted(ordered) && k < |ordered|
    requires CountWithin(ordered, low, high) > k && CountWithin(ordered, low, high) > |ordered| - 1 - k
    ensures low <= ordered[k] <= high
  {
    if ordered[k] < low {
      CountSplit(ordered, low, high, k + 1);
      CountOutside(ordered[..k + 1], low, high);
    }
    if high < ordered[k] {
      CountSplit(ordered, low, high, k);
      CountOutside(ordered[k..], low, high);
    }
  }

  /** A strict majority of values in a range puts the median in that range. */
  lemma MedianMajority(values: seq<int>, low: int, high: int)
    requires 2 * CountWithin(values, low, high) > |values|
    ensures values != [] && low <= Median(values) <= high
  {
    CountAtMost(values, low, high);
    SortingKeeps(values, low, high);
    SortedMajority(SortedInts(values), low, high);
  }

  lemma SortedMajority(ordered: seq<int>, low: int, high: int)
    requires IntSorted(ordered) && 2 * CountWithin(ordered, low, high) > |ordered| > 0
    ensures low <= MiddleOf(ordered) <= high
  {
    var middle := |ordered| / 2;
    MajorityPosition(ordered, low, high, middle);
    if |ordered| % 2 == 0 {
      MajorityPosition(ordered, low, high, middle - 1);
    }
  }

  lemma {:induction false} CountAll(values: seq<int>, low: int, high: int)
    requires forall i :: 0 <= i < |values| ==> low <= values[i] <= high
    ensures CountWithin(values, low, high) == |values|
  {
    if values != [] { CountAll(values[1..], low, high); }
  }

  lemma MedianWithin(values: seq<int>, low: int, high: int)
    requires values != [] && forall i :: 0 <= i < |values| ==> low <= values[i] <= high
    ensures low <= Median(values) <= high
  {
    CountAll(values, low, high);
    MedianMajority(values, low, high);
  }

  ghost predicate Spread(values: seq<int>, d: nat) {
    forall i, j :: 0 <= i < |values| && 0 <= j < |values| ==> values[i] - values[j] <= d
  }

  /** A zero median leaves less than half of the values above zero, so it bounds their total. */
  lemma ZeroMedianMass(values: seq<int>, d: nat)
    requires values != [] && 2 <= d && Spread(values, d)
    requires forall i :: 0 <= i < |values| ==> 0 <= values[i]
    requires Median(values) == 0
    ensures 2 * Sum(values) <= (|values| - 1) * d
  {
    var ordered := SortedInts(values);
    SortingKeeps(values, 0, 0);
    forall i | 0 <= i < |ordered| ensures 0 <= ordered[i] && ordered[i] - ordered[0] <= d {
      SortedFromValues(values, i);
      SortedFromValues(values, 0);
    }
    SortedZeroMedianMass(ordered, d);
  }

  lemma SortedFromValues(values: seq<int>, i: nat)
    requires i < |values|
    ensures SortedInts(values)[i] in values
  {
    assert SortedInts(values)[i] in multiset(SortedInts(values));
  }

  lemma SortedZeroMedianMass(ordered: seq<int>, d: nat)
    requires IntSorted(ordered) && ordered != [] && 2 <= d && MiddleOf(ordered) == 0
    requires forall i :: 0 <= i < |ordered| ==> 0 <= ordered[i] && ordered[i] - ordered[0] <= d
    ensures 2 * Sum(ordered) <= (|ordered| - 1) * d
  {
    var middle := |ordered| / 2;
    assert |ordered| % 2 == 0 ==> ordered[middle - 1] == 0;
    assert forall i :: 0 <= i < middle ==> ordered[i] == 0;
    assert ordered[0] == 0;
    MassFromMiddle(ordered, middle, d);
    HalfOf(|ordered|, |ordered| - middle - 1, ordered[middle], d, Sum(ordered));
  }

  lemma MassFromMiddle(ordered: seq<int>, middle: nat, d: nat)
    requires middle < |ordered|
    requires forall i :: 0 <= i < middle ==> ordered[i] <= 0
    requires forall i :: middle < i < |ordered| ==> ordered[i] <= d
    ensures Sum(ordered) <= ordered[middle] + d * (|ordered| - middle - 1)
  {
    SumSplitAt(ordered, middle);
    SumUpper(ordered[..middle], 0);
    SumUpper(ordered[middle + 1..], d);
  }

  lemma HalfOf(n: nat, above: nat, middle: nat, d: nat, total: int)
    requires n > 0 && 2 <= d && above == n - n / 2 - 1
    requires total <= middle + d * above
    requires if n % 2 == 1 then middle == 0 else middle <= 1
    ensures 2 * total <= (n - 1) * d
  {
    if n % 2 == 1 {
      assert n - 1 == 2 * above;
    } else {
      assert n - 1 == 2 * above + 1;
      assert (2 * above + 1) * d == 2 * (d * above) + d;
    }
  }
}
