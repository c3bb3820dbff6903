/**
 Largest-remainder apportionment of a whole amount by integer weights. Claimants are listed in
 their tie-break order, so a claimant is its index.
 */
module Apportionment {
  import opened Basics

  ghost predicate Weights(ws: seq<int>) {
    (forall i :: 0 <= i < |ws| ==> 0 <= ws[i]) && 0 < Sum(ws)
  }

  /** The whole part of a claimant's exact quota total * w / W, and what is left of it. */
  function Base(total: nat, w: int, whole: int): int
    requires 0 < whole
  {
    total * w / whole
  }

  function Residue(total: nat, w: int, whole: int): int
    requires 0 < whole
  {
    total * w % whole
  }

  function Bases(total: nat, ws: seq<int>): (bs: seq<int>)
    requires 0 < Sum(ws)
  {
    seq(|ws|, i requires 0 <= i < |ws| => Base(total, ws[i], Sum(ws)))
  }

  function Residues(total: nat, ws: seq<int>): (rs: seq<int>)
    requires 0 < Sum(ws)
  {
    seq(|ws|, i requires 0 <= i < |ws| => Residue(total, ws[i], Sum(ws)))
  }

  /** Larger residues come first; equal residues keep the tie-break order. */
  predicate Ahead(rs: seq<int>, i: nat, j: nat)
    requires i < |rs| && j < |rs|
  {
    rs[i] > rs[j] || (rs[i] == rs[j] && i < j)
  }

  /** How many claimants are ahead of i. */
  ghost function Rank(rs: seq<int>, i: nat): nat
    requires i < |rs|
  {
    |set j: nat | j < |rs| && Ahead(rs, j, i)|
  }

  function Remainder(total: nat, ws: seq<int>): int
    requires 0 < Sum(ws)
  {
    total - Sum(Bases(total, ws))
  }

  /** The fair share: the base, and one more for each of the Remainder foremost claimants. */
  ghost function Share(total: nat, ws: seq<int>, i: nat): int
    requires 0 < Sum(ws) && i < |ws|
  {
    Base(total, ws[i], Sum(ws)) + if Rank(Residues(total, ws), i) < Remainder(total, ws) then 1 else 0
  }

  ghost function Shares(total: nat, ws: seq<int>): (shares: seq<int>)
    requires 0 < Sum(ws)
  {
    seq(|ws|, i requires 0 <= i < |ws| => Share(total, ws, i))
  }

  // ----- The bump order -----

  ghost predicate IsOrder(rs: seq<int>, order: seq<nat>) {
    && (forall k :: 0 <= k < |order| ==> order[k] < |rs|)
    && (forall k, m :: 0 <= k < m < |order| ==> Ahead(rs, order[k], order[m]))
  }

  function InsertIndex(rs: seq<int>, i: nat, order: seq<nat>): (out: seq<nat>)
    requires i < |rs| && IsOrder(rs, order) && i !in order
    ensures IsOrder(rs, out)
    ensures Elements(out) == Elements(order) + {i}
  {
    if order == [] then [i]
    else if Ahead(rs, i, order[0]) then
      assert forall k :: 0 <= k < |order| ==> Ahead(rs, i, order[k]);
      assert Elements([i] + order) == Elements(order) + {i};
      [i] + order
    else
      var rest := InsertIndex(rs, i, order[1..]);
      InsertedBehind(rs, i, order, rest);
      [order[0]] + rest
  }

  lemma InsertedBehind(rs: seq<int>, i: nat, order: seq<nat>, rest: seq<nat>)
    requires i < |rs| && IsOrder(rs, order) && order != [] && i != order[0] && !Ahead(rs, i, order[0])
    requires IsOrder(rs, rest) && Elements(rest) == Elements(order[1..]) + {i}
    ensures IsOrder(rs, [order[0]] + rest)
    ensures Elements([order[0]] + rest) == Elements(order) + {i}
  {
    assert order == [order[0]] + order[1..];
    forall k | 0 <= k < |rest| ensures Ahead(rs, order[0], rest[k]) {
      assert rest[k] in Elements(rest);
    }
    forall x ensures x in Elements([order[0]] + rest) <==> x in Elements(order) + {i} {
      assert x in rest <==> x in Elements(rest);
      assert x in order[1..] <==> x in Elements(order[1..]);
    }
  }

  lemma NotYetListed(order: seq<nat>, n: nat)
    requires Elements(order) == Range(n)
    ensures n !in order
  {
    assert n !in Elements(order);
  }

  lemma RangeEmpty()
    ensures Elements<nat>([]) == Range(0)
  {}

  /** The first n claimants sorted by (-residue, tie-break). */
  function OrderUpTo(rs: seq<int>, n: nat): (order: seq<nat>)
    requires n <= |rs|
    ensures IsOrder(rs, order)
    ensures Elements(order) == Range(n)
  {
    if n == 0 then
      RangeEmpty();
      []
    else
      var order := OrderUpTo(rs, n - 1);
      NotYetListed(order, n - 1);
      InsertIndex(rs, n - 1, order)
  }

  function Order(rs: seq<int>): (order: seq<nat>)
    ensures IsOrder(rs, order)
    ensures Elements(order) == Range(|rs|)
  {
    OrderUpTo(rs, |rs|)
  }

  lemma {:induction false} PrefixSize(order: seq<nat>, k: nat)
    requires NoDuplicates(order) && k <= |order|
    ensures |Elements(order[..k])| == k
  {
    if k > 0 {
      PrefixSize(order, k - 1);
      assert order[..k] == order[..k - 1] + [order[k - 1]];
      assert Elements(order[..k]) == Elements(order[..k - 1]) + {order[k - 1]};
    }
  }

  lemma ListedAt(order: seq<nat>, j: nat) returns (m: nat)
    requires j in Elements(order)
    ensures m < |order| && order[m] == j
  {
    m :| 0 <= m < |order| && order[m] == j;
  }

  lemma ListedIsAhead(rs: seq<int>, order: seq<nat>, k: nat, j: nat)
    requires IsOrder(rs, order) && k < |order| && j in Elements(order[..k])
    ensures j < |rs| && Ahead(rs, j, order[k])
  {
    var m := ListedAt(order[..k], j);
    assert order[m] == j;
  }

  lemma AheadIsListed(rs: seq<int>, order: seq<nat>, k: nat, j: nat)
    requires IsOrder(rs, order) && k < |order| && j in Elements(order) && j < |rs| && Ahead(rs, j, order[k])
    ensures j in Elements(order[..k])
  {
    var m := ListedAt(order, j);
    assert m < k;
    assert order[..k][m] == j;
  }

  lemma AheadOfPosition(rs: seq<int>, order: seq<nat>, k: nat, j: nat)
    requires IsOrder(rs, order) && Elements(order) == Range(|rs|) && k < |order|
    ensures j < |rs| && Ahead(rs, j, order[k]) <==> j in Elements(order[..k])
  {
    assert order[k] < |rs|;
    hide IsOrder, Elements;
    if j in Elements(order[..k]) {
      ListedIsAhead(rs, order, k, j);
    } else if j < |rs| && Ahead(rs, j, order[k]) {
      AheadIsListed(rs, order, k, j);
    }
  }

  /** Position in the sorted order is rank. */
  lemma RankOfPosition(rs: seq<int>, order: seq<nat>, k: nat)
    requires IsOrder(rs, order) && Elements(order) == Range(|rs|) && k < |order|
    ensures Rank(rs, order[k]) == k
  {
    PrefixSize(order, k);
    var ahead := set j: nat | j < |rs| && Ahead(rs, j, order[k]);
    forall j: nat ensures j in ahead <==> j in Elements(order[..k]) {
      AheadOfPosition(rs, order, k, j);
    }
    assert ahead == Elements(order[..k]);
  }

  lemma OrderLength(rs: seq<int>)
    ensures |Order(rs)| == |rs|
  {
    var order := Order(rs);
    PrefixSize(order, |order|);
    assert order[..|order|] == order;
  }

  // ----- Conservation and the quota rule -----

  /** bases with the first k claimants of the order raised by one. */
  function Bumped(bases: seq<int>, order: seq<nat>, k: nat): (out: seq<int>)
    requires k <= |order| && forall m :: 0 <= m < |order| ==> order[m] < |bases|
    ensures |out| == |bases|
    ensures Sum(out) == Sum(bases) + k
  {
    if k == 0 then bases
    else
      var before := Bumped(bases, order, k - 1);
      SumUpdate(before, order[k - 1], before[order[k - 1]] + 1);
      before[order[k - 1] := before[order[k - 1]] + 1]
  }

  lemma {:induction false} BumpedAt(bases: seq<int>, order: seq<nat>, k: nat, m: nat)
    requires k <= |order| && (forall i :: 0 <= i < |order| ==> order[i] < |bases|)
    requires NoDuplicates(order) && m < |order|
    ensures Bumped(bases, order, k)[order[m]] == bases[order[m]] + if m < k then 1 else 0
  {
    if k > 0 {
      BumpedAt(bases, order, k - 1, m);
    }
  }

  lemma {:induction false} QuotaSums(total: nat, ws: seq<int>, whole: int)
    requires 0 < whole
    ensures total * Sum(ws) ==
            whole * Sum(seq(|ws|, i requires 0 <= i < |ws| => Base(total, ws[i], whole)))
            + Sum(seq(|ws|, i requires 0 <= i < |ws| => Residue(total, ws[i], whole)))
  {
    var bs := seq(|ws|, i requires 0 <= i < |ws| => Base(total, ws[i], whole));
    var rs := seq(|ws|, i requires 0 <= i < |ws| => Residue(total, ws[i], whole));
    if ws != [] {
      var n := |ws| - 1;
      var init := ws[..n];
      QuotaSums(total, init, whole);
      assert bs[..n] == seq(|init|, i requires 0 <= i < |init| => Base(total, init[i], whole));
      assert rs[..n] == seq(|init|, i requires 0 <= i < |init| => Residue(total, init[i], whole));
      DivisionStep(total * ws[n], whole);
      Distribute(total, Sum(init), ws[n]);
      Distribute(whole, Sum(bs[..n]), bs[n]);
    }
  }

  lemma DivisionStep(x: int, whole: int)
    requires 0 < whole
    ensures x == whole * (x / whole) + x % whole
    ensures 0 <= x % whole < whole
  {}

  lemma Distribute(a: int, x: int, y: int)
    ensures a * (x + y) == a * x + a * y
  {}

  lemma {:induction false} SumAtMost(rs: seq<int>, high: nat)
    requires forall i :: 0 <= i < |rs| ==> 0 <= rs[i] <= high
    ensures Sum(rs) <= high * |set i: nat | i < |rs| && rs[i] > 0|
  {
    var positive := set i: nat | i < |rs| && rs[i] > 0;
    if rs != [] {
      var n := |rs| - 1;
      var init := rs[..n];
      SumAtMost(init, high);
      var before := set i: nat | i < |init| && init[i] > 0;
      if rs[n] > 0 {
        assert positive == before + {n};
        Distribute(high, |before|, 1);
      } else {
        assert positive == before;
      }
    }
  }

  /** The remainder is never negative and is below the number of claimants with a residue. */
  lemma RemainderBound(total: nat, ws: seq<int>)
    requires Weights(ws)
    ensures 0 <= Remainder(total, ws) <= |ws|
    ensures Remainder(total, ws) > 0 ==>
              Remainder(total, ws) < |set i: nat | i < |ws| && Residues(total, ws)[i] > 0|
  {
    var whole, rs, rem := Sum(ws), Residues(total, ws), Remainder(total, ws);
    QuotaSums(total, ws, whole);
    Distribute(whole, Sum(Bases(total, ws)), rem);
    assert whole * rem == Sum(rs);
    forall i | 0 <= i < |rs| ensures 0 <= rs[i] <= whole - 1 {
      DivisionStep(total * ws[i], whole);
    }
    SumLower(rs, 0);
    SumAtMost(rs, whole - 1);
    var positive := set i: nat | i < |rs| && rs[i] > 0;
    assert positive == set i: nat | i < |ws| && rs[i] > 0;
    BoundedSetSize(positive, |ws|);
    ScaledBound(whole, rem, |positive|);
  }

  lemma CompareScaled(whole: int, a: int, b: int)
    requires 0 < whole
    ensures a < b <==> whole * a < whole * b
  {}

  lemma ScaledBound(whole: int, rem: int, n: nat)
    requires 0 < whole && 0 <= whole * rem <= (whole - 1) * n
    ensures 0 <= rem <= n && (rem > 0 ==> rem < n)
  {
    CompareScaled(whole, rem, 0);
    CompareScaled(whole, 0, rem);
    CompareScaled(whole, rem, n);
    Distribute(n, whole, -1);
    assert whole * rem <= whole * n - n;
  }

  /** Every raised claimant has a residue, so no share leaves its quota's floor and ceiling. */
  lemma RaisedHasResidue(total: nat, ws: seq<int>, i: nat)
    requires Weights(ws) && i < |ws| && Rank(Residues(total, ws), i) < Remainder(total, ws)
    ensures Residues(total, ws)[i] > 0
  {
    var rs, rem := Residues(total, ws), Remainder(total, ws);
    RemainderBound(total, ws);
    if rs[i] <= 0 {
      DivisionStep(total * ws[i], Sum(ws));
      var ahead := set j: nat | j < |rs| && Ahead(rs, j, i);
      var positive := set j: nat | j < |ws| && rs[j] > 0;
      assert positive <= ahead;
      SubsetSize(positive, ahead);
    }
  }

  /** Raising the first `remainder` claimants of `order` from `start` gives the fair shares. */
  ghost predicate IsPlan(total: nat, ws: seq<int>, start: seq<int>, order: seq<nat>, remainder: int)
    requires 0 < Sum(ws)
  {
    && |start| == |order| == |ws|
    && 0 <= remainder <= |ws|
    && (forall k :: 0 <= k < |order| ==> order[k] < |start|)
    && Shares(total, ws) == Bumped(start, order, remainder)
  }

  /** The shares are exactly what bumping the sorted order produces. */
  lemma SharesAreBumped(total: nat, ws: seq<int>)
    requires Weights(ws)
    ensures IsPlan(total, ws, Bases(total, ws), Order(Residues(total, ws)), Remainder(total, ws))
  {
    var rs, bs, rem := Residues(total, ws), Bases(total, ws), Remainder(total, ws);
    var order := Order(rs);
    OrderLength(rs);
    RemainderBound(total, ws);
    var out := Bumped(bs, order, rem);
    hide Rank, Remainder, Bumped;
    forall i: nat | i < |ws| ensures Share(total, ws, i) == out[i] {
      var m := ListedAt(order, i);
      RankOfPosition(rs, order, m);
      BumpedAt(bs, order, rem, m);
    }
    assert Shares(total, ws) == out;
  }

  method PlanBumps(total: nat, ws: seq<int>) returns (start: seq<int>, order: seq<nat>, remainder: nat)
    requires Weights(ws)
    ensures IsPlan(total, ws, start, order, remainder)
  {
    SharesAreBumped(total, ws);
    start, order, remainder := Bases(total, ws), Order(Residues(total, ws)), Remainder(total, ws);
  }

  /** Nothing is created or lost. */
  lemma SharesConserve(total: nat, ws: seq<int>)
    requires Weights(ws)
    ensures Sum(Shares(total, ws)) == total
  {
    SharesAreBumped(total, ws);
  }

  /**
   The quota rule: every share is the floor of its exact quota, or its ceiling when that differs;
   no weight gets nothing.
   */
  lemma QuotaRule(total: nat, ws: seq<int>, i: nat)
    requires Weights(ws) && i < |ws|
    ensures var share := Shares(total, ws)[i];
            && share * Sum(ws) < total * ws[i] + Sum(ws)
            && total * ws[i] < share * Sum(ws) + Sum(ws)
            && 0 <= share
            && (ws[i] == 0 ==> share == 0)
  {
    var raised := Rank(Residues(total, ws), i) < Remainder(total, ws);
    if raised {
      RaisedHasResidue(total, ws, i);
    }
    RoundedQuota(total, ws[i], Sum(ws), raised);
  }

  lemma RoundedQuota(total: nat, w: nat, whole: int, raised: bool)
    requires 0 < whole && (raised ==> Residue(total, w, whole) > 0)
    ensures var share := Base(total, w, whole) + if raised then 1 else 0;
            && share * whole < total * w + whole
            && total * w < share * whole + whole
            && 0 <= share
            && (w == 0 ==> share == 0)
  {
    var base := Base(total, w, whole);
    DivisionStep(total * w, whole);
    Distribute(whole, base, 1);
    assert 0 <= total * w;
    assert w == 0 ==> total * w == 0;
  }

  /** A larger residue comes no later in the bump order. */
  lemma LargerResidueFirst(rs: seq<int>, i: nat, j: nat)
    requires i < |rs| && j < |rs| && rs[j] < rs[i]
    ensures Rank(rs, i) <= Rank(rs, j)
  {
    var aheadI := set k: nat | k < |rs| && Ahead(rs, k, i);
    var aheadJ := set k: nat | k < |rs| && Ahead(rs, k, j);
    assert aheadI <= aheadJ;
    SubsetSize(aheadI, aheadJ);
  }

  lemma AheadRanks(rs: seq<int>, i: nat, j: nat)
    requires i < |rs| && j < |rs| && Ahead(rs, i, j)
    ensures Rank(rs, i) < Rank(rs, j)
  {
    var aheadI := set k: nat | k < |rs| && Ahead(rs, k, i);
    var aheadJ := set k: nat | k < |rs| && Ahead(rs, k, j);
    assert aheadI + {i} <= aheadJ && i !in aheadI;
    SubsetSize(aheadI + {i}, aheadJ);
  }

  /** Who gets the extra unit: nobody with a smaller remainder, nor with the same one and listed later, is preferred. */
  lemma LargestRemainders(total: nat, ws: seq<int>, i: nat, j: nat)
    requires Weights(ws) && i < |ws| && j < |ws| && i != j
    requires Shares(total, ws)[i] != total * ws[i] / Sum(ws) && Shares(total, ws)[j] == total * ws[j] / Sum(ws)
    ensures var x, y := total * ws[i] % Sum(ws), total * ws[j] % Sum(ws); y < x || (y == x && i < j)
  {
    var rs := Residues(total, ws);
    if !Ahead(rs, i, j) {
      AheadRanks(rs, j, i);
    }
  }

  /** A larger weight never gets a smaller share. */
  lemma SharesMonotone(total: nat, ws: seq<int>, i: nat, j: nat)
    requires Weights(ws) && i < |ws| && j < |ws| && ws[j] < ws[i]
    ensures Shares(total, ws)[j] <= Shares(total, ws)[i]
  {
    hide Rank, Remainder, Base, Residue;
    var whole, rs := Sum(ws), Residues(total, ws);
    QuotasOrdered(total, ws, i, j);
    if Base(total, ws[i], whole) == Base(total, ws[j], whole) {
      if rs[j] == rs[i] {
        EqualBases(total, ws, i, j);
      } else {
        LargerResidueFirst(rs, i, j);
      }
    }
  }

  /** Quotas keep the order of the weights: by their bases, and within one base by their residues. */
  lemma QuotasOrdered(total: nat, ws: seq<int>, i: nat, j: nat)
    requires Weights(ws) && i < |ws| && j < |ws| && ws[j] < ws[i]
    ensures Base(total, ws[j], Sum(ws)) <= Base(total, ws[i], Sum(ws))
    ensures Base(total, ws[j], Sum(ws)) == Base(total, ws[i], Sum(ws)) ==>
              Residues(total, ws)[j] <= Residues(total, ws)[i]
  {
    var whole := Sum(ws);
    DivisionStep(total * ws[i], whole);
    DivisionStep(total * ws[j], whole);
    assert total * ws[j] <= total * ws[i];
    BasesMonotone(total * ws[j], total * ws[i], whole);
  }

  /** Two different weights with one quota mean that there is nothing to share. */
  lemma EqualBases(total: nat, ws: seq<int>, i: nat, j: nat)
    requires Weights(ws) && i < |ws| && j < |ws| && ws[j] < ws[i]
    requires Base(total, ws[j], Sum(ws)) == Base(total, ws[i], Sum(ws))
    requires Residues(total, ws)[j] == Residues(total, ws)[i]
    ensures Shares(total, ws)[j] <= Shares(total, ws)[i]
  {
    var whole := Sum(ws);
    DivisionStep(total * ws[i], whole);
    DivisionStep(total * ws[j], whole);
    EqualQuotas(total, ws[j], ws[i], whole);
    RemainderBound(0, ws);
    NothingToShare(ws);
  }

  lemma BasesMonotone(x: int, y: int, whole: int)
    requires 0 < whole && x <= y
    ensures x / whole <= y / whole
    ensures x / whole == y / whole ==> x % whole <= y % whole
  {
    DivisionStep(x, whole);
    DivisionStep(y, whole);
    if x / whole > y / whole {
      assert whole * (x / whole) >= whole * (y / whole + 1);
      Distribute(whole, y / whole, 1);
    }
  }

  /** Different weights have the same quota only when there is nothing to share out. */
  lemma EqualQuotas(total: nat, v: int, w: int, whole: int)
    requires 0 < whole && v < w
    requires Base(total, v, whole) == Base(total, w, whole) && Residue(total, v, whole) == Residue(total, w, whole)
    ensures total == 0
  {
    DivisionStep(total * v, whole);
    DivisionStep(total * w, whole);
    assert total * (w - v) == 0 by { Distribute(total, w, -v); }
    CompareScaled(w - v, 0, total);
  }

  lemma NothingToShare(ws: seq<int>)
    requires Weights(ws)
    ensures Remainder(0, ws) == 0
  {
    var rs := Residues(0, ws);
    RemainderBound(0, ws);
    forall i: nat | i < |ws| ensures rs[i] == 0 {
      assert 0 * ws[i] == 0;
    }
    assert (set i: nat | i < |ws| && rs[i] > 0) == {};
  }
}
