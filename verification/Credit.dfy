/** Normalization of median shares and aggregation of revealed credit ballots. */
module Credit {
  import opened Basics
  import opened Ordering
  import opened Apportionment

  const FullBps: nat := 10_000

  /** The values of a map in sorted key order. */
  function ValuesOf(m: map<Id, int>): (ws: seq<int>)
    ensures |ws| == |m|
  {
    seq(|m|, i requires 0 <= i < |m| => ValueAt(m, i))
  }

  function ValueAt(m: map<Id, int>, i: nat): int
    requires i < |m|
  {
    KeysPresent(m, i);
    m[SortedTexts(m.Keys)[i]]
  }

  lemma KeysPresent(m: map<Id, int>, i: nat)
    requires i < |m|
    ensures |SortedTexts(m.Keys)| == |m| && SortedTexts(m.Keys)[i] in m
  {
    assert |m.Keys| == |m|;
    assert SortedTexts(m.Keys)[i] in Elements(SortedTexts(m.Keys));
  }

  function Total(m: map<Id, int>): int {
    Sum(ValuesOf(m))
  }

  /** Pair keys, without repetition, with values. */
  function Zip(ids: seq<Id>, values: seq<int>): (m: map<Id, int>)
    requires NoDuplicates(ids) && |ids| == |values|
    ensures m.Keys == Elements(ids)
    ensures forall i :: 0 <= i < |ids| ==> ids[i] in m && m[ids[i]] == values[i]
  {
    map i | 0 <= i < |ids| :: ids[i] := values[i]
  }

  lemma ZipValues(ids: seq<Id>, values: seq<int>)
    requires SortedBy(TextLe, ids) && |ids| == |values|
    ensures ValuesOf(Zip(ids, values)) == values
  {
    var m := Zip(ids, values);
    TextOrder();
    SortedUnique(TextLe, ids, SortedTexts(m.Keys));
    assert |m| == |m.Keys|;
    forall i | 0 <= i < |ids| ensures ValuesOf(m)[i] == values[i] {
      KeysPresent(m, i);
    }
  }

  // ----- Normalization -----

  /** Scale non-negative weights to exactly 10000 basis points. */
  ghost function Normalized(raw: map<Id, int>): Result<map<Id, int>> {
    if Total(raw) <= 0 then Reject
    else Accept(Zip(SortedTexts(raw.Keys), Shares(FullBps, ValuesOf(raw))))
  }

  ghost predicate NonNegative(m: map<Id, int>) {
    forall p :: p in m ==> 0 <= m[p]
  }

  lemma WeightsOf(raw: map<Id, int>)
    requires NonNegative(raw)
    ensures forall i :: 0 <= i < |raw| ==> 0 <= ValuesOf(raw)[i]
    ensures Total(raw) > 0 ==> Weights(ValuesOf(raw))
  {
    forall i | 0 <= i < |raw| ensures 0 <= ValuesOf(raw)[i] {
      KeysPresent(raw, i);
    }
  }

  method NormalizeBps(raw: map<Id, int>) returns (shares: Result<map<Id, int>>)
    requires NonNegative(raw)
    ensures shares == Normalized(raw)
  {
    var ids, weights := SortedTexts(raw.Keys), ValuesOf(raw);
    if Sum(weights) <= 0 {
      return Reject;
    }
    WeightsOf(raw);
    var start, residues, remainder := PlanBumps(FullBps, weights);
    assert |ids| == |start| by { assert |raw.Keys| == |raw|; }
    var bases := BumpForemost(ids, start, residues, remainder);
    return Accept(bases);
  }

  /** Raise the first `remainder` participants of the order by one, in place. */
  method BumpForemost(ids: seq<Id>, start: seq<int>, order: seq<nat>, remainder: nat) returns (bases: map<Id, int>)
    requires NoDuplicates(ids) && |ids| == |start| && remainder <= |order|
    requires forall k :: 0 <= k < |order| ==> order[k] < |start|
    ensures bases == Zip(ids, Bumped(start, order, remainder))
  {
    bases := Zip(ids, start);
    assert Bumped(start, order, 0) == start;
    hide Zip, Bumped;
    for k := 0 to remainder
      invariant bases == Zip(ids, Bumped(start, order, k))
    {
      BumpStep(ids, start, order, k);
      bases := bases[ids[order[k]] := bases[ids[order[k]]] + 1];
    }
  }

  lemma BumpStep(ids: seq<Id>, start: seq<int>, order: seq<nat>, k: nat)
    requires NoDuplicates(ids) && |ids| == |start| && k < |order|
    requires forall m :: 0 <= m < |order| ==> order[m] < |start|
    ensures var before, p := Zip(ids, Bumped(start, order, k)), ids[order[k]];
            p in before && before[p := before[p] + 1] == Zip(ids, Bumped(start, order, k + 1))
  {
    var values := Bumped(start, order, k);
    assert Bumped(start, order, k + 1) == values[order[k] := values[order[k]] + 1];
    BumpInMap(ids, values, order[k]);
  }

  lemma BumpInMap(ids: seq<Id>, values: seq<int>, i: nat)
    requires NoDuplicates(ids) && |ids| == |values| && i < |ids|
    ensures Zip(ids, values)[ids[i] := Zip(ids, values)[ids[i]] + 1] == Zip(ids, values[i := values[i] + 1])
  {
    var a, b := Zip(ids, values)[ids[i] := values[i] + 1], Zip(ids, values[i := values[i] + 1]);
    assert a.Keys == b.Keys;
    forall p | p in a ensures a[p] == b[p] {
      var k :| 0 <= k < |ids| && ids[k] == p;
    }
  }

  /** What normalization promises for a participant: its exact quota rounded down or up. */
  ghost predicate RoundedShare(share: int, weight: int, total: int) {
    && 0 <= share
    && share * total < 10_000 * weight + total
    && 10_000 * weight < share * total + total
    && (weight == 0 ==> share == 0)
  }

  lemma PositionOf(raw: map<Id, int>, p: Id) returns (i: nat)
    requires p in raw
    ensures i < |raw| && SortedTexts(raw.Keys)[i] == p && ValuesOf(raw)[i] == raw[p]
  {
    var ids := SortedTexts(raw.Keys);
    assert p in Elements(ids);
    i :| 0 <= i < |ids| && ids[i] == p;
    assert |raw.Keys| == |raw|;
  }

  /** Normalization covers everyone, sums to 10000, rounds each quota, and never reverses an order. */
  lemma NormalizationSound(raw: map<Id, int>)
    requires NonNegative(raw) && Total(raw) > 0
    ensures var shares := Normalized(raw).value;
            && shares.Keys == raw.Keys
            && Total(shares) == 10_000
            && (forall p :: p in raw ==> RoundedShare(shares[p], raw[p], Total(raw)))
            && (forall p, q :: p in raw && q in raw && raw[p] < raw[q] ==> shares[p] <= shares[q])
  {
    var ids, ws := SortedTexts(raw.Keys), ValuesOf(raw);
    var values := Shares(FullBps, ws);
    var shares := Normalized(raw).value;
    WeightsOf(raw);
    ZipValues(ids, values);
    SharesConserve(FullBps, ws);
    forall p | p in raw ensures RoundedShare(shares[p], raw[p], Total(raw)) {
      var i := PositionOf(raw, p);
      QuotaRule(FullBps, ws, i);
    }
    forall p, q | p in raw && q in raw && raw[p] < raw[q] ensures shares[p] <= shares[q] {
      var i := PositionOf(raw, p);
      var j := PositionOf(raw, q);
      SharesMonotone(FullBps, ws, j, i);
    }
  }

  /** Who is rounded up: the larger remainder first, and the earlier identifier among equals. */
  lemma NormalizationTies(raw: map<Id, int>, p: Id, q: Id)
    requires NonNegative(raw) && Total(raw) > 0 && p in raw && q in raw && p != q
    requires p in Normalized(raw).value && q in Normalized(raw).value
    requires Normalized(raw).value[p] != 10_000 * raw[p] / Total(raw)
    requires Normalized(raw).value[q] == 10_000 * raw[q] / Total(raw)
    ensures var x, y := 10_000 * raw[p] % Total(raw), 10_000 * raw[q] % Total(raw);
            y < x || (y == x && TextLe(p, q))
  {
    WeightsOf(raw);
    assert |raw.Keys| == |raw|;
    var i := PositionOf(raw, p);
    var j := PositionOf(raw, q);
    hide Shares;
    LargestRemainders(FullBps, ValuesOf(raw), i, j);
  }
}
