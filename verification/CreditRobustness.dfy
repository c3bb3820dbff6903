/** When aggregation can and cannot fail to normalize. */
module CreditRobustness {
  import opened Basics
  import opened Ordering
  import opened Medians
  import opened CommunityTypes
  import opened Credit
  import opened Aggregation

  /** What validation guarantees of decided ballots: each splits 10000 over exactly the participants. */
  ghost predicate FullBallots(ballots: Ballots, ids: seq<Id>, participants: set<Id>) {
    forall r :: r in ids ==>
      && r in ballots
      && ballots[r].shares.Keys == participants
      && NonNegative(ballots[r].shares)
      && Total(ballots[r].shares) == 10_000
  }

  function Column(ballots: Ballots, ids: seq<Id>, ps: seq<Id>): (masses: seq<int>)
    ensures |masses| == |ps|
  {
    seq(|ps|, i requires 0 <= i < |ps| => Sum(SharesFor(ballots, ids, ps[i])))
  }

  function Row(ballots: Ballots, r: Id, ps: seq<Id>): (row: seq<int>)
    ensures |row| == |ps|
  {
    seq(|ps|, i requires 0 <= i < |ps| => ShareOf(ballots, r, ps[i]))
  }

  lemma {:induction false} SumPointwise(a: seq<int>, b: seq<int>, c: seq<int>)
    requires |a| == |b| == |c| && forall i :: 0 <= i < |a| ==> c[i] == a[i] + b[i]
    ensures Sum(c) == Sum(a) + Sum(b)
  {
    if a != [] {
      SumPointwise(a[..|a| - 1], b[..|b| - 1], c[..|c| - 1]);
    }
  }

  lemma {:induction false} SumConstant(xs: seq<int>, c: int)
    requires forall i :: 0 <= i < |xs| ==> xs[i] == c
    ensures Sum(xs) == c * |xs|
  {
    SumLower(xs, c);
    SumUpper(xs, c);
  }

  /** Counting by participant and counting by ballot give the same mass: 10000 per ballot. */
  lemma {:induction false} DoubleCount(ballots: Ballots, ids: seq<Id>, participants: set<Id>)
    requires FullBallots(ballots, ids, participants)
    ensures Sum(Column(ballots, ids, SortedTexts(participants))) == 10_000 * |ids|
  {
    var ps := SortedTexts(participants);
    if ids == [] {
      forall i | 0 <= i < |ps| ensures Column(ballots, ids, ps)[i] == 0 {}
      SumConstant(Column(ballots, ids, ps), 0);
    } else {
      var init, last := ids[..|ids| - 1], ids[|ids| - 1];
      SplitLast(ids);
      DoubleCount(ballots, init, participants);
      ColumnStep(ballots, init, last, ps);
      assert last in ids;
      RowIsValues(ballots, last, participants);
    }
  }

  lemma ColumnStep(ballots: Ballots, init: seq<Id>, last: Id, ps: seq<Id>)
    ensures Sum(Column(ballots, init + [last], ps)) == Sum(Column(ballots, init, ps)) + Sum(Row(ballots, last, ps))
  {
    var longer := Column(ballots, init + [last], ps);
    forall i | 0 <= i < |ps| ensures longer[i] == Column(ballots, init, ps)[i] + Row(ballots, last, ps)[i] {
      assert SharesFor(ballots, init + [last], ps[i])[..|init|] == SharesFor(ballots, init, ps[i]);
    }
    SumPointwise(Column(ballots, init, ps), Row(ballots, last, ps), longer);
  }

  lemma RowIsValues(ballots: Ballots, r: Id, participants: set<Id>)
    requires r in ballots && ballots[r].shares.Keys == participants
    ensures Row(ballots, r, SortedTexts(participants)) == ValuesOf(ballots[r].shares)
  {
    var m := ballots[r].shares;
    assert |m.Keys| == |m|;
    forall i | 0 <= i < |m| ensures Row(ballots, r, SortedTexts(participants))[i] == ValuesOf(m)[i] {
      KeysPresent(m, i);
    }
  }

  lemma SpreadWithinDispersion(ballots: Ballots, ids: seq<Id>, participants: set<Id>, d: nat, p: Id)
    requires ids != [] && p in participants
    requires Dispersion(ballots, ids, SortedTexts(participants)).Some?
    requires Dispersion(ballots, ids, SortedTexts(participants)).value <= d
    ensures Spread(SharesFor(ballots, ids, p), d)
  {
    var ps := SortedTexts(participants);
    var spreads := seq(|ps|, i requires 0 <= i < |ps| => SpreadFor(ballots, ids, ps[i]));
    assert p in Elements(ps);
    var k :| 0 <= k < |ps| && ps[k] == p;
    assert spreads[k] in spreads;
    var values := SharesFor(ballots, ids, p);
    forall i, j | 0 <= i < |values| && 0 <= j < |values| ensures values[i] - values[j] <= d {
      assert values[i] in values && values[j] in values;
    }
  }

  ghost predicate WithinLimit(ballots: Ballots, ids: seq<Id>, participants: set<Id>, d: nat) {
    && ids != [] && participants != {}
    && FullBallots(ballots, ids, participants)
    && forall p :: p in participants ==> Spread(SharesFor(ballots, ids, p), d)
  }

  lemma MedianCount(ballots: Ballots, ids: seq<Id>, participants: set<Id>)
    requires ids != []
    ensures |ValuesOf(MediansFor(ballots, ids, participants))| == |participants|
    ensures |SortedTexts(participants)| == |participants|
  {
    var medians := MediansFor(ballots, ids, participants);
    assert medians.Keys == participants && |medians.Keys| == |medians|;
  }

  lemma MedianAt(ballots: Ballots, ids: seq<Id>, participants: set<Id>, i: nat)
    requires ids != [] && i < |participants|
    ensures var medians := MediansFor(ballots, ids, participants);
            && |medians| == |participants|
            && SortedTexts(participants)[i] in participants
            && ValuesOf(medians)[i] == Median(SharesFor(ballots, ids, SortedTexts(participants)[i]))
  {
    var medians := MediansFor(ballots, ids, participants);
    assert medians.Keys == participants;
    assert |medians.Keys| == |medians|;
    KeysPresent(medians, i);
  }

  lemma FullSharesNonNegative(ballots: Ballots, ids: seq<Id>, participants: set<Id>, p: Id)
    requires FullBallots(ballots, ids, participants)
    ensures var values := SharesFor(ballots, ids, p);
            forall i :: 0 <= i < |values| ==> 0 <= values[i] && values[i] in values
  {
    var values := SharesFor(ballots, ids, p);
    forall i | 0 <= i < |values| ensures 0 <= values[i] {
      assert ids[i] in ids;
    }
  }

  /** n participants that agree within d keep at least 10000 - n * d of the credit in the medians. */
  lemma MedianMass(ballots: Ballots, ids: seq<Id>, participants: set<Id>, d: nat)
    requires WithinLimit(ballots, ids, participants, d)
    ensures Total(MediansFor(ballots, ids, participants)) >= 10_000 - |participants| * d
  {
    var ps := SortedTexts(participants);
    var row := Row(ballots, ids[0], ps);
    assert ids[0] in ids;
    RowIsValues(ballots, ids[0], participants);
    var medians := ValuesOf(MediansFor(ballots, ids, participants));
    forall i | 0 <= i < |ps| ensures i < |medians| && row[i] - d <= medians[i] {
      MedianAt(ballots, ids, participants, i);
      MedianNear(SharesFor(ballots, ids, ps[i]), d);
    }
    MedianAt(ballots, ids, participants, 0);
    SumNear(row, medians, d);
  }

  lemma MedianNear(values: seq<int>, d: nat)
    requires values != [] && Spread(values, d)
    ensures values[0] - d <= Median(values)
  {
    MedianWithin(values, values[0] - d, values[0] + d);
  }

  lemma SumNear(row: seq<int>, medians: seq<int>, d: int)
    requires |row| == |medians| && forall i :: 0 <= i < |row| ==> row[i] - d <= medians[i]
    ensures Sum(medians) >= Sum(row) - |row| * d
  {
    var slack := seq(|row|, i requires 0 <= i < |row| => medians[i] - row[i]);
    SumPointwise(row, slack, medians);
    SumLower(slack, -d);
    NegateProduct(d, |row|);
  }

  lemma NegateProduct(d: int, n: int)
    ensures (-d) * n == -(n * d)
  {}

  lemma MedianNotNegative(values: seq<int>)
    requires values != [] && forall i :: 0 <= i < |values| ==> 0 <= values[i] && values[i] in values
    ensures 0 <= Median(values)
  {
    MedianWithin(values, 0, Highest(values));
  }

  lemma MediansNotNegative(ballots: Ballots, ids: seq<Id>, participants: set<Id>)
    requires ids != [] && FullBallots(ballots, ids, participants)
    ensures forall i :: 0 <= i < |MediansFor(ballots, ids, participants)| ==>
              0 <= ValuesOf(MediansFor(ballots, ids, participants))[i]
  {
    var medians := ValuesOf(MediansFor(ballots, ids, participants));
    MedianCount(ballots, ids, participants);
    forall i | 0 <= i < |medians| ensures 0 <= medians[i] {
      MedianAt(ballots, ids, participants, i);
      FullSharesNonNegative(ballots, ids, participants, SortedTexts(participants)[i]);
      MedianNotNegative(SharesFor(ballots, ids, SortedTexts(participants)[i]));
    }
  }

  /** A participant whose median is zero holds less than half of what it could. */
  lemma ColumnBound(ballots: Ballots, ids: seq<Id>, participants: set<Id>, d: nat, i: nat)
    requires WithinLimit(ballots, ids, participants, d) && 2 <= d && i < |participants|
    requires i < |MediansFor(ballots, ids, participants)|
    requires ValuesOf(MediansFor(ballots, ids, participants))[i] == 0
    ensures 2 * Column(ballots, ids, SortedTexts(participants))[i] <= (|ids| - 1) * d
  {
    MedianAt(ballots, ids, participants, i);
    FullSharesNonNegative(ballots, ids, participants, SortedTexts(participants)[i]);
    ZeroMedianMass(SharesFor(ballots, ids, SortedTexts(participants)[i]), d);
  }

  lemma HalfMass(column: seq<int>, cap: int)
    requires forall i :: 0 <= i < |column| ==> 2 * column[i] <= cap
    ensures 2 * Sum(column) <= cap * |column|
  {
    var doubled := seq(|column|, i requires 0 <= i < |column| => 2 * column[i]);
    SumPointwise(column, column, doubled);
    SumUpper(doubled, cap);
  }

  lemma Rearrange(k: nat, d: nat, n: nat)
    requires n * d <= 20_000
    ensures k * d * n <= 20_000 * k
  {
    assert k * d * n == k * (n * d);
  }

  /** If every median were zero, less than half of the mass could be placed. */
  lemma VanishedMass(ballots: Ballots, ids: seq<Id>, participants: set<Id>, d: nat)
    requires WithinLimit(ballots, ids, participants, d) && 2 <= d
    requires Total(MediansFor(ballots, ids, participants)) <= 0
    ensures 20_000 * |ids| <= (|ids| - 1) * d * |participants|
  {
    var medians := ValuesOf(MediansFor(ballots, ids, participants));
    var cap := (|ids| - 1) * d;
    MedianCount(ballots, ids, participants);
    MediansNotNegative(ballots, ids, participants);
    var column := Column(ballots, ids, SortedTexts(participants));
    forall i | 0 <= i < |column| ensures 2 * column[i] <= cap {
      SumNonNegativeElement(medians, i);
      ColumnBound(ballots, ids, participants, d, i);
    }
    DoubleCount(ballots, ids, participants);
    HalfMass(column, cap);
  }

  /** While n * d is at most twice the whole, the medians cannot all be zero. */
  lemma MediansNeverVanish(ballots: Ballots, ids: seq<Id>, participants: set<Id>, d: nat)
    requires WithinLimit(ballots, ids, participants, d)
    requires |participants| <= 10_000 && |participants| * d <= 20_000
    ensures Total(MediansFor(ballots, ids, participants)) > 0
  {
    if Total(MediansFor(ballots, ids, participants)) <= 0 {
      var wide := if d < 2 then 2 else d;
      assert WithinLimit(ballots, ids, participants, wide);
      VanishedMass(ballots, ids, participants, wide);
      Rearrange(|ids| - 1, wide, |participants|);
    }
  }

  /** Ballots under a manifest's quorum and dispersion limit are within that limit everywhere. */
  lemma LimitHolds(m: Manifest, ballots: Ballots, ids: seq<Id>, cast: nat)
    requires 2 <= |m.participants| <= 128 && 3 <= m.policy.reviewQuorum && 0 <= m.policy.maxDispersionBps
    requires FullBallots(ballots, ids, m.participants.Keys)
    requires ReasonFor(m.policy, cast, |ids|, Dispersion(ballots, ids, SortedTexts(m.participants.Keys))).None?
    ensures WithinLimit(ballots, ids, m.participants.Keys, m.policy.maxDispersionBps)
    ensures |m.participants.Keys| == |m.participants| <= 128
  {
    var ps := m.participants.Keys;
    assert |ps| == |m.participants|;
    assert |SortedTexts(ps)| == |ps|;
    forall p | p in ps ensures Spread(SharesFor(ballots, ids, p), m.policy.maxDispersionBps) {
      SpreadWithinDispersion(ballots, ids, ps, m.policy.maxDispersionBps, p);
    }
  }

  /**
   No frozen policy with n * D <= 20000 can leave a case whose ballots meet quorum and dispersion
   without an allocation. PanelDeadlock shows the failure that larger products allow.
   */
  lemma AggregationNeverFails(m: Manifest, root: Digest, ballots: Ballots, revealed: seq<Id>)
    requires ValidManifest(m)
    requires FullBallots(ballots, DecidedIds(ballots, revealed), m.participants.Keys)
    requires |m.participants| * m.policy.maxDispersionBps <= 20_000
    ensures Aggregate(m, root, ballots, revealed).Accept?
  {
    RejectsExactly(m, root, ballots, revealed);
    MediansPositive(m, ballots, DecidedIds(ballots, revealed), |ballots|);
  }

  lemma MediansPositive(m: Manifest, ballots: Ballots, ids: seq<Id>, cast: nat)
    requires 2 <= |m.participants| <= 128 && 3 <= m.policy.reviewQuorum && 0 <= m.policy.maxDispersionBps
    requires FullBallots(ballots, ids, m.participants.Keys)
    requires |m.participants| * m.policy.maxDispersionBps <= 20_000
    ensures ReasonFor(m.policy, cast, |ids|, Dispersion(ballots, ids, SortedTexts(m.participants.Keys))).None? ==>
              Total(MediansFor(ballots, ids, m.participants.Keys)) > 0
  {
    if ReasonFor(m.policy, cast, |ids|, Dispersion(ballots, ids, SortedTexts(m.participants.Keys))).None? {
      LimitHolds(m, ballots, ids, cast);
      MediansNeverVanish(ballots, ids, m.participants.Keys, m.policy.maxDispersionBps);
    }
  }
}
