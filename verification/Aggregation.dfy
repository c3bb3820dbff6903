/** Deterministic aggregation of revealed credit ballots into an allocation. */
module Aggregation {
  import opened Basics
  import opened Ordering
  import opened Medians
  import opened CommunityTypes
  import opened Credit

  type Ballots = map<Id, Ballot>

  /** The reviewers that decided, in the order their ballots were inserted. */
  function DecidedIds(ballots: Ballots, revealed: seq<Id>): (ids: seq<Id>)
    ensures forall r :: r in ids <==> r in revealed && r in ballots && ballots[r].decided
  {
    if revealed == [] then []
    else
      var last := revealed[|revealed| - 1];
      SplitLast(revealed);
      DecidedIds(ballots, revealed[..|revealed| - 1]) + if last in ballots && ballots[last].decided then [last] else []
  }

  /** A validated ballot gives every participant a share, so the default is never taken. */
  function ShareOf(ballots: Ballots, reviewer: Id, p: Id): int {
    if reviewer in ballots && p in ballots[reviewer].shares then ballots[reviewer].shares[p] else 0
  }

  function SharesFor(ballots: Ballots, ids: seq<Id>, p: Id): (values: seq<int>)
    ensures |values| == |ids|
    ensures forall i :: 0 <= i < |ids| ==> values[i] == ShareOf(ballots, ids[i], p)
  {
    seq(|ids|, i requires 0 <= i < |ids| => ShareOf(ballots, ids[i], p))
  }

  function SpreadFor(ballots: Ballots, ids: seq<Id>, p: Id): int
    requires ids != []
  {
    var values := SharesFor(ballots, ids, p);
    Highest(values) - Lowest(values)
  }

  /** The widest disagreement on any one participant; None without decided ballots. */
  function Dispersion(ballots: Ballots, ids: seq<Id>, participants: seq<Id>): Option<int> {
    if ids == [] || participants == [] then None
    else Some(Highest(seq(|participants|,
                          i requires 0 <= i < |participants| => SpreadFor(ballots, ids, participants[i]))))
  }

  /** Per-participant medians of the decided ballots. */
  function MediansFor(ballots: Ballots, ids: seq<Id>, participants: set<Id>): map<Id, int> {
    if ids == [] then map[] else map p | p in participants :: Median(SharesFor(ballots, ids, p))
  }

  /** Why no allocation may be decided, if anything stands against it. */
  function ReasonFor(policy: Policy, cast: nat, decided: nat, dispersion: Option<int>): Option<Reason> {
    if cast < policy.reviewQuorum || decided < policy.reviewQuorum then Some(QuorumNotMet)
    else if dispersion.Some? && dispersion.value > policy.maxDispersionBps then Some(DispersionExceeded)
    else None
  }

  ghost function Tally(m: Manifest, root: Digest, cast: nat, decided: nat, dispersion: Option<int>,
                       medians: map<Id, int>)
    : Result<Allocation>
  {
    var reason := ReasonFor(m.policy, cast, decided, dispersion);
    if reason.Some? then Accept(Allocation(m.caseId, root, None, cast, decided, dispersion, reason))
    else
      match Normalized(medians)
      case Reject => Reject
      case Accept(bps) => Accept(Allocation(m.caseId, root, Some(bps), cast, decided, dispersion, None))
  }

  /** The recorded outcome; Reject when no participant is left with a positive median. */
  ghost function Aggregate(m: Manifest, root: Digest, ballots: Ballots, revealed: seq<Id>): Result<Allocation> {
    var ids := DecidedIds(ballots, revealed);
    Tally(m, root, |ballots|, |ids|, Dispersion(ballots, ids, SortedTexts(m.participants.Keys)),
          MediansFor(ballots, ids, m.participants.Keys))
  }

  /** Aggregation fails exactly when nothing stands against an allocation yet every median is zero. */
  lemma RejectsExactly(m: Manifest, root: Digest, ballots: Ballots, revealed: seq<Id>)
    ensures var ids := DecidedIds(ballots, revealed);
            var dispersion := Dispersion(ballots, ids, SortedTexts(m.participants.Keys));
            Aggregate(m, root, ballots, revealed).Reject? <==>
            && ReasonFor(m.policy, |ballots|, |ids|, dispersion).None?
            && Total(MediansFor(ballots, ids, m.participants.Keys)) <= 0
  {}

  ghost predicate SharesNonNegative(ballots: Ballots) {
    forall r :: r in ballots ==> NonNegative(ballots[r].shares)
  }

  lemma MedianNonNegative(ballots: Ballots, ids: seq<Id>, p: Id)
    requires ids != [] && SharesNonNegative(ballots)
    ensures 0 <= Median(SharesFor(ballots, ids, p))
  {
    var values := SharesFor(ballots, ids, p);
    forall i | 0 <= i < |values| ensures 0 <= values[i] <= Highest(values) {
      var r := ids[i];
      assert r in ballots ==> NonNegative(ballots[r].shares);
      assert values[i] in values;
    }
    MedianWithin(values, 0, Highest(values));
  }

  lemma MediansNonNegative(ballots: Ballots, ids: seq<Id>, participants: set<Id>)
    requires ids != [] && SharesNonNegative(ballots)
    ensures NonNegative(MediansFor(ballots, ids, participants))
  {
    forall p | p in participants ensures 0 <= Median(SharesFor(ballots, ids, p)) {
      MedianNonNegative(ballots, ids, p);
    }
  }

  method AggregateBallots(m: Manifest, root: Digest, ballots: Ballots, revealed: seq<Id>)
    returns (outcome: Result<Allocation>)
    requires SharesNonNegative(ballots)
    ensures outcome == Aggregate(m, root, ballots, revealed)
  {
    var ids := DecidedIds(ballots, revealed);
    var dispersion := Dispersion(ballots, ids, SortedTexts(m.participants.Keys));
    var reason := ReasonFor(m.policy, |ballots|, |ids|, dispersion);
    if reason.Some? {
      return Accept(Allocation(m.caseId, root, None, |ballots|, |ids|, dispersion, reason));
    }
    if ids != [] {
      MediansNonNegative(ballots, ids, m.participants.Keys);
    }
    var bps := NormalizeBps(MediansFor(ballots, ids, m.participants.Keys));
    match bps
    case Reject => return Reject;
    case Accept(shares) =>
      return Accept(Allocation(m.caseId, root, Some(shares), |ballots|, |ids|, dispersion, None));
  }

  // ----- The reveal order is irrelevant -----

  lemma {:induction false} DecidedDistinct(ballots: Ballots, revealed: seq<Id>)
    requires NoDuplicates(revealed)
    ensures NoDuplicates(DecidedIds(ballots, revealed))
  {
    if revealed != [] {
      SplitLast(revealed);
      var init := revealed[..|revealed| - 1];
      DecidedDistinct(ballots, init);
      assert revealed[|revealed| - 1] !in init;
    }
  }

  lemma {:induction false} SharesPermute(ballots: Ballots, xs: seq<Id>, ys: seq<Id>, p: Id)
    requires multiset(xs) == multiset(ys)
    ensures multiset(SharesFor(ballots, xs, p)) == multiset(SharesFor(ballots, ys, p))
  {
    if xs == [] {
      assert |multiset(ys)| == 0;
    } else {
      var last := xs[|xs| - 1];
      SplitLast(xs);
      assert last in multiset(ys);
      var k :| 0 <= k < |ys| && ys[k] == last;
      var init, rest := xs[..|xs| - 1], ys[..k] + ys[k + 1..];
      assert ys == ys[..k] + [last] + ys[k + 1..];
      assert multiset(init) == multiset(xs) - multiset{last};
      assert multiset(rest) == multiset(ys) - multiset{last};
      SharesPermute(ballots, init, rest, p);
      RemoveShare(ballots, xs, |xs| - 1, p);
      RemoveShare(ballots, ys, k, p);
      assert xs[..|xs| - 1] + xs[|xs| - 1 + 1..] == init;
    }
  }

  lemma RemoveShare(ballots: Ballots, ys: seq<Id>, k: nat, p: Id)
    requires k < |ys|
    ensures multiset(SharesFor(ballots, ys, p)) ==
            multiset(SharesFor(ballots, ys[..k] + ys[k + 1..], p)) + multiset{ShareOf(ballots, ys[k], p)}
  {
    var all := SharesFor(ballots, ys, p);
    assert SharesFor(ballots, ys[..k] + ys[k + 1..], p) == all[..k] + all[k + 1..];
    assert all == all[..k] + [all[k]] + all[k + 1..];
  }

  lemma AgreeOn(ballots: Ballots, xs: seq<Id>, ys: seq<Id>, p: Id)
    requires xs != [] && ys != [] && multiset(xs) == multiset(ys)
    ensures SpreadFor(ballots, xs, p) == SpreadFor(ballots, ys, p)
    ensures Median(SharesFor(ballots, xs, p)) == Median(SharesFor(ballots, ys, p))
  {
    SharesPermute(ballots, xs, ys, p);
    SameExtremes(SharesFor(ballots, xs, p), SharesFor(ballots, ys, p));
    MedianOrderFree(SharesFor(ballots, xs, p), SharesFor(ballots, ys, p));
  }

  lemma DispersionsAgree(ballots: Ballots, xs: seq<Id>, ys: seq<Id>, ps: seq<Id>)
    requires xs != [] && ys != [] && multiset(xs) == multiset(ys)
    ensures Dispersion(ballots, xs, ps) == Dispersion(ballots, ys, ps)
  {
    forall p ensures SpreadFor(ballots, xs, p) == SpreadFor(ballots, ys, p) {
      AgreeOn(ballots, xs, ys, p);
    }
    assert seq(|ps|, i requires 0 <= i < |ps| => SpreadFor(ballots, xs, ps[i]))
        == seq(|ps|, i requires 0 <= i < |ps| => SpreadFor(ballots, ys, ps[i]));
  }

  lemma MediansAgree(ballots: Ballots, xs: seq<Id>, ys: seq<Id>, participants: set<Id>)
    requires xs != [] && ys != [] && multiset(xs) == multiset(ys)
    ensures MediansFor(ballots, xs, participants) == MediansFor(ballots, ys, participants)
  {
    var a, b := MediansFor(ballots, xs, participants), MediansFor(ballots, ys, participants);
    forall p | p in participants ensures a[p] == b[p] {
      AgreeOn(ballots, xs, ys, p);
    }
  }

  lemma DecidedPermute(ballots: Ballots, one: seq<Id>, other: seq<Id>)
    requires NoDuplicates(one) && NoDuplicates(other) && Elements(one) == Elements(other)
    ensures multiset(DecidedIds(ballots, one)) == multiset(DecidedIds(ballots, other))
    ensures |DecidedIds(ballots, one)| == |DecidedIds(ballots, other)|
  {
    var xs, ys := DecidedIds(ballots, one), DecidedIds(ballots, other);
    DecidedDistinct(ballots, one);
    DecidedDistinct(ballots, other);
    DistinctMultiset(xs);
    DistinctMultiset(ys);
    forall r ensures r in Elements(xs) <==> r in Elements(ys) {
      assert r in one <==> r in Elements(one);
      assert r in other <==> r in Elements(other);
    }
    assert Elements(xs) == Elements(ys);
    assert |multiset(xs)| == |xs| && |multiset(ys)| == |ys|;
  }

  /** Any two reveal orders of the same ballots give the same recorded outcome. */
  lemma AggregateOrderFree(m: Manifest, root: Digest, ballots: Ballots, one: seq<Id>, other: seq<Id>)
    requires NoDuplicates(one) && NoDuplicates(other) && Elements(one) == Elements(other)
    ensures Aggregate(m, root, ballots, one) == Aggregate(m, root, ballots, other)
  {
    var xs, ys := DecidedIds(ballots, one), DecidedIds(ballots, other);
    DecidedPermute(ballots, one, other);
    if xs != [] {
      DispersionsAgree(ballots, xs, ys, SortedTexts(m.participants.Keys));
      MediansAgree(ballots, xs, ys, m.participants.Keys);
    }
  }

  // ----- What an outcome says -----

  function Deciding(ballots: Ballots): set<Id> {
    set r | r in ballots && ballots[r].decided
  }

  lemma DecidingListed(ballots: Ballots, revealed: seq<Id>)
    requires NoDuplicates(revealed) && Elements(revealed) == ballots.Keys
    ensures Elements(DecidedIds(ballots, revealed)) == Deciding(ballots)
    ensures |DecidedIds(ballots, revealed)| == |Deciding(ballots)| <= |ballots|
  {
    var ids := DecidedIds(ballots, revealed);
    DecidedDistinct(ballots, revealed);
    DistinctMultiset(ids);
    assert |multiset(ids)| == |ids| && |multiset(Elements(ids))| == |Elements(ids)|;
    forall r ensures r in Elements(ids) <==> r in Deciding(ballots) {
      assert r in revealed <==> r in Elements(revealed);
    }
    assert Elements(ids) == Deciding(ballots);
    SubsetSize(Deciding(ballots), ballots.Keys);
    assert |ballots.Keys| == |ballots|;
  }

  /** By how much one deciding ballot gives a participant more than another. */
  ghost predicate Differ(m: Manifest, ballots: Ballots, p: Id, q: Id, r: Id, d: int) {
    && p in m.participants && q in Deciding(ballots) && r in Deciding(ballots)
    && d == ShareOf(ballots, q, p) - ShareOf(ballots, r, p)
  }

  lemma SpreadIsWidest(ballots: Ballots, ids: seq<Id>, p: Id) returns (q: Id, r: Id)
    requires ids != []
    ensures q in ids && r in ids && SpreadFor(ballots, ids, p) == ShareOf(ballots, q, p) - ShareOf(ballots, r, p)
    ensures forall x, y :: x in ids && y in ids ==>
              ShareOf(ballots, x, p) - ShareOf(ballots, y, p) <= SpreadFor(ballots, ids, p)
  {
    var values := SharesFor(ballots, ids, p);
    var i :| 0 <= i < |values| && values[i] == Highest(values);
    var j :| 0 <= j < |values| && values[j] == Lowest(values);
    q, r := ids[i], ids[j];
    forall x | x in ids ensures Lowest(values) <= ShareOf(ballots, x, p) <= Highest(values) {
      var k :| 0 <= k < |ids| && ids[k] == x;
      assert values[k] in values;
    }
  }

  lemma WidestOver(ballots: Ballots, ids: seq<Id>, ps: seq<Id>) returns (p: Id, q: Id, r: Id)
    requires ids != [] && ps != []
    ensures Dispersion(ballots, ids, ps).Some? && p in ps && q in ids && r in ids
    ensures Dispersion(ballots, ids, ps).value == ShareOf(ballots, q, p) - ShareOf(ballots, r, p)
    ensures forall o, x, y :: o in ps && x in ids && y in ids ==>
              ShareOf(ballots, x, o) - ShareOf(ballots, y, o) <= Dispersion(ballots, ids, ps).value
  {
    var spreads := seq(|ps|, i requires 0 <= i < |ps| => SpreadFor(ballots, ids, ps[i]));
    var k :| 0 <= k < |spreads| && spreads[k] == Highest(spreads);
    hide SpreadFor, ShareOf, Highest;
    p := ps[k];
    q, r := SpreadIsWidest(ballots, ids, p);
    forall o, x, y | o in ps && x in ids && y in ids
      ensures ShareOf(ballots, x, o) - ShareOf(ballots, y, o) <= Highest(spreads)
    {
      var i :| 0 <= i < |ps| && ps[i] == o;
      assert spreads[i] in spreads;
      var _, _ := SpreadIsWidest(ballots, ids, o);
    }
  }

  /** The recorded dispersion is the widest difference between two deciding ballots over one participant. */
  lemma DispersionIsWidest(m: Manifest, ballots: Ballots, revealed: seq<Id>)
    requires NoDuplicates(revealed) && Elements(revealed) == ballots.Keys && m.participants != map[]
    ensures var d := Dispersion(ballots, DecidedIds(ballots, revealed), SortedTexts(m.participants.Keys));
            && (d.None? <==> Deciding(ballots) == {})
            && (d.Some? ==>
                  && (exists p, q, r :: Differ(m, ballots, p, q, r, d.value))
                  && forall p, q, r, x :: Differ(m, ballots, p, q, r, x) ==> x <= d.value)
  {
    var ids, ps := DecidedIds(ballots, revealed), SortedTexts(m.participants.Keys);
    DecidingListed(ballots, revealed);
    ElementsEmpty(ids);
    ElementsEmpty(ps);
    hide DecidedIds, SortedTexts, Dispersion, Deciding, ShareOf;
    if ids == [] {
      NoDispersion(ballots, ps);
    } else {
      var p, q, r := WidestOver(ballots, ids, ps);
      assert p in Elements(ps) && q in Elements(ids) && r in Elements(ids);
      assert Differ(m, ballots, p, q, r, Dispersion(ballots, ids, ps).value);
      forall o, x, y, d | Differ(m, ballots, o, x, y, d) ensures d <= Dispersion(ballots, ids, ps).value {
        assert o in Elements(ps) && x in Elements(ids) && y in Elements(ids);
      }
    }
  }

  lemma NoDispersion(ballots: Ballots, ps: seq<Id>)
    ensures Dispersion(ballots, [], ps).None?
  {}

  lemma TallyMeans(m: Manifest, root: Digest, cast: nat, decided: nat, dispersion: Option<int>, medians: map<Id, int>,
                   a: Allocation)
    requires Tally(m, root, cast, decided, dispersion, medians) == Accept(a) && decided <= cast
    ensures a.caseId == m.caseId && a.evidenceRoot == root
    ensures a.revealCount == cast && a.decidedCount == decided && a.dispersion == dispersion
    ensures a.reason == Some(QuorumNotMet) <==> decided < m.policy.reviewQuorum
    ensures a.reason == Some(DispersionExceeded) <==>
              m.policy.reviewQuorum <= decided && dispersion.Some? && m.policy.maxDispersionBps < dispersion.value
    ensures a.bps.Some? <==> a.reason.None?
    ensures a.bps.Some? ==> Normalized(medians) == Accept(a.bps.value)
  {
    hide Normalized;
  }

  /** What is counted, and when and why there is no allocation. */
  lemma AllocationMeans(m: Manifest, root: Digest, ballots: Ballots, revealed: seq<Id>, a: Allocation)
    requires NoDuplicates(revealed) && Elements(revealed) == ballots.Keys && m.participants != map[]
    requires Aggregate(m, root, ballots, revealed) == Accept(a)
    ensures a.caseId == m.caseId && a.evidenceRoot == root
    ensures a.revealCount == |ballots| && a.decidedCount == |Deciding(ballots)|
    ensures a.dispersion == Dispersion(ballots, DecidedIds(ballots, revealed), SortedTexts(m.participants.Keys))
    ensures a.reason == Some(QuorumNotMet) <==> |Deciding(ballots)| < m.policy.reviewQuorum
    ensures a.reason == Some(DispersionExceeded) <==>
              && m.policy.reviewQuorum <= |Deciding(ballots)|
              && exists p, q, r, x :: Differ(m, ballots, p, q, r, x) && m.policy.maxDispersionBps < x
    ensures a.bps.Some? <==> a.reason.None?
  {
    var ids := DecidedIds(ballots, revealed);
    var d := Dispersion(ballots, ids, SortedTexts(m.participants.Keys));
    TallyMeans(m, root, |ballots|, |Deciding(ballots)|, d, MediansFor(ballots, ids, m.participants.Keys), a) by {
      DecidingListed(ballots, revealed);
      hide Tally, MediansFor, Dispersion;
    }
    DispersionIsWidest(m, ballots, revealed);
    hide Aggregate, DecidedIds, Dispersion, SortedTexts, Deciding, Differ, MediansFor;
    if d.Some? {
      var p, q, r :| Differ(m, ballots, p, q, r, d.value);
    } else {
      NobodyDiffers(m, ballots);
    }
  }

  lemma NobodyDiffers(m: Manifest, ballots: Ballots)
    ensures Deciding(ballots) == {} ==> forall p, q, r, x :: !Differ(m, ballots, p, q, r, x)
  {}

  /** These basis points are every weight's part of the whole, rounded, and make up the whole. */
  ghost predicate SharedOut(weights: map<Id, int>, bps: map<Id, int>) {
    && bps.Keys == weights.Keys && 0 < Total(weights) && Total(bps) == 10_000
    && forall p :: p in weights ==> RoundedShare(bps[p], weights[p], Total(weights))
  }

  lemma NormalizedMeans(medians: map<Id, int>, bps: map<Id, int>)
    requires NonNegative(medians) && Normalized(medians) == Accept(bps)
    ensures SharedOut(medians, bps)
  {
    NormalizationSound(medians);
  }

  lemma DecidedMedians(m: Manifest, ballots: Ballots, ids: seq<Id>)
    requires ids != [] && SharesNonNegative(ballots)
    ensures var medians := MediansFor(ballots, ids, m.participants.Keys);
            && NonNegative(medians) && medians.Keys == m.participants.Keys
            && forall p :: p in medians ==> medians[p] == Median(SharesFor(ballots, ids, p))
  {
    MediansNonNegative(ballots, ids, m.participants.Keys);
  }

  /** A decided allocation shares the whole out by the medians of the deciding ballots. */
  lemma AllocationShares(m: Manifest, root: Digest, ballots: Ballots, revealed: seq<Id>, a: Allocation)
    requires NoDuplicates(revealed) && Elements(revealed) == ballots.Keys && SharesNonNegative(ballots)
    requires 0 < m.policy.reviewQuorum
    requires Aggregate(m, root, ballots, revealed) == Accept(a) && a.bps.Some?
    ensures DecidedIds(ballots, revealed) != []
    ensures SharedOut(MediansFor(ballots, DecidedIds(ballots, revealed), m.participants.Keys), a.bps.value)
  {
    var ids := DecidedIds(ballots, revealed);
    var medians := MediansFor(ballots, ids, m.participants.Keys);
    hide DecidedIds, Dispersion, SortedTexts, Deciding, Tally, SharedOut, MediansFor, NonNegative, Normalized;
    DecidingListed(ballots, revealed);
    TallyMeans(m, root, |ballots|, |ids|, Dispersion(ballots, ids, SortedTexts(m.participants.Keys)), medians, a);
    DecidedMedians(m, ballots, ids);
    NormalizedMeans(medians, a.bps.value);
  }
}
