/** How many participants it takes for a valid panel to leave no positive median, and that so many do. */
module CreditDeadlock {
  import opened Basics
  import opened Ordering
  import opened Medians
  import opened CommunityTypes
  import opened Credit
  import opened Aggregation
  import opened CreditRobustness
  import opened Payout
  import opened CommunitySteps

  // ----- Sharing the whole among a group -----

  /** How many participants a ballot needs to place 10000 with at most `limit` for each. */
  function Bearers(limit: nat): nat
    requires 0 < limit
  {
    (10_000 + limit - 1) / limit
  }

  lemma BearersSuffice(limit: nat, n: nat)
    requires 0 < limit
    ensures Bearers(limit) <= n <==> 10_000 <= n * limit
  {
    var b := Bearers(limit);
    assert b * limit <= 10_000 + limit - 1 < (b + 1) * limit;
    if b <= n {
      ScaleUp(b, n, limit);
    } else {
      ScaleUp(n, b - 1, limit);
    }
  }

  lemma ScaleUp(a: nat, b: nat, c: nat)
    requires a <= b
    ensures a * c <= b * c
  {}

  lemma OneMoreTime(n: nat, b: nat)
    ensures (n + 1) * b == n * b + b
  {}

  /** Pieces of at most `limit` each, in order, until `left` is given out. */
  function Pieces(n: nat, left: nat, limit: nat): (pieces: seq<int>)
    ensures |pieces| == n
    ensures forall i :: 0 <= i < n ==> 0 <= pieces[i] <= limit && pieces[i] <= left
  {
    if n == 0 then []
    else
      var first := if left <= limit then left else limit;
      [first] + Pieces(n - 1, left - first, limit)
  }

  lemma {:induction false} PiecesSum(n: nat, left: nat, limit: nat)
    requires left <= n * limit
    ensures Sum(Pieces(n, left, limit)) == left
  {
    if n > 0 {
      var first := if left <= limit then left else limit;
      OneMoreTime(n - 1, limit);
      PiecesSum(n - 1, left - first, limit);
      SumAppend([first], Pieces(n - 1, left - first, limit));
      assert [first][..0] == [];
    }
  }

  /** All of the credit, spread over one group. */
  function GroupShares(m: Manifest, group: seq<Id>, limit: nat): map<Id, int>
    requires NoDuplicates(group)
  {
    map p | p in m.participants :: ValueOrZero(Zip(group, Pieces(|group|, 10_000, limit)), p)
  }

  lemma GroupSharesTotal(m: Manifest, group: seq<Id>, limit: nat)
    requires NoDuplicates(group) && Elements(group) <= m.participants.Keys && 10_000 <= |group| * limit
    ensures Total(GroupShares(m, group, limit)) == 10_000
  {
    var f := GroupShares(m, group, limit);
    var all := SortedTexts(f.Keys);
    assert forall p :: p in all <==> p in Elements(all);
    assert forall p :: p in group ==> p in Elements(group);
    GroupLookup(m, group, limit);
    SumOverDistinct(f, all, group);
    ValuesAreLookup(f);
    PiecesSum(|group|, 10_000, limit);
  }

  lemma GroupLookup(m: Manifest, group: seq<Id>, limit: nat)
    requires NoDuplicates(group) && Elements(group) <= m.participants.Keys
    ensures Lookup(GroupShares(m, group, limit), group) == Pieces(|group|, 10_000, limit)
  {
    forall i | 0 <= i < |group|
        ensures Lookup(GroupShares(m, group, limit), group)[i] == Pieces(|group|, 10_000, limit)[i] {
      assert group[i] in Elements(group);
    }
  }

  /** Shares within the limit that give nothing outside the group. */
  ghost predicate Narrow(m: Manifest, shares: map<Id, int>, group: seq<Id>) {
    forall p :: p in m.participants ==>
      p in shares && 0 <= shares[p] <= m.policy.maxDispersionBps && (p !in group ==> shares[p] == 0)
  }

  lemma GroupSharesNarrow(m: Manifest, group: seq<Id>)
    requires NoDuplicates(group) && 0 <= m.policy.maxDispersionBps
    ensures Narrow(m, GroupShares(m, group, m.policy.maxDispersionBps), group)
  {
    var limit := m.policy.maxDispersionBps;
    forall p | p in group ensures 0 <= Zip(group, Pieces(|group|, 10_000, limit))[p] <= limit {
      var i :| 0 <= i < |group| && group[i] == p;
    }
    assert forall p :: p in Elements(group) <==> p in group;
  }

  // ----- Ballots that cite their own evidence -----

  /** The sealed result rests on this handoff of this participant. */
  ghost predicate Contributed(s: State, who: Id, evidence: Id) {
    && s.sealedResult.Some? && s.sealedResult.value in s.results
    && evidence in s.results[s.sealedResult.value].expected
    && evidence in s.handoffs && s.handoffs[evidence].participantId == who
  }

  /** These participants each have a handoff under the sealed result. */
  ghost predicate Workers(s: State, group: set<Id>) {
    forall p :: p in group ==> exists h :: Contributed(s, p, h)
  }

  ghost function WorkBy(s: State, p: Id): (h: Id)
    requires exists h :: Contributed(s, p, h)
    ensures Contributed(s, p, h)
  {
    var h :| Contributed(s, p, h);
    h
  }

  /** A group of distinct sealed contributors large enough to carry a whole ballot. */
  ghost predicate Carries(s: State, m: Manifest, group: seq<Id>) {
    && NoDuplicates(group) && Elements(group) <= m.participants.Keys && Workers(s, Elements(group))
    && 0 <= m.policy.maxDispersionBps <= 10_000
    && 10_000 <= |group| * m.policy.maxDispersionBps
  }

  ghost function CitingOwn(s: State, m: Manifest, group: seq<Id>): map<Id, seq<Id>>
    requires Workers(s, Elements(group))
  {
    map p | p in m.participants :: if p in group then (assert p in Elements(group); [WorkBy(s, p)]) else []
  }

  ghost function GroupBallot(s: State, m: Manifest, root: Digest, reviewer: Id, group: seq<Id>): Ballot
    requires Carries(s, m, group)
  {
    Ballot(m.caseId, root, reviewer, true, GroupShares(m, group, m.policy.maxDispersionBps), CitingOwn(s, m, group), "")
  }

  lemma OwnShare(s: State, m: Manifest, ballot: Ballot, closure: set<Id>, group: seq<Id>, p: Id)
    requires Carries(s, m, group) && p in m.participants && Narrow(m, ballot.shares, group)
    requires ballot.evidenceRefs == CitingOwn(s, m, group)
    requires s.sealedResult.Some? && s.sealedResult.value in s.results
    requires closure == s.results[s.sealedResult.value].expected
    ensures ValidShare(s, ballot, closure, p)
  {
    hide NoDuplicates;
    if p in group {
      assert p in Elements(group);
      assert ballot.evidenceRefs[p] == [WorkBy(s, p)];
    }
    SingleDistinct(if p in group then WorkBy(s, p) else p);
  }

  lemma SingleDistinct<T>(x: T)
    ensures NoDuplicates([x]) && NoDuplicates<T>([])
  {}

  lemma GroupBallotIsValid(s: State, m: Manifest, root: Digest, reviewer: Id, group: seq<Id>)
    requires s.manifest == Some(m) && s.evidenceRoot == Some(root) && Carries(s, m, group)
    requires s.sealedResult.Some? && s.sealedResult.value in s.results
    ensures var ballot := GroupBallot(s, m, root, reviewer, group);
            ValidBallot(s, ballot, reviewer) && ballot.decided && Narrow(m, ballot.shares, group)
  {
    hide Total, GroupShares, CitingOwn, Narrow, Workers, NoDuplicates, ValidShare;
    var ballot := GroupBallot(s, m, root, reviewer, group);
    GroupSharesTotal(m, group, m.policy.maxDispersionBps);
    GroupSharesNarrow(m, group);
    GroupKeys(s, m, group);
    var closure := s.results[s.sealedResult.value].expected;
    forall p | p in ballot.shares ensures ValidShare(s, ballot, closure, p) {
      OwnShare(s, m, ballot, closure, group, p);
    }
  }

  lemma GroupKeys(s: State, m: Manifest, group: seq<Id>)
    requires Carries(s, m, group)
    ensures GroupShares(m, group, m.policy.maxDispersionBps).Keys == m.participants.Keys
    ensures CitingOwn(s, m, group).Keys == m.participants.Keys
  {
    hide Workers, NoDuplicates;
  }

  // ----- Medians and positive values -----

  /** How many values are positive. */
  function Positives(values: seq<int>): nat {
    if values == [] then 0
    else Positives(values[..|values| - 1]) + if values[|values| - 1] > 0 then 1 else 0
  }

  predicate NoneNegative(values: seq<int>) {
    forall i :: 0 <= i < |values| ==> 0 <= values[i]
  }

  lemma PositivesAppend(values: seq<int>, x: int)
    ensures Positives(values + [x]) == Positives(values) + if x > 0 then 1 else 0
  {
    assert (values + [x])[..|values|] == values;
  }

  lemma {:induction false} PositivesWithin(values: seq<int>, high: int)
    requires NoneNegative(values) && forall i :: 0 <= i < |values| ==> values[i] <= high
    ensures CountWithin(values, 1, high) == Positives(values)
    ensures CountWithin(values, 0, 0) == |values| - Positives(values)
  {
    if values != [] {
      var init, last := values[..|values| - 1], values[|values| - 1];
      PositivesWithin(init, high);
      SplitLast(values);
      CountAppend(init, [last], 1, high);
      CountAppend(init, [last], 0, 0);
    }
  }

  /** A minority of positive values leaves the median zero; among an odd number of values nothing else does. */
  lemma ZeroMedianExactly(values: seq<int>)
    requires values != [] && NoneNegative(values)
    ensures 2 * Positives(values) < |values| ==> Median(values) == 0
    ensures |values| % 2 == 1 && Median(values) == 0 ==> 2 * Positives(values) < |values|
  {
    hide Median;
    assert forall i :: 0 <= i < |values| ==> values[i] in values;
    PositivesWithin(values, Highest(values));
    if 2 * Positives(values) < |values| {
      MedianMajority(values, 0, 0);
    } else if |values| % 2 == 1 {
      MedianMajority(values, 1, Highest(values));
    }
  }

  /** The largest minority among this many. */
  function Minority(k: nat): nat {
    if k == 0 then 0 else (k - 1) / 2
  }

  // ----- A split panel -----

  /** Decided ballots within the limit. */
  ghost predicate Bounded(m: Manifest, ballots: Ballots, ids: seq<Id>) {
    forall r :: r in ids ==>
      && r in ballots && ballots[r].decided
      && forall p :: p in m.participants ==> 0 <= ShareOf(ballots, r, p) <= m.policy.maxDispersionBps
  }

  /** Each participant is given anything only by a minority of the ballots. */
  ghost predicate Split(m: Manifest, ballots: Ballots, ids: seq<Id>) {
    forall p :: p in m.participants ==> 2 * Positives(SharesFor(ballots, ids, p)) < |ids|
  }

  lemma NarrowSpread(ballots: Ballots, ids: seq<Id>, p: Id, limit: int)
    requires ids != [] && forall i :: 0 <= i < |ids| ==> 0 <= ShareOf(ballots, ids[i], p) <= limit
    ensures SpreadFor(ballots, ids, p) <= limit
  {
    var values := SharesFor(ballots, ids, p);
    assert Highest(values) in values && Lowest(values) in values;
  }

  lemma SplitMedian(m: Manifest, ballots: Ballots, ids: seq<Id>, p: Id)
    requires Bounded(m, ballots, ids) && Split(m, ballots, ids) && ids != [] && p in m.participants
    ensures Median(SharesFor(ballots, ids, p)) == 0
    ensures SpreadFor(ballots, ids, p) <= m.policy.maxDispersionBps
  {
    hide Median, SpreadFor;
    forall i | 0 <= i < |ids| ensures 0 <= ShareOf(ballots, ids[i], p) <= m.policy.maxDispersionBps {
      assert ids[i] in ids;
    }
    ZeroMedianExactly(SharesFor(ballots, ids, p));
    NarrowSpread(ballots, ids, p, m.policy.maxDispersionBps);
  }

  lemma {:induction false} ZeroMapTotal(f: map<Id, int>)
    requires forall p :: p in f ==> f[p] == 0
    ensures Total(f) == 0
  {
    forall i | 0 <= i < |f| ensures ValuesOf(f)[i] == 0 {
      KeysPresent(f, i);
    }
    SumLower(ValuesOf(f), 0);
    SumUpper(ValuesOf(f), 0);
  }

  lemma {:induction false} AllDecided(ballots: Ballots, ids: seq<Id>)
    requires forall r :: r in ids ==> r in ballots && ballots[r].decided
    ensures DecidedIds(ballots, ids) == ids
  {
    if ids != [] {
      SplitLast(ids);
      AllDecided(ballots, ids[..|ids| - 1]);
    }
  }

  lemma SmallDispersion(m: Manifest, ballots: Ballots, ids: seq<Id>, ps: seq<Id>, limit: int)
    requires ids != [] && Elements(ps) == m.participants.Keys
    requires forall p :: p in m.participants ==> SpreadFor(ballots, ids, p) <= limit
    ensures Dispersion(ballots, ids, ps).Some? ==> Dispersion(ballots, ids, ps).value <= limit
  {
    if ps != [] {
      var spreads := seq(|ps|, i requires 0 <= i < |ps| => SpreadFor(ballots, ids, ps[i]));
      forall x | x in spreads ensures x <= limit {
        var i :| 0 <= i < |spreads| && spreads[i] == x;
        assert ps[i] in Elements(ps);
      }
    }
  }

  lemma DistinctCount<V>(f: map<Id, V>, ids: seq<Id>)
    requires NoDuplicates(ids) && f.Keys == Elements(ids)
    ensures |f| == |ids|
  {
    DistinctMultiset(ids);
    assert |multiset(ids)| == |ids| && |multiset(Elements(ids))| == |Elements(ids)| && |f.Keys| == |f|;
  }

  lemma SplitMedians(m: Manifest, ballots: Ballots, ids: seq<Id>)
    requires Bounded(m, ballots, ids) && Split(m, ballots, ids) && ids != []
    ensures Total(MediansFor(ballots, ids, m.participants.Keys)) == 0
    ensures forall p :: p in m.participants ==> SpreadFor(ballots, ids, p) <= m.policy.maxDispersionBps
  {
    hide Median, SpreadFor, Total, Bounded, Split;
    forall p | p in m.participants
      ensures Median(SharesFor(ballots, ids, p)) == 0
      ensures SpreadFor(ballots, ids, p) <= m.policy.maxDispersionBps
    {
      SplitMedian(m, ballots, ids, p);
    }
    ZeroMapTotal(MediansFor(ballots, ids, m.participants.Keys));
  }

  lemma BoundedDecided(m: Manifest, ballots: Ballots, ids: seq<Id>)
    requires Bounded(m, ballots, ids)
    ensures DecidedIds(ballots, ids) == ids
  {
    AllDecided(ballots, ids);
  }

  /** A split panel meets its quorum and the dispersion limit, and still aggregates to nothing. */
  lemma SplitPanelRejects(m: Manifest, root: Digest, ballots: Ballots, ids: seq<Id>)
    requires Bounded(m, ballots, ids) && Split(m, ballots, ids) && ids != [] && m.policy.reviewQuorum <= |ids|
    requires NoDuplicates(ids) && ballots.Keys == Elements(ids)
    ensures Aggregate(m, root, ballots, ids).Reject?
  {
    hide SpreadFor, Aggregate, Total, MediansFor, Dispersion, Bounded, Split;
    SplitMedians(m, ballots, ids);
    BoundedDecided(m, ballots, ids);
    DistinctCount(ballots, ids);
    SmallDispersion(m, ballots, ids, SortedTexts(m.participants.Keys), m.policy.maxDispersionBps);
    RejectsExactly(m, root, ballots, ids);
  }

  /** Whatever order the ballots are revealed in, there is no outcome. */
  ghost predicate AlwaysRejects(m: Manifest, root: Digest, ballots: Ballots) {
    forall revealed :: NoDuplicates(revealed) && Elements(revealed) == ballots.Keys ==>
      Aggregate(m, root, ballots, revealed).Reject?
  }

  lemma EveryOrderRejects(m: Manifest, root: Digest, ballots: Ballots, order: seq<Id>)
    requires NoDuplicates(order) && Elements(order) == ballots.Keys && Aggregate(m, root, ballots, order).Reject?
    ensures AlwaysRejects(m, root, ballots)
  {
    forall revealed | NoDuplicates(revealed) && Elements(revealed) == ballots.Keys
      ensures Aggregate(m, root, ballots, revealed).Reject?
    {
      AggregateOrderFree(m, root, ballots, order, revealed);
    }
  }

  // ----- Dealing places round robin -----

  /** How many of the first `total` places, dealt in turn to n holders, fall to the holder at `pos`. */
  function Dealt(total: nat, n: nat, pos: nat): nat
    requires 0 < n
  {
    if total == 0 then 0 else Dealt(total - 1, n, pos) + if (total - 1) % n == pos then 1 else 0
  }

  lemma TurnOf(q: nat, r: nat, n: nat)
    requires r < n
    ensures (q * n + r) % n == r
  {
    var a := q * n + r;
    assert a == (a / n) * n + a % n;
    assert (a / n - q) * n == r - a % n;
    SmallMultiple(a / n - q, n, r - a % n);
  }

  /** A multiple smaller than its factor is no multiple at all. */
  lemma SmallMultiple(k: int, n: int, d: int)
    requires 0 < n && k * n == d && d < n && -d < n
    ensures k == 0
  {
    NegateProduct(k, n);
    if k > 0 {
      ScaleUp(1, k, n);
    } else if k < 0 {
      ScaleUp(1, -k, n);
    }
  }

  lemma {:induction false} DealtRounds(q: nat, r: nat, n: nat, pos: nat)
    requires pos < n && r <= n
    ensures Dealt(q * n + r, n, pos) == q + if pos < r then 1 else 0
    decreases q, r
  {
    if r > 0 {
      DealtRounds(q, r - 1, n, pos);
      TurnOf(q, r - 1, n);
    } else if q > 0 {
      DealtRounds(q - 1, n, n, pos);
      OneMoreTime(q - 1, n);
    }
  }

  lemma {:induction false} DealtMore(total: nat, more: nat, n: nat, pos: nat)
    requires 0 < n && total <= more
    ensures Dealt(total, n, pos) <= Dealt(more, n, pos)
  {
    if total < more {
      DealtMore(total, more - 1, n, pos);
    }
  }

  /** Dealing fairly, nobody holds more than the rounds that were begun. */
  lemma DealtFairly(total: nat, rounds: nat, n: nat, pos: nat)
    requires pos < n && total <= rounds * n
    ensures Dealt(total, n, pos) <= rounds
  {
    DealtMore(total, rounds * n, n, pos);
    DealtRounds(rounds, 0, n, pos);
  }

  /** The next places from a start, in turn. */
  function Hand(ps: seq<Id>, start: nat, count: nat): seq<Id>
    requires ps != []
  {
    seq(count, t requires 0 <= t => ps[(start + t) % |ps|])
  }

  lemma TurnsApart(start: nat, t: nat, u: nat, n: nat)
    requires t < u && u - t < n
    ensures (start + t) % n != (start + u) % n
  {
    var a, b := start + t, start + u;
    if a % n == b % n {
      assert a == (a / n) * n + a % n && b == (b / n) * n + b % n;
      assert (b / n - a / n) * n == b - a;
      SmallMultiple(b / n - a / n, n, b - a);
    }
  }

  lemma HandDistinct(ps: seq<Id>, start: nat, count: nat)
    requires ps != [] && NoDuplicates(ps) && count <= |ps|
    ensures NoDuplicates(Hand(ps, start, count)) && Elements(Hand(ps, start, count)) <= Elements(ps)
    ensures |Hand(ps, start, count)| == count
  {
    forall t, u | 0 <= t < u < count ensures Hand(ps, start, count)[t] != Hand(ps, start, count)[u] {
      TurnsApart(start, t, u, |ps|);
    }
  }

  /** Whoever is in the next hand is dealt one more place. */
  lemma HandDealt(ps: seq<Id>, start: nat, count: nat, pos: nat)
    requires pos < |ps| && NoDuplicates(ps) && ps[pos] in Hand(ps, start, count)
    ensures Dealt(start, |ps|, pos) + 1 <= Dealt(start + count, |ps|, pos)
  {
    var n := |ps|;
    var t :| 0 <= t < count && Hand(ps, start, count)[t] == ps[pos];
    assert (start + t) % n == pos;
    DealtMore(start, start + t, n, pos);
    DealtMore(start + t + 1, start + count, n, pos);
  }

  // ----- A deadlocked panel exists -----

  /** Each participant is given anything by at most as many ballots as it was dealt places. */
  ghost predicate AsDealt(m: Manifest, ballots: Ballots, ids: seq<Id>, ps: seq<Id>, dealt: nat) {
    && (forall p :: p in m.participants && p !in ps ==> Positives(SharesFor(ballots, ids, p)) == 0)
    && (forall k :: 0 <= k < |ps| ==> Positives(SharesFor(ballots, ids, ps[k])) <= Dealt(dealt, |ps|, k))
  }

  /** A list of sealed contributors that one hand of bearers never exhausts. */
  ghost predicate Table(s: State, m: Manifest, ps: seq<Id>) {
    && NoDuplicates(ps) && Elements(ps) <= m.participants.Keys && Workers(s, Elements(ps))
    && 0 < m.policy.maxDispersionBps <= 10_000 && Bearers(m.policy.maxDispersionBps) <= |ps| && ps != []
  }

  lemma HandCarries(s: State, m: Manifest, ps: seq<Id>, start: nat)
    requires Table(s, m, ps)
    ensures Carries(s, m, Hand(ps, start, Bearers(m.policy.maxDispersionBps)))
  {
    var b := Bearers(m.policy.maxDispersionBps);
    BearersSuffice(m.policy.maxDispersionBps, b);
    hide Bearers, NoDuplicates, Hand, Workers, Elements;
    HandDistinct(ps, start, b);
    FewerWorkers(s, Elements(Hand(ps, start, b)), Elements(ps));
  }

  lemma FewerWorkers(s: State, some: set<Id>, all: set<Id>)
    requires Workers(s, all) && some <= all
    ensures Workers(s, some)
  {
    hide Contributed;
  }

  lemma GroupBallotExists(s: State, m: Manifest, reviewer: Id, group: seq<Id>) returns (ballot: Ballot)
    requires s.manifest == Some(m) && s.evidenceRoot.Some? && Carries(s, m, group)
    requires s.sealedResult.Some? && s.sealedResult.value in s.results
    ensures ValidBallot(s, ballot, reviewer) && ballot.decided && Narrow(m, ballot.shares, group)
  {
    hide ValidBallot, Narrow, Carries, GroupBallot;
    GroupBallotIsValid(s, m, s.evidenceRoot.value, reviewer, group);
    ballot := GroupBallot(s, m, s.evidenceRoot.value, reviewer, group);
  }

  lemma SharesGrow(ballots: Ballots, ids: seq<Id>, last: Id, ballot: Ballot, p: Id)
    requires last !in ids
    ensures SharesFor(ballots[last := ballot], ids + [last], p)
            == SharesFor(ballots, ids, p) + [if p in ballot.shares then ballot.shares[p] else 0]
  {
    forall i | 0 <= i < |ids| ensures ShareOf(ballots[last := ballot], ids[i], p) == ShareOf(ballots, ids[i], p) {
      assert ids[i] in ids;
    }
  }

  /** One more ballot uses the places of one more hand. */
  lemma DealtGrows(m: Manifest, ballots: Ballots, ids: seq<Id>, ps: seq<Id>, dealt: nat, count: nat, last: Id,
                   ballot: Ballot)
    requires AsDealt(m, ballots, ids, ps, dealt) && last !in ids && ps != [] && NoDuplicates(ps)
    requires Narrow(m, ballot.shares, Hand(ps, dealt, count)) && Elements(ps) <= m.participants.Keys
    ensures AsDealt(m, ballots[last := ballot], ids + [last], ps, dealt + count)
  {
    forall p | p in m.participants && p !in ps
      ensures Positives(SharesFor(ballots[last := ballot], ids + [last], p)) == 0
    {
      SharesGrow(ballots, ids, last, ballot, p);
      PositivesAppend(SharesFor(ballots, ids, p), ballot.shares[p]);
    }
    forall k | 0 <= k < |ps|
      ensures Positives(SharesFor(ballots[last := ballot], ids + [last], ps[k])) <= Dealt(dealt + count, |ps|, k)
    {
      PlaceGrows(m, ballots, ids, ps, dealt, count, last, ballot, k);
    }
  }

  lemma PlaceGrows(m: Manifest, ballots: Ballots, ids: seq<Id>, ps: seq<Id>, dealt: nat, count: nat, last: Id,
                   ballot: Ballot, k: nat)
    requires k < |ps| && NoDuplicates(ps) && last !in ids && Elements(ps) <= m.participants.Keys
    requires Positives(SharesFor(ballots, ids, ps[k])) <= Dealt(dealt, |ps|, k)
    requires Narrow(m, ballot.shares, Hand(ps, dealt, count))
    ensures Positives(SharesFor(ballots[last := ballot], ids + [last], ps[k])) <= Dealt(dealt + count, |ps|, k)
  {
    hide Hand, Dealt, Positives, NoDuplicates;
    assert ps[k] in Elements(ps);
    SharesGrow(ballots, ids, last, ballot, ps[k]);
    PositivesAppend(SharesFor(ballots, ids, ps[k]), ballot.shares[ps[k]]);
    DealtMore(dealt, dealt + count, |ps|, k);
    if ps[k] in Hand(ps, dealt, count) {
      HandDealt(ps, dealt, count, k);
    }
  }

  /** Valid ballots of exactly these reviewers, each within the limit. */
  ghost predicate PanelOf(s: State, m: Manifest, ballots: Ballots, ids: seq<Id>) {
    && ballots.Keys == Elements(ids) && Bounded(m, ballots, ids)
    && forall r :: r in ballots ==> ValidBallot(s, ballots[r], r)
  }

  lemma PanelGrows(s: State, m: Manifest, ballots: Ballots, ids: seq<Id>, last: Id, ballot: Ballot, group: seq<Id>)
    requires PanelOf(s, m, ballots, ids) && last !in ids && ballot.decided
    requires ValidBallot(s, ballot, last) && Narrow(m, ballot.shares, group)
    ensures PanelOf(s, m, ballots[last := ballot], ids + [last])
  {
    hide ValidBallot;
    assert Elements(ids + [last]) == Elements(ids) + {last};
    assert forall r :: r in ids ==> r in Elements(ids);
  }

  /** The next reviewer spreads a whole ballot over the next hand. */
  lemma DealOne(s: State, m: Manifest, before: Ballots, ids: seq<Id>, last: Id, ps: seq<Id>, dealt: nat, b: nat)
    returns (ballots: Ballots)
    requires s.manifest == Some(m) && s.evidenceRoot.Some? && s.sealedResult.Some? && s.sealedResult.value in s.results
    requires Table(s, m, ps) && b == Bearers(m.policy.maxDispersionBps)
    requires last !in ids && PanelOf(s, m, before, ids) && AsDealt(m, before, ids, ps, dealt)
    ensures PanelOf(s, m, ballots, ids + [last]) && AsDealt(m, ballots, ids + [last], ps, dealt + b)
  {
    hide ValidBallot, Narrow, Carries, Workers, Bearers, PanelOf, AsDealt, Hand, NoDuplicates, Elements;
    HandCarries(s, m, ps, dealt);
    var ballot := GroupBallotExists(s, m, last, Hand(ps, dealt, b));
    PanelGrows(s, m, before, ids, last, ballot, Hand(ps, dealt, b));
    DealtGrows(m, before, ids, ps, dealt, b, last, ballot);
    ballots := before[last := ballot];
  }

  /** Reviewers take hands of contributors in turn, and each spreads a whole ballot over its hand. */
  lemma {:induction false} DealPanel(s: State, m: Manifest, ids: seq<Id>, ps: seq<Id>, b: nat)
    returns (ballots: Ballots)
    requires s.manifest == Some(m) && s.evidenceRoot.Some? && s.sealedResult.Some? && s.sealedResult.value in s.results
    requires NoDuplicates(ids) && Table(s, m, ps) && b == Bearers(m.policy.maxDispersionBps)
    ensures PanelOf(s, m, ballots, ids) && AsDealt(m, ballots, ids, ps, |ids| * b)
  {
    hide Bearers, PanelOf, AsDealt, Table;
    if ids == [] {
      ballots := EmptyPanel(s, m, ps);
      return;
    }
    var init, last := ids[..|ids| - 1], ids[|ids| - 1];
    SplitLast(ids);
    OneMoreTime(|init|, b);
    ballots := DealPanel(s, m, init, ps, b);
    ballots := DealOne(s, m, ballots, init, last, ps, |init| * b, b);
  }

  lemma EmptyPanel(s: State, m: Manifest, ps: seq<Id>) returns (ballots: Ballots)
    ensures PanelOf(s, m, ballots, []) && AsDealt(m, ballots, [], ps, 0)
  {
    ballots := map[];
    assert Elements<Id>([]) == {};
  }

  /** With places enough, every participant is dealt less than half of the ballots. */
  lemma DealtSplits(m: Manifest, ballots: Ballots, ids: seq<Id>, ps: seq<Id>, dealt: nat)
    requires AsDealt(m, ballots, ids, ps, dealt) && ids != [] && dealt <= Minority(|ids|) * |ps|
    ensures Split(m, ballots, ids)
  {
    forall p | p in m.participants ensures 2 * Positives(SharesFor(ballots, ids, p)) < |ids| {
      if p in ps {
        var k :| 0 <= k < |ps| && ps[k] == p;
        DealtFairly(dealt, Minority(|ids|), |ps|, k);
      }
    }
  }

  lemma PlacesEnough(k: nat, bearers: nat, n: nat)
    requires 0 < k && 0 < bearers && k * bearers <= Minority(k) * n
    ensures bearers <= n
  {
    ScaleUp(Minority(k) + 1, k, bearers);
    if n < bearers {
      ScaleUp(n, bearers, Minority(k));
    }
  }

  lemma TableLaid(s: State, m: Manifest, workers: set<Id>, k: nat)
    requires 0 < k && 0 < m.policy.maxDispersionBps <= 10_000 && workers <= m.participants.Keys && Workers(s, workers)
    requires k * Bearers(m.policy.maxDispersionBps) <= Minority(k) * |workers|
    ensures Table(s, m, SortedTexts(workers)) && |SortedTexts(workers)| == |workers|
  {
    BearersSuffice(m.policy.maxDispersionBps, 0);
    hide SortedTexts, Bearers, NoDuplicates, Workers;
    PlacesEnough(k, Bearers(m.policy.maxDispersionBps), |workers|);
  }

  /**
   Enough bearers of whole ballots among the sealed contributors admit valid ballots of any panel that meets the quorum
   that in every reveal order aggregate to nothing: k ballots need k * Bearers(D) places, dealt so that nobody holds
   half of the ballots.
   */
  lemma PanelDeadlock(s: State, m: Manifest, ids: seq<Id>, workers: set<Id>) returns (ballots: Ballots)
    requires s.manifest == Some(m) && s.evidenceRoot.Some? && s.sealedResult.Some? && s.sealedResult.value in s.results
    requires NoDuplicates(ids) && 0 < m.policy.reviewQuorum <= |ids| && 0 < m.policy.maxDispersionBps <= 10_000
    requires workers <= m.participants.Keys && Workers(s, workers)
    requires |ids| * Bearers(m.policy.maxDispersionBps) <= Minority(|ids|) * |workers|
    ensures PanelOf(s, m, ballots, ids) && AlwaysRejects(m, s.evidenceRoot.value, ballots)
  {
    hide ValidBallot, AlwaysRejects, Split, AsDealt, Workers, Aggregate, Table, Bearers, Minority, Bounded;
    var ps := SortedTexts(workers);
    hide SortedTexts;
    TableLaid(s, m, workers, |ids|);
    ballots := DealPanel(s, m, ids, ps, Bearers(m.policy.maxDispersionBps));
    DealtSplits(m, ballots, ids, ps, |ids| * Bearers(m.policy.maxDispersionBps));
    SplitPanelRejects(m, s.evidenceRoot.value, ballots, ids);
    EveryOrderRejects(m, s.evidenceRoot.value, ballots, ids);
  }

  // ----- Fewer bearers are never deadlocked -----

  /** How many positive shares the ballots give these participants in all. */
  function Incidence(ballots: Ballots, ids: seq<Id>, ps: seq<Id>): nat {
    if ps == [] then 0
    else Incidence(ballots, ids, ps[..|ps| - 1]) + Positives(SharesFor(ballots, ids, ps[|ps| - 1]))
  }

  lemma SharesSplit(ballots: Ballots, ids: seq<Id>, p: Id)
    requires ids != []
    ensures SharesFor(ballots, ids, p) ==
            SharesFor(ballots, ids[..|ids| - 1], p) + [ShareOf(ballots, ids[|ids| - 1], p)]
  {}

  lemma RowShorter(ballots: Ballots, r: Id, ps: seq<Id>)
    requires ps != []
    ensures Row(ballots, r, ps)[..|ps| - 1] == Row(ballots, r, ps[..|ps| - 1])
    ensures Row(ballots, r, ps)[|ps| - 1] == ShareOf(ballots, r, ps[|ps| - 1])
  {}

  /** Counting by participant or by ballot is the same. */
  lemma {:induction false} IncidenceByBallot(ballots: Ballots, ids: seq<Id>, ps: seq<Id>)
    requires ids != []
    ensures Incidence(ballots, ids, ps) ==
            Incidence(ballots, ids[..|ids| - 1], ps) + Positives(Row(ballots, ids[|ids| - 1], ps))
  {
    hide Row;
    if ps != [] {
      IncidenceByBallot(ballots, ids, ps[..|ps| - 1]);
      var p := ps[|ps| - 1];
      SharesSplit(ballots, ids, p);
      PositivesAppend(SharesFor(ballots, ids[..|ids| - 1], p), ShareOf(ballots, ids[|ids| - 1], p));
      RowShorter(ballots, ids[|ids| - 1], ps);
    }
  }

  lemma {:induction false} IncidenceAtLeast(ballots: Ballots, ids: seq<Id>, ps: seq<Id>, b: nat)
    requires forall r :: r in ids ==> b <= Positives(Row(ballots, r, ps))
    ensures |ids| * b <= Incidence(ballots, ids, ps)
  {
    if ids != [] {
      hide Incidence, Positives, Row;
      SplitLast(ids);
      IncidenceAtLeast(ballots, ids[..|ids| - 1], ps, b);
      IncidenceByBallot(ballots, ids, ps);
      OneMoreTime(|ids| - 1, b);
    }
  }

  lemma {:induction false} IncidenceAtMost(ballots: Ballots, ids: seq<Id>, ps: seq<Id>, most: nat)
    requires forall p :: p in ps ==> Positives(SharesFor(ballots, ids, p)) <= most
    ensures Incidence(ballots, ids, ps) <= |ps| * most
  {
    if ps != [] {
      hide Positives, SharesFor;
      SplitLast(ps);
      IncidenceAtMost(ballots, ids, ps[..|ps| - 1], most);
      assert ps[|ps| - 1] in ps;
      OneMoreTime(|ps| - 1, most);
    }
  }

  lemma {:induction false} PositivesCarry(values: seq<int>, limit: nat)
    requires NoneNegative(values) && forall i :: 0 <= i < |values| ==> values[i] <= limit
    ensures Sum(values) <= Positives(values) * limit
  {
    if values != [] {
      var init := values[..|values| - 1];
      PositivesCarry(init, limit);
      OneMoreTime(Positives(init), limit);
    }
  }

  /** A ballot within the limit needs enough bearers. */
  lemma RowNeedsBearers(row: seq<int>, limit: nat)
    requires NoneNegative(row) && Sum(row) == 10_000 && forall i :: 0 <= i < |row| ==> row[i] <= limit
    ensures 0 < limit && Bearers(limit) <= Positives(row)
  {
    PositivesCarry(row, limit);
    BearersSuffice(limit, Positives(row));
  }

  lemma Find<T>(xs: seq<T>, x: T) returns (i: nat)
    requires x in Elements(xs)
    ensures i < |xs| && xs[i] == x
  {
    i :| 0 <= i < |xs| && xs[i] == x;
  }

  lemma VanishedMedian(ballots: Ballots, ids: seq<Id>, participants: set<Id>, limit: nat, p: Id)
    requires WithinLimit(ballots, ids, participants, limit) && p in participants
    requires Total(MediansFor(ballots, ids, participants)) <= 0
    ensures Median(SharesFor(ballots, ids, p)) == 0
  {
    var ps, medians := SortedTexts(participants), ValuesOf(MediansFor(ballots, ids, participants));
    hide SortedTexts, MediansFor, ValuesOf, FullBallots, Spread, Median, Sum;
    var i := Find(ps, p);
    MedianCount(ballots, ids, participants);
    MediansNotNegative(ballots, ids, participants);
    MedianAt(ballots, ids, participants, i);
    SumNonNegativeElement(medians, i);
  }

  lemma {:induction false} SomeZero(values: seq<int>) returns (i: nat)
    requires NoneNegative(values) && Positives(values) < |values|
    ensures i < |values| && values[i] == 0
  {
    if values[|values| - 1] == 0 {
      return |values| - 1;
    }
    i := SomeZero(values[..|values| - 1]);
  }

  /** Beside a zero, no value exceeds the spread. */
  lemma WithinSpread(values: seq<int>, limit: nat)
    requires NoneNegative(values) && Positives(values) < |values| && Spread(values, limit)
    ensures forall i :: 0 <= i < |values| ==> values[i] <= limit
  {
    var z := SomeZero(values);
    forall i | 0 <= i < |values| ensures values[i] <= limit {
      assert values[i] - values[z] <= limit;
    }
  }

  /** Every median of an odd number of full ballots zero: then only a minority gives a participant anything. */
  lemma VanishedSplits(ballots: Ballots, ids: seq<Id>, participants: set<Id>, limit: nat, p: Id)
    requires WithinLimit(ballots, ids, participants, limit) && |ids| % 2 == 1 && p in participants
    requires Total(MediansFor(ballots, ids, participants)) <= 0
    ensures 2 * Positives(SharesFor(ballots, ids, p)) < |ids|
    ensures forall r :: r in ids ==> 0 <= ShareOf(ballots, r, p) <= limit
  {
    var values := SharesFor(ballots, ids, p);
    hide Median, Total, MediansFor, FullBallots, Positives;
    VanishedMedian(ballots, ids, participants, limit, p);
    FullSharesNonNegative(ballots, ids, participants, p);
    ZeroMedianExactly(values);
    WithinSpread(values, limit);
    forall r | r in ids ensures 0 <= ShareOf(ballots, r, p) <= limit {
      var i :| 0 <= i < |ids| && ids[i] == r;
      assert values[i] == ShareOf(ballots, r, p);
    }
  }

  /** The row of a full ballot whose shares are within the limit. */
  lemma FullRowBears(ballots: Ballots, ids: seq<Id>, r: Id, participants: set<Id>, limit: nat)
    requires FullBallots(ballots, ids, participants) && r in ids
    requires forall p :: p in participants ==> 0 <= ShareOf(ballots, r, p) <= limit
    ensures 0 < limit && Bearers(limit) <= Positives(Row(ballots, r, SortedTexts(participants)))
  {
    var ps := SortedTexts(participants);
    RowIsValues(ballots, r, participants);
    hide SortedTexts, Bearers, Positives;
    forall i | 0 <= i < |ps| ensures 0 <= Row(ballots, r, ps)[i] <= limit {
      assert ps[i] in Elements(ps);
    }
    RowNeedsBearers(Row(ballots, r, ps), limit);
  }

  /** An odd number of full ballots without a positive median need places for all of their bearers. */
  lemma VanishedNeedsBearers(ballots: Ballots, ids: seq<Id>, participants: set<Id>, limit: nat)
    requires WithinLimit(ballots, ids, participants, limit) && |ids| % 2 == 1
    requires Total(MediansFor(ballots, ids, participants)) <= 0
    ensures 0 < limit && |ids| * Bearers(limit) <= Minority(|ids|) * |participants|
  {
    var ps, most := SortedTexts(participants), Minority(|ids|);
    hide Total, MediansFor, Bearers, Spread, Positives, FullBallots, SortedTexts;
    forall p | p in participants
      ensures Positives(SharesFor(ballots, ids, p)) <= most
      ensures forall r :: r in ids ==> 0 <= ShareOf(ballots, r, p) <= limit
    {
      VanishedSplits(ballots, ids, participants, limit, p);
    }
    forall r | r in ids ensures 0 < limit && Bearers(limit) <= Positives(Row(ballots, r, ps)) {
      FullRowBears(ballots, ids, r, participants, limit);
    }
    assert ids[0] in ids;
    assert forall p :: p in ps ==> p in Elements(ps);
    MedianCount(ballots, ids, participants);
    IncidenceAtLeast(ballots, ids, ps, Bearers(limit));
    IncidenceAtMost(ballots, ids, ps, most);
  }
}
