/** Aggregating two-agent review ballots: rounded weighted shares, a median, and a split above a floor. */
module ReviewDecision {
  import opened Basics
  import opened Ordering
  import opened Medians
  import opened ReviewTypes

  // ----- One ballot's share -----

  function ScoreOf(b: ReviewBallot, criterion: string, agent: Id): int {
    if criterion in b.scores && agent in b.scores[criterion] then b.scores[criterion][agent] else 0
  }

  function Weighted(criteria: seq<Criterion>, b: ReviewBallot, agent: Id): int {
    if criteria == [] then 0
    else
      var last := criteria[|criteria| - 1];
      Weighted(criteria[..|criteria| - 1], b, agent) + last.weight * ScoreOf(b, last.name, agent)
  }

  /** a's part of the whole in basis points, rounded to the nearest. */
  function Rounded(a: int, whole: int): int
    requires whole > 0
  {
    (10_000 * a + whole / 2) / whole
  }

  /** The share a decided ballot gives the first agent; a ballot that scores nobody gives none. */
  function Share(c: ReviewCase, b: ReviewBallot): Option<int>
    requires |c.agents| == 2
  {
    if !b.decided then None
    else
      var a, other := Weighted(c.criteria, b, AgentA(c)), Weighted(c.criteria, b, AgentB(c));
      if a + other <= 0 then None else Some(Rounded(a, a + other))
  }

  ghost predicate ScoresNonNegative(c: ReviewCase, b: ReviewBallot) {
    && (forall i :: 0 <= i < |c.criteria| ==> 0 <= c.criteria[i].weight)
    && forall n, a :: 0 <= ScoreOf(b, n, a)
  }

  lemma {:induction false} WeightedNonNegative(criteria: seq<Criterion>, b: ReviewBallot, agent: Id)
    requires forall i :: 0 <= i < |criteria| ==> 0 <= criteria[i].weight
    requires forall n, a :: 0 <= ScoreOf(b, n, a)
    ensures 0 <= Weighted(criteria, b, agent)
  {
    if criteria != [] {
      WeightedNonNegative(criteria[..|criteria| - 1], b, agent);
      assert 0 <= criteria[|criteria| - 1].weight * ScoreOf(b, criteria[|criteria| - 1].name, agent);
    }
  }

  /** What each criterion adds for one agent: its weight times the agent's score. */
  function Points(c: ReviewCase, b: ReviewBallot, agent: Id): (points: seq<int>)
    ensures |points| == |c.criteria|
  {
    seq(|c.criteria|, i requires 0 <= i < |c.criteria| => c.criteria[i].weight * ScoreOf(b, c.criteria[i].name, agent))
  }

  lemma {:induction false} WeightedIsSum(c: ReviewCase, b: ReviewBallot, agent: Id, n: nat)
    requires n <= |c.criteria|
    ensures Weighted(c.criteria[..n], b, agent) == Sum(Points(c, b, agent)[..n])
  {
    if n > 0 {
      WeightedIsSum(c, b, agent, n - 1);
      assert c.criteria[..n][..n - 1] == c.criteria[..n - 1];
      assert Points(c, b, agent)[..n][..n - 1] == Points(c, b, agent)[..n - 1];
    }
  }

  /** So many basis points are nearest to this part of the whole, halves going up. */
  predicate NearestPart(bps: int, part: int, whole: int) {
    -whole <= 2 * (10_000 * part - bps * whole) < whole
  }

  /** The share is the first agent's part of all points, to the nearest basis point; no points, no share. */
  lemma ShareMeans(c: ReviewCase, b: ReviewBallot)
    requires |c.agents| == 2 && ScoresNonNegative(c, b)
    ensures var mine := Sum(Points(c, b, AgentA(c)));
            var whole := mine + Sum(Points(c, b, AgentB(c)));
            && (Share(c, b).None? <==> !b.decided || whole == 0)
            && (Share(c, b).Some? ==>
                  0 <= Share(c, b).value <= 10_000 && NearestPart(Share(c, b).value, mine, whole))
  {
    WeightedNonNegative(c.criteria, b, AgentA(c));
    WeightedNonNegative(c.criteria, b, AgentB(c));
    WeightedIsSum(c, b, AgentA(c), |c.criteria|);
    WeightedIsSum(c, b, AgentB(c), |c.criteria|);
    assert c.criteria[..|c.criteria|] == c.criteria;
    assert forall a :: Points(c, b, a)[..|c.criteria|] == Points(c, b, a);
    var mine := Sum(Points(c, b, AgentA(c)));
    var whole := mine + Sum(Points(c, b, AgentB(c)));
    if 0 < whole {
      RoundedNearest(mine, whole);
    }
  }

  /** The two agents, in the order of their names. */
  lemma AgentsByName(c: ReviewCase)
    requires |c.agents| == 2
    ensures c.agents.Keys == {AgentA(c), AgentB(c)} && AgentA(c) != AgentB(c) && TextLe(AgentA(c), AgentB(c))
  {
    var names := SortedTexts(c.agents.Keys);
    assert |c.agents.Keys| == |c.agents|;
    assert names == [names[0], names[1]];
    assert Elements(names) == {names[0], names[1]};
  }

  /** The share of the first agent by name: its part of all points, or none when there are none to share. */
  ghost predicate FairShare(c: ReviewCase, b: ReviewBallot, share: Option<int>)
    requires |c.agents| == 2
  {
    var mine := Sum(Points(c, b, AgentA(c)));
    var whole := mine + Sum(Points(c, b, AgentB(c)));
    && (share.None? <==> !b.decided || whole == 0)
    && (share.Some? ==> NearestPart(share.value, mine, whole))
  }

  lemma ShareIsFair(c: ReviewCase, b: ReviewBallot)
    requires |c.agents| == 2 && ScoresNonNegative(c, b)
    ensures FairShare(c, b, Share(c, b))
  {
    ShareMeans(c, b);
  }

  /** ballot_causal_share_bps: sum both agents' weighted scores over the criteria. */
  method BallotShare(c: ReviewCase, b: ReviewBallot) returns (share: Option<int>)
    requires |c.agents| == 2 && ScoresNonNegative(c, b)
    ensures share == Share(c, b)
    ensures FairShare(c, b, share)
  {
    ShareIsFair(c, b);
    hide FairShare, AgentA, AgentB;
    if !b.decided {
      return None;
    }
    var weightedA, weightedB := 0, 0;
    for i := 0 to |c.criteria|
      invariant weightedA == Weighted(c.criteria[..i], b, AgentA(c))
                && weightedB == Weighted(c.criteria[..i], b, AgentB(c))
    {
      assert c.criteria[..i + 1][..i] == c.criteria[..i];
      var criterion := c.criteria[i];
      weightedA := weightedA + criterion.weight * ScoreOf(b, criterion.name, AgentA(c));
      weightedB := weightedB + criterion.weight * ScoreOf(b, criterion.name, AgentB(c));
    }
    assert c.criteria[..|c.criteria|] == c.criteria;
    WeightedNonNegative(c.criteria, b, AgentA(c));
    WeightedNonNegative(c.criteria, b, AgentB(c));
    var denominator := weightedA + weightedB;
    if denominator == 0 {
      return None;
    }
    return Some((10_000 * weightedA + denominator / 2) / denominator);
  }

  /** The rounded share is the nearest integer to the exact one, halves going up, and stays within the whole. */
  lemma RoundedNearest(a: int, whole: int)
    requires 0 <= a <= whole && 0 < whole
    ensures -whole <= 2 * (10_000 * a - Rounded(a, whole) * whole) < whole
    ensures 0 <= Rounded(a, whole) <= 10_000
  {
    var q := Rounded(a, whole);
    QuotientBounds(10_000 * a + whole / 2, whole);
    if q > 10_000 {
      Larger(10_001, q, whole);
    }
    if q < 0 {
      Larger(q, -1, whole);
    }
  }

  lemma QuotientBounds(n: int, d: int)
    requires d > 0
    ensures (n / d) * d <= n < (n / d) * d + d
  {
    assert n == (n / d) * d + n % d;
  }

  lemma Larger(p: int, q: int, d: int)
    requires p <= q && 0 <= d
    ensures p * d <= q * d
  {}

  /** Scoring the first agent higher, all else equal, never lowers that agent's share. */
  lemma ShareMonotone(a: int, more: int, other: int)
    requires 0 <= a <= more && 0 <= other && 0 < a + other
    ensures Rounded(a, a + other) <= Rounded(more, more + other)
  {
    var d, e := a + other, more + other;
    var q, r := Rounded(a, d), Rounded(more, e);
    RoundedNearest(a, d);
    RoundedNearest(more, e);
    if r < q {
      hide Rounded;
      Larger(r + 1, q, e);
      Larger(q, 10_000, e - d);
      Spread(q, d, e);
      Spread(r, e, e);
    }
  }

  lemma Spread(q: int, d: int, e: int)
    ensures q * e == q * d + q * (e - d)
    ensures (q + 1) * e == q * e + e
  {}

  /** Scoring the other agent lower, all else equal, never lowers the first agent's share. */
  lemma ShareAntitone(a: int, other: int, less: int)
    requires 0 <= a && 0 <= less <= other && 0 < a + less
    ensures Rounded(a, a + other) <= Rounded(a, a + less)
  {
    var d, e := a + other, a + less;
    var q, r := Rounded(a, d), Rounded(a, e);
    RoundedNearest(a, d);
    RoundedNearest(a, e);
    hide Rounded;
    if r < q {
      NearestApart(10_000 * a, q, d, r, e);
    }
  }

  /** A larger quotient is not nearest to the same number over a larger divisor. */
  lemma NearestApart(n: int, q: int, d: int, r: int, e: int)
    requires 0 <= r && 0 < e <= d && -d <= 2 * (n - q * d) && 2 * (n - r * e) < e
    ensures q <= r
  {
    if r + 1 <= q {
      Larger(r + 1, q, d);
      ScaledDown(2 * r + 1, e, d);
    }
  }

  lemma ScaledDown(k: int, e: int, d: int)
    requires 0 <= k && e <= d
    ensures k * e <= k * d
  {}

  /** One ballot never scores the first agent lower or the second higher than another does. */
  predicate Favours(c: ReviewCase, more: ReviewBallot, b: ReviewBallot)
    requires |c.agents| == 2
  {
    forall i :: 0 <= i < |c.criteria| ==>
      var n := c.criteria[i].name;
      ScoreOf(b, n, AgentA(c)) <= ScoreOf(more, n, AgentA(c)) && ScoreOf(more, n, AgentB(c)) <= ScoreOf(b, n, AgentB(c))
  }

  lemma {:induction false} WeightedOrder(criteria: seq<Criterion>, b: ReviewBallot, x: Id, more: ReviewBallot, y: Id)
    requires forall i :: 0 <= i < |criteria| ==> 0 <= criteria[i].weight
    requires forall i :: 0 <= i < |criteria| ==> ScoreOf(b, criteria[i].name, x) <= ScoreOf(more, criteria[i].name, y)
    ensures Weighted(criteria, b, x) <= Weighted(criteria, more, y)
  {
    if criteria != [] {
      var last := criteria[|criteria| - 1];
      WeightedOrder(criteria[..|criteria| - 1], b, x, more, y);
      ScaledDown(last.weight, ScoreOf(b, last.name, x), ScoreOf(more, last.name, y));
    }
  }

  /** Raising the first agent's scores, or lowering the second's, never lowers the first agent's share. */
  lemma ScoresMoveShare(c: ReviewCase, b: ReviewBallot, more: ReviewBallot)
    requires |c.agents| == 2 && ScoresNonNegative(c, b) && ScoresNonNegative(c, more) && Favours(c, more, b)
    requires Share(c, b).Some? && Share(c, more).Some?
    ensures Share(c, b).value <= Share(c, more).value
  {
    var a, other := Weighted(c.criteria, b, AgentA(c)), Weighted(c.criteria, b, AgentB(c));
    var a', other' := Weighted(c.criteria, more, AgentA(c)), Weighted(c.criteria, more, AgentB(c));
    WeightedOrder(c.criteria, b, AgentA(c), more, AgentA(c));
    WeightedOrder(c.criteria, more, AgentB(c), b, AgentB(c));
    WeightedNonNegative(c.criteria, b, AgentA(c));
    WeightedNonNegative(c.criteria, more, AgentB(c));
    hide Rounded, Weighted;
    ShareMonotone(a, a', other);
    ShareAntitone(a', other, other');
  }

  // ----- The split -----

  /** floor + (distributable * median + 5000) // 10000. */
  function Split(floor: int, median: int): int {
    floor + ((10_000 - 2 * floor) * median + 5_000) / 10_000
  }

  /** Both agents keep the floor, the ends reach exactly the floor, and a higher median never lowers the split. */
  lemma SplitBounds(floor: int, median: int, higher: int)
    requires 0 <= floor <= 4_999 && 0 <= median <= higher <= 10_000
    ensures floor <= Split(floor, median) <= Split(floor, higher) <= 10_000 - floor
    ensures Split(floor, 0) == floor && Split(floor, 10_000) == 10_000 - floor
  {
    var d := 10_000 - 2 * floor;
    SplitMonotone(d, 0, median);
    SplitMonotone(d, median, higher);
    SplitMonotone(d, higher, 10_000);
    assert (d * 10_000 + 5_000) / 10_000 == d;
  }

  lemma SplitMonotone(d: int, low: int, high: int)
    requires 0 <= d && low <= high
    ensures (d * low + 5_000) / 10_000 <= (d * high + 5_000) / 10_000
  {
    assert d * low <= d * high;
  }

  /** The split is the nearest integer to the exact one, halves going up. */
  lemma SplitNearest(floor: int, median: int)
    ensures -5_000 <= (10_000 - 2 * floor) * median - 10_000 * (Split(floor, median) - floor) < 5_000
  {
    QuotientBounds((10_000 - 2 * floor) * median + 5_000, 10_000);
  }

  // ----- Aggregation -----

  function Shares(c: ReviewCase, ballots: seq<ReviewBallot>): seq<int>
    requires |c.agents| == 2
  {
    if ballots == [] then []
    else
      var share := Share(c, ballots[|ballots| - 1]);
      Shares(c, ballots[..|ballots| - 1]) + if share.Some? then [share.value] else []
  }

  /** The confidences of the ballots that gave a share. */
  function Confidences(c: ReviewCase, ballots: seq<ReviewBallot>): (r: seq<int>)
    requires |c.agents| == 2
    ensures |r| == |Shares(c, ballots)|
  {
    if ballots == [] then []
    else
      var last := ballots[|ballots| - 1];
      Confidences(c, ballots[..|ballots| - 1]) + if Share(c, last).Some? then [last.confidence] else []
  }

  function WhyNotDecided(p: ReviewPolicy, ballots: nat, shares: seq<int>): Option<WhyNot> {
    if ballots < p.quorum then Some(QuorumNotMet)
    else if |shares| < 2 then Some(TooFewDecided)
    else if Highest(shares) - Lowest(shares) > p.maxDispersionBps then Some(TooDispersed)
    else None
  }

  /** What the shares of some number of ballots decide. */
  function DecisionFrom(c: ReviewCase, root: EvidenceRoot, count: nat, shares: seq<int>,
                        confidences: seq<int>): Decision
    requires |shares| == |confidences|
  {
    var reason := WhyNotDecided(c.policy, count, shares);
    var allocation := if reason.Some? then None
                      else Some((Split(c.floorBps, Median(shares)), 10_000 - Split(c.floorBps, Median(shares))));
    Decision(c.caseId, root, allocation,
             if shares == [] then None else Some(Median(shares)),
             if shares == [] then None else Some(Highest(shares) - Lowest(shares)),
             count, |shares|, if shares == [] then None else Some(Median(confidences)), reason)
  }

  function Outcome(c: ReviewCase, root: EvidenceRoot, ballots: seq<ReviewBallot>): Decision
    requires |c.agents| == 2
  {
    DecisionFrom(c, root, |ballots|, Shares(c, ballots), Confidences(c, ballots))
  }

  /** Every ballot is valid for its own reviewer, and no reviewer casts two. */
  predicate BallotsAggregate(c: ReviewCase, root: EvidenceRoot, ballots: seq<ReviewBallot>, contributions: set<Id>) {
    && (forall i :: 0 <= i < |ballots| ==> ValidBallot(ballots[i], c, root, ballots[i].reviewerId, contributions))
    && forall i, j :: 0 <= i < j < |ballots| ==> ballots[i].reviewerId != ballots[j].reviewerId
  }

  function Aggregated(c: ReviewCase, root: EvidenceRoot, ballots: seq<ReviewBallot>,
                      contributions: set<Id>): Result<Decision>
    requires |c.agents| == 2
  {
    if BallotsAggregate(c, root, ballots, contributions) then Accept(Outcome(c, root, ballots)) else Reject
  }

  function Reviewers(ballots: seq<ReviewBallot>): set<Key> {
    set b | b in ballots :: b.reviewerId
  }

  lemma AggregateExtends(c: ReviewCase, root: EvidenceRoot, ballots: seq<ReviewBallot>, contributions: set<Id>, i: nat)
    requires i < |ballots| && BallotsAggregate(c, root, ballots[..i], contributions)
    ensures Reviewers(ballots[..i + 1]) == Reviewers(ballots[..i]) + {ballots[i].reviewerId}
    ensures var fits := ValidBallot(ballots[i], c, root, ballots[i].reviewerId, contributions)
                        && ballots[i].reviewerId !in Reviewers(ballots[..i]);
            && (fits ==> BallotsAggregate(c, root, ballots[..i + 1], contributions))
            && (!fits ==> !BallotsAggregate(c, root, ballots, contributions))
  {
    hide ValidBallot;
    assert ballots[..i + 1] == ballots[..i] + [ballots[i]];
    if ballots[i].reviewerId in Reviewers(ballots[..i]) {
      var k :| 0 <= k < i && ballots[..i][k].reviewerId == ballots[i].reviewerId;
      assert ballots[k].reviewerId == ballots[i].reviewerId;
    }
  }

  lemma ValidScores(c: ReviewCase, b: ReviewBallot, root: EvidenceRoot, reviewer: Key, contributions: set<Id>)
    requires ValidCase(c) && ValidBallot(b, c, root, reviewer, contributions)
    ensures ScoresNonNegative(c, b)
  {}

  lemma NextShare(c: ReviewCase, ballots: seq<ReviewBallot>, i: nat)
    requires |c.agents| == 2 && i < |ballots|
    ensures var share := Share(c, ballots[i]);
            && Shares(c, ballots[..i + 1]) == Shares(c, ballots[..i]) + (if share.Some? then [share.value] else [])
            && Confidences(c, ballots[..i + 1])
                == Confidences(c, ballots[..i]) + (if share.Some? then [ballots[i].confidence] else [])
  {
    hide Share;
    assert ballots[..i + 1][..i] == ballots[..i];
  }

  /** Validate the ballots one by one and collect the shares and confidences of those that decide. */
  method CollectShares(c: ReviewCase, root: EvidenceRoot, ballots: seq<ReviewBallot>, contributions: set<Id>)
    returns (valid: bool, shares: seq<int>, confidences: seq<int>)
    requires ValidCase(c)
    ensures valid <==> BallotsAggregate(c, root, ballots, contributions)
    ensures valid ==> shares == Shares(c, ballots) && confidences == Confidences(c, ballots)
  {
    assert |c.agents| == 2;
    assert BallotsAggregate(c, root, ballots[..0], contributions);
    assert Shares(c, ballots[..0]) == [] && Confidences(c, ballots[..0]) == [] && Reviewers(ballots[..0]) == {};
    hide ValidBallot, Share, ValidCase, ScoresNonNegative, BallotsAggregate, Shares, Confidences, Reviewers;
    var seen: set<Key> := {};
    shares, confidences := [], [];
    for i := 0 to |ballots|
      invariant BallotsAggregate(c, root, ballots[..i], contributions) && seen == Reviewers(ballots[..i])
      invariant shares == Shares(c, ballots[..i]) && confidences == Confidences(c, ballots[..i])
    {
      var ballot := ballots[i];
      NextShare(c, ballots, i);
      AggregateExtends(c, root, ballots, contributions, i);
      if !ValidBallot(ballot, c, root, ballot.reviewerId, contributions) || ballot.reviewerId in seen {
        return false, [], [];
      }
      seen := seen + {ballot.reviewerId};
      ValidScores(c, ballot, root, ballot.reviewerId, contributions);
      var share := BallotShare(c, ballot);
      if share.Some? {
        shares, confidences := shares + [share.value], confidences + [ballot.confidence];
      }
    }
    assert ballots[..|ballots|] == ballots;
    return true, shares, confidences;
  }

  /** Look for a reason against a decision, and split above the floor only when there is none. */
  method Decide(c: ReviewCase, root: EvidenceRoot, count: nat, shares: seq<int>,
                confidences: seq<int>) returns (decision: Decision)
    requires |shares| == |confidences|
    ensures decision == DecisionFrom(c, root, count, shares, confidences)
  {
    hide Highest, Lowest, Median, Split;
    var reason: Option<WhyNot> := None;
    if count < c.policy.quorum {
      reason := Some(QuorumNotMet);
    } else if |shares| < 2 {
      reason := Some(TooFewDecided);
    }
    var dispersion := if shares == [] then None else Some(Highest(shares) - Lowest(shares));
    if reason.None? && dispersion.Some? && dispersion.value > c.policy.maxDispersionBps {
      reason := Some(TooDispersed);
    }
    var median := if shares == [] then None else Some(Median(shares));
    var confidence := if shares == [] then None else Some(Median(confidences));
    if reason.Some? {
      return Decision(c.caseId, root, None, median, dispersion, count, |shares|, confidence, reason);
    }
    var allocationA := Split(c.floorBps, median.value);
    return Decision(c.caseId, root, Some((allocationA, 10_000 - allocationA)), median, dispersion,
                    count, |shares|, confidence, None);
  }

  /** aggregate_ballots. */
  method AggregateBallots(c: ReviewCase, root: EvidenceRoot, ballots: seq<ReviewBallot>, contributions: set<Id>)
    returns (decision: Result<Decision>)
    requires ValidCase(c)
    ensures decision == Aggregated(c, root, ballots, contributions)
  {
    hide BallotsAggregate, Shares, Confidences, DecisionFrom;
    var valid, shares, confidences := CollectShares(c, root, ballots, contributions);
    if !valid {
      return Reject;
    }
    var outcome := Decide(c, root, |ballots|, shares, confidences);
    return Accept(outcome);
  }

  // ----- What a decision is worth -----

  lemma {:induction false} SharesInRange(c: ReviewCase, ballots: seq<ReviewBallot>)
    requires |c.agents| == 2 && forall i :: 0 <= i < |ballots| ==> ScoresNonNegative(c, ballots[i])
    ensures forall i :: 0 <= i < |Shares(c, ballots)| ==> 0 <= Shares(c, ballots)[i] <= 10_000
  {
    if ballots != [] {
      SharesInRange(c, ballots[..|ballots| - 1]);
      var b := ballots[|ballots| - 1];
      WeightedNonNegative(c.criteria, b, AgentA(c));
      WeightedNonNegative(c.criteria, b, AgentB(c));
      var a, other := Weighted(c.criteria, b, AgentA(c)), Weighted(c.criteria, b, AgentB(c));
      if a + other > 0 {
        RoundedNearest(a, a + other);
      }
    }
  }

  /**
   A decided outcome gives both agents at least the floor and exactly the whole between them, and a strict majority
   of shares in a range keeps the first agent's part within the split of that range.
   */
  lemma DecidedSplit(c: ReviewCase, root: EvidenceRoot, ballots: seq<ReviewBallot>, contributions: set<Id>,
                     low: int, high: int)
    requires ValidCase(c) && BallotsAggregate(c, root, ballots, contributions)
    requires Outcome(c, root, ballots).allocation.Some?
    ensures var (a, b) := Outcome(c, root, ballots).allocation.value;
            && a + b == 10_000 && c.floorBps <= a <= 10_000 - c.floorBps && c.floorBps <= b <= 10_000 - c.floorBps
            && (0 <= low && high <= 10_000 && 2 * CountWithin(Shares(c, ballots), low, high) > |Shares(c, ballots)|
                ==> Split(c.floorBps, low) <= a <= Split(c.floorBps, high))
  {
    forall i | 0 <= i < |ballots| ensures ScoresNonNegative(c, ballots[i]) {
      ValidScores(c, ballots[i], root, ballots[i].reviewerId, contributions);
    }
    var shares := Shares(c, ballots);
    SharesInRange(c, ballots);
    MedianWithin(shares, 0, 10_000);
    SplitBounds(c.floorBps, Median(shares), Median(shares));
    if 0 <= low && high <= 10_000 && 2 * CountWithin(shares, low, high) > |shares| {
      MedianMajority(shares, low, high);
      SplitBounds(c.floorBps, low, Median(shares));
      SplitBounds(c.floorBps, Median(shares), high);
    }
  }

  /** This ballot scores one agent at least as high as the other on every criterion. */
  predicate Prefers(c: ReviewCase, b: ReviewBallot, one: Id, other: Id) {
    forall i :: 0 <= i < |c.criteria| ==>
      ScoreOf(b, c.criteria[i].name, other) <= ScoreOf(b, c.criteria[i].name, one)
  }

  lemma PreferredShare(c: ReviewCase, b: ReviewBallot)
    requires |c.agents| == 2 && ScoresNonNegative(c, b) && Share(c, b).Some?
    ensures Prefers(c, b, AgentA(c), AgentB(c)) ==> 5_000 <= Share(c, b).value
    ensures Prefers(c, b, AgentB(c), AgentA(c)) ==> Share(c, b).value <= 5_000
  {
    var a, other := Weighted(c.criteria, b, AgentA(c)), Weighted(c.criteria, b, AgentB(c));
    WeightedNonNegative(c.criteria, b, AgentA(c));
    WeightedNonNegative(c.criteria, b, AgentB(c));
    if Prefers(c, b, AgentA(c), AgentB(c)) {
      WeightedOrder(c.criteria, b, AgentB(c), b, AgentA(c));
    }
    if Prefers(c, b, AgentB(c), AgentA(c)) {
      WeightedOrder(c.criteria, b, AgentA(c), b, AgentB(c));
    }
    HalfOfWhole(a, a + other);
  }

  lemma HalfOfWhole(a: int, whole: int)
    requires 0 <= a <= whole && 0 < whole
    ensures whole <= 2 * a ==> 5_000 <= Rounded(a, whole)
    ensures 2 * a <= whole ==> Rounded(a, whole) <= 5_000
  {
    var q := Rounded(a, whole);
    RoundedNearest(a, whole);
    hide Rounded;
    if q <= 4_999 {
      Larger(q, 4_999, whole);
    }
    if 5_001 <= q {
      Larger(5_001, q, whole);
    }
  }

  lemma {:induction false} PreferredShares(c: ReviewCase, ballots: seq<ReviewBallot>, low: int, high: int)
    requires |c.agents| == 2
    requires forall i :: 0 <= i < |ballots| && Share(c, ballots[i]).Some? ==> low <= Share(c, ballots[i]).value <= high
    ensures forall i :: 0 <= i < |Shares(c, ballots)| ==> low <= Shares(c, ballots)[i] <= high
  {
    if ballots != [] {
      PreferredShares(c, ballots[..|ballots| - 1], low, high);
    }
  }

  lemma ShareOfPreferred(c: ReviewCase, b: ReviewBallot, root: EvidenceRoot, contributions: set<Id>)
    requires ValidCase(c) && ValidBallot(b, c, root, b.reviewerId, contributions) && Share(c, b).Some?
    ensures b.decided && 0 <= Share(c, b).value <= 10_000
    ensures Prefers(c, b, AgentA(c), AgentB(c)) ==> 5_000 <= Share(c, b).value
    ensures Prefers(c, b, AgentB(c), AgentA(c)) ==> Share(c, b).value <= 5_000
  {
    ValidScores(c, b, root, b.reviewerId, contributions);
    ShareMeans(c, b);
    PreferredShare(c, b);
  }

  /** An agent that no decided ballot scores lower than the other on any criterion gets at least half. */
  lemma PreferredGetsHalf(c: ReviewCase, root: EvidenceRoot, ballots: seq<ReviewBallot>, contributions: set<Id>)
    requires ValidCase(c) && BallotsAggregate(c, root, ballots, contributions)
    requires Outcome(c, root, ballots).allocation.Some?
    ensures var (a, b) := Outcome(c, root, ballots).allocation.value;
            && ((forall i :: 0 <= i < |ballots| && ballots[i].decided ==>
                   Prefers(c, ballots[i], AgentA(c), AgentB(c))) ==> 5_000 <= a)
            && ((forall i :: 0 <= i < |ballots| && ballots[i].decided ==>
                   Prefers(c, ballots[i], AgentB(c), AgentA(c))) ==> 5_000 <= b)
  {
    assert |c.agents| == 2;
    hide Outcome, Prefers, ValidCase, BallotsAggregate;
    if forall i :: 0 <= i < |ballots| && ballots[i].decided ==> Prefers(c, ballots[i], AgentA(c), AgentB(c)) {
      SharesDecide(c, root, ballots, contributions, 5_000, 10_000);
    }
    if forall i :: 0 <= i < |ballots| && ballots[i].decided ==> Prefers(c, ballots[i], AgentB(c), AgentA(c)) {
      SharesDecide(c, root, ballots, contributions, 0, 5_000);
    }
  }

  /** When every decided ballot prefers an agent, so does the median of their shares. */
  lemma SharesDecide(c: ReviewCase, root: EvidenceRoot, ballots: seq<ReviewBallot>, contributions: set<Id>, low: int,
                     high: int)
    requires ValidCase(c) && BallotsAggregate(c, root, ballots, contributions)
    requires Outcome(c, root, ballots).allocation.Some?
    requires (low, high) == (5_000, 10_000) || (low, high) == (0, 5_000)
    requires forall i :: 0 <= i < |ballots| && ballots[i].decided ==>
               if low == 0 then Prefers(c, ballots[i], AgentB(c), AgentA(c))
               else Prefers(c, ballots[i], AgentA(c), AgentB(c))
    ensures var (a, b) := Outcome(c, root, ballots).allocation.value;
            a + b == 10_000 && if low == 0 then a <= 5_000 else 5_000 <= a
  {
    forall i | 0 <= i < |ballots| && Share(c, ballots[i]).Some? ensures low <= Share(c, ballots[i]).value <= high {
      ShareOfPreferred(c, ballots[i], root, contributions);
    }
    hide Prefers, ScoresNonNegative, Share, Shares, Split, Median, ValidBallot;
    PreferredShares(c, ballots, low, high);
    MedianWithin(Shares(c, ballots), low, high);
    SplitAtHalf(c.floorBps, Median(Shares(c, ballots)), low, high);
  }

  lemma SplitAtHalf(floor: int, median: int, low: int, high: int)
    requires 0 <= floor <= 4_999 && 0 <= low <= median <= high <= 10_000
    ensures 5_000 <= low ==> 5_000 <= Split(floor, median)
    ensures high <= 5_000 ==> Split(floor, median) <= 5_000
  {
    assert (10_000 - 2 * floor) * 5_000 == 10_000 * (5_000 - floor);
    assert Split(floor, 5_000) == 5_000;
    if 5_000 <= low {
      SplitMonotone(10_000 - 2 * floor, 5_000, median);
    }
    if high <= 5_000 {
      SplitMonotone(10_000 - 2 * floor, median, 5_000);
    }
  }

  /** How many ballots give a share. */
  function Deciding(c: ReviewCase, ballots: seq<ReviewBallot>): set<nat>
    requires |c.agents| == 2
  {
    set i | 0 <= i < |ballots| && Share(c, ballots[i]).Some?
  }

  lemma {:induction false} SharesCounted(c: ReviewCase, ballots: seq<ReviewBallot>)
    requires |c.agents| == 2
    ensures |Shares(c, ballots)| == |Deciding(c, ballots)|
  {
    if ballots != [] {
      var init, last := ballots[..|ballots| - 1], ballots[|ballots| - 1];
      SharesCounted(c, init);
      DecidingMore(c, ballots);
      hide Share, Deciding;
    }
  }

  lemma DecidingMore(c: ReviewCase, ballots: seq<ReviewBallot>)
    requires |c.agents| == 2 && ballots != []
    ensures var n := |ballots| - 1;
            && n !in Deciding(c, ballots[..n])
            && Deciding(c, ballots) == Deciding(c, ballots[..n]) + if Share(c, ballots[n]).Some? then {n} else {}
  {
    hide Share;
  }

  lemma {:induction false} ShareListed(c: ReviewCase, ballots: seq<ReviewBallot>, i: nat)
    requires |c.agents| == 2 && i < |ballots| && Share(c, ballots[i]).Some?
    ensures Share(c, ballots[i]).value in Shares(c, ballots)
  {
    hide Share;
    if i < |ballots| - 1 {
      ShareListed(c, ballots[..|ballots| - 1], i);
    }
  }

  lemma {:induction false} ShareGiven(c: ReviewCase, ballots: seq<ReviewBallot>, k: nat) returns (i: nat)
    requires |c.agents| == 2 && k < |Shares(c, ballots)|
    ensures i < |ballots| && Share(c, ballots[i]) == Some(Shares(c, ballots)[k])
    ensures ballots[i].confidence == Confidences(c, ballots)[k]
  {
    hide Share;
    var init := ballots[..|ballots| - 1];
    if k < |Shares(c, init)| {
      i := ShareGiven(c, init, k);
    } else {
      i := |ballots| - 1;
    }
  }

  /** Shares so far apart stand between the ballots and a decision. */
  predicate Apart(c: ReviewCase, ballots: seq<ReviewBallot>, i: nat, j: nat)
    requires |c.agents| == 2
  {
    && i in Deciding(c, ballots) && j in Deciding(c, ballots)
    && c.policy.maxDispersionBps < Share(c, ballots[i]).value - Share(c, ballots[j]).value
  }

  /** The shares spread wider than the policy allows exactly when two of them are that far apart. */
  lemma ApartExactly(c: ReviewCase, ballots: seq<ReviewBallot>)
    requires |c.agents| == 2 && Shares(c, ballots) != []
    ensures var shares := Shares(c, ballots);
            c.policy.maxDispersionBps < Highest(shares) - Lowest(shares) <==> exists i, j :: Apart(c, ballots, i, j)
  {
    var shares := Shares(c, ballots);
    hide Share, Shares;
    if c.policy.maxDispersionBps < Highest(shares) - Lowest(shares) {
      var k :| 0 <= k < |shares| && shares[k] == Highest(shares);
      var l :| 0 <= l < |shares| && shares[l] == Lowest(shares);
      var i := ShareGiven(c, ballots, k);
      var j := ShareGiven(c, ballots, l);
      assert Apart(c, ballots, i, j);
    }
    if i, j :| Apart(c, ballots, i, j) {
      ShareListed(c, ballots, i);
      ShareListed(c, ballots, j);
    }
  }

  /** When and why there is no decision, and what is counted. */
  lemma OutcomeMeans(c: ReviewCase, root: EvidenceRoot, ballots: seq<ReviewBallot>)
    requires |c.agents| == 2
    ensures var d, deciding := Outcome(c, root, ballots), |Deciding(c, ballots)|;
            && d.caseId == c.caseId && d.root == root
            && d.revealCount == |ballots| && d.decidedBallots == deciding
            && (d.reason == Some(QuorumNotMet) <==> |ballots| < c.policy.quorum)
            && (d.reason == Some(TooFewDecided) <==> c.policy.quorum <= |ballots| && deciding < 2)
            && (d.reason == Some(TooDispersed) <==>
                  && c.policy.quorum <= |ballots| && 2 <= deciding
                  && exists i, j :: Apart(c, ballots, i, j))
            && (d.allocation.Some? <==> d.reason.None?)
  {
    SharesCounted(c, ballots);
    if Shares(c, ballots) != [] {
      ApartExactly(c, ballots);
    }
    hide Split, Median, Shares, Deciding, Highest, Lowest, Apart, Confidences;
  }

  /** The figures of an outcome: over no shares there are none, and a decision splits at the median. */
  lemma OutcomeFigures(c: ReviewCase, root: EvidenceRoot, ballots: seq<ReviewBallot>)
    requires |c.agents| == 2
    ensures var d, shares := Outcome(c, root, ballots), Shares(c, ballots);
            && (shares == [] ==> d.median.None? && d.dispersion.None? && d.confidence.None? && d.allocation.None?)
            && (shares != [] ==>
                  && d.median == Some(Median(shares)) && d.dispersion == Some(Highest(shares) - Lowest(shares))
                  && d.confidence == Some(Median(Confidences(c, ballots))))
            && (d.allocation.Some? ==>
                  && d.median.Some? && d.allocation.value.0 == Split(c.floorBps, d.median.value)
                  && d.allocation.value.0 + d.allocation.value.1 == 10_000)
  {
    hide Split, Median, Shares, Highest, Lowest, Confidences;
  }

  // ----- The order of ballots is irrelevant -----

  lemma {:induction false} SharesAppend(c: ReviewCase, xs: seq<ReviewBallot>, ys: seq<ReviewBallot>)
    requires |c.agents| == 2
    ensures Shares(c, xs + ys) == Shares(c, xs) + Shares(c, ys)
    ensures Confidences(c, xs + ys) == Confidences(c, xs) + Confidences(c, ys)
  {
    if ys == [] {
      assert xs + ys == xs;
    } else {
      ShorterConcat(xs, ys);
      SharesAppend(c, xs, ys[..|ys| - 1]);
    }
  }

  lemma {:induction false} SharesPermute(c: ReviewCase, xs: seq<ReviewBallot>, ys: seq<ReviewBallot>)
    requires |c.agents| == 2 && multiset(xs) == multiset(ys)
    ensures multiset(Shares(c, xs)) == multiset(Shares(c, ys))
    ensures multiset(Confidences(c, xs)) == multiset(Confidences(c, ys))
  {
    if xs == [] {
      assert |multiset(ys)| == 0;
    } else {
      hide Shares, Confidences;
      var k := RemoveMatching(xs, ys);
      var init, last := xs[..|xs| - 1], xs[|xs| - 1];
      SharesPermute(c, init, ys[..k] + ys[k + 1..]);
      ShareTakenOut(c, xs, |xs| - 1);
      ShareTakenOut(c, ys, k);
      assert xs[..|xs| - 1] + xs[|xs| - 1 + 1..] == init;
    }
  }

  lemma ShareTakenOut(c: ReviewCase, ys: seq<ReviewBallot>, k: nat)
    requires |c.agents| == 2 && k < |ys|
    ensures multiset(Shares(c, ys)) == multiset(Shares(c, ys[..k] + ys[k + 1..])) + multiset(Shares(c, [ys[k]]))
    ensures multiset(Confidences(c, ys))
            == multiset(Confidences(c, ys[..k] + ys[k + 1..])) + multiset(Confidences(c, [ys[k]]))
  {
    hide Shares, Confidences;
    assert ys == ys[..k] + [ys[k]] + ys[k + 1..];
    SharesAppend(c, ys[..k], ys[k + 1..]);
    SharesAppend(c, ys[..k] + [ys[k]], ys[k + 1..]);
    SharesAppend(c, ys[..k], [ys[k]]);
  }

  lemma OutcomeOrderFree(c: ReviewCase, root: EvidenceRoot, xs: seq<ReviewBallot>, ys: seq<ReviewBallot>)
    requires |c.agents| == 2 && multiset(xs) == multiset(ys)
    ensures Outcome(c, root, xs) == Outcome(c, root, ys)
  {
    hide Shares, Confidences, Split, Highest, Lowest, Median;
    SharesPermute(c, xs, ys);
    assert |multiset(xs)| == |xs| && |multiset(ys)| == |ys|;
    var s, t := Shares(c, xs), Shares(c, ys);
    assert |multiset(s)| == |s| && |multiset(t)| == |t|;
    if s != [] {
      MedianOrderFree(s, t);
      MedianOrderFree(Confidences(c, xs), Confidences(c, ys));
      SameExtremes(s, t);
    }
  }
}
