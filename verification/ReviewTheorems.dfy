/** Main results about runs of the two-agent review. */
module ReviewTheorems {
  import opened Basics
  import opened Medians
  import opened ReviewPanel
  import opened ReviewTypes
  import opened ReviewDecision
  import opened ReviewSteps
  import opened ReviewRuns

  // ----- Continuations -----

  lemma ContinuedBy(digests: RootDigests, entries: seq<ReviewEntry>, more: seq<ReviewEntry>,
                    t: ReviewState) returns (u: ReviewState)
    requires more != [] && Run(digests, entries + more) == Accept(t)
    ensures Run(digests, entries + more[..|more| - 1]) == Accept(u) && Step(digests, u, more[|more| - 1]) == Accept(t)
  {
    hide Step;
    ShorterConcat(entries, more);
    u := Run(digests, entries + more[..|more| - 1]).value;
  }

  /** From the assignment of reviewers on, the case, transcript, root and panel are frozen, and so is the close. */
  ghost predicate Frozen(s: ReviewState, t: ReviewState) {
    && t.opening == s.opening && t.roster == s.roster && t.contributions == s.contributions
    && t.technicalHash == s.technicalHash && t.root == s.root && t.panel == s.panel
    && t.phase in {Reviewing, Provisional} && (s.closed ==> t.closed)
    && (forall r :: r in s.commits ==> r in t.commits && t.commits[r] == s.commits[r])
  }

  lemma StepFrozen(digests: RootDigests, s: ReviewState, e: ReviewEntry, t: ReviewState)
    requires s.phase in {Reviewing, Provisional} && Step(digests, s, e) == Accept(t)
    ensures Frozen(s, t)
  {
    hide TranscriptStep, ValidBallot, Aggregated;
    if InReview(e.event.payload) {
      ReviewFrames(s, e, t);
    } else {
      TranscriptFrames(digests, s, e, t);
    }
  }

  lemma {:induction false} FrozenForever(digests: RootDigests, entries: seq<ReviewEntry>,
                                         more: seq<ReviewEntry>, s: ReviewState, t: ReviewState)
    requires Run(digests, entries) == Accept(s) && Run(digests, entries + more) == Accept(t)
    requires s.phase in {Reviewing, Provisional}
    ensures Frozen(s, t)
  {
    if more == [] {
      assert entries + more == entries;
    } else {
      hide Step, Run;
      var u := ContinuedBy(digests, entries, more, t);
      FrozenForever(digests, entries, more[..|more| - 1], s, u);
      StepFrozen(digests, u, more[|more| - 1], t);
    }
  }

  /** Anyone who has committed is past the assignment. */
  lemma CommittedIsReviewed(digests: RootDigests, s: ReviewState)
    requires StateOk(digests, s) && (s.closed || s.commits != map[])
    ensures s.phase in {Reviewing, Provisional}
  {}

  /**
   A reviewer who has committed can reveal only one ballot: in any two continuations in which that reviewer reveals,
   the ballots are the same.
   */
  lemma RevealsAgree(digests: RootDigests, entries: seq<ReviewEntry>, one: seq<ReviewEntry>, other: seq<ReviewEntry>,
                     s: ReviewState, t: ReviewState, u: ReviewState, r: Key)
    requires Run(digests, entries) == Accept(s)
    requires Run(digests, entries + one) == Accept(t) && Run(digests, entries + other) == Accept(u)
    requires r in s.commits && r in t.ballots && r in u.ballots
    ensures t.ballots[r] == u.ballots[r]
  {
    hide Run, ValidBallot, CaseOk, PanelOk, DecisionOk;
    RunOk(digests, entries, s);
    RunOk(digests, entries + one, t);
    RunOk(digests, entries + other, u);
    CommittedIsReviewed(digests, s);
    FrozenForever(digests, entries, one, s, t);
    FrozenForever(digests, entries, other, s, u);
    assert BallotOk(t, r) && BallotOk(u, r);
  }

  /** After the close, what a reviewer reveals is what the close found committed. */
  lemma ClosedReveal(digests: RootDigests, s: ReviewState, t: ReviewState, r: Key)
    requires StateOk(digests, s) && s.closed && StateOk(digests, t) && Frozen(s, t) && r in t.ballots
    ensures r in s.commits && s.commits[r].CommitTo? && s.commits[r].ballot == t.ballots[r]
  {
    hide ValidBallot, CaseOk, PanelOk, DecisionOk;
    assert BallotOk(t, r);
  }

  lemma AggregatesAgree(c: ReviewCase, root: EvidenceRoot, xs: seq<ReviewBallot>, ys: seq<ReviewBallot>,
                        contributions: set<Id>)
    requires |c.agents| == 2 && multiset(xs) == multiset(ys)
    requires Aggregated(c, root, xs, contributions).Accept? && Aggregated(c, root, ys, contributions).Accept?
    ensures Aggregated(c, root, xs, contributions) == Aggregated(c, root, ys, contributions)
  {
    OutcomeOrderFree(c, root, xs, ys);
  }

  lemma {:induction false} SameBallotLists(ballots: map<Key, ReviewBallot>, root: EvidenceRoot, one: seq<Key>,
                                           other: seq<Key>)
    requires multiset(one) == multiset(other)
    ensures multiset(BallotList(ballots, root, one)) == multiset(BallotList(ballots, root, other))
    decreases |one|
  {
    if one == [] {
      assert |multiset(other)| == 0;
    } else {
      var k := RemoveMatching(one, other);
      SameBallotLists(ballots, root, one[..|one| - 1], other[..k] + other[k + 1..]);
      var xs, ys := BallotList(ballots, root, one), BallotList(ballots, root, other);
      assert xs == BallotList(ballots, root, one[..|one| - 1]) + [xs[|one| - 1]];
      assert ys[..k] + ys[k + 1..] == BallotList(ballots, root, other[..k] + other[k + 1..]);
      RemoveAt(ys, k);
    }
  }

  /**
   Once commits are closed, the decision depends only on who reveals: two continuations in which the same reviewers
   revealed record the same decision, whatever the order, salts and times.
   */
  lemma DecisionsAgree(digests: RootDigests, entries: seq<ReviewEntry>, one: seq<ReviewEntry>, other: seq<ReviewEntry>,
                       s: ReviewState, t: ReviewState, u: ReviewState)
    requires Run(digests, entries) == Accept(s) && s.closed
    requires Run(digests, entries + one) == Accept(t) && Run(digests, entries + other) == Accept(u)
    requires t.decision.Some? && u.decision.Some? && t.ballots.Keys == u.ballots.Keys
    ensures t.decision == u.decision
  {
    hide Run, ValidBallot, BallotOk, PanelOk, CaseOk, Aggregated;
    RunOk(digests, entries, s);
    RunOk(digests, entries + one, t);
    RunOk(digests, entries + other, u);
    CommittedIsReviewed(digests, s);
    FrozenForever(digests, entries, one, s, t);
    FrozenForever(digests, entries, other, s, u);
    forall r | r in t.ballots ensures t.ballots[r] == u.ballots[r] {
      ClosedReveal(digests, s, t, r);
      ClosedReveal(digests, s, u, r);
    }
    assert t.ballots == u.ballots;
    DistinctMultiset(t.revealed);
    DistinctMultiset(u.revealed);
    SameBallotLists(t.ballots, t.root.value, t.revealed, u.revealed);
    AggregatesAgree(t.opening.value, t.root.value, BallotList(t.ballots, t.root.value, t.revealed),
                    BallotList(u.ballots, u.root.value, u.revealed), t.contributions.Keys);
  }

  // ----- The transcript -----

  /** Sealing is final: recomputing the root over any later state gives the sealed one. */
  lemma SealedRootStable(digests: RootDigests, entries: seq<ReviewEntry>, more: seq<ReviewEntry>,
                         s: ReviewState, t: ReviewState)
    requires Run(digests, entries) == Accept(s) && Run(digests, entries + more) == Accept(t)
    requires s.root.Some?
    ensures t.root == s.root == ExpectedRoot(t) && t.contributions == s.contributions
  {
    hide Run;
    RunOk(digests, entries, s);
    RunOk(digests, entries + more, t);
    SealedForever(digests, entries, more, s, t);
  }

  lemma {:induction false} SealedForever(digests: RootDigests, entries: seq<ReviewEntry>,
                                         more: seq<ReviewEntry>, s: ReviewState, t: ReviewState)
    requires Run(digests, entries) == Accept(s) && Run(digests, entries + more) == Accept(t)
    requires s.phase in {Sealed, Reviewing, Provisional}
    ensures t.phase in {Sealed, Reviewing, Provisional} && t.root == s.root && t.contributions == s.contributions
  {
    if more == [] {
      assert entries + more == entries;
    } else {
      hide Step, Run;
      var u := ContinuedBy(digests, entries, more, t);
      SealedForever(digests, entries, more[..|more| - 1], s, u);
      StepSealed(digests, u, more[|more| - 1], t);
    }
  }

  lemma StepSealed(digests: RootDigests, s: ReviewState, e: ReviewEntry, t: ReviewState)
    requires s.phase in {Sealed, Reviewing, Provisional} && Step(digests, s, e) == Accept(t)
    ensures t.phase in {Sealed, Reviewing, Provisional} && t.root == s.root && t.contributions == s.contributions
  {
    hide ValidBallot, Aggregated, ValidCase, ValidRoster, PanelFor, RootOver;
    if InReview(e.event.payload) {
      hide ReviewStep;
      ReviewFrames(s, e, t);
    }
  }

  /** Dependencies of a contribution were on record before it. */
  ghost predicate DependenciesKnown(contributions: map<Id, Added>) {
    forall k :: k in contributions ==>
      && contributions[k].contribution.contributionId == k
      && Elements(contributions[k].contribution.dependsOn) <= contributions.Keys - {k}
  }

  lemma {:induction false} RunDependencies(digests: RootDigests, entries: seq<ReviewEntry>, s: ReviewState)
    requires Run(digests, entries) == Accept(s)
    ensures DependenciesKnown(s.contributions)
  {
    if entries != [] {
      hide Step, DependenciesKnown;
      var before := Run(digests, entries[..|entries| - 1]).value;
      RunDependencies(digests, entries[..|entries| - 1], before);
      StepDependencies(digests, before, entries[|entries| - 1], s);
    }
  }

  lemma StepDependencies(digests: RootDigests, s: ReviewState, e: ReviewEntry, t: ReviewState)
    requires DependenciesKnown(s.contributions) && Step(digests, s, e) == Accept(t)
    ensures DependenciesKnown(t.contributions)
  {
    hide ValidBallot, Aggregated, ValidCase, ValidRoster, PanelFor, RootOver, DependenciesKnown, MayContribute, MaySeal,
      MayAssign, MayOpen, MayReport;
    if InReview(e.event.payload) {
      hide ReviewStep;
      ReviewFrames(s, e, t);
    } else if e.event.payload.ContributionAdded? {
      ContributionKnown(s, e);
    }
  }

  lemma ContributionKnown(s: ReviewState, e: ReviewEntry)
    requires DependenciesKnown(s.contributions)
    requires e.event.payload.ContributionAdded? && s.opening.Some? && MayContribute(s, e)
    ensures var v := e.event.payload.contribution;
            DependenciesKnown(s.contributions[v.contributionId := Added(v, e.hash)])
  {
    var v := e.event.payload.contribution;
    var contributions := s.contributions[v.contributionId := Added(v, e.hash)];
    assert v.contributionId !in Elements(v.dependsOn);
    forall k | k in contributions
      ensures contributions[k].contribution.contributionId == k
      ensures Elements(contributions[k].contribution.dependsOn) <= contributions.Keys - {k}
    {
      if k != v.contributionId {
        assert k in s.contributions;
      }
    }
  }

  // ----- The panel and the decision -----

  /**
   In every run under review, the panel holds exactly the frozen number of rostered, eligible reviewers, under
   pairwise distinct controllers that are neither agent's.
   */
  lemma RunPanel(digests: RootDigests, entries: seq<ReviewEntry>, s: ReviewState) returns (chosen: seq<Profile>)
    requires Run(digests, entries) == Accept(s) && s.phase in {Reviewing, Provisional}
    ensures s.opening.Some? && s.panel == Keys(chosen) && |chosen| == s.opening.value.policy.panel.panelSize
    ensures var c := s.opening.value;
            && (forall i :: 0 <= i < |chosen| ==>
                  && chosen[i] in s.roster && Eligible(c.policy.panel, c.caseId, Excluded(c), chosen[i])
                  && chosen[i].controller !in c.controllers.Values)
            && forall i, j :: 0 <= i < j < |chosen| ==> chosen[i].controller != chosen[j].controller
  {
    hide Run, CaseOk, CommitsOk, BallotsOk, DecisionOk, ValidCase;
    RunOk(digests, entries, s);
    var seed :| SeedGives(digests, s.opening.value, s.roster, seed, s.root.value, s.panel);
    var c := s.opening.value;
    chosen := PanelFor(digests, c, s.roster, seed, s.root.value).value;
    PanelIndependent(digests, c.policy.panel, c.caseId, Excluded(c), s.roster, seed, s.root.value);
    forall i | 0 <= i < |chosen|
      ensures chosen[i] in s.roster && Eligible(c.policy.panel, c.caseId, Excluded(c), chosen[i])
      ensures chosen[i].controller !in c.controllers.Values
    {
      assert chosen[i] in Pool(c.policy.panel, c.caseId, Excluded(c), s.roster);
    }
  }

  /** The ballots of a reachable state always aggregate. */
  lemma BallotsAlwaysAggregate(s: ReviewState)
    requires BallotsOk(s) && s.opening.Some? && s.root.Some?
    ensures BallotsAggregate(s.opening.value, s.root.value, BallotList(s.ballots, s.root.value, s.revealed),
                             s.contributions.Keys)
  {
    var ballots := BallotList(s.ballots, s.root.value, s.revealed);
    forall i | 0 <= i < |ballots|
      ensures ValidBallot(ballots[i], s.opening.value, s.root.value, ballots[i].reviewerId, s.contributions.Keys)
      ensures ballots[i].reviewerId == s.revealed[i]
    {
      assert s.revealed[i] in Elements(s.revealed);
      assert BallotOk(s, s.revealed[i]);
    }
  }

  /**
   No review is stuck once its commits are closed: at any time the rules allow a decision, the clerk can record one,
   and it is always the aggregate of the ballots revealed so far.
   */
  lemma ReviewAlwaysDecides(digests: RootDigests, entries: seq<ReviewEntry>, s: ReviewState, e: ReviewEntry)
    requires Run(digests, entries) == Accept(s) && s.phase == Reviewing && s.closed
    requires e.event.payload.DecisionRecorded?
    ensures s.opening.Some? && s.root.Some? && |s.opening.value.agents| == 2
    ensures var c := s.opening.value;
            Step(digests, s, e).Accept? <==>
            && Some(e.event.actor) == s.clerkKey
            && (Elements(s.revealed) == Elements(s.panel) || c.deadlines.revealing <= e.at)
            && e.at <= c.deadlines.appeal
            && e.event.payload.decision == Outcome(c, s.root.value, BallotList(s.ballots, s.root.value, s.revealed))
  {
    hide Run, ValidBallot, ValidCase, BallotsAggregate, Outcome, Step, CaseOk, CommitsOk, PanelOk, DecisionOk,
         BallotsOk;
    RunReviewed(digests, entries, s);
    BallotsAlwaysAggregate(s);
    PanelCounts(digests, entries, s);
    DecidesWhenAllowed(digests, s, e);
  }

  lemma DecidesWhenAllowed(digests: RootDigests, s: ReviewState, e: ReviewEntry)
    requires e.event.payload.DecisionRecorded? && s.opening.Some?
    ensures Step(digests, s, e).Accept? <==> MayDecide(s, e)
  {
    hide MayDecide;
  }

  lemma RunReviewed(digests: RootDigests, entries: seq<ReviewEntry>, s: ReviewState)
    requires Run(digests, entries) == Accept(s) && s.phase == Reviewing
    ensures StateOk(digests, s) && s.opening.Some? && s.root.Some? && |s.opening.value.agents| == 2 && s.decision.None?
  {
    hide Run, ValidBallot;
    RunOk(digests, entries, s);
  }

  /** Fewer ballots than seats is the same as someone on the panel not having revealed. */
  lemma PanelCounts(digests: RootDigests, entries: seq<ReviewEntry>, s: ReviewState)
    requires Run(digests, entries) == Accept(s) && s.phase == Reviewing && s.closed
    ensures |s.ballots| < |s.panel| <==> Elements(s.revealed) != Elements(s.panel)
  {
    hide Run, ValidBallot, ValidCase;
    RunOk(digests, entries, s);
    var chosen := RunPanel(digests, entries, s);
    DistinctKeys(s.roster, s.opening.value, chosen);
    assert s.ballots.Keys <= Elements(s.panel) by {
      forall r | r in s.ballots ensures r in s.commits {
        assert BallotOk(s, r);
      }
    }
    DistinctMultiset(s.panel);
    assert |s.panel| == |multiset(s.panel)| == |Elements(s.panel)|;
    SubsetSize(s.ballots.Keys, Elements(s.panel));
  }

  lemma DistinctKeys(roster: seq<Profile>, c: ReviewCase, chosen: seq<Profile>)
    requires ValidRoster(roster, c.policy.rosterDigest)
    requires forall i :: 0 <= i < |chosen| ==> chosen[i] in roster
    requires forall i, j :: 0 <= i < j < |chosen| ==> chosen[i].controller != chosen[j].controller
    ensures NoDuplicates(Keys(chosen))
  {
    forall i, j | 0 <= i < j < |chosen| ensures chosen[i].reviewerId != chosen[j].reviewerId {
      var k :| 0 <= k < |roster| && roster[k] == chosen[i];
      var l :| 0 <= l < |roster| && roster[l] == chosen[j];
      assert k != l;
    }
  }

  /** A decision on record splits the whole between the agents, leaves each the floor, and follows a majority. */
  lemma RunDecision(digests: RootDigests, entries: seq<ReviewEntry>, s: ReviewState, low: int, high: int)
    requires Run(digests, entries) == Accept(s) && s.decision.Some? && s.decision.value.allocation.Some?
    ensures s.opening.Some? && s.root.Some? && |s.opening.value.agents| == 2
    ensures var c := s.opening.value;
            var shares := Shares(c, BallotList(s.ballots, s.root.value, s.revealed));
            var (a, b) := s.decision.value.allocation.value;
            && a + b == 10_000 && c.floorBps <= a && c.floorBps <= b
            && c.policy.quorum <= |s.ballots|
            && (0 <= low && high <= 10_000 && 2 * CountWithin(shares, low, high) > |shares| ==>
                  Split(c.floorBps, low) <= a <= Split(c.floorBps, high))
  {
    hide Run, ValidBallot, PanelOk;
    RunOk(digests, entries, s);
    assert ValidCase(s.opening.value);
    DistinctMultiset(s.revealed);
    assert |s.revealed| == |multiset(s.revealed)| == |s.ballots.Keys|;
    DecidedSplit(s.opening.value, s.root.value, BallotList(s.ballots, s.root.value, s.revealed), s.contributions.Keys,
                 low, high);
  }
}
