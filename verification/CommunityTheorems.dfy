/** The main results about community cases, over every verified transcript. */
module CommunityTheorems {
  import opened Basics
  import opened Ordering
  import opened Chain
  import opened CommunityTypes
  import opened Causality
  import opened Credit
  import opened Aggregation
  import opened CreditRobustness
  import opened Payout
  import opened CommunitySteps
  import opened CommunityInvariants
  import opened CommunityProvenance
  import opened CommunityAttribution
  import opened CommunityReview
  import opened CommunityRuns
  import opened CommunityRecords
  import opened CommunityExtension

  /**
   At every instant from the last receipt on, two live claims share a route only if both were declared
   parallel and the frozen policy allows it.
   */
  lemma RouteLeaseSafety(entries: seq<CommunityEntry>, s: State, now: Time, a: Id, b: Id)
    requires Replay(entries) == Accept(s) && entries[|entries| - 1].at <= now
    requires a in s.claims && b in s.claims && a != b && s.claims[a].routeId == s.claims[b].routeId
    requires Live(s.claims[a], now) && Live(s.claims[b], now)
    ensures s.manifest.Some? && s.manifest.value.policy.allowParallel
    ensures s.claims[a].overlap == Parallel && s.claims[b].overlap == Parallel
  {
    RunLeases(entries, s);
    LeasesLater(s.claims, s.manifest.value.policy.allowParallel, entries[|entries| - 1].at, now);
  }

  /**
   In every replayed case the accepted handoffs are closed under causal edges, useful and inspectable; so a
   proposal's whole closure is accepted exactly when its direct dependencies are.
   */
  lemma AcceptedFrontierSafety(entries: seq<CommunityEntry>, s: State, direct: seq<Id>)
    requires Replay(entries) == Accept(s)
    ensures Closure(s.handoffs, direct).Accept? && Closure(s.handoffs, direct).value <= s.accepted
            <==> Elements(direct) <= s.accepted
    ensures forall h :: h in s.accepted ==>
              && h in s.handoffs && s.handoffs[h].outcome != NoSignal
              && s.handoffs[h].commitmentId in s.commitments
              && s.commitments[s.handoffs[h].commitmentId].visibility != HashOnly
  {
    RunAccepted(entries, s);
    ClosureWithin(s.handoffs, direct, s.accepted);
  }

  /** No handoff rests on itself, through any chain of dependencies. */
  lemma CausalityAcyclic(entries: seq<CommunityEntry>, s: State, path: seq<Id>)
    requires Replay(entries) == Accept(s)
    requires Path(s.handoffs, path) && |path| > 1
    ensures path[0] != path[|path| - 1]
  {
    RunGraph(entries, s);
    PathDescends(s.handoffs, path, |entries|);
  }

  lemma LinkedWhenReplayed(entries: seq<CommunityEntry>)
    requires Replay(entries).Accept?
    ensures Linked(entries) && Verified(CommunityRules, entries)
  {
    hide Run;
  }

  /**
   Commit before handoff: every handoff opened exactly one earlier commitment to its artifact and summary, and
   a claim is completed exactly when one handoff, never two, cites it.
   */
  lemma HandoffsMatchCommitments(entries: seq<CommunityEntry>, s: State)
    requires Replay(entries) == Accept(s)
    ensures forall h :: h in s.handoffs ==>
              && s.handoffs[h].commitmentId in s.commitments
              && var c := s.commitments[s.handoffs[h].commitmentId];
              && c.revealedBy == Some(h)
              && c.artifactDigest == s.handoffs[h].artifactDigest
              && c.summaryDigest == SummaryDigest(s.handoffs[h].summary)
              && c.entryHash.Digest? && s.handoffs[h].entryHash.Digest?
              && c.entryHash.seqNo < s.handoffs[h].entryHash.seqNo
    ensures forall c :: c in s.commitments && s.commitments[c].revealedBy.Some? ==>
              && s.commitments[c].revealedBy.value in s.handoffs
              && s.handoffs[s.commitments[c].revealedBy.value].commitmentId == c
    ensures forall c :: c in s.claims ==>
              (s.claims[c].status == CompletedClaim <==> exists h :: h in s.handoffs && s.handoffs[h].claimId == c)
    ensures forall h, k ::
            h in s.handoffs && k in s.handoffs && s.handoffs[h].claimId == s.handoffs[k].claimId ==> h == k
  {
    hide Step, Run, Verified;
    assert Linked(entries) && Run(entries) == Accept(s) by { Founded(entries, s); LinkedWhenReplayed(entries); }
    RunProvenance(entries, s);
    forall h | h in s.handoffs
      ensures HandoffBacked(h, s.handoffs, s.commitments, s.claims)
    {}
    forall c | c in s.commitments
      ensures CommitmentOk(c, s.handoffs, s.commitments, s.claims, |entries|)
    {}
    forall c | c in s.claims
      ensures s.claims[c].status == CompletedClaim <==> exists h :: h in s.handoffs && s.handoffs[h].claimId == c
    {
      if h :| h in s.handoffs && s.handoffs[h].claimId == c {
        assert HandoffBacked(h, s.handoffs, s.commitments, s.claims);
      }
    }
  }

  /** What a sealed result must look like for its attribution to be complete and exact. */
  ghost predicate ExactlyAttributed(s: State, r: ResultRecord) {
    && Closure(s.handoffs, r.direct) == Accept(r.expected)
    && r.claimed == r.expected && r.expected <= s.accepted
    && (forall a :: a in s.accesses && Received(s.accesses[a], r) ==> s.accesses[a].contributionId in r.dispositions)
    && (forall c :: c in r.dispositions && r.dispositions[c] == Used ==> c in r.expected)
  }

  /** One of these entries is the frozen verifier's pass of this result, of the artifact that the result proposed. */
  ghost predicate PassedIn(entries: seq<CommunityEntry>, s: State, r: Id) {
    && s.manifest.Some? && r in s.results && r in s.receipts
    && exists k: nat ::
        && VerdictAt(entries, s.manifest.value, r, s.results[r].artifactDigest, k)
        && s.receipts[r].entryHash == entries[k].hash && entries[k].event.payload.pass
  }

  lemma ResultPassed(entries: seq<CommunityEntry>, s: State)
    requires Run(entries) == Accept(s) && s.phase != New && s.phase != Active
    ensures s.sealedResult.Some? && PassedIn(entries, s, s.sealedResult.value)
  {
    RunSealed(entries, s);
    ReceiptsAreVerdicts(entries, s, s.sealedResult.value);
  }

  /**
   Seal stability: from the seal on, in every continuation, recomputing the evidence root of the sealed result
   gives the stored root, the attributed handoffs are still its exact causal closure with every access its proposer
   had received answered for, and the sealed transcript holds the verifier's own entry that passed it.
   */
  lemma SealStability(entries: seq<CommunityEntry>, more: seq<CommunityEntry>, s: State, t: State)
    requires Replay(entries) == Accept(s) && Replay(entries + more) == Accept(t)
    requires s.phase != New && s.phase != Active
    ensures t.sealedResult == s.sealedResult && t.evidenceRoot == s.evidenceRoot
    ensures t.sealedResult.Some? && EvidenceOf(t, t.sealedResult.value).Some?
    ensures t.evidenceRoot == Some(EvidenceDigest(EvidenceOf(t, t.sealedResult.value).value))
    ensures t.receipts[t.sealedResult.value].pass
    ensures ExactlyAttributed(t, t.results[t.sealedResult.value])
    ensures PassedIn(entries, t, t.sealedResult.value)
  {
    ResultPassed(entries, s);
    SealedForever(entries, more, s, t);
    RunSealed(entries + more, t);
    RunResults(entries + more, t);
    RunAccounted(entries + more, t);
    CompleteIsExact(t.results[t.sealedResult.value]);
  }

  lemma CompleteIsExact(r: ResultRecord)
    requires Reconciled(r) && r.Complete()
    ensures r.claimed == r.expected
    ensures forall c :: c in r.dispositions && r.dispositions[c] == Used ==> c in r.expected
  {
    assert forall c :: c in r.dispositions && r.dispositions[c] == Used && c !in r.claimed ==> c in r.omitted;
    assert forall c :: c in r.claimed && c !in r.expected ==> c in r.extraneous;
    assert forall c :: c in r.expected && c !in r.claimed ==> c in r.omitted;
  }

  // ----- The allocation is fixed when commits close -----

  lemma ClosedIsReviewed(s: State)
    requires BallotsOk(s) && s.commitsClosed
    ensures s.phase != New && s.phase != Active
  {}

  /** With every committed ballot revealed, the ballots are a function of the commitments. */
  lemma BallotsFromCommits(s: State, t: State)
    requires BallotsOk(s) && BallotsOk(t) && s.commits == t.commits
    requires s.ballots.Keys == s.commits.Keys && t.ballots.Keys == t.commits.Keys
    ensures s.ballots == t.ballots && Elements(s.revealed) == Elements(t.revealed)
    ensures NoDuplicates(s.revealed) && NoDuplicates(t.revealed)
  {
    hide ValidBallot, NoDuplicates, Elements;
    forall r | r in s.ballots ensures s.ballots[r] == t.ballots[r] {
      assert s.commits[r].ballot == s.ballots[r] && t.commits[r].ballot == t.ballots[r];
    }
  }

  /**
   Any two continuations of a transcript whose commits are closed that both reach an allocation record the same
   one, whatever the reveal order or salts.
   */
  lemma AllocationFixedByCommits(entries: seq<CommunityEntry>, one: seq<CommunityEntry>, other: seq<CommunityEntry>,
                                 s: State, t: State, u: State)
    requires Replay(entries) == Accept(s) && s.commitsClosed
    requires Replay(entries + one) == Accept(t) && t.allocation.Some?
    requires Replay(entries + other) == Accept(u) && u.allocation.Some?
    ensures t.allocation == u.allocation
  {
    RunBallots(entries, s);
    ClosedIsReviewed(s);
    SealedForever(entries, one, s, t);
    SealedForever(entries, other, s, u);
    CommitsForever(entries, one, s, t);
    CommitsForever(entries, other, s, u);
    RunBallots(entries + one, t);
    RunBallots(entries + other, u);
    RunAllocation(entries + one, t);
    RunAllocation(entries + other, u);
    SameAllocation(t, u);
  }

  lemma SameAllocation(t: State, u: State)
    requires BallotsOk(t) && BallotsOk(u) && AllocationOk(t) && AllocationOk(u)
    requires t.commits == u.commits && t.manifest == u.manifest && t.evidenceRoot == u.evidenceRoot
    requires t.allocation.Some? && u.allocation.Some?
    ensures t.allocation == u.allocation
  {
    BallotsFromCommits(t, u);
    AggregateOrderFree(t.manifest.value, t.evidenceRoot.value, t.ballots, t.revealed, u.revealed);
  }

  // ----- Reviews that cannot finish -----

  /** Every committed ballot is revealed and the review is still open. */
  ghost predicate FullyRevealed(s: State) {
    s.phase == Reviewing && s.commitsClosed && s.ballots.Keys == s.commits.Keys
  }

  /** Nothing stands against an allocation, yet no participant is left with a positive median. */
  ghost predicate NothingToShare(s: State)
    requires s.manifest.Some?
  {
    var m := s.manifest.value;
    var ids := DecidedIds(s.ballots, s.revealed);
    && ReasonFor(m.policy, |s.ballots|, |ids|, Dispersion(s.ballots, ids, SortedTexts(m.participants.Keys))).None?
    && Total(MediansFor(s.ballots, ids, m.participants.Keys)) <= 0
  }

  /**
   A fully revealed review goes on, with some next entry of its own ledger, exactly while its ballots miss the quorum
   or the dispersion limit, or leave a participant with a positive median.
   */
  lemma ReviewFinishes(entries: seq<CommunityEntry>, s: State)
    requires Replay(entries) == Accept(s) && FullyRevealed(s)
    ensures s.manifest.Some?
    ensures (exists e :: Replay(entries + [e]).Accept?) <==> !NothingToShare(s)
  {
    ReviewBound(entries, s);
    hide Step, Replay, Aggregate, StepReview, StepWork;
    var m := s.manifest.value;
    RejectsExactly(m, s.evidenceRoot.value, s.ballots, s.revealed);
    if !NothingToShare(s) {
      FinalizeAccepted(entries, s);
    }
    forall e | Replay(entries + [e]).Accept? ensures !NothingToShare(s) {
      AcceptedNext(entries, s, e);
      OnlyFinalize(s, e);
    }
  }

  lemma ReviewBound(entries: seq<CommunityEntry>, s: State)
    requires Replay(entries) == Accept(s) && s.phase == Reviewing
    ensures s.manifest.Some? && s.evidenceRoot.Some? && s.clerkKey.Some? && s.allocation.None?
  {
    hide Run, Step, Aggregate, EvidenceOf, ValidManifest, CaseActorKey;
    RunSealed(entries, s);
    RunOpen(entries, s);
    RunAllocation(entries, s);
  }

  lemma FinalizeAccepted(entries: seq<CommunityEntry>, s: State)
    requires Replay(entries) == Accept(s)
    requires FullyRevealed(s) && s.manifest.Some? && s.evidenceRoot.Some? && s.clerkKey.Some? && s.allocation.None?
    requires Aggregate(s.manifest.value, s.evidenceRoot.value, s.ballots, s.revealed).Accept?
    ensures exists e :: Replay(entries + [e]).Accept?
  {
    hide Replay, Aggregate;
    var payload := AllocationFinalized(Aggregate(s.manifest.value, s.evidenceRoot.value, s.ballots, s.revealed).value);
    Founded(entries, s);
    ExtendReview(entries, s, payload, s.clerkKey.value, StepFinalized(s, s.clerkKey.value, payload).value);
  }

  lemma OnlyFinalize(s: State, e: CommunityEntry)
    requires FullyRevealed(s) && Step(s, e).Accept?
    ensures s.manifest.Some? && s.evidenceRoot.Some?
    ensures Aggregate(s.manifest.value, s.evidenceRoot.value, s.ballots, s.revealed).Accept?
  {
    var p, t := e.event.payload, Step(s, e).value;
    if WorkKind(p) {
      WorkFramed(s, e.event.actor, e.at, e.hash, p, t);
    } else if !p.CommunityOpened? {
      OnlyFinalizeReviews(s, e.event.actor, p, t);
    }
  }

  lemma OnlyFinalizeReviews(s: State, actor: Key, p: Payload, t: State)
    requires FullyRevealed(s) && StepReview(s, actor, p) == Accept(t)
    ensures s.manifest.Some? && s.evidenceRoot.Some?
    ensures Aggregate(s.manifest.value, s.evidenceRoot.value, s.ballots, s.revealed).Accept?
  {}

  /**
   Finalization does not wait for the close of commits as such: before it, the clerk can finalize exactly while no one
   has committed, and the outcome is then always inconclusive for want of a quorum.
   */
  lemma EarlyFinalization(entries: seq<CommunityEntry>, s: State, e: CommunityEntry)
    requires Replay(entries) == Accept(s) && s.phase == Reviewing && !s.commitsClosed
    requires e.event.payload.AllocationFinalized?
    ensures s.manifest.Some? && s.evidenceRoot.Some?
    ensures Step(s, e).Accept? <==>
            && IsClerk(s, e.event.actor) && s.commits == map[]
            && e.event.payload.allocation ==
               Allocation(s.manifest.value.caseId, s.evidenceRoot.value, None, 0, 0, None, Some(QuorumNotMet))
  {
    ReviewBound(entries, s);
    RunOpen(entries, s);
    RunBallots(entries, s);
    hide Replay, Aggregate, MayFinalize;
    NothingCast(s);
    FinalizeDecides(s, e);
  }

  lemma NothingCast(s: State)
    requires s.manifest.Some? && s.evidenceRoot.Some? && s.clerkKey.Some? && s.allocation.None?
    requires s.phase == Reviewing && !s.commitsClosed && BallotsOk(s) && 0 < s.manifest.value.policy.reviewQuorum
    ensures MayFinalize(s, s.clerkKey.value) <==> s.commits == map[]
    ensures Aggregate(s.manifest.value, s.evidenceRoot.value, s.ballots, s.revealed) ==
            Accept(Allocation(s.manifest.value.caseId, s.evidenceRoot.value, None, 0, 0, None, Some(QuorumNotMet)))
  {
    ElementsEmpty(s.revealed);
  }

  lemma FinalizeDecides(s: State, e: CommunityEntry)
    requires e.event.payload.AllocationFinalized? && s.manifest.Some? && s.evidenceRoot.Some? && s.clerkKey.Some?
    ensures Step(s, e).Accept? <==>
            && IsClerk(s, e.event.actor) && MayFinalize(s, s.clerkKey.value)
            && Aggregate(s.manifest.value, s.evidenceRoot.value, s.ballots, s.revealed)
                == Accept(e.event.payload.allocation)
  {
    hide Aggregate;
  }

  lemma ValidatedBallotsFull(s: State)
    requires BallotsOk(s) && s.manifest.Some?
    ensures FullBallots(s.ballots, DecidedIds(s.ballots, s.revealed), s.manifest.value.participants.Keys)
  {
    forall r | r in DecidedIds(s.ballots, s.revealed)
      ensures NonNegative(s.ballots[r].shares)
    {
      assert ValidBallot(s, s.ballots[r], r);
      forall p | p in s.ballots[r].shares ensures 0 <= s.ballots[r].shares[p] {
        assert ValidShare(s, s.ballots[r], s.results[s.sealedResult.value].expected, p);
      }
    }
  }

  /** Under a policy with n * D <= 20000 no fully revealed review is ever stuck. */
  lemma ReviewAlwaysFinishes(entries: seq<CommunityEntry>, s: State)
    requires Replay(entries) == Accept(s) && FullyRevealed(s) && s.manifest.Some?
    requires |s.manifest.value.participants| * s.manifest.value.policy.maxDispersionBps <= 20_000
    ensures exists e :: Replay(entries + [e]).Accept?
  {
    hide Run, Step, NothingToShare;
    ReviewFinishes(entries, s);
    RunBallots(entries, s);
    RunOpen(entries, s);
    SomethingToShare(s);
  }

  lemma SomethingToShare(s: State)
    requires BallotsOk(s) && s.manifest.Some? && ValidManifest(s.manifest.value)
    requires |s.manifest.value.participants| * s.manifest.value.policy.maxDispersionBps <= 20_000
    ensures !NothingToShare(s)
  {
    hide BallotsOk, MediansFor, DecidedIds, Dispersion;
    ValidatedBallotsFull(s);
    MediansPositive(s.manifest.value, s.ballots, DecidedIds(s.ballots, s.revealed), |s.ballots|);
  }

  // ----- Payment -----

  /** What the confirmed legs pay, leg by leg. */
  function PaidAmounts(legs: seq<Leg>, confirmed: set<LegId>): (paid: seq<int>)
    ensures |paid| == |legs|
  {
    seq(|legs|, i requires 0 <= i < |legs| => if legs[i].legId in confirmed then legs[i].amountRao else 0)
  }

  lemma {:induction false} SumMonotone(xs: seq<int>, ys: seq<int>)
    requires |xs| == |ys| && forall i :: 0 <= i < |xs| ==> xs[i] <= ys[i]
    ensures Sum(xs) <= Sum(ys)
  {
    if xs != [] {
      SumMonotone(xs[..|xs| - 1], ys[..|ys| - 1]);
    }
  }

  /**
   Payout conservation over whole runs: confirmed legs never pay more than the bounty, each was submitted first and
   is a positive leg, and a case that reaches mock_paid has paid exactly the bounty.
   */
  lemma PayoutConserved(entries: seq<CommunityEntry>, s: State)
    requires Replay(entries) == Accept(s) && s.plan.Some?
    ensures s.manifest.Some?
    ensures Sum(PaidAmounts(s.plan.value.legs, s.confirmed)) <= s.manifest.value.bountyRao
    ensures s.confirmed <= s.submitted.Keys <= PositiveLegIds(s.plan.value)
    ensures s.phase == MockPaid ==>
              && s.confirmed == PositiveLegIds(s.plan.value)
              && Sum(PaidAmounts(s.plan.value.legs, s.confirmed)) == s.manifest.value.bountyRao
  {
    RunPayout(entries, s);
    PaidWithinBounty(s.manifest.value, s.allocation.value.bps.value, s.plan.value, s.confirmed);
  }

  lemma PaidWithinBounty(m: Manifest, bps: map<Id, int>, plan: Plan, confirmed: set<LegId>)
    requires 0 <= m.bountyRao && PayoutLegs(m, bps) == Accept(plan.legs)
    ensures Sum(PaidAmounts(plan.legs, confirmed)) <= m.bountyRao
    ensures confirmed == PositiveLegIds(plan) ==> Sum(PaidAmounts(plan.legs, confirmed)) == m.bountyRao
  {
    var amounts, paid := Amounts(plan.legs), PaidAmounts(plan.legs, confirmed);
    LegsConserve(m, bps);
    LegsFaithful(m, bps);
    forall i | 0 <= i < |plan.legs|
      ensures 0 <= amounts[i] && paid[i] <= amounts[i] && (confirmed == PositiveLegIds(plan) ==> paid[i] == amounts[i])
    {
      assert LegFollowsQuota(m, bps, plan.legs[i]);
    }
    SumMonotone(paid, amounts);
    if confirmed == PositiveLegIds(plan) {
      assert paid == amounts;
    }
  }
}
