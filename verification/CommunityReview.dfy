/** Sealed ballots, the allocation, and the payout, as kept by every event. */
module CommunityReview {
  import opened Basics
  import opened Ordering
  import opened CommunityTypes
  import opened Aggregation
  import opened Payout
  import opened CommunitySteps
  import opened CommunityInvariants
  import opened CommunityAttribution

  // ----- Ballots -----

  /** Each revealed ballot is the one its reviewer committed to. */
  ghost predicate BallotsBound(commits: map<Id, Digest>, ballots: Ballots, revealed: seq<Id>) {
    && NoDuplicates(revealed) && Elements(revealed) == ballots.Keys
    && forall r :: r in ballots ==> r in commits && commits[r].BallotDigest? && commits[r].ballot == ballots[r]
  }

  /** Nothing of the review or the payout exists before the seal. */
  ghost predicate ReviewBlank(s: State) {
    && s.commits == map[] && !s.commitsClosed && s.ballots == map[] && s.revealed == []
    && s.allocation.None? && s.plan.None? && s.submitted == map[] && s.confirmed == {}
  }

  ghost predicate BallotsOk(s: State) {
    && (s.phase == New || s.phase == Active ==> ReviewBlank(s))
    && (!s.commitsClosed ==> s.ballots == map[])
    && BallotsBound(s.commits, s.ballots, s.revealed)
    && (forall r :: r in s.ballots ==> ValidBallot(s, s.ballots[r], r))
  }

  lemma ElementsAppend<T>(xs: seq<T>, x: T)
    requires NoDuplicates(xs) && x !in Elements(xs)
    ensures NoDuplicates(xs + [x]) && Elements(xs + [x]) == Elements(xs) + {x}
  {
    assert forall y :: y in xs ==> y in Elements(xs);
  }

  /** What an accepted reveal does, and the two facts it rested on. */
  lemma RevealEffect(s: State, actor: Key, p: Payload, t: State)
    requires p.BallotRevealed? && StepRevealed(s, actor, p) == Accept(t)
    ensures s.phase == Reviewing && t.phase == Reviewing && s.commitsClosed && t.commitsClosed
    ensures SameEvidence(s, t) && t.commits == s.commits
    ensures p.reviewerId !in s.ballots && p.reviewerId in s.commits
    ensures s.commits[p.reviewerId] == BallotDigest(p.ballot, p.salt)
    ensures t.ballots == s.ballots[p.reviewerId := p.ballot] && t.revealed == s.revealed + [p.reviewerId]
    ensures ValidBallot(s, p.ballot, p.reviewerId)
  {}

  lemma BoundGrows(commits: map<Id, Digest>, ballots: Ballots, revealed: seq<Id>, r: Id, ballot: Ballot)
    requires BallotsBound(commits, ballots, revealed) && r !in ballots
    requires r in commits && commits[r].BallotDigest? && commits[r].ballot == ballot
    ensures BallotsBound(commits, ballots[r := ballot], revealed + [r])
  {
    ElementsAppend(revealed, r);
  }

  lemma RevealKeepsBallots(s: State, actor: Key, p: Payload, t: State)
    requires p.BallotRevealed? && StepRevealed(s, actor, p) == Accept(t) && BallotsOk(s)
    ensures BallotsOk(t)
  {
    RevealEffect(s, actor, p, t);
    BoundGrows(s.commits, s.ballots, s.revealed, p.reviewerId, p.ballot);
    forall r | r in t.ballots ensures ValidBallot(t, t.ballots[r], r) {
      ValidBallotStable(s, t, t.ballots[r], r);
    }
  }

  /** Validity of a ballot only reads evidence that the seal froze. */
  lemma ValidBallotStable(s: State, t: State, ballot: Ballot, r: Id)
    requires SameEvidence(s, t) && ValidBallot(s, ballot, r)
    ensures ValidBallot(t, ballot, r)
  {
    forall p | p in ballot.shares ensures ValidShare(t, ballot, t.results[t.sealedResult.value].expected, p) {
      assert ValidShare(s, ballot, s.results[s.sealedResult.value].expected, p);
    }
  }

  lemma CommitKeepsBallots(s: State, actor: Key, p: Payload, t: State)
    requires p.BallotCommitted? && StepBallotCommitted(s, actor, p) == Accept(t) && BallotsOk(s)
    ensures BallotsOk(t)
  {}

  lemma BallotsUnchanged(s: State, t: State)
    requires BallotsOk(s) && SameEvidence(s, t)
    requires s.phase != New && s.phase != Active && t.phase != New && t.phase != Active
    requires t.commits == s.commits && t.ballots == s.ballots && t.revealed == s.revealed
    requires s.commitsClosed ==> t.commitsClosed
    ensures BallotsOk(t)
  {
    forall r | r in t.ballots ensures ValidBallot(t, t.ballots[r], r) {
      ValidBallotStable(s, t, t.ballots[r], r);
    }
  }

  lemma CloseOnlyCloses(s: State, actor: Key, p: Payload, t: State)
    requires p.CommitsClosed? && StepClosed(s, actor, p) == Accept(t)
    ensures t.commitsClosed
  {}

  lemma BallotsKept(s: State, e: CommunityEntry, t: State)
    requires Step(s, e) == Accept(t) && BallotsOk(s)
    ensures BallotsOk(t)
  {
    hide StepWork, StepRevealed, StepBallotCommitted, StepClosed, ValidBallot, BallotsBound;
    var p := e.event.payload;
    StepFramed(s, e, t);
    if s.phase == New || s.phase == Active {
      BallotsBlankKept(s, e, t);
    } else {
      SealFreezes(s, e, t);
      if p.BallotRevealed? {
        RevealKeepsBallots(s, e.event.actor, p, t);
      } else if p.BallotCommitted? {
        CommitKeepsBallots(s, e.event.actor, p, t);
      } else {
        if p.CommitsClosed? { CloseOnlyCloses(s, e.event.actor, p, t); }
        BallotsUnchanged(s, t);
      }
    }
  }

  lemma BlankIsOk(s: State)
    requires ReviewBlank(s)
    ensures BallotsOk(s)
  {}

  lemma BallotsBlankKept(s: State, e: CommunityEntry, t: State)
    requires Step(s, e) == Accept(t) && (s.phase == New || s.phase == Active) && ReviewBlank(s)
    ensures ReviewBlank(t) && BallotsOk(t)
  {
    hide StepWork, StepReview, MayStartOpening, CaseActorKey, BallotsOk;
    var p := e.event.payload;
    StepFramed(s, e, t);
    if WorkKind(p) {
      WorkFramed(s, e.event.actor, e.at, e.hash, p, t);
    } else if !p.CommunityOpened? {
      ReviewFramed(s, e.event.actor, p, t);
    }
    BlankIsOk(t);
  }

  // ----- The allocation -----

  predicate AfterReview(phase: Phase) {
    phase == Allocated || phase == Inconclusive || phase == MockPaying || phase == MockPaid
  }

  /** An allocation exists exactly after the review, and is the aggregate of every committed ballot. */
  ghost predicate AllocationOk(s: State) {
    && (s.allocation.Some? <==> AfterReview(s.phase))
    && (s.allocation.Some? ==>
          && s.manifest.Some? && s.evidenceRoot.Some?
          && s.ballots.Keys == s.commits.Keys
          && Aggregate(s.manifest.value, s.evidenceRoot.value, s.ballots, s.revealed) == Accept(s.allocation.value)
          && (s.phase == Inconclusive <==> !s.allocation.value.Decided()))
  }

  lemma FinalizeKeepsAllocation(s: State, actor: Key, p: Payload, t: State)
    requires p.AllocationFinalized? && StepFinalized(s, actor, p) == Accept(t)
    ensures AllocationOk(t)
  {}

  /** Outside finalization the review phase is left only towards payout, and ballots stop changing. */
  lemma ReviewPhases(s: State, actor: Key, p: Payload, t: State)
    requires StepReview(s, actor, p) == Accept(t) && !p.AllocationFinalized?
    ensures s.phase == Reviewing ==> t.phase == Reviewing
    ensures s.phase == Allocated ==> t.phase == MockPaying
    ensures s.phase == MockPaying ==> t.phase == MockPaying || t.phase == MockPaid
    ensures s.phase != Reviewing ==> t.commits == s.commits && t.ballots == s.ballots && t.revealed == s.revealed
                                     && t.commitsClosed == s.commitsClosed
  {
    hide ValidBallot, Aggregate, Reviews, PayoutLegs, CitesLeg, PositiveLegIds;
  }

  /** The step did not finalize: it kept any allocation, and what an existing allocation was computed from. */
  ghost predicate AllocationHeld(s: State, t: State) {
    && t.allocation == s.allocation
    && (AfterReview(s.phase) <==> AfterReview(t.phase))
    && (AfterReview(s.phase) ==>
          && (s.phase == Inconclusive <==> t.phase == Inconclusive)
          && t.manifest == s.manifest && t.evidenceRoot == s.evidenceRoot
          && t.commits == s.commits && t.ballots == s.ballots && t.revealed == s.revealed)
  }

  lemma AllocationUnchanged(s: State, t: State)
    requires AllocationOk(s) && AllocationHeld(s, t)
    ensures AllocationOk(t)
  {}

  lemma OpeningHolds(s: State, e: CommunityEntry, t: State)
    requires StepOpened(s, e) == Accept(t)
    ensures AllocationHeld(s, t)
  {}

  lemma WorkHolds(s: State, actor: Key, at: Time, hash: EntryHash, p: Payload, t: State)
    requires StepWork(s, actor, at, hash, p) == Accept(t)
    ensures AllocationHeld(s, t)
  {
    WorkFramed(s, actor, at, hash, p, t);
  }

  lemma ReviewHolds(s: State, actor: Key, p: Payload, t: State)
    requires StepReview(s, actor, p) == Accept(t) && !p.AllocationFinalized?
    ensures AllocationHeld(s, t)
  {
    ReviewFramed(s, actor, p, t);
    ReviewPhases(s, actor, p, t);
  }

  lemma AllocationKept(s: State, e: CommunityEntry, t: State)
    requires Step(s, e) == Accept(t) && AllocationOk(s)
    ensures AllocationOk(t)
  {
    var p := e.event.payload;
    if p.AllocationFinalized? {
      FinalizeKeepsAllocation(s, e.event.actor, p, t);
    } else if p.CommunityOpened? {
      OpeningHolds(s, e, t);
      AllocationUnchanged(s, t);
    } else if WorkKind(p) {
      WorkHolds(s, e.event.actor, e.at, e.hash, p, t);
      AllocationUnchanged(s, t);
    } else {
      ReviewHolds(s, e.event.actor, p, t);
      AllocationUnchanged(s, t);
    }
  }

  // ----- The payout -----

  ghost predicate PlanOk(s: State)
    requires s.plan.Some?
  {
    && s.manifest.Some? && s.allocation.Some? && s.allocation.value.bps.Some? && 0 <= s.manifest.value.bountyRao
    && PayoutLegs(s.manifest.value, s.allocation.value.bps.value) == Accept(s.plan.value.legs)
    && s.plan.value.totalRao == s.manifest.value.bountyRao
  }

  /** Submissions are for positive legs only, confirmations only for submissions, and payment is complete or open. */
  ghost predicate PayoutOk(s: State) {
    && (s.plan.Some? <==> s.phase == MockPaying || s.phase == MockPaid)
    && (s.plan.None? ==> s.submitted == map[] && s.confirmed == {})
    && (s.plan.Some? ==>
          && PlanOk(s)
          && s.submitted.Keys <= PositiveLegIds(s.plan.value)
          && s.confirmed <= s.submitted.Keys
          && (s.phase == MockPaid ==> s.confirmed == PositiveLegIds(s.plan.value)))
  }

  lemma PlanKeepsPayout(s: State, actor: Key, p: Payload, t: State)
    requires p.PayoutPlanCreated? && StepPlanned(s, actor, p) == Accept(t) && PayoutOk(s)
    ensures PayoutOk(t)
  {}

  /** Leg amounts are never negative, so a leg that is not zero is a positive leg. */
  lemma NonZeroIsPositive(s: State, i: nat)
    requires s.plan.Some? && PlanOk(s) && i < |s.plan.value.legs| && s.plan.value.legs[i].amountRao != 0
    ensures s.plan.value.legs[i].legId in PositiveLegIds(s.plan.value)
  {
    LegsFaithful(s.manifest.value, s.allocation.value.bps.value);
    assert LegFollowsQuota(s.manifest.value, s.allocation.value.bps.value, s.plan.value.legs[i]);
  }

  lemma SubmitKeepsPayout(s: State, actor: Key, p: Payload, t: State)
    requires p.PayoutLegSubmitted? && StepSubmitted(s, actor, p) == Accept(t) && PayoutOk(s)
    ensures PayoutOk(t)
  {
    var i :| 0 <= i < |s.plan.value.legs| && CitesLeg(s, p.planId, p.legId, i) && s.plan.value.legs[i].amountRao != 0;
    NonZeroIsPositive(s, i);
  }

  lemma ConfirmKeepsPayout(s: State, actor: Key, p: Payload, t: State)
    requires p.PayoutLegConfirmed? && StepConfirmed(s, actor, p) == Accept(t) && PayoutOk(s)
    ensures PayoutOk(t)
  {
    hide PayoutLegs, CitesLeg, PositiveLegIds;
  }

  /** The step neither planned nor paid: it kept the plan and stayed outside the payout phases. */
  ghost predicate PayoutHeld(s: State, t: State) {
    && t.plan == s.plan && t.submitted == s.submitted && t.confirmed == s.confirmed
    && s.phase != MockPaying && s.phase != MockPaid && t.phase != MockPaying && t.phase != MockPaid
  }

  lemma PayoutUnchanged(s: State, t: State)
    requires PayoutOk(s) && PayoutHeld(s, t)
    ensures PayoutOk(t)
  {}

  lemma OpeningHoldsPayout(s: State, e: CommunityEntry, t: State)
    requires StepOpened(s, e) == Accept(t)
    ensures PayoutHeld(s, t)
  {}

  lemma WorkHoldsPayout(s: State, actor: Key, at: Time, hash: EntryHash, p: Payload, t: State)
    requires StepWork(s, actor, at, hash, p) == Accept(t)
    ensures PayoutHeld(s, t)
  {
    WorkFramed(s, actor, at, hash, p, t);
  }

  lemma BallotsHoldPayout(s: State, actor: Key, p: Payload, t: State)
    requires StepReview(s, actor, p) == Accept(t)
    requires !p.PayoutPlanCreated? && !p.PayoutLegSubmitted? && !p.PayoutLegConfirmed?
    ensures PayoutHeld(s, t)
  {
    BallotWorkFramed(s, actor, p, t);
    BallotPhases(s, actor, p, t);
    hide StepReview;
  }

  lemma BallotPhases(s: State, actor: Key, p: Payload, t: State)
    requires StepReview(s, actor, p) == Accept(t)
    requires !p.PayoutPlanCreated? && !p.PayoutLegSubmitted? && !p.PayoutLegConfirmed?
    ensures t.phase == Reviewing || t.phase == Allocated || t.phase == Inconclusive
  {
    hide ValidBallot, Aggregate, Reviews, SortedTexts;
  }

  predicate PaymentKind(p: Payload) {
    p.PayoutPlanCreated? || p.PayoutLegSubmitted? || p.PayoutLegConfirmed?
  }

  lemma PaymentKept(s: State, actor: Key, p: Payload, t: State)
    requires StepReview(s, actor, p) == Accept(t) && PaymentKind(p) && PayoutOk(s)
    ensures PayoutOk(t)
  {
    if p.PayoutPlanCreated? {
      PlanKeepsPayout(s, actor, p, t);
    } else if p.PayoutLegSubmitted? {
      SubmitKeepsPayout(s, actor, p, t);
    } else {
      ConfirmKeepsPayout(s, actor, p, t);
    }
  }

  lemma OthersHoldPayout(s: State, e: CommunityEntry, t: State)
    requires Step(s, e) == Accept(t) && !PaymentKind(e.event.payload)
    ensures PayoutHeld(s, t)
  {
    if e.event.payload.CommunityOpened? {
      OpeningHoldsPayout(s, e, t);
    } else if WorkKind(e.event.payload) {
      WorkHoldsPayout(s, e.event.actor, e.at, e.hash, e.event.payload, t);
    } else {
      BallotsHoldPayout(s, e.event.actor, e.event.payload, t);
    }
  }

  lemma PayoutKept(s: State, e: CommunityEntry, t: State)
    requires Step(s, e) == Accept(t) && PayoutOk(s)
    ensures PayoutOk(t)
  {
    hide PayoutOk, PayoutHeld, StepWork, StepReview;
    if PaymentKind(e.event.payload) {
      PaymentKept(s, e.event.actor, e.event.payload, t);
    } else {
      OthersHoldPayout(s, e, t);
      PayoutUnchanged(s, t);
    }
  }
}
