/** An allocation is never a dead end: some continuation pays the whole bounty. */
module CommunityPayment {
  import opened Basics
  import opened CommunityTypes
  import opened Medians
  import opened Credit
  import opened Aggregation
  import opened CreditRobustness
  import opened Payout
  import opened CommunitySteps
  import opened CommunityInvariants
  import opened CommunityReview
  import opened CommunityRuns
  import opened CommunityTheorems
  import opened CommunityVoting

  // ----- What is still owed -----

  /** An allocated case has a decided allocation, and a paying case still owes a leg. */
  ghost predicate Owing(s: State) {
    && (s.phase == Allocated ==> s.allocation.Some? && s.allocation.value.Decided())
    && (s.phase == MockPaying ==> s.plan.Some? && s.confirmed != PositiveLegIds(s.plan.value))
  }

  lemma FinalizeOwes(s: State, actor: Key, p: Payload, t: State)
    requires p.AllocationFinalized? && StepFinalized(s, actor, p) == Accept(t)
    ensures Owing(t)
  {}

  /** A positive bounty is paid by at least one leg. */
  lemma SomePositiveLeg(s: State)
    requires s.plan.Some? && PlanOk(s) && 1 <= s.manifest.value.bountyRao
    ensures PositiveLegIds(s.plan.value) != {}
  {
    var m, bps, legs := s.manifest.value, s.allocation.value.bps.value, s.plan.value.legs;
    LegsConserve(m, bps);
    hide PayoutLegs;
    var i := PositiveAmount(Amounts(legs));
    assert legs[i].legId in PositiveLegIds(s.plan.value);
  }

  lemma PositiveAmount(amounts: seq<int>) returns (i: nat)
    requires 0 < Sum(amounts)
    ensures i < |amounts| && 0 < amounts[i]
  {
    if forall k :: 0 <= k < |amounts| ==> amounts[k] <= 0 {
      SumUpper(amounts, 0);
    }
    i :| 0 <= i < |amounts| && 0 < amounts[i];
  }

  lemma PlanOwes(s: State, actor: Key, p: Payload, t: State)
    requires p.PayoutPlanCreated? && StepPlanned(s, actor, p) == Accept(t) && PayoutOk(s)
    requires s.manifest.Some? && 1 <= s.manifest.value.bountyRao
    ensures Owing(t)
  {
    PlanKeepsPayout(s, actor, p, t);
    SomePositiveLeg(t);
  }

  lemma SubmitOwes(s: State, actor: Key, p: Payload, t: State)
    requires p.PayoutLegSubmitted? && StepSubmitted(s, actor, p) == Accept(t) && Owing(s)
    ensures Owing(t)
  {}

  lemma ConfirmOwes(s: State, actor: Key, p: Payload, t: State)
    requires p.PayoutLegConfirmed? && StepConfirmed(s, actor, p) == Accept(t)
    ensures Owing(t)
  {}

  lemma PaymentOwes(s: State, actor: Key, p: Payload, t: State)
    requires StepReview(s, actor, p) == Accept(t) && PaymentKind(p) && PayoutOk(s) && Owing(s)
    requires s.manifest.Some? && 1 <= s.manifest.value.bountyRao
    ensures Owing(t)
  {
    hide Owing, PayoutOk, StepPlanned, StepSubmitted, StepConfirmed;
    if p.PayoutPlanCreated? {
      PlanOwes(s, actor, p, t);
    } else if p.PayoutLegSubmitted? {
      SubmitOwes(s, actor, p, t);
    } else {
      ConfirmOwes(s, actor, p, t);
    }
  }

  lemma BallotStays(s: State, actor: Key, p: Payload, t: State)
    requires StepReview(s, actor, p) == Accept(t) && !PaymentKind(p) && !p.AllocationFinalized?
    ensures t.phase == Reviewing
  {}

  lemma OwingKept(s: State, e: CommunityEntry, t: State)
    requires Step(s, e) == Accept(t) && PayoutOk(s) && OpenOk(s) && Owing(s)
    ensures Owing(t)
  {
    hide PayoutOk, StepWork, StepReview, StepFinalized, ValidParticipants, ValidReviewers, CaseActorKey;
    var actor, p := e.event.actor, e.event.payload;
    if WorkKind(p) {
      WorkFramed(s, actor, e.at, e.hash, p, t);
    } else if PaymentKind(p) {
      ReviewFramed(s, actor, p, t);
      PaymentOwes(s, actor, p, t);
    } else if p.AllocationFinalized? {
      FinalizeIsReview(s, actor, p);
      FinalizeOwes(s, actor, p, t);
    } else if !p.CommunityOpened? {
      BallotStays(s, actor, p, t);
    }
  }

  lemma FinalizeIsReview(s: State, actor: Key, p: Payload)
    requires p.AllocationFinalized?
    ensures StepReview(s, actor, p) == StepFinalized(s, actor, p)
  {
    hide StepFinalized;
  }

  lemma {:induction false} RunOwing(entries: seq<CommunityEntry>, s: State)
    requires Run(entries) == Accept(s)
    ensures Owing(s)
  {
    hide Step, OpenOk, PayoutOk, Owing;
    if entries == [] {
      NothingOwed();
    } else {
      var prev := RunLast(entries, s);
      RunOwing(entries[..|entries| - 1], prev);
      RunOpen(entries[..|entries| - 1], prev);
      RunPayout(entries[..|entries| - 1], prev);
      OwingKept(prev, entries[|entries| - 1], s);
    }
  }

  lemma NothingOwed()
    ensures Owing(EmptyState)
  {}

  // ----- The plan -----

  lemma MediansAtLeastZero(ballots: Ballots, ids: seq<Id>, participants: set<Id>)
    requires FullBallots(ballots, ids, participants) && ids != []
    ensures NonNegative(MediansFor(ballots, ids, participants))
  {
    forall p | p in participants ensures 0 <= Median(SharesFor(ballots, ids, p)) {
      FullSharesNonNegative(ballots, ids, participants, p);
      MedianNotNegative(SharesFor(ballots, ids, p));
    }
  }

  lemma NormalizedParts(medians: map<Id, int>)
    requires NonNegative(medians) && Total(medians) > 0
    ensures Normalized(medians).Accept?
    ensures var bps := Normalized(medians).value;
            bps.Keys == medians.Keys && Total(bps) == 10_000 && forall p :: p in medians ==> 0 <= bps[p]
  {
    NormalizationSound(medians);
    assert Normalized(medians).Accept?;
    hide Normalized, Total, NonNegative;
    var bps := Normalized(medians).value;
    forall p | p in medians ensures 0 <= bps[p] {
      assert RoundedShare(bps[p], medians[p], Total(medians));
    }
  }

  /** Normalized medians are an allocation the payout accepts. */
  lemma NormalizedIsPayable(m: Manifest, medians: map<Id, int>, bps: map<Id, int>)
    requires medians.Keys == m.participants.Keys && NonNegative(medians) && Normalized(medians) == Accept(bps)
    ensures ValidAllocation(m, bps)
  {
    hide Total, NonNegative;
    NormalizedParts(medians);
    hide Normalized;
    BelowWhole(bps);
  }

  lemma BelowWhole(bps: map<Id, int>)
    requires Total(bps) == 10_000 && forall q :: q in bps ==> 0 <= bps[q]
    ensures forall p :: p in bps ==> bps[p] <= 10_000
  {
    hide Total;
    forall p | p in bps ensures bps[p] <= 10_000 {
      ShareWithinTotal(bps, p);
    }
  }

  lemma ShareWithinTotal(bps: map<Id, int>, p: Id)
    requires p in bps && forall q :: q in bps ==> 0 <= bps[q]
    ensures bps[p] <= Total(bps)
  {
    var i := PositionOf(bps, p);
    forall k | 0 <= k < |bps| ensures 0 <= ValuesOf(bps)[k] {
      KeysPresent(bps, k);
    }
    SumNonNegativeElement(ValuesOf(bps), i);
  }

  /** A decided outcome normalized the medians of at least one ballot. */
  lemma DecidedNormalized(m: Manifest, root: Digest, ballots: Ballots, revealed: seq<Id>, allocation: Allocation)
    requires Aggregate(m, root, ballots, revealed) == Accept(allocation) && allocation.Decided()
    requires 3 <= m.policy.reviewQuorum
    ensures allocation.bps.Some? && DecidedIds(ballots, revealed) != []
    ensures Normalized(MediansFor(ballots, DecidedIds(ballots, revealed), m.participants.Keys))
            == Accept(allocation.bps.value)
  {
    hide Normalized, MediansFor, Dispersion, DecidedIds;
  }

  lemma DecidedIsPayable(s: State)
    requires s.manifest.Some? && s.evidenceRoot.Some? && ValidManifest(s.manifest.value) && BallotsOk(s)
    requires s.allocation.Some? && s.allocation.value.Decided()
    requires Aggregate(s.manifest.value, s.evidenceRoot.value, s.ballots, s.revealed) == Accept(s.allocation.value)
    ensures s.allocation.value.bps.Some? && ValidAllocation(s.manifest.value, s.allocation.value.bps.value)
  {
    hide BallotsOk, ValidAllocation, FullBallots, ValidParticipants, ValidReviewers, Normalized, DecidedIds, Aggregate,
         NonNegative;
    var m := s.manifest.value;
    var ids := DecidedIds(s.ballots, s.revealed);
    ValidatedBallotsFull(s);
    DecidedNormalized(m, s.evidenceRoot.value, s.ballots, s.revealed, s.allocation.value);
    MediansAtLeastZero(s.ballots, ids, m.participants.Keys);
    NormalizedIsPayable(m, MediansFor(s.ballots, ids, m.participants.Keys), s.allocation.value.bps.value);
  }

  ghost function PlanFor(m: Manifest, bps: map<Id, int>): Plan
    requires 0 <= m.bountyRao && PayoutLegs(m, bps).Accept?
  {
    Plan("plan", true, true, AllocationDigest(bps), m.bountyRao, PayoutLegs(m, bps).value)
  }

  lemma PlanAccepted(s: State, m: Manifest, bps: map<Id, int>, clerk: Key)
    requires s.phase == Allocated && s.plan.None? && s.manifest == Some(m) && s.clerkKey == Some(clerk)
    requires s.allocation.Some? && s.allocation.value.bps == Some(bps) && 0 <= m.bountyRao
    requires PayoutLegs(m, bps).Accept?
    ensures StepPlanned(s, clerk, PayoutPlanCreated(m.caseId, PlanFor(m, bps)))
            == Accept(s.(plan := Some(PlanFor(m, bps)), phase := MockPaying))
  {
    LegsConserve(m, bps);
    hide PayoutLegs, Amounts;
  }

  lemma AllocatedFacts(entries: seq<CommunityEntry>, s: State)
    requires Run(entries) == Accept(s) && s.phase == Allocated
    ensures s.manifest.Some? && s.clerkKey.Some? && s.plan.None? && s.allocation.Some?
    ensures 0 <= s.manifest.value.bountyRao
    ensures s.allocation.value.bps.Some? && ValidAllocation(s.manifest.value, s.allocation.value.bps.value)
  {
    hide Run, ValidAllocation, BallotsOk, Aggregate, ValidParticipants, ValidReviewers, CaseActorKey;
    RunOpen(entries, s);
    RunBallots(entries, s);
    RunAllocation(entries, s);
    RunPayout(entries, s);
    RunOwing(entries, s);
    DecidedIsPayable(s);
  }

  /** Any allocated case can be planned. */
  lemma PlanNext(entries: seq<CommunityEntry>, s: State) returns (next: seq<CommunityEntry>, t: State)
    requires Replay(entries) == Accept(s) && s.phase == Allocated
    ensures entries <= next && Replay(next) == Accept(t) && t.phase == MockPaying
  {
    AllocatedFacts(entries, s);
    hide Replay, ValidAllocation, StepPlanned;
    var m, bps := s.manifest.value, s.allocation.value.bps.value;
    assert PayoutLegs(m, bps).Accept?;
    PlanAccepted(s, m, bps, s.clerkKey.value);
    t := s.(plan := Some(PlanFor(m, bps)), phase := MockPaying);
    next := Planned(entries, s, PayoutPlanCreated(m.caseId, PlanFor(m, bps)), s.clerkKey.value, t);
  }

  lemma Planned(entries: seq<CommunityEntry>, s: State, payload: Payload, clerk: Key, t: State)
    returns (next: seq<CommunityEntry>)
    requires Replay(entries) == Accept(s) && payload.PayoutPlanCreated? && StepPlanned(s, clerk, payload) == Accept(t)
    ensures entries <= next && Replay(next) == Accept(t)
  {
    hide Replay, StepPlanned;
    next := Reviewed(entries, s, payload, clerk, t);
  }

  // ----- Leg by leg -----

  /** The facts about a paying state that the next payment rests on. */
  ghost predicate Paying(s: State, clerk: Key) {
    && s.phase == MockPaying && s.clerkKey == Some(clerk) && s.plan.Some? && PlanOk(s)
    && s.confirmed <= s.submitted.Keys
  }

  lemma OneLeg(s: State, clerk: Key, id: LegId) returns (i: nat)
    requires Paying(s, clerk) && id in PositiveLegIds(s.plan.value)
    ensures i < |s.plan.value.legs| && CitesLeg(s, s.plan.value.planId, id, i) && s.plan.value.legs[i].amountRao != 0
  {
    var legs := s.plan.value.legs;
    NumberedLegs(s.manifest.value, s.allocation.value.bps.value, legs);
    hide PlanOk;
    i :| 0 <= i < |legs| && legs[i].amountRao > 0 && legs[i].legId == id;
  }

  lemma NumberedLegs(m: Manifest, bps: map<Id, int>, legs: seq<Leg>)
    requires 0 <= m.bountyRao && PayoutLegs(m, bps) == Accept(legs)
    ensures forall i :: 0 <= i < |legs| ==> legs[i].legId == LegNumber(i + 1)
  {
    LegsFaithful(m, bps);
    hide PayoutLegs, LegFollowsQuota;
  }

  function Submitting(s: State, id: LegId): Payload
    requires s.manifest.Some? && s.plan.Some?
  {
    PayoutLegSubmitted(s.manifest.value.caseId, s.plan.value.planId, id, MockReference(s.plan.value.planId, id), true)
  }

  function Submitted(s: State, id: LegId): State
    requires s.plan.Some?
  {
    s.(submitted := s.submitted[id := MockReference(s.plan.value.planId, id)])
  }

  lemma SubmitAccepted(s: State, clerk: Key, id: LegId)
    requires Paying(s, clerk) && id in PositiveLegIds(s.plan.value) && id !in s.submitted
    ensures StepSubmitted(s, clerk, Submitting(s, id)) == Accept(Submitted(s, id))
  {
    var i := OneLeg(s, clerk, id);
    hide PayoutLegs, CitesLeg, PositiveLegIds;
  }

  lemma SubmitKeepsPaying(s: State, clerk: Key, id: LegId)
    requires Paying(s, clerk)
    ensures Paying(Submitted(s, id), clerk)
  {
    hide PayoutLegs;
  }

  lemma Submission(entries: seq<CommunityEntry>, s: State, payload: Payload, clerk: Key, t: State)
    returns (next: seq<CommunityEntry>)
    requires Replay(entries) == Accept(s) && payload.PayoutLegSubmitted?
             && StepSubmitted(s, clerk, payload) == Accept(t)
    ensures entries <= next && Replay(next) == Accept(t)
  {
    hide Replay, StepSubmitted;
    next := Reviewed(entries, s, payload, clerk, t);
  }

  function Confirming(s: State, id: LegId): Payload
    requires s.manifest.Some? && s.plan.Some? && id in s.submitted
  {
    PayoutLegConfirmed(s.manifest.value.caseId, s.plan.value.planId, id, s.submitted[id], true)
  }

  function Confirmed(s: State, id: LegId): State
    requires s.plan.Some?
  {
    var confirmed := s.confirmed + {id};
    s.(confirmed := confirmed, phase := if confirmed == PositiveLegIds(s.plan.value) then MockPaid else MockPaying)
  }

  lemma ConfirmAccepted(s: State, clerk: Key, id: LegId)
    requires Paying(s, clerk) && id in PositiveLegIds(s.plan.value) && id in s.submitted && id !in s.confirmed
    ensures StepConfirmed(s, clerk, Confirming(s, id)) == Accept(Confirmed(s, id))
  {
    var i := OneLeg(s, clerk, id);
    hide PayoutLegs, CitesLeg, PositiveLegIds;
  }

  lemma ConfirmKeepsPaying(s: State, clerk: Key, id: LegId)
    requires Paying(s, clerk) && id in s.submitted
    ensures Confirmed(s, id).phase == MockPaying ==> Paying(Confirmed(s, id), clerk)
  {
    hide PayoutLegs, PositiveLegIds;
  }

  lemma Confirmation(entries: seq<CommunityEntry>, s: State, payload: Payload, clerk: Key, t: State)
    returns (next: seq<CommunityEntry>)
    requires Replay(entries) == Accept(s) && payload.PayoutLegConfirmed?
             && StepConfirmed(s, clerk, payload) == Accept(t)
    ensures entries <= next && Replay(next) == Accept(t)
  {
    hide Replay, StepConfirmed;
    next := Reviewed(entries, s, payload, clerk, t);
  }

  /** The leg is on record as submitted, whether it was before or is now. */
  lemma Submit(entries: seq<CommunityEntry>, s: State, clerk: Key, id: LegId)
    returns (next: seq<CommunityEntry>, t: State)
    requires Replay(entries) == Accept(s) && Paying(s, clerk) && id in PositiveLegIds(s.plan.value)
    ensures entries <= next && Replay(next) == Accept(t) && Paying(t, clerk) && id in t.submitted
    ensures t.plan == s.plan && t.confirmed == s.confirmed
  {
    hide Replay;
    next, t := entries, s;
    if id !in s.submitted {
      SubmitAccepted(s, clerk, id);
      SubmitKeepsPaying(s, clerk, id);
      t := Submitted(s, id);
      hide StepSubmitted, Paying;
      next := Submission(entries, s, Submitting(s, id), clerk, t);
    }
  }

  /** One more leg submitted and confirmed. */
  lemma PayOne(entries: seq<CommunityEntry>, s: State, clerk: Key, id: LegId)
    returns (next: seq<CommunityEntry>, t: State)
    requires Replay(entries) == Accept(s) && Paying(s, clerk)
    requires id in PositiveLegIds(s.plan.value) && id !in s.confirmed
    ensures entries <= next && Replay(next) == Accept(t)
    ensures t.plan == s.plan && t.confirmed == s.confirmed + {id}
    ensures t.phase == if t.confirmed == PositiveLegIds(s.plan.value) then MockPaid else MockPaying
    ensures t.phase == MockPaying ==> Paying(t, clerk)
  {
    hide Replay, PositiveLegIds, Paying, StepConfirmed;
    var submitted;
    next, submitted := Submit(entries, s, clerk, id);
    HasPlan(s, clerk);
    HasPlan(submitted, clerk);
    ConfirmAccepted(submitted, clerk, id);
    ConfirmKeepsPaying(submitted, clerk, id);
    t := Confirmed(submitted, id);
    hide Confirmed;
    next := Confirmation(next, submitted, Confirming(submitted, id), clerk, t);
  }

  lemma HasPlan(s: State, clerk: Key)
    requires Paying(s, clerk)
    ensures s.plan.Some? && s.manifest.Some?
  {}

  lemma {:induction false} PayRest(entries: seq<CommunityEntry>, s: State, clerk: Key, owed: set<LegId>)
    returns (next: seq<CommunityEntry>, t: State)
    requires Replay(entries) == Accept(s) && Paying(s, clerk)
    requires owed == PositiveLegIds(s.plan.value) - s.confirmed && owed != {}
    requires s.confirmed <= PositiveLegIds(s.plan.value)
    ensures entries <= next && Replay(next) == Accept(t) && t.phase == MockPaid
    decreases owed
  {
    hide Replay, PlanOk, PositiveLegIds;
    var id :| id in owed;
    next, t := PayOne(entries, s, clerk, id);
    if t.phase != MockPaid {
      next, t := PayRest(next, t, clerk, owed - {id});
    }
  }

  lemma StillOwed<T>(all: set<T>, done: set<T>)
    requires done <= all && done != all
    ensures all - done != {}
  {
    var x :| x in all && x !in done;
    assert x in all - done;
  }

  lemma PayingFacts(entries: seq<CommunityEntry>, s: State) returns (owed: set<LegId>)
    requires Replay(entries) == Accept(s) && s.phase == MockPaying
    ensures s.clerkKey.Some? && Paying(s, s.clerkKey.value)
    ensures owed == PositiveLegIds(s.plan.value) - s.confirmed && owed != {}
    ensures s.confirmed <= PositiveLegIds(s.plan.value)
  {
    hide Run, PlanOk, PositiveLegIds;
    RunOpen(entries, s);
    RunPayout(entries, s);
    RunOwing(entries, s);
    owed := PositiveLegIds(s.plan.value) - s.confirmed;
    StillOwed(PositiveLegIds(s.plan.value), s.confirmed);
  }

  /**
   An allocated or paying case is never stuck: from every such state of every transcript some continuation reaches
   mock_paid, having paid exactly the bounty (PayoutConserved).
   */
  lemma AllocationCanBePaid(entries: seq<CommunityEntry>, s: State) returns (next: seq<CommunityEntry>, t: State)
    requires Replay(entries) == Accept(s) && (s.phase == Allocated || s.phase == MockPaying)
    ensures entries <= next && Replay(next) == Accept(t) && t.phase == MockPaid
  {
    hide Replay, Paying, PositiveLegIds;
    next, t := entries, s;
    if s.phase == Allocated {
      next, t := PlanNext(entries, s);
    }
    var owed := PayingFacts(next, t);
    next, t := PayRest(next, t, t.clerkKey.value, owed);
  }
}
