/** The mutable case state: each event checked against, then applied to, the fields in place. */
module CommunityCase {
  import opened Basics
  import opened Ordering
  import opened CommunityTypes
  import opened Causality
  import opened Credit
  import opened Aggregation
  import opened Payout
  import opened CommunitySteps
  import opened CommunityInvariants
  import opened CommunityReview

  class CommunityState {
    var manifest: Option<Manifest>
    var clerkKey: Option<Key>
    var phase: Phase
    var sessions: map<Id, Session>
    var sessionByKey: map<Key, Id>
    var claims: map<Id, Claim>
    var commitments: map<Id, Commitment>
    var handoffs: map<Id, Handoff>
    var messages: map<Id, Message>
    var accesses: map<Id, Access>
    var frontiers: map<Id, Frontier>
    var currentFrontier: Option<Id>
    var accepted: set<Id>
    var results: map<Id, ResultRecord>
    var receipts: map<Id, TechnicalReceipt>
    var sealedResult: Option<Id>
    var evidenceRoot: Option<Digest>
    var commits: map<Id, Digest>
    var commitsClosed: bool
    var ballots: map<Id, Ballot>
    var revealed: seq<Id>
    var allocation: Option<Allocation>
    var plan: Option<Plan>
    var submitted: map<LegId, Reference>
    var confirmed: set<LegId>

    constructor ()
      ensures View() == EmptyState && Valid()
    {
      manifest, clerkKey, phase := None, None, New;
      sessions, sessionByKey, claims, commitments, handoffs := map[], map[], map[], map[], map[];
      messages, accesses, frontiers, currentFrontier, accepted := map[], map[], map[], None, {};
      results, receipts, sealedResult, evidenceRoot := map[], map[], None, None;
      commits, commitsClosed, ballots, revealed := map[], false, map[], [];
      allocation, plan, submitted, confirmed := None, None, map[], {};
    }

    function View(): State
      reads this
    {
      State(manifest, clerkKey, phase, sessions, sessionByKey, claims, commitments, handoffs, messages, accesses,
            frontiers, currentFrontier, accepted, results, receipts, sealedResult, evidenceRoot, commits, commitsClosed,
            ballots, revealed, allocation, plan, submitted, confirmed)
    }

    /** Ballots are validated and bound, and an opened manifest has a positive bounty. */
    ghost predicate Valid()
      reads this
    {
      BallotsOk(View()) && (manifest.Some? ==> 0 <= manifest.value.bountyRao)
    }

    method ApplyOpened(e: CommunityEntry) returns (ok: bool)
      requires e.event.payload.CommunityOpened?
      modifies this`manifest, this`clerkKey, this`frontiers, this`currentFrontier, this`phase
      ensures ok <==> StepOpened(old(View()), e).Accept?
      ensures View() == if ok then StepOpened(old(View()), e).value else AfterRefusal(old(View()), e)
    {
      hide MayStartOpening, CaseActorKey;
      ok := MayStartOpening(View(), e);
      if ok {
        var opening := e.event.payload.manifest;
        Identify(opening, e.event.actor);
        ok := !CaseActorKey(opening, e.event.actor);
        if ok {
          var initial := opening.initialFrontier;
          EnterFrontier(frontiers[initial.frontierId := initial], initial.frontierId);
          Activate();
        }
      }
    }

    method Identify(opening: Manifest, clerk: Key)
      modifies this`manifest, this`clerkKey
      ensures View() == old(View()).(manifest := Some(opening), clerkKey := Some(clerk))
    {
      manifest, clerkKey := Some(opening), Some(clerk);
    }

    method Activate()
      modifies this`phase
      ensures View() == old(View()).(phase := Active)
    {
      phase := Active;
    }

    method EnterFrontier(all: map<Id, Frontier>, current: Id)
      modifies this`frontiers, this`currentFrontier
      ensures View() == old(View()).(frontiers := all, currentFrontier := Some(current))
    {
      frontiers, currentFrontier := all, Some(current);
    }

    method ApplyDelegated(actor: Key, at: Time, p: Payload) returns (ok: bool)
      requires p.SessionDelegated?
      modifies this
      ensures ok <==> StepDelegated(old(View()), actor, at, p).Accept?
      ensures ok ==> Accept(View()) == StepDelegated(old(View()), actor, at, p)
      ensures !ok ==> View() == old(View())
    {
      hide MayDelegate;
      if !MayDelegate(View(), actor, at, p) {
        return false;
      }
      var session := Session(p.sessionId, p.participantId, p.sessionKey, p.scopes, p.notAfter, false);
      sessions := sessions[p.sessionId := session];
      sessionByKey := sessionByKey[p.sessionKey := p.sessionId];
      return true;
    }

    /** Mark the session revoked, then walk the claims and release the ones it still holds. */
    method ApplyRevoked(actor: Key, p: Payload) returns (ok: bool)
      requires p.SessionRevoked?
      modifies this
      ensures ok <==> StepRevoked(old(View()), actor, p).Accept?
      ensures ok ==> Accept(View()) == StepRevoked(old(View()), actor, p)
      ensures !ok ==> View() == old(View())
    {
      if !MayRevoke(View(), actor, p) {
        return false;
      }
      sessions := sessions[p.sessionId := sessions[p.sessionId].(revoked := true)];
      claims := ReleaseInPlace(claims, p.sessionId);
      return true;
    }

    static method ReleaseInPlace(before: map<Id, Claim>, sessionId: Id) returns (after: map<Id, Claim>)
      ensures after == ReleaseClaims(before, sessionId)
    {
      after := before;
      var ids := SortedTexts(before.Keys);
      for i := 0 to |ids|
        invariant ReleasedUpTo(before, ids, i, sessionId, after)
      {
        ReleaseNext(before, ids, i, sessionId, after);
        var c := ids[i];
        if after[c].status == ActiveClaim && after[c].sessionId == sessionId {
          after := after[c := after[c].(status := ReleasedClaim)];
        }
      }
      ReleasedAll(before, ids, sessionId, after);
    }

    method ApplyMessage(actor: Key, at: Time, hash: EntryHash, p: Payload) returns (ok: bool)
      requires p.MessagePosted?
      modifies this
      ensures ok <==> StepMessage(old(View()), actor, at, hash, p).Accept?
      ensures ok ==> Accept(View()) == StepMessage(old(View()), actor, at, hash, p)
      ensures !ok ==> View() == old(View())
    {
      hide MayPost;
      if !MayPost(View(), actor, at, p) {
        return false;
      }
      messages := messages[p.messageId := Message(p.sessionId, hash, at)];
      return true;
    }

    method ApplyClaimed(actor: Key, at: Time, hash: EntryHash, p: Payload) returns (ok: bool)
      requires p.RouteClaimed?
      modifies this
      ensures ok <==> StepClaimed(old(View()), actor, at, hash, p).Accept?
      ensures ok ==> Accept(View()) == StepClaimed(old(View()), actor, at, hash, p)
      ensures !ok ==> View() == old(View())
    {
      hide MayClaim;
      if !MayClaim(View(), actor, at, p) {
        return false;
      }
      var claim := Claim(p.routeId, p.participantId, p.sessionId, p.overlap, p.expiresAt, hash, ActiveClaim);
      claims := claims[p.claimId := claim];
      return true;
    }

    method ApplyCommitted(actor: Key, at: Time, hash: EntryHash, p: Payload) returns (ok: bool)
      requires p.ContributionCommitted?
      modifies this
      ensures ok <==> StepCommitted(old(View()), actor, at, hash, p).Accept?
      ensures ok ==> Accept(View()) == StepCommitted(old(View()), actor, at, hash, p)
      ensures !ok ==> View() == old(View())
    {
      hide MayCommit;
      if !MayCommit(View(), actor, at, p) {
        return false;
      }
      var commitment := Commitment(p.claimId, p.participantId, p.sessionId, p.artifactDigest, p.summaryDigest,
                                   p.visibility, hash, None);
      commitments := commitments[p.commitmentId := commitment];
      return true;
    }

    /** Record the handoff, mark its commitment revealed, and complete its claim. */
    method ApplyPublished(actor: Key, at: Time, hash: EntryHash, p: Payload) returns (ok: bool)
      requires p.HandoffPublished?
      modifies this
      ensures ok <==> StepPublished(old(View()), actor, at, hash, p).Accept?
      ensures ok ==> Accept(View()) == StepPublished(old(View()), actor, at, hash, p)
      ensures !ok ==> View() == old(View())
    {
      hide MayPublish;
      if !MayPublish(View(), actor, at, p) {
        return false;
      }
      PublishTargets(View(), actor, at, p);
      RecordHandoff(p, hash);
      return true;
    }

    /** The handoff reveals its commitment and completes its claim. */
    method RecordHandoff(p: Payload, hash: EntryHash)
      requires p.HandoffPublished? && p.commitmentId in commitments && p.claimId in claims
      modifies this`handoffs, this`commitments, this`claims
      ensures handoffs == old(handoffs)[p.handoffId :=
                Handoff(p.commitmentId, p.claimId, p.participantId, p.sessionId, p.outcome, p.summary,
                        p.artifactDigest, p.dependsOn, p.uses, p.refutes, hash)]
      ensures commitments == old(commitments)[p.commitmentId :=
                old(commitments)[p.commitmentId].(revealedBy := Some(p.handoffId))]
      ensures claims == old(claims)[p.claimId := old(claims)[p.claimId].(status := CompletedClaim)]
    {
      handoffs := handoffs[p.handoffId := Handoff(p.commitmentId, p.claimId, p.participantId, p.sessionId, p.outcome,
                                                  p.summary, p.artifactDigest, p.dependsOn, p.uses, p.refutes, hash)];
      commitments := commitments[p.commitmentId := commitments[p.commitmentId].(revealedBy := Some(p.handoffId))];
      claims := claims[p.claimId := claims[p.claimId].(status := CompletedClaim)];
    }

    method ApplyAdvanced(actor: Key, p: Payload) returns (ok: bool)
      requires p.FrontierAccepted?
      modifies this
      ensures ok <==> StepAdvanced(old(View()), actor, p).Accept?
      ensures ok ==> Accept(View()) == StepAdvanced(old(View()), actor, p)
      ensures !ok ==> View() == old(View())
    {
      hide MayAdvance;
      if !MayAdvance(View(), actor, p) {
        return false;
      }
      var cumulative := accepted + Elements(p.acceptedHandoffs);
      frontiers := frontiers[p.frontierId := Frontier(p.frontierId, Some(p.parentFrontierId), p.summary,
                                                      p.openObligations, cumulative, p.frontierDigest)];
      currentFrontier := Some(p.frontierId);
      accepted := cumulative;
      return true;
    }

    method ApplyAccessed(actor: Key, at: Time, hash: EntryHash, p: Payload) returns (ok: bool)
      requires p.KnowledgeAccessed?
      modifies this
      ensures ok <==> StepAccessed(old(View()), actor, at, hash, p).Accept?
      ensures ok ==> Accept(View()) == StepAccessed(old(View()), actor, at, hash, p)
      ensures !ok ==> View() == old(View())
    {
      hide MayAccess;
      if !MayAccess(View(), actor, at, p) {
        return false;
      }
      accesses := accesses[p.accessId := Access(p.contributionId, p.artifactDigest, p.sender, p.receiver, hash)];
      return true;
    }

    /** Walk the causal graph from the direct dependencies before recording a result. */
    method ApplyProposed(actor: Key, at: Time, hash: EntryHash, p: Payload) returns (ok: bool)
      requires p.ResultProposed?
      modifies this
      ensures ok <==> StepProposed(old(View()), actor, at, hash, p).Accept?
      ensures ok ==> Accept(View()) == StepProposed(old(View()), actor, at, hash, p)
      ensures !ok ==> View() == old(View())
    {
      if !MayPropose(View(), actor, at, p) {
        return false;
      }
      var closure := DependencyClosure(handoffs, p.direct);
      if closure.Reject? || !(closure.value <= accepted) {
        return false;
      }
      results := results[p.resultId := ProposedRecord(View(), hash, p, closure.value)];
      return true;
    }

    method ApplyReceipt(actor: Key, hash: EntryHash, p: Payload) returns (ok: bool)
      requires p.TechnicalReceiptRecorded?
      modifies this
      ensures ok <==> StepReceipt(old(View()), actor, hash, p).Accept?
      ensures ok ==> Accept(View()) == StepReceipt(old(View()), actor, hash, p)
      ensures !ok ==> View() == old(View())
    {
      hide MayReceipt;
      if !MayReceipt(View(), actor, p) {
        return false;
      }
      receipts := receipts[p.resultId := TechnicalReceipt(p.pass, hash)];
      return true;
    }

    method ApplySealed(actor: Key, p: Payload) returns (ok: bool)
      requires p.EvidenceSealed?
      modifies this
      ensures ok <==> StepSealed(old(View()), actor, p).Accept?
      ensures ok ==> Accept(View()) == StepSealed(old(View()), actor, p)
      ensures !ok ==> View() == old(View())
    {
      hide MaySeal;
      if !MaySeal(View(), actor, p) {
        return false;
      }
      sealedResult, evidenceRoot, phase := Some(p.resultId), Some(p.evidenceRoot), Reviewing;
      return true;
    }

    method ApplyBallotCommitted(actor: Key, p: Payload) returns (ok: bool)
      requires p.BallotCommitted?
      modifies this
      ensures ok <==> StepBallotCommitted(old(View()), actor, p).Accept?
      ensures ok ==> Accept(View()) == StepBallotCommitted(old(View()), actor, p)
      ensures !ok ==> View() == old(View())
    {
      hide MayCommitBallot;
      if !MayCommitBallot(View(), actor, p) {
        return false;
      }
      commits := commits[p.reviewerId := p.commitment];
      return true;
    }

    method ApplyClosed(actor: Key, p: Payload) returns (ok: bool)
      requires p.CommitsClosed?
      modifies this
      ensures ok <==> StepClosed(old(View()), actor, p).Accept?
      ensures ok ==> Accept(View()) == StepClosed(old(View()), actor, p)
      ensures !ok ==> View() == old(View())
    {
      hide MayClose;
      if !MayClose(View(), actor, p) {
        return false;
      }
      commitsClosed := true;
      return true;
    }

    method ApplyRevealed(actor: Key, p: Payload) returns (ok: bool)
      requires p.BallotRevealed?
      modifies this
      ensures ok <==> StepRevealed(old(View()), actor, p).Accept?
      ensures ok ==> Accept(View()) == StepRevealed(old(View()), actor, p)
      ensures !ok ==> View() == old(View())
    {
      hide MayReveal;
      if !MayReveal(View(), actor, p) {
        return false;
      }
      ballots := ballots[p.reviewerId := p.ballot];
      revealed := revealed + [p.reviewerId];
      return true;
    }

    /** Recompute the aggregate and record it if the clerk's payload says the same. */
    method ApplyFinalized(actor: Key, p: Payload) returns (ok: bool)
      requires p.AllocationFinalized? && BallotsOk(View())
      modifies this`allocation, this`phase
      ensures ok <==> StepFinalized(old(View()), actor, p).Accept?
      ensures ok ==> Accept(View()) == StepFinalized(old(View()), actor, p)
      ensures !ok ==> View() == old(View())
    {
      hide Aggregate, MayFinalize, BallotsOk;
      FinalizeBound(View(), actor);
      if !MayFinalize(View(), actor) {
        return false;
      }
      BallotSharesNonNegative(View());
      var expected := AggregateBallots(manifest.value, evidenceRoot.value, ballots, revealed);
      if expected != Accept(p.allocation) {
        return false;
      }
      allocation := Some(p.allocation);
      phase := if p.allocation.Decided() then Allocated else Inconclusive;
      return true;
    }

    method ApplyPlanned(actor: Key, p: Payload) returns (ok: bool)
      requires p.PayoutPlanCreated? && (manifest.Some? ==> 0 <= manifest.value.bountyRao)
      modifies this
      ensures ok <==> StepPlanned(old(View()), actor, p).Accept?
      ensures ok ==> Accept(View()) == StepPlanned(old(View()), actor, p)
      ensures !ok ==> View() == old(View())
    {
      hide MayPlan, PayoutLegs, Amounts, Sum;
      if !MayPlan(View(), actor, p) {
        return false;
      }
      PlanTargets(View(), actor, p);
      var expected := ComputeLegs(manifest.value, allocation.value.bps.value);
      if expected != Accept(p.plan.legs) || Sum(Amounts(p.plan.legs)) != p.plan.totalRao {
        return false;
      }
      plan, phase := Some(p.plan), MockPaying;
      return true;
    }

    method ApplySubmitted(actor: Key, p: Payload) returns (ok: bool)
      requires p.PayoutLegSubmitted?
      modifies this
      ensures ok <==> StepSubmitted(old(View()), actor, p).Accept?
      ensures ok ==> Accept(View()) == StepSubmitted(old(View()), actor, p)
      ensures !ok ==> View() == old(View())
    {
      hide MaySubmit;
      if !MaySubmit(View(), actor, p) {
        return false;
      }
      submitted := submitted[p.legId := p.reference];
      return true;
    }

    method ApplyConfirmed(actor: Key, p: Payload) returns (ok: bool)
      requires p.PayoutLegConfirmed?
      modifies this
      ensures ok <==> StepConfirmed(old(View()), actor, p).Accept?
      ensures ok ==> Accept(View()) == StepConfirmed(old(View()), actor, p)
      ensures !ok ==> View() == old(View())
    {
      hide MayConfirm;
      if !MayConfirm(View(), actor, p) {
        return false;
      }
      ConfirmTargets(View(), actor, p);
      confirmed := confirmed + {p.legId};
      if confirmed == PositiveLegIds(plan.value) {
        phase := MockPaid;
      }
      return true;
    }

    method ApplyWork(actor: Key, at: Time, hash: EntryHash, p: Payload) returns (ok: bool)
      requires WorkKind(p)
      modifies this
      ensures ok <==> StepWork(old(View()), actor, at, hash, p).Accept?
      ensures ok ==> Accept(View()) == StepWork(old(View()), actor, at, hash, p)
      ensures !ok ==> View() == old(View())
    {
      if p.SessionDelegated? { ok := ApplyDelegated(actor, at, p); }
      else if p.SessionRevoked? { ok := ApplyRevoked(actor, p); }
      else if p.MessagePosted? { ok := ApplyMessage(actor, at, hash, p); }
      else if p.RouteClaimed? { ok := ApplyClaimed(actor, at, hash, p); }
      else if p.ContributionCommitted? { ok := ApplyCommitted(actor, at, hash, p); }
      else if p.HandoffPublished? { ok := ApplyPublished(actor, at, hash, p); }
      else if p.FrontierAccepted? { ok := ApplyAdvanced(actor, p); }
      else if p.KnowledgeAccessed? { ok := ApplyAccessed(actor, at, hash, p); }
      else if p.ResultProposed? { ok := ApplyProposed(actor, at, hash, p); }
      else if p.TechnicalReceiptRecorded? { ok := ApplyReceipt(actor, hash, p); }
      else { ok := ApplySealed(actor, p); }
    }

    method ApplyReview(actor: Key, p: Payload) returns (ok: bool)
      requires Valid()
      modifies this
      ensures ok <==> StepReview(old(View()), actor, p).Accept?
      ensures ok ==> Accept(View()) == StepReview(old(View()), actor, p)
      ensures !ok ==> View() == old(View())
    {
      if p.BallotCommitted? { ok := ApplyBallotCommitted(actor, p); }
      else if p.CommitsClosed? { ok := ApplyClosed(actor, p); }
      else if p.BallotRevealed? { ok := ApplyRevealed(actor, p); }
      else if p.AllocationFinalized? { ok := ApplyFinalized(actor, p); }
      else if p.PayoutPlanCreated? { ok := ApplyPlanned(actor, p); }
      else if p.PayoutLegSubmitted? { ok := ApplySubmitted(actor, p); }
      else if p.PayoutLegConfirmed? { ok := ApplyConfirmed(actor, p); }
      else { ok := false; }
    }

    /**
     Apply one entry. An accepted entry takes exactly its step; a refused one changes nothing, except that a refused
     opening whose clerk key is a case actor's has already stored the manifest and the clerk.
     */
    method Apply(e: CommunityEntry) returns (ok: bool)
      requires Valid()
      modifies this
      ensures Valid()
      ensures ok <==> Step(old(View()), e).Accept?
      ensures ok ==> Accept(View()) == Step(old(View()), e)
      ensures !ok ==> View() == AfterRefusal(old(View()), e)
    {
      ghost var before := View();
      if e.event.payload.CommunityOpened? {
        ok := ApplyOpened(e);
      } else if WorkKind(e.event.payload) {
        ok := ApplyWork(e.event.actor, e.at, e.hash, e.event.payload);
      } else {
        ok := ApplyReview(e.event.actor, e.event.payload);
      }
      if ok {
        StepKeepsValid(before, e, View());
      } else {
        RefusalKeepsValid(before, e);
      }
    }
  }

  lemma FinalizeBound(s: State, actor: Key)
    ensures MayFinalize(s, actor) ==> s.manifest.Some? && s.evidenceRoot.Some?
  {}

  /** The state a refused entry leaves behind. */
  function AfterRefusal(s: State, e: CommunityEntry): State {
    if MayStartOpening(s, e)
    then s.(manifest := Some(e.event.payload.manifest), clerkKey := Some(e.event.actor))
    else s
  }

  /** The claims listed before position n are released, the others untouched. */
  ghost predicate ReleasedUpTo(before: map<Id, Claim>, ids: seq<Id>, n: nat, sessionId: Id, after: map<Id, Claim>)
    requires n <= |ids|
  {
    && after.Keys == before.Keys
    && forall c :: c in before ==> after[c] == if c in ids[..n] then Released(before[c], sessionId) else before[c]
  }

  lemma ReleaseNext(before: map<Id, Claim>, ids: seq<Id>, n: nat, sessionId: Id, after: map<Id, Claim>)
    requires n < |ids| && NoDuplicates(ids) && Elements(ids) == before.Keys
    requires ReleasedUpTo(before, ids, n, sessionId, after)
    ensures ids[n] in before && after[ids[n]] == before[ids[n]]
    ensures ReleasedUpTo(before, ids, n + 1, sessionId, after[ids[n] := Released(after[ids[n]], sessionId)])
  {
    assert ids[n] in Elements(ids) && ids[n] !in ids[..n];
    assert ids[..n + 1] == ids[..n] + [ids[n]];
  }

  lemma ReleasedAll(before: map<Id, Claim>, ids: seq<Id>, sessionId: Id, after: map<Id, Claim>)
    requires Elements(ids) == before.Keys && ReleasedUpTo(before, ids, |ids|, sessionId, after)
    ensures after == ReleaseClaims(before, sessionId)
  {
    assert ids[..|ids|] == ids;
    forall c | c in before ensures after[c] == Released(before[c], sessionId) {
      assert c in Elements(ids);
    }
  }

  lemma PublishTargets(s: State, actor: Key, at: Time, p: Payload)
    requires p.HandoffPublished? && MayPublish(s, actor, at, p)
    ensures p.commitmentId in s.commitments && p.claimId in s.claims
  {}

  lemma PlanTargets(s: State, actor: Key, p: Payload)
    requires p.PayoutPlanCreated? && MayPlan(s, actor, p)
    ensures s.manifest.Some? && s.allocation.Some? && s.allocation.value.bps.Some?
  {}

  lemma ConfirmTargets(s: State, actor: Key, p: Payload)
    requires p.PayoutLegConfirmed? && MayConfirm(s, actor, p)
    ensures s.plan.Some? && s.phase == MockPaying
  {}

  lemma BallotSharesNonNegative(s: State)
    requires BallotsOk(s)
    ensures SharesNonNegative(s.ballots)
  {
    forall r | r in s.ballots ensures NonNegative(s.ballots[r].shares) {
      assert ValidBallot(s, s.ballots[r], r);
      forall p | p in s.ballots[r].shares ensures 0 <= s.ballots[r].shares[p] {
        assert ValidShare(s, s.ballots[r], s.results[s.sealedResult.value].expected, p);
      }
    }
  }

  lemma StepKeepsValid(s: State, e: CommunityEntry, t: State)
    requires Step(s, e) == Accept(t) && BallotsOk(s)
    requires s.manifest.Some? ==> 0 <= s.manifest.value.bountyRao
    ensures BallotsOk(t) && (t.manifest.Some? ==> 0 <= t.manifest.value.bountyRao)
  {
    BallotsKept(s, e, t);
    StepFramed(s, e, t);
    if e.event.payload.CommunityOpened? {
      OpeningIsPositive(s, e, t);
    }
  }

  lemma OpeningIsPositive(s: State, e: CommunityEntry, t: State)
    requires StepOpened(s, e) == Accept(t)
    ensures t.manifest.Some? && 0 <= t.manifest.value.bountyRao
  {}

  lemma RefusalKeepsValid(s: State, e: CommunityEntry)
    requires BallotsOk(s) && (s.manifest.Some? ==> 0 <= s.manifest.value.bountyRao)
    ensures var t := AfterRefusal(s, e); BallotsOk(t) && (t.manifest.Some? ==> 0 <= t.manifest.value.bountyRao)
  {
    if MayStartOpening(s, e) {
      StartedOpening(s, e);
      BlankBallots(s, AfterRefusal(s, e));
    }
  }

  lemma StartedOpening(s: State, e: CommunityEntry)
    requires MayStartOpening(s, e)
    ensures s.phase == New && 0 <= e.event.payload.manifest.bountyRao
  {}

  /** Before the seal no ballot depends on the manifest. */
  lemma BlankBallots(s: State, t: State)
    requires BallotsOk(s) && s.phase == New && t == s.(manifest := t.manifest, clerkKey := t.clerkKey)
    ensures BallotsOk(t)
  {
    hide ValidBallot;
  }
}
