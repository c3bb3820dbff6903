/** The meaning of each community event: when it is accepted, and the state it leaves. */
module CommunitySteps {
  import opened Basics
  import opened Ordering
  import opened Chain
  import opened CommunityTypes
  import opened Causality
  import opened Credit
  import opened Aggregation
  import opened Payout

  const MicrosPerSecond: int := 1_000_000

  // ----- Who may act -----

  predicate InCase(s: State, caseId: Id) {
    s.manifest.Some? && s.manifest.value.caseId == caseId
  }

  /** The signer is the controller of exactly this participant. */
  predicate Controls(s: State, actor: Key, p: Id) {
    && s.manifest.Some?
    && p in s.manifest.value.participants
    && s.manifest.value.participants[p].controllerKey == actor
    && forall q ::
        q in s.manifest.value.participants && s.manifest.value.participants[q].controllerKey == actor ==> q == p
  }

  /** The signer is exactly this frozen reviewer. */
  predicate Reviews(s: State, actor: Key, r: Id) {
    && s.manifest.Some?
    && r in s.manifest.value.reviewers
    && s.manifest.value.reviewers[r].reviewerKey == actor
    && forall q :: q in s.manifest.value.reviewers && s.manifest.value.reviewers[q].reviewerKey == actor ==> q == r
  }

  predicate IsClerk(s: State, actor: Key) {
    s.clerkKey == Some(actor)
  }

  /** A key that the manifest reserves for a participant, a reviewer, or the verifier. */
  predicate CaseActorKey(m: Manifest, key: Key) {
    || key == m.verifierKey
    || (exists p :: p in m.participants && m.participants[p].controllerKey == key)
    || (exists r :: r in m.reviewers && m.reviewers[r].reviewerKey == key)
  }

  /** The live delegated session behind a signing key, if it holds the scope. */
  function ActingSession(s: State, actor: Key, at: Time, scope: Scope): Option<Session> {
    if s.phase == Active && actor in s.sessionByKey && s.sessionByKey[actor] in s.sessions then
      var session := s.sessions[s.sessionByKey[actor]];
      if !session.revoked && scope in session.scopes && at < session.notAfter then Some(session) else None
    else None
  }

  predicate ActsAs(s: State, actor: Key, at: Time, scope: Scope, participantId: Id, sessionId: Id) {
    var session := ActingSession(s, actor, at, scope);
    session.Some? && session.value.participantId == participantId && session.value.sessionId == sessionId
  }

  predicate Live(claim: Claim, at: Time) {
    claim.status == ActiveClaim && at < claim.expiresAt
  }

  // ----- Opening, sessions, messages -----

  /** The checks that precede the first assignment of the opening branch. */
  predicate MayStartOpening(s: State, e: CommunityEntry) {
    && e.event.payload.CommunityOpened?
    && s.phase == New && e.seqNo == 0
    && e.event.actor == e.event.payload.clerkKey
    && ValidManifest(e.event.payload.manifest)
  }

  function StepOpened(s: State, e: CommunityEntry): Result<State> {
    if MayStartOpening(s, e) && !CaseActorKey(e.event.payload.manifest, e.event.actor) then
      var m := e.event.payload.manifest;
      var first := m.initialFrontier;
      Accept(s.(manifest := Some(m), clerkKey := Some(e.event.actor),
                frontiers := s.frontiers[first.frontierId := first],
                currentFrontier := Some(first.frontierId), phase := Active))
    else Reject
  }

  predicate MayDelegate(s: State, actor: Key, at: Time, p: Payload)
    requires p.SessionDelegated?
  {
    && s.phase == Active && InCase(s, p.caseId)
    && Controls(s, actor, p.participantId)
    && p.sessionId !in s.sessions && p.sessionKey !in s.sessionByKey
    && !IsClerk(s, p.sessionKey) && !CaseActorKey(s.manifest.value, p.sessionKey)
    && p.scopes != [] && NoDuplicates(p.scopes)
    && at < p.notAfter
  }

  function StepDelegated(s: State, actor: Key, at: Time, p: Payload): Result<State>
    requires p.SessionDelegated?
  {
    if MayDelegate(s, actor, at, p) then
      var session := Session(p.sessionId, p.participantId, p.sessionKey, p.scopes, p.notAfter, false);
      Accept(s.(sessions := s.sessions[p.sessionId := session],
                sessionByKey := s.sessionByKey[p.sessionKey := p.sessionId]))
    else Reject
  }

  predicate MayRevoke(s: State, actor: Key, p: Payload)
    requires p.SessionRevoked?
  {
    && s.phase == Active && InCase(s, p.caseId)
    && Controls(s, actor, p.participantId)
    && p.sessionId in s.sessions
    && s.sessions[p.sessionId].participantId == p.participantId
    && !s.sessions[p.sessionId].revoked
  }

  function Released(claim: Claim, sessionId: Id): Claim {
    if claim.status == ActiveClaim && claim.sessionId == sessionId then claim.(status := ReleasedClaim) else claim
  }

  /** Revocation releases every claim the session still holds. */
  function ReleaseClaims(claims: map<Id, Claim>, sessionId: Id): map<Id, Claim> {
    map c | c in claims :: Released(claims[c], sessionId)
  }

  function StepRevoked(s: State, actor: Key, p: Payload): Result<State>
    requires p.SessionRevoked?
  {
    if MayRevoke(s, actor, p) then
      Accept(s.(sessions := s.sessions[p.sessionId := s.sessions[p.sessionId].(revoked := true)],
                claims := ReleaseClaims(s.claims, p.sessionId)))
    else Reject
  }

  predicate MayPost(s: State, actor: Key, at: Time, p: Payload)
    requires p.MessagePosted?
  {
    && ActingSession(s, actor, at, MessageScope).Some?
    && ActingSession(s, actor, at, MessageScope).value.sessionId == p.sessionId
    && InCase(s, p.caseId) && p.messageId !in s.messages && NoDuplicates(p.references)
  }

  function StepMessage(s: State, actor: Key, at: Time, hash: EntryHash, p: Payload): Result<State>
    requires p.MessagePosted?
  {
    if MayPost(s, actor, at, p)
    then Accept(s.(messages := s.messages[p.messageId := Message(p.sessionId, hash, at)]))
    else Reject
  }

  // ----- Routes, commitments, handoffs -----

  /** Sharing a route needs the policy and a parallel declaration from every live claimant. */
  predicate RouteFree(s: State, at: Time, routeId: Id, overlap: Overlap)
    requires s.manifest.Some?
  {
    forall c :: c in s.claims && s.claims[c].routeId == routeId && Live(s.claims[c], at) ==>
      s.manifest.value.policy.allowParallel && overlap == Parallel && s.claims[c].overlap == Parallel
  }

  predicate MayClaim(s: State, actor: Key, at: Time, p: Payload)
    requires p.RouteClaimed?
  {
    && ActsAs(s, actor, at, ClaimScope, p.participantId, p.sessionId)
    && InCase(s, p.caseId)
    && p.claimId !in s.claims
    && s.currentFrontier == Some(p.baseFrontierId)
    && 0 < p.expiresAt - at <= s.manifest.value.policy.leaseMaxSeconds * MicrosPerSecond
    && RouteFree(s, at, p.routeId, p.overlap)
  }

  function StepClaimed(s: State, actor: Key, at: Time, hash: EntryHash, p: Payload): Result<State>
    requires p.RouteClaimed?
  {
    if MayClaim(s, actor, at, p) then
      var claim := Claim(p.routeId, p.participantId, p.sessionId, p.overlap, p.expiresAt, hash, ActiveClaim);
      Accept(s.(claims := s.claims[p.claimId := claim]))
    else Reject
  }

  predicate MayCommit(s: State, actor: Key, at: Time, p: Payload)
    requires p.ContributionCommitted?
  {
    && ActsAs(s, actor, at, HandoffScope, p.participantId, p.sessionId)
    && InCase(s, p.caseId)
    && p.commitmentId !in s.commitments
    && p.claimId in s.claims
    && s.claims[p.claimId].sessionId == p.sessionId
    && Live(s.claims[p.claimId], at)
  }

  function StepCommitted(s: State, actor: Key, at: Time, hash: EntryHash, p: Payload): Result<State>
    requires p.ContributionCommitted?
  {
    if MayCommit(s, actor, at, p) then
      var commitment := Commitment(p.claimId, p.participantId, p.sessionId, p.artifactDigest, p.summaryDigest,
                                   p.visibility, hash, None);
      Accept(s.(commitments := s.commitments[p.commitmentId := commitment]))
    else Reject
  }

  predicate UsableEdges(s: State, p: Payload)
    requires p.HandoffPublished?
  {
    && NoDuplicates(p.dependsOn + p.uses + p.refutes)
    && forall h :: h in p.dependsOn + p.uses + p.refutes ==> h != p.handoffId && !Unusable(s.handoffs, h)
  }

  predicate MayPublish(s: State, actor: Key, at: Time, p: Payload)
    requires p.HandoffPublished?
  {
    && ActsAs(s, actor, at, HandoffScope, p.participantId, p.sessionId)
    && InCase(s, p.caseId)
    && p.handoffId !in s.handoffs
    && p.claimId in s.claims
    && s.claims[p.claimId].sessionId == p.sessionId
    && Live(s.claims[p.claimId], at)
    && p.commitmentId in s.commitments
    && s.commitments[p.commitmentId].claimId == p.claimId
    && s.commitments[p.commitmentId].revealedBy.None?
    && s.commitments[p.commitmentId].artifactDigest == p.artifactDigest
    && s.commitments[p.commitmentId].summaryDigest == SummaryDigest(p.summary)
    && s.manifest.value.environmentDigest == p.environmentDigest
    && UsableEdges(s, p)
  }

  function StepPublished(s: State, actor: Key, at: Time, hash: EntryHash, p: Payload): Result<State>
    requires p.HandoffPublished?
  {
    if MayPublish(s, actor, at, p) then
      var handoff := Handoff(p.commitmentId, p.claimId, p.participantId, p.sessionId, p.outcome, p.summary,
                             p.artifactDigest, p.dependsOn, p.uses, p.refutes, hash);
      Accept(s.(handoffs := s.handoffs[p.handoffId := handoff],
                commitments := s.commitments[p.commitmentId :=
                  s.commitments[p.commitmentId].(revealedBy := Some(p.handoffId))],
                claims := s.claims[p.claimId := s.claims[p.claimId].(status := CompletedClaim)]))
    else Reject
  }

  // ----- Frontier and knowledge -----

  /** An inspectable, useful handoff whose causal edges are all in the proposed accepted set. */
  predicate MayAcceptHandoff(s: State, h: Id, cumulative: set<Id>) {
    && !Unusable(s.handoffs, h)
    && s.handoffs[h].commitmentId in s.commitments
    && s.commitments[s.handoffs[h].commitmentId].visibility != HashOnly
    && forall d :: d in Edges(s.handoffs[h]) ==> d in cumulative
  }

  predicate MayAdvance(s: State, actor: Key, p: Payload)
    requires p.FrontierAccepted?
  {
    && IsClerk(s, actor) && s.phase == Active && InCase(s, p.caseId)
    && p.frontierId !in s.frontiers
    && s.currentFrontier == Some(p.parentFrontierId)
    && NoDuplicates(p.openObligations)
    && p.acceptedHandoffs != [] && NoDuplicates(p.acceptedHandoffs)
    && (forall h :: h in p.acceptedHandoffs ==> MayAcceptHandoff(s, h, s.accepted + Elements(p.acceptedHandoffs)))
    && p.frontierDigest == FrontierDigest(p.caseId, p.frontierId, Some(p.parentFrontierId), p.summary,
                                          p.openObligations, s.accepted + Elements(p.acceptedHandoffs))
  }

  function StepAdvanced(s: State, actor: Key, p: Payload): Result<State>
    requires p.FrontierAccepted?
  {
    if MayAdvance(s, actor, p) then
      var cumulative := s.accepted + Elements(p.acceptedHandoffs);
      var frontier := Frontier(p.frontierId, Some(p.parentFrontierId), p.summary, p.openObligations,
                               cumulative, p.frontierDigest);
      Accept(s.(frontiers := s.frontiers[p.frontierId := frontier],
                currentFrontier := Some(p.frontierId), accepted := cumulative))
    else Reject
  }

  predicate MayAccess(s: State, actor: Key, at: Time, p: Payload)
    requires p.KnowledgeAccessed?
  {
    && ActsAs(s, actor, at, AccessScope, p.receiver, p.sessionId)
    && InCase(s, p.caseId)
    && p.accessId !in s.accesses
    && p.contributionId in s.handoffs
    && s.handoffs[p.contributionId].participantId == p.sender
    && p.sender != p.receiver
    && s.handoffs[p.contributionId].artifactDigest == p.artifactDigest
  }

  function StepAccessed(s: State, actor: Key, at: Time, hash: EntryHash, p: Payload): Result<State>
    requires p.KnowledgeAccessed?
  {
    if MayAccess(s, actor, at, p) then
      var access := Access(p.contributionId, p.artifactDigest, p.sender, p.receiver, hash);
      Accept(s.(accesses := s.accesses[p.accessId := access]))
    else Reject
  }

  // ----- Results, technical receipts, the evidence seal -----

  /** Contributions a participant has signed receipts for. */
  function Accessed(s: State, participantId: Id): set<Id> {
    set a | a in s.accesses && s.accesses[a].receiver == participantId :: s.accesses[a].contributionId
  }

  /** The stored record, given the closure of the direct dependencies. */
  function ProposedRecord(s: State, hash: EntryHash, p: Payload, expected: set<Id>): ResultRecord
    requires p.ResultProposed?
  {
    var claimed := Elements(p.claimed);
    var accessed := Accessed(s, p.participantId);
    var usedButAbsent := set c | c in p.dispositions && p.dispositions[c] == Used && c !in claimed;
    var unattributed := set c | c in p.dispositions && p.dispositions[c] == NotUsed && c !in expected;
    ResultRecord(p.participantId, p.artifactDigest, p.direct, claimed, p.dispositions, hash, expected,
                 (expected - claimed) + usedButAbsent, claimed - expected,
                 accessed - p.dispositions.Keys, unattributed)
  }

  predicate MayPropose(s: State, actor: Key, at: Time, p: Payload)
    requires p.ResultProposed?
  {
    && ActsAs(s, actor, at, ResultScope, p.participantId, p.sessionId)
    && InCase(s, p.caseId)
    && p.resultId !in s.results
    && s.manifest.value.environmentDigest == p.environmentDigest
    && p.direct != [] && NoDuplicates(p.direct)
    && p.claimed != [] && NoDuplicates(p.claimed)
    && p.dispositions.Keys <= Accessed(s, p.participantId)
  }

  ghost function StepProposed(s: State, actor: Key, at: Time, hash: EntryHash, p: Payload): Result<State>
    requires p.ResultProposed?
  {
    var closure := Closure(s.handoffs, p.direct);
    if MayPropose(s, actor, at, p) && closure.Accept? && closure.value <= s.accepted
    then Accept(s.(results := s.results[p.resultId := ProposedRecord(s, hash, p, closure.value)]))
    else Reject
  }

  predicate MayReceipt(s: State, actor: Key, p: Payload)
    requires p.TechnicalReceiptRecorded?
  {
    && s.phase == Active && InCase(s, p.caseId)
    && actor == s.manifest.value.verifierKey
    && p.resultId in s.results && p.resultId !in s.receipts
    && s.results[p.resultId].artifactDigest == p.artifactDigest
    && s.manifest.value.environmentDigest == p.environmentDigest
  }

  function StepReceipt(s: State, actor: Key, hash: EntryHash, p: Payload): Result<State>
    requires p.TechnicalReceiptRecorded?
  {
    if MayReceipt(s, actor, p)
    then Accept(s.(receipts := s.receipts[p.resultId := TechnicalReceipt(p.pass, hash)]))
    else Reject
  }

  /** Everything the evidence root of a result binds, or None when a part is missing. */
  function EvidenceOf(s: State, resultId: Id): Option<Evidence> {
    if && s.manifest.Some? && s.currentFrontier.Some? && s.currentFrontier.value in s.frontiers
       && resultId in s.results && resultId in s.receipts
    then Some(Evidence(
      s.manifest.value.caseId, s.frontiers[s.currentFrontier.value],
      map c | c in s.commitments :: s.commitments[c].entryHash,
      map h | h in s.handoffs :: s.handoffs[h].entryHash,
      map a | a in s.accesses :: s.accesses[a].entryHash,
      resultId, s.results[resultId].entryHash, s.receipts[resultId].entryHash))
    else None
  }

  predicate MaySeal(s: State, actor: Key, p: Payload)
    requires p.EvidenceSealed?
  {
    && IsClerk(s, actor) && s.phase == Active && InCase(s, p.caseId)
    && p.resultId in s.results && p.resultId in s.receipts
    && s.receipts[p.resultId].pass
    && s.results[p.resultId].Complete()
    && p.attributed == SortedTexts(s.results[p.resultId].expected)
    && EvidenceOf(s, p.resultId).Some?
    && p.evidenceRoot == EvidenceDigest(EvidenceOf(s, p.resultId).value)
  }

  function StepSealed(s: State, actor: Key, p: Payload): Result<State>
    requires p.EvidenceSealed?
  {
    if MaySeal(s, actor, p)
    then Accept(s.(sealedResult := Some(p.resultId), evidenceRoot := Some(p.evidenceRoot), phase := Reviewing))
    else Reject
  }

  // ----- Credit review -----

  predicate MayCommitBallot(s: State, actor: Key, p: Payload)
    requires p.BallotCommitted?
  {
    && s.phase == Reviewing && !s.commitsClosed && InCase(s, p.caseId)
    && Reviews(s, actor, p.reviewerId)
    && s.evidenceRoot == Some(p.evidenceRoot)
    && p.reviewerId !in s.commits
  }

  function StepBallotCommitted(s: State, actor: Key, p: Payload): Result<State>
    requires p.BallotCommitted?
  {
    if MayCommitBallot(s, actor, p)
    then Accept(s.(commits := s.commits[p.reviewerId := p.commitment]))
    else Reject
  }

  predicate MayClose(s: State, actor: Key, p: Payload)
    requires p.CommitsClosed?
  {
    && IsClerk(s, actor) && s.phase == Reviewing && !s.commitsClosed && InCase(s, p.caseId)
    && s.evidenceRoot == Some(p.evidenceRoot)
    && p.committed != [] && p.committed == SortedTexts(s.commits.Keys)
    && s.manifest.value.policy.reviewQuorum <= |p.committed|
  }

  function StepClosed(s: State, actor: Key, p: Payload): Result<State>
    requires p.CommitsClosed?
  {
    if MayClose(s, actor, p) then Accept(s.(commitsClosed := true)) else Reject
  }

  /** One participant's part of a ballot: a share in range, argued only from its own sealed evidence. */
  predicate ValidShare(s: State, ballot: Ballot, closure: set<Id>, p: Id)
    requires p in ballot.shares && p in ballot.evidenceRefs
  {
    && 0 <= ballot.shares[p] <= 10_000
    && NoDuplicates(ballot.evidenceRefs[p])
    && (forall h :: h in ballot.evidenceRefs[p] ==> h in closure && h in s.handoffs && s.handoffs[h].participantId == p)
    && (ballot.shares[p] > 0 ==> ballot.evidenceRefs[p] != [])
  }

  predicate ValidBallot(s: State, ballot: Ballot, reviewerId: Id) {
    && InCase(s, ballot.caseId)
    && s.evidenceRoot == Some(ballot.evidenceRoot)
    && ballot.reviewerId == reviewerId
    && ballot.shares.Keys == s.manifest.value.participants.Keys
    && ballot.evidenceRefs.Keys == s.manifest.value.participants.Keys
    && s.sealedResult.Some? && s.sealedResult.value in s.results
    && (forall p :: p in ballot.shares ==> ValidShare(s, ballot, s.results[s.sealedResult.value].expected, p))
    && Total(ballot.shares) == if ballot.decided then 10_000 else 0
  }

  predicate MayReveal(s: State, actor: Key, p: Payload)
    requires p.BallotRevealed?
  {
    && s.phase == Reviewing && s.commitsClosed && InCase(s, p.caseId)
    && Reviews(s, actor, p.reviewerId)
    && s.evidenceRoot == Some(p.evidenceRoot)
    && p.reviewerId !in s.ballots
    && ValidBallot(s, p.ballot, p.reviewerId)
    && p.reviewerId in s.commits
    && s.commits[p.reviewerId] == BallotDigest(p.ballot, p.salt)
  }

  function StepRevealed(s: State, actor: Key, p: Payload): Result<State>
    requires p.BallotRevealed?
  {
    if MayReveal(s, actor, p)
    then Accept(s.(ballots := s.ballots[p.reviewerId := p.ballot], revealed := s.revealed + [p.reviewerId]))
    else Reject
  }

  predicate MayFinalize(s: State, actor: Key) {
    && IsClerk(s, actor) && s.phase == Reviewing && s.allocation.None?
    && s.manifest.Some? && s.evidenceRoot.Some?
    && s.ballots.Keys == s.commits.Keys
  }

  ghost function StepFinalized(s: State, actor: Key, p: Payload): Result<State>
    requires p.AllocationFinalized?
  {
    if && MayFinalize(s, actor)
       && Aggregate(s.manifest.value, s.evidenceRoot.value, s.ballots, s.revealed) == Accept(p.allocation)
    then Accept(s.(allocation := Some(p.allocation),
                   phase := if p.allocation.Decided() then Allocated else Inconclusive))
    else Reject
  }

  // ----- Payout -----

  predicate MayPlan(s: State, actor: Key, p: Payload)
    requires p.PayoutPlanCreated?
  {
    && IsClerk(s, actor) && s.phase == Allocated && s.plan.None? && InCase(s, p.caseId)
    && s.allocation.Some? && s.allocation.value.bps.Some?
    && p.plan.simulation && p.plan.finalMock
    && p.plan.allocationDigest == AllocationDigest(s.allocation.value.bps.value)
    && p.plan.totalRao == s.manifest.value.bountyRao
  }

  ghost function StepPlanned(s: State, actor: Key, p: Payload): Result<State>
    requires p.PayoutPlanCreated?
  {
    if && MayPlan(s, actor, p) && 0 <= s.manifest.value.bountyRao
       && PayoutLegs(s.manifest.value, s.allocation.value.bps.value) == Accept(p.plan.legs)
       && Sum(Amounts(p.plan.legs)) == p.plan.totalRao
    then Accept(s.(plan := Some(p.plan), phase := MockPaying))
    else Reject
  }

  /** The cited leg, when exactly one leg of the cited plan carries the identifier. */
  predicate CitesLeg(s: State, planId: Id, legId: LegId, i: nat) {
    && s.plan.Some? && s.plan.value.planId == planId
    && i < |s.plan.value.legs| && s.plan.value.legs[i].legId == legId
    && forall j :: 0 <= j < |s.plan.value.legs| && s.plan.value.legs[j].legId == legId ==> j == i
  }

  predicate MaySubmit(s: State, actor: Key, p: Payload)
    requires p.PayoutLegSubmitted?
  {
    && IsClerk(s, actor) && s.phase == MockPaying && InCase(s, p.caseId) && s.plan.Some?
    && (exists i ::
        0 <= i < |s.plan.value.legs| && CitesLeg(s, p.planId, p.legId, i) && s.plan.value.legs[i].amountRao != 0)
    && p.chainObserved
    && p.legId !in s.submitted
    && p.reference == MockReference(p.planId, p.legId)
  }

  function StepSubmitted(s: State, actor: Key, p: Payload): Result<State>
    requires p.PayoutLegSubmitted?
  {
    if MaySubmit(s, actor, p) then Accept(s.(submitted := s.submitted[p.legId := p.reference])) else Reject
  }

  function PositiveLegIds(plan: Plan): set<LegId> {
    set i | 0 <= i < |plan.legs| && plan.legs[i].amountRao > 0 :: plan.legs[i].legId
  }

  predicate MayConfirm(s: State, actor: Key, p: Payload)
    requires p.PayoutLegConfirmed?
  {
    && IsClerk(s, actor) && s.phase == MockPaying && InCase(s, p.caseId) && s.plan.Some?
    && (exists i :: 0 <= i < |s.plan.value.legs| && CitesLeg(s, p.planId, p.legId, i))
    && p.legId in s.submitted && s.submitted[p.legId] == p.reference
    && p.finalized
    && p.legId !in s.confirmed
  }

  function StepConfirmed(s: State, actor: Key, p: Payload): Result<State>
    requires p.PayoutLegConfirmed?
  {
    if MayConfirm(s, actor, p) then
      var confirmed := s.confirmed + {p.legId};
      Accept(s.(confirmed := confirmed,
                phase := if confirmed == PositiveLegIds(s.plan.value) then MockPaid else MockPaying))
    else Reject
  }

  // ----- One entry, and whole transcripts -----

  /** Events that only an active case accepts, apart from its opening. */
  ghost function StepWork(s: State, actor: Key, at: Time, hash: EntryHash, p: Payload): Result<State> {
    if p.SessionDelegated? then StepDelegated(s, actor, at, p)
    else if p.SessionRevoked? then StepRevoked(s, actor, p)
    else if p.MessagePosted? then StepMessage(s, actor, at, hash, p)
    else if p.RouteClaimed? then StepClaimed(s, actor, at, hash, p)
    else if p.ContributionCommitted? then StepCommitted(s, actor, at, hash, p)
    else if p.HandoffPublished? then StepPublished(s, actor, at, hash, p)
    else if p.FrontierAccepted? then StepAdvanced(s, actor, p)
    else if p.KnowledgeAccessed? then StepAccessed(s, actor, at, hash, p)
    else if p.ResultProposed? then StepProposed(s, actor, at, hash, p)
    else if p.TechnicalReceiptRecorded? then StepReceipt(s, actor, hash, p)
    else if p.EvidenceSealed? then StepSealed(s, actor, p)
    else Reject
  }

  /** Events of the credit review and the payout that follow the evidence seal. */
  ghost function StepReview(s: State, actor: Key, p: Payload): Result<State> {
    if p.BallotCommitted? then StepBallotCommitted(s, actor, p)
    else if p.CommitsClosed? then StepClosed(s, actor, p)
    else if p.BallotRevealed? then StepRevealed(s, actor, p)
    else if p.AllocationFinalized? then StepFinalized(s, actor, p)
    else if p.PayoutPlanCreated? then StepPlanned(s, actor, p)
    else if p.PayoutLegSubmitted? then StepSubmitted(s, actor, p)
    else if p.PayoutLegConfirmed? then StepConfirmed(s, actor, p)
    else Reject
  }

  predicate WorkKind(p: Payload) {
    || p.SessionDelegated? || p.SessionRevoked? || p.MessagePosted? || p.RouteClaimed? || p.ContributionCommitted?
    || p.HandoffPublished? || p.FrontierAccepted? || p.KnowledgeAccessed? || p.ResultProposed?
    || p.TechnicalReceiptRecorded? || p.EvidenceSealed?
  }

  ghost function Step(s: State, e: CommunityEntry): Result<State> {
    if e.event.payload.CommunityOpened? then StepOpened(s, e)
    else if WorkKind(e.event.payload) then StepWork(s, e.event.actor, e.at, e.hash, e.event.payload)
    else StepReview(s, e.event.actor, e.event.payload)
  }

  /** Fold a transcript from the empty state; one refused entry refuses the whole. */
  ghost function Run(entries: seq<CommunityEntry>): Result<State> {
    if entries == [] then Accept(EmptyState)
    else
      match Run(entries[..|entries| - 1])
      case Reject => Reject
      case Accept(s) => Step(s, entries[|entries| - 1])
  }

  /** replay_community_ledger: verify the chain, then fold it. */
  ghost function Replay(entries: seq<CommunityEntry>): Result<State> {
    if Verified(CommunityRules, entries) then Run(entries) else Reject
  }
}
