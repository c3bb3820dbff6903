/** Entities of the community protocol: manifest, events, and the records the state keeps. */
module CommunityTypes {
  import opened Basics
  import opened Chain

  datatype Outcome = Advance | Negative | Blocked | NoSignal
  datatype Visibility = Public | Committee | HashOnly
  datatype Overlap = Exclusive | Parallel
  datatype Scope = MessageScope | ClaimScope | HandoffScope | AccessScope | ResultScope
  datatype Phase = New | Active | Reviewing | Allocated | Inconclusive | MockPaying | MockPaid

  // ----- The frozen manifest -----

  datatype Participant = Participant(controllerKey: Key, controllerId: Id, coldkey: string, hotkey: string)
  datatype Reviewer = Reviewer(reviewerKey: Key, controllerId: Id)
  datatype Policy = Policy(leaseMaxSeconds: int, allowParallel: bool, reviewQuorum: int, maxDispersionBps: int)

  datatype Frontier = Frontier(
    frontierId: Id, parent: Option<Id>, summary: string, openObligations: seq<string>,
    accepted: set<Id>, digest: Digest)

  datatype Manifest = Manifest(
    caseId: Id, participants: map<Id, Participant>, verifierKey: Key, reviewers: map<Id, Reviewer>,
    policy: Policy, bountyRao: int, environmentDigest: Digest, initialFrontier: Frontier)

  // ----- Digests, each the tagged value it is computed from -----

  type EntryHash = Hash<Event>

  /** A digest is its preimage; text that digests nothing modelled here is Other. */
  datatype Digest =
    | FrontierDigest(caseId: Id, frontierId: Id, parent: Option<Id>, summary: string,
                     openObligations: seq<string>, accepted: set<Id>)
    | BallotDigest(ballot: Ballot, salt: string)
    | EvidenceDigest(evidence: Evidence)
    | SummaryDigest(text: string)
    | AllocationDigest(allocation: map<Id, int>)
    | OtherDigest(text: string)

  /** Everything an evidence root binds. The code lists the three maps sorted by identifier. */
  datatype Evidence = Evidence(
    caseId: Id, frontier: Frontier, commitments: map<Id, EntryHash>, handoffs: map<Id, EntryHash>,
    accesses: map<Id, EntryHash>, resultId: Id, resultHash: EntryHash, receiptHash: EntryHash)

  // ----- Credit and payout values -----

  datatype Ballot = Ballot(
    caseId: Id, evidenceRoot: Digest, reviewerId: Id, decided: bool,
    shares: map<Id, int>, evidenceRefs: map<Id, seq<Id>>, note: string)

  datatype Reason = QuorumNotMet | DispersionExceeded

  datatype Allocation = Allocation(
    caseId: Id, evidenceRoot: Digest, bps: Option<map<Id, int>>,
    revealCount: nat, decidedCount: nat, dispersion: Option<int>, reason: Option<Reason>)
  {
    predicate Decided() {
      reason.None?
    }
  }

  /** Leg identifiers are printed from a position with a fixed format. */
  datatype LegId = LegNumber(position: nat) | OtherLeg(text: string)

  datatype Leg = Leg(legId: LegId, participantId: Id, coldkey: string, hotkey: string, bps: int, amountRao: int)

  datatype Reference = MockReference(planId: Id, legId: LegId) | OtherReference(text: string)

  datatype Plan = Plan(
    planId: Id, simulation: bool, finalMock: bool, allocationDigest: Digest, totalRao: int, legs: seq<Leg>)

  datatype Disposition = Used | NotUsed

  // ----- Signed events -----

  datatype Payload =
    | CommunityOpened(clerkKey: Key, manifest: Manifest)
    | SessionDelegated(caseId: Id, participantId: Id, sessionId: Id, sessionKey: Key, scopes: seq<Scope>,
                       notAfter: Time)
    | SessionRevoked(caseId: Id, participantId: Id, sessionId: Id)
    | MessagePosted(caseId: Id, messageId: Id, sessionId: Id, references: seq<Id>)
    | RouteClaimed(caseId: Id, claimId: Id, routeId: Id, participantId: Id, sessionId: Id, baseFrontierId: Id,
                   overlap: Overlap, expiresAt: Time)
    | ContributionCommitted(caseId: Id, commitmentId: Id, claimId: Id, participantId: Id, sessionId: Id,
                            artifactDigest: Digest, summaryDigest: Digest, visibility: Visibility)
    | HandoffPublished(caseId: Id, handoffId: Id, commitmentId: Id, claimId: Id, participantId: Id, sessionId: Id,
                       outcome: Outcome, summary: string, artifactDigest: Digest, environmentDigest: Digest,
                       dependsOn: seq<Id>, uses: seq<Id>, refutes: seq<Id>)
    | FrontierAccepted(caseId: Id, frontierId: Id, parentFrontierId: Id, summary: string,
                       openObligations: seq<string>, acceptedHandoffs: seq<Id>, frontierDigest: Digest)
    | KnowledgeAccessed(caseId: Id, accessId: Id, contributionId: Id, artifactDigest: Digest, sender: Id,
                        receiver: Id, sessionId: Id)
    | ResultProposed(caseId: Id, resultId: Id, participantId: Id, sessionId: Id, artifactDigest: Digest,
                     environmentDigest: Digest, direct: seq<Id>, claimed: seq<Id>, dispositions: map<Id, Disposition>)
    | TechnicalReceiptRecorded(caseId: Id, resultId: Id, artifactDigest: Digest, environmentDigest: Digest, pass: bool)
    | EvidenceSealed(caseId: Id, resultId: Id, evidenceRoot: Digest, attributed: seq<Id>)
    | BallotCommitted(caseId: Id, evidenceRoot: Digest, reviewerId: Id, commitment: Digest)
    | CommitsClosed(caseId: Id, evidenceRoot: Digest, committed: seq<Id>)
    | BallotRevealed(caseId: Id, evidenceRoot: Digest, reviewerId: Id, ballot: Ballot, salt: string)
    | AllocationFinalized(allocation: Allocation)
    | PayoutPlanCreated(caseId: Id, plan: Plan)
    | PayoutLegSubmitted(caseId: Id, planId: Id, legId: LegId, reference: Reference, chainObserved: bool)
    | PayoutLegConfirmed(caseId: Id, planId: Id, legId: LegId, reference: Reference, finalized: bool)
    | UnsupportedKind(kind: string)

  datatype Event = Event(actor: Key, payload: Payload, signature: Signature<(Key, Payload)>)

  /** An event signed by the holder of a private key. */
  function SignedEvent(payload: Payload, privateKey: Key): Event {
    Event(privateKey, payload, Signature(privateKey, (privateKey, payload)))
  }

  predicate GenuineEvent(event: Event) {
    event.signature == Signature(event.actor, (event.actor, event.payload))
  }

  /** A ledger is founded by a clerk that opens the case under its own key. */
  function OpensCommunity(event: Event): Option<Key> {
    if event.payload.CommunityOpened? && event.actor == event.payload.clerkKey
    then Some(event.actor) else None
  }

  const CommunityRules: Rules<Event> := Rules(OpensCommunity, GenuineEvent)

  type CommunityEntry = Entry<Event, EntryHash>

  // ----- Records -----

  datatype Session = Session(
    sessionId: Id, participantId: Id, sessionKey: Key, scopes: seq<Scope>, notAfter: Time, revoked: bool)

  datatype Message = Message(sessionId: Id, entryHash: EntryHash, receivedAt: Time)

  datatype ClaimStatus = ActiveClaim | ReleasedClaim | CompletedClaim
  datatype Claim = Claim(
    routeId: Id, participantId: Id, sessionId: Id, overlap: Overlap, expiresAt: Time,
    entryHash: EntryHash, status: ClaimStatus)

  datatype Commitment = Commitment(
    claimId: Id, participantId: Id, sessionId: Id, artifactDigest: Digest, summaryDigest: Digest,
    visibility: Visibility, entryHash: EntryHash, revealedBy: Option<Id>)

  datatype Handoff = Handoff(
    commitmentId: Id, claimId: Id, participantId: Id, sessionId: Id, outcome: Outcome, summary: string,
    artifactDigest: Digest, dependsOn: seq<Id>, uses: seq<Id>, refutes: seq<Id>, entryHash: EntryHash)

  datatype Access = Access(
    contributionId: Id, artifactDigest: Digest, sender: Id, receiver: Id, entryHash: EntryHash)

  datatype ResultRecord = ResultRecord(
    participantId: Id, artifactDigest: Digest, direct: seq<Id>, claimed: set<Id>, dispositions: map<Id, Disposition>,
    entryHash: EntryHash, expected: set<Id>, omitted: set<Id>, extraneous: set<Id>, unaccounted: set<Id>,
    unattributed: set<Id>)
  {
    /** attribution_status is "complete". */
    predicate Complete() {
      omitted == {} && extraneous == {} && unaccounted == {}
    }
  }

  datatype TechnicalReceipt = TechnicalReceipt(pass: bool, entryHash: EntryHash)

  /** The observable value of the mutable case state. `revealed` is the insertion order of ballots. */
  datatype State = State(
    manifest: Option<Manifest>, clerkKey: Option<Key>, phase: Phase,
    sessions: map<Id, Session>, sessionByKey: map<Key, Id>, claims: map<Id, Claim>,
    commitments: map<Id, Commitment>, handoffs: map<Id, Handoff>, messages: map<Id, Message>,
    accesses: map<Id, Access>, frontiers: map<Id, Frontier>, currentFrontier: Option<Id>, accepted: set<Id>,
    results: map<Id, ResultRecord>, receipts: map<Id, TechnicalReceipt>,
    sealedResult: Option<Id>, evidenceRoot: Option<Digest>,
    commits: map<Id, Digest>, commitsClosed: bool, ballots: map<Id, Ballot>, revealed: seq<Id>,
    allocation: Option<Allocation>, plan: Option<Plan>, submitted: map<LegId, Reference>, confirmed: set<LegId>)

  const EmptyState: State := State(
    None, None, New, map[], map[], map[], map[], map[], map[], map[], map[], None, {}, map[], map[],
    None, None, map[], false, map[], [], None, None, map[], {})

  // ----- Manifest validity -----

  /** Participants have their own controllers and destinations, and the verifier is none of them. */
  predicate ValidParticipants(m: Manifest) {
    && 2 <= |m.participants| <= 128
    && (forall j, k :: j in m.participants && k in m.participants && j != k ==>
          && m.participants[j].controllerKey != m.participants[k].controllerKey
          && m.participants[j].controllerId != m.participants[k].controllerId
          && (m.participants[j].coldkey, m.participants[j].hotkey)
             != (m.participants[k].coldkey, m.participants[k].hotkey))
    && (forall k :: k in m.participants ==> m.participants[k].controllerKey != m.verifierKey)
  }

  /** Reviewers are distinct and conflict with neither the participants nor the verifier. */
  predicate ValidReviewers(m: Manifest) {
    && 3 <= |m.reviewers| <= 21
    && (forall j, k :: j in m.reviewers && k in m.reviewers && j != k ==>
          && m.reviewers[j].reviewerKey != m.reviewers[k].reviewerKey
          && m.reviewers[j].controllerId != m.reviewers[k].controllerId)
    && (forall k :: k in m.reviewers ==> m.reviewers[k].reviewerKey != m.verifierKey)
    && (forall j, k :: j in m.reviewers && k in m.participants ==>
          && m.reviewers[j].reviewerKey != m.participants[k].controllerKey
          && m.reviewers[j].controllerId != m.participants[k].controllerId)
  }

  predicate ValidManifest(m: Manifest) {
    && ValidParticipants(m)
    && ValidReviewers(m)
    && 60 <= m.policy.leaseMaxSeconds <= 604_800
    && 3 <= m.policy.reviewQuorum <= |m.reviewers|
    && 0 <= m.policy.maxDispersionBps <= 10_000
    && 1 <= m.bountyRao <= 1_000_000_000_000_000_000_000_000_000_000
    && m.initialFrontier.parent.None?
    && m.initialFrontier.accepted == {}
    && NoDuplicates(m.initialFrontier.openObligations)
    && m.initialFrontier.digest == FrontierDigest(
         m.caseId, m.initialFrontier.frontierId, None, m.initialFrontier.summary,
         m.initialFrontier.openObligations, {})
  }
}
