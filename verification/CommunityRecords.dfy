/** The state of a replayed case holds exactly what its transcript puts on record, as each entry said it. */
module CommunityRecords {
  import opened Basics
  import opened CommunityTypes
  import opened Causality
  import opened Aggregation
  import opened Payout
  import opened CommunitySteps
  import opened CommunityInvariants
  import opened CommunityRuns
  import opened CommunityHistory

  // ----- What an entry says of an item, and what a state holds of it -----

  datatype Note =
    | OpeningNote(manifest: Manifest, clerk: Key) | SessionNote(session: Session) | KeyNote(sessionId: Id)
    | MessageNote(message: Message) | ClaimNote(claim: Claim) | CommitmentNote(commitment: Commitment)
    | OpenedNote(handoffId: Id) | HandoffNote(handoff: Handoff) | FrontierNote(frontier: Frontier)
    | AccessNote(access: Access) | ResultNote(proposal: Proposal) | ReceiptNote(receipt: TechnicalReceipt)
    | SealNote(resultId: Id, root: Digest) | CommitNote(hidden: Digest) | BallotNote(ballot: Ballot)
    | FinalNote(allocation: Allocation) | PlanNote(plan: Plan) | SubmissionNote(reference: Reference) | Marked

  /** A result as its proposer stated it, with what it had received and left unanswered. */
  datatype Proposal = Proposal(
    participantId: Id, artifactDigest: Digest, direct: seq<Id>, claimed: set<Id>, dispositions: map<Id, Disposition>,
    entryHash: EntryHash, unaccounted: set<Id>)

  /** What an entry that follows these puts on record. */
  function Notes(before: Transcript, e: CommunityEntry): map<Item, Note> {
    var p := e.event.payload;
    match p
    case CommunityOpened(_, manifest) =>
      map[OpeningItem := OpeningNote(manifest, e.event.actor),
          FrontierItem(manifest.initialFrontier.frontierId) := FrontierNote(manifest.initialFrontier)]
    case SessionDelegated(_, participantId, sessionId, sessionKey, scopes, notAfter) =>
      map[SessionItem(sessionId) := SessionNote(Session(sessionId, participantId, sessionKey, scopes, notAfter, false)),
          KeyItem(sessionKey) := KeyNote(sessionId)]
    case SessionRevoked(_, _, sessionId) => map[RevokedItem(sessionId) := Marked]
    case MessagePosted(_, messageId, sessionId, _) =>
      map[MessageItem(messageId) := MessageNote(Message(sessionId, e.hash, e.at))]
    case RouteClaimed(_, claimId, routeId, participantId, sessionId, _, overlap, expiresAt) =>
      map[ClaimItem(claimId) :=
            ClaimNote(Claim(routeId, participantId, sessionId, overlap, expiresAt, e.hash, ActiveClaim))]
    case ContributionCommitted(_, commitmentId, claimId, participantId, sessionId, artifact, summary, visibility) =>
      map[CommitmentItem(commitmentId) :=
            CommitmentNote(Commitment(claimId, participantId, sessionId, artifact, summary, visibility, e.hash, None))]
    case HandoffPublished(_, handoffId, commitmentId, claimId, participantId, sessionId, outcome, summary, artifact, _,
                          dependsOn, uses, refutes) =>
      map[OpenedItem(commitmentId) := OpenedNote(handoffId), CompletedItem(claimId) := Marked,
          HandoffItem(handoffId) := HandoffNote(Handoff(commitmentId, claimId, participantId, sessionId, outcome,
                                                        summary, artifact, dependsOn, uses, refutes, e.hash))]
    case FrontierAccepted(_, frontierId, _, _, _, _, _) =>
      map[FrontierItem(frontierId) := FrontierNote(FrontierSaid(p))]
    case KnowledgeAccessed(_, accessId, contributionId, artifact, sender, receiver, _) =>
      map[AccessItem(accessId) := AccessNote(Access(contributionId, artifact, sender, receiver, e.hash))]
    case ResultProposed(_, resultId, participantId, _, artifact, _, direct, claimed, dispositions) =>
      map[ResultItem(resultId) :=
            ResultNote(Proposal(participantId, artifact, direct, Elements(claimed), dispositions, e.hash,
                                ReceivedBy(before, participantId) - dispositions.Keys))]
    case TechnicalReceiptRecorded(_, resultId, _, _, pass) =>
      map[ReceiptItem(resultId) := ReceiptNote(TechnicalReceipt(pass, e.hash))]
    case EvidenceSealed(_, resultId, evidenceRoot, _) => map[SealItem := SealNote(resultId, evidenceRoot)]
    case BallotCommitted(_, _, reviewerId, commitment) => map[CommitItem(reviewerId) := CommitNote(commitment)]
    case CommitsClosed(_, _, _) => map[CloseItem := Marked]
    case BallotRevealed(_, _, reviewerId, ballot, _) => map[BallotItem(reviewerId) := BallotNote(ballot)]
    case AllocationFinalized(allocation) => map[FinalItem := FinalNote(allocation)]
    case PayoutPlanCreated(_, plan) => map[PlanItem := PlanNote(plan)]
    case PayoutLegSubmitted(_, _, legId, reference, _) => map[SubmissionItem(legId) := SubmissionNote(reference)]
    case PayoutLegConfirmed(_, _, legId, _, _) => map[ConfirmationItem(legId) := Marked]
    case UnsupportedKind(_) => map[]
  }

  /** Notes speaks of exactly the items that the entry introduces. */
  lemma NotesCover(before: Transcript, e: CommunityEntry, i: Item)
    ensures i in Notes(before, e) <==> Introduces(e.event.payload, i)
  {}

  function Mark(c: bool): Option<Note> {
    if c then Some(Marked) else None
  }

  /** What a state holds of an item. Revocation, opening and completion are items of their own. */
  function Holds(s: State, i: Item): Option<Note> {
    match i
    case OpeningItem =>
      if s.manifest.Some? && s.clerkKey.Some? then Some(OpeningNote(s.manifest.value, s.clerkKey.value)) else None
    case SessionItem(id) => if id in s.sessions then Some(SessionNote(s.sessions[id].(revoked := false))) else None
    case KeyItem(key) => if key in s.sessionByKey then Some(KeyNote(s.sessionByKey[key])) else None
    case RevokedItem(id) => Mark(id in s.sessions && s.sessions[id].revoked)
    case MessageItem(id) => if id in s.messages then Some(MessageNote(s.messages[id])) else None
    case ClaimItem(id) => if id in s.claims then Some(ClaimNote(s.claims[id].(status := ActiveClaim))) else None
    case CommitmentItem(id) =>
      if id in s.commitments then Some(CommitmentNote(s.commitments[id].(revealedBy := None))) else None
    case OpenedItem(id) =>
      if id in s.commitments && s.commitments[id].revealedBy.Some?
      then Some(OpenedNote(s.commitments[id].revealedBy.value)) else None
    case CompletedItem(id) => Mark(id in s.claims && s.claims[id].status == CompletedClaim)
    case HandoffItem(id) => if id in s.handoffs then Some(HandoffNote(s.handoffs[id])) else None
    case FrontierItem(id) => if id in s.frontiers then Some(FrontierNote(s.frontiers[id])) else None
    case AccessItem(id) => if id in s.accesses then Some(AccessNote(s.accesses[id])) else None
    case ResultItem(id) => if id in s.results then Some(ResultNote(ProposalOf(s.results[id]))) else None
    case ReceiptItem(id) => if id in s.receipts then Some(ReceiptNote(s.receipts[id])) else None
    case SealItem =>
      if s.sealedResult.Some? && s.evidenceRoot.Some?
      then Some(SealNote(s.sealedResult.value, s.evidenceRoot.value)) else None
    case CommitItem(id) => if id in s.commits then Some(CommitNote(s.commits[id])) else None
    case CloseItem => Mark(s.commitsClosed)
    case BallotItem(id) => if id in s.ballots then Some(BallotNote(s.ballots[id])) else None
    case FinalItem => if s.allocation.Some? then Some(FinalNote(s.allocation.value)) else None
    case PlanItem => if s.plan.Some? then Some(PlanNote(s.plan.value)) else None
    case SubmissionItem(leg) => if leg in s.submitted then Some(SubmissionNote(s.submitted[leg])) else None
    case ConfirmationItem(leg) => Mark(leg in s.confirmed)
  }

  function ProposalOf(r: ResultRecord): Proposal {
    Proposal(r.participantId, r.artifactDigest, r.direct, r.claimed, r.dispositions, r.entryHash, r.unaccounted)
  }

  // ----- One entry -----

  /** A noted item was not on record and now is, as noted; about any other item nothing changed. */
  predicate Takes(s: State, notes: map<Item, Note>, t: State, i: Item) {
    if i in notes then Holds(s, i).None? && Holds(t, i) == Some(notes[i]) else Holds(t, i) == Holds(s, i)
  }

  predicate NotedIn(before: Transcript, s: State, e: CommunityEntry, t: State, i: Item) {
    Takes(s, Notes(before, e), t, i)
  }

  lemma OpeningNoted(before: Transcript, s: State, e: CommunityEntry, t: State, i: Item)
    requires e.event.payload.CommunityOpened? && StepOpened(s, e) == Accept(t) && s == EmptyState
    ensures NotedIn(before, s, e, t, i)
  {
    hide ValidManifest, CaseActorKey;
  }

  // ----- Sessions and messages -----

  lemma DelegationEffect(s: State, actor: Key, at: Time, p: Payload, t: State)
    requires p.SessionDelegated? && StepDelegated(s, actor, at, p) == Accept(t)
    ensures p.sessionId !in s.sessions && p.sessionKey !in s.sessionByKey
    ensures t == s.(sessions := s.sessions[p.sessionId :=
                      Session(p.sessionId, p.participantId, p.sessionKey, p.scopes, p.notAfter, false)],
                    sessionByKey := s.sessionByKey[p.sessionKey := p.sessionId])
  {
    hide CaseActorKey, Controls, NoDuplicates;
  }

  lemma DelegationAdds(s: State, id: Id, session: Session, key: Key, i: Item)
    requires id !in s.sessions && key !in s.sessionByKey && !session.revoked
    ensures Takes(s, map[SessionItem(id) := SessionNote(session), KeyItem(key) := KeyNote(id)],
                  s.(sessions := s.sessions[id := session], sessionByKey := s.sessionByKey[key := id]), i)
  {}

  lemma DelegationNoted(before: Transcript, s: State, e: CommunityEntry, t: State, i: Item)
    requires e.event.payload.SessionDelegated? && StepDelegated(s, e.event.actor, e.at, e.event.payload) == Accept(t)
    ensures NotedIn(before, s, e, t, i)
  {
    hide StepDelegated, Takes;
    DelegationEffect(s, e.event.actor, e.at, e.event.payload, t);
    var p := e.event.payload;
    DelegationAdds(s, p.sessionId, t.sessions[p.sessionId], p.sessionKey, i);
  }

  lemma RevocationEffect(s: State, actor: Key, p: Payload, t: State)
    requires p.SessionRevoked? && StepRevoked(s, actor, p) == Accept(t)
    ensures p.sessionId in s.sessions && !s.sessions[p.sessionId].revoked
    ensures t == s.(sessions := s.sessions[p.sessionId := s.sessions[p.sessionId].(revoked := true)],
                    claims := ReleaseClaims(s.claims, p.sessionId))
  {
    hide Controls, ReleaseClaims;
  }

  lemma RevocationAdds(s: State, id: Id, i: Item)
    requires id in s.sessions && !s.sessions[id].revoked
    ensures Takes(s, map[RevokedItem(id) := Marked],
                  s.(sessions := s.sessions[id := s.sessions[id].(revoked := true)],
                     claims := ReleaseClaims(s.claims, id)), i)
  {}

  lemma RevocationNoted(before: Transcript, s: State, e: CommunityEntry, t: State, i: Item)
    requires e.event.payload.SessionRevoked? && StepRevoked(s, e.event.actor, e.event.payload) == Accept(t)
    ensures NotedIn(before, s, e, t, i)
  {
    hide StepRevoked, Takes;
    RevocationEffect(s, e.event.actor, e.event.payload, t);
    var p := e.event.payload;
    RevocationAdds(s, p.sessionId, i);
  }

  lemma MessageEffect(s: State, actor: Key, at: Time, hash: EntryHash, p: Payload, t: State)
    requires p.MessagePosted? && StepMessage(s, actor, at, hash, p) == Accept(t)
    ensures p.messageId !in s.messages
    ensures t == s.(messages := s.messages[p.messageId := Message(p.sessionId, hash, at)])
  {
    hide ActingSession, NoDuplicates;
  }

  lemma MessageAdds(s: State, id: Id, message: Message, i: Item)
    requires id !in s.messages
    ensures Takes(s, map[MessageItem(id) := MessageNote(message)], s.(messages := s.messages[id := message]), i)
  {}

  lemma MessageNoted(before: Transcript, s: State, e: CommunityEntry, t: State, i: Item)
    requires e.event.payload.MessagePosted?
    requires StepMessage(s, e.event.actor, e.at, e.hash, e.event.payload) == Accept(t)
    ensures NotedIn(before, s, e, t, i)
  {
    hide StepMessage, Takes;
    MessageEffect(s, e.event.actor, e.at, e.hash, e.event.payload, t);
    var p := e.event.payload;
    MessageAdds(s, p.messageId, t.messages[p.messageId], i);
  }

  // ----- Routes, handoffs, frontiers, accesses -----

  lemma ClaimEffect(s: State, actor: Key, at: Time, hash: EntryHash, p: Payload, t: State)
    requires p.RouteClaimed? && StepClaimed(s, actor, at, hash, p) == Accept(t)
    ensures p.claimId !in s.claims
    ensures t == s.(claims := s.claims[p.claimId :=
                      Claim(p.routeId, p.participantId, p.sessionId, p.overlap, p.expiresAt, hash, ActiveClaim)])
  {
    hide ActsAs, RouteFree;
  }

  lemma ClaimAdds(s: State, id: Id, claim: Claim, i: Item)
    requires id !in s.claims && claim.status == ActiveClaim
    ensures Takes(s, map[ClaimItem(id) := ClaimNote(claim)], s.(claims := s.claims[id := claim]), i)
  {}

  lemma ClaimNoted(before: Transcript, s: State, e: CommunityEntry, t: State, i: Item)
    requires e.event.payload.RouteClaimed? && StepClaimed(s, e.event.actor, e.at, e.hash, e.event.payload) == Accept(t)
    ensures NotedIn(before, s, e, t, i)
  {
    hide StepClaimed, Takes;
    ClaimEffect(s, e.event.actor, e.at, e.hash, e.event.payload, t);
    var p := e.event.payload;
    ClaimAdds(s, p.claimId, t.claims[p.claimId], i);
  }

  lemma CommitEffect(s: State, actor: Key, at: Time, hash: EntryHash, p: Payload, t: State)
    requires p.ContributionCommitted? && StepCommitted(s, actor, at, hash, p) == Accept(t)
    ensures p.commitmentId !in s.commitments
    ensures t == s.(commitments := s.commitments[p.commitmentId :=
                      Commitment(p.claimId, p.participantId, p.sessionId, p.artifactDigest, p.summaryDigest,
                                 p.visibility, hash, None)])
  {
    hide ActsAs, Live;
  }

  lemma CommitAdds(s: State, id: Id, commitment: Commitment, i: Item)
    requires id !in s.commitments && commitment.revealedBy.None?
    ensures Takes(s, map[CommitmentItem(id) := CommitmentNote(commitment)],
                  s.(commitments := s.commitments[id := commitment]), i)
  {}

  lemma CommitNoted(before: Transcript, s: State, e: CommunityEntry, t: State, i: Item)
    requires e.event.payload.ContributionCommitted?
    requires StepCommitted(s, e.event.actor, e.at, e.hash, e.event.payload) == Accept(t)
    ensures NotedIn(before, s, e, t, i)
  {
    hide StepCommitted, Takes;
    CommitEffect(s, e.event.actor, e.at, e.hash, e.event.payload, t);
    var p := e.event.payload;
    CommitAdds(s, p.commitmentId, t.commitments[p.commitmentId], i);
  }

  lemma PublishEffect(s: State, actor: Key, at: Time, hash: EntryHash, p: Payload, t: State)
    requires p.HandoffPublished? && StepPublished(s, actor, at, hash, p) == Accept(t)
    ensures p.handoffId !in s.handoffs && p.claimId in s.claims && p.commitmentId in s.commitments
    ensures s.claims[p.claimId].status == ActiveClaim && s.commitments[p.commitmentId].revealedBy.None?
    ensures t == s.(handoffs := s.handoffs[p.handoffId :=
                      Handoff(p.commitmentId, p.claimId, p.participantId, p.sessionId, p.outcome, p.summary,
                              p.artifactDigest, p.dependsOn, p.uses, p.refutes, hash)],
                    commitments := s.commitments[p.commitmentId :=
                      s.commitments[p.commitmentId].(revealedBy := Some(p.handoffId))],
                    claims := s.claims[p.claimId := s.claims[p.claimId].(status := CompletedClaim)])
  {
    hide ActsAs, UsableEdges;
  }

  lemma PublishAdds(s: State, h: Id, handoff: Handoff, claim: Id, c: Id, i: Item)
    requires h !in s.handoffs && claim in s.claims && c in s.commitments
    requires s.claims[claim].status == ActiveClaim && s.commitments[c].revealedBy.None?
    ensures Takes(s, map[OpenedItem(c) := OpenedNote(h), CompletedItem(claim) := Marked,
                         HandoffItem(h) := HandoffNote(handoff)],
                  s.(handoffs := s.handoffs[h := handoff],
                     commitments := s.commitments[c := s.commitments[c].(revealedBy := Some(h))],
                     claims := s.claims[claim := s.claims[claim].(status := CompletedClaim)]), i)
  {}

  lemma PublishNoted(before: Transcript, s: State, e: CommunityEntry, t: State, i: Item)
    requires e.event.payload.HandoffPublished?
    requires StepPublished(s, e.event.actor, e.at, e.hash, e.event.payload) == Accept(t)
    ensures NotedIn(before, s, e, t, i)
  {
    hide StepPublished, Takes;
    PublishEffect(s, e.event.actor, e.at, e.hash, e.event.payload, t);
    var p := e.event.payload;
    PublishAdds(s, p.handoffId, t.handoffs[p.handoffId], p.claimId, p.commitmentId, i);
  }

  lemma FrontierEffect(s: State, actor: Key, p: Payload, t: State)
    requires p.FrontierAccepted? && StepAdvanced(s, actor, p) == Accept(t)
    ensures p.frontierId !in s.frontiers && p.frontierDigest.FrontierDigest?
    ensures p.frontierDigest.accepted == s.accepted + Elements(p.acceptedHandoffs)
    ensures t == s.(frontiers := s.frontiers[p.frontierId := FrontierSaid(p)],
                    currentFrontier := Some(p.frontierId), accepted := s.accepted + Elements(p.acceptedHandoffs))
  {
    hide MayAcceptHandoff, NoDuplicates;
  }

  lemma FrontierAdds(s: State, id: Id, frontier: Frontier, accepted: set<Id>, i: Item)
    requires id !in s.frontiers
    ensures Takes(s, map[FrontierItem(id) := FrontierNote(frontier)],
                  s.(frontiers := s.frontiers[id := frontier], currentFrontier := Some(id), accepted := accepted), i)
  {}

  lemma FrontierNoted(before: Transcript, s: State, e: CommunityEntry, t: State, i: Item)
    requires e.event.payload.FrontierAccepted? && StepAdvanced(s, e.event.actor, e.event.payload) == Accept(t)
    ensures NotedIn(before, s, e, t, i)
  {
    hide StepAdvanced, Takes;
    FrontierEffect(s, e.event.actor, e.event.payload, t);
    var p := e.event.payload;
    FrontierAdds(s, p.frontierId, t.frontiers[p.frontierId], t.accepted, i);
  }

  lemma AccessEffect(s: State, actor: Key, at: Time, hash: EntryHash, p: Payload, t: State)
    requires p.KnowledgeAccessed? && StepAccessed(s, actor, at, hash, p) == Accept(t)
    ensures p.accessId !in s.accesses
    ensures t == s.(accesses := s.accesses[p.accessId :=
                      Access(p.contributionId, p.artifactDigest, p.sender, p.receiver, hash)])
  {
    hide ActsAs;
  }

  lemma AccessAdds(s: State, id: Id, access: Access, i: Item)
    requires id !in s.accesses
    ensures Takes(s, map[AccessItem(id) := AccessNote(access)], s.(accesses := s.accesses[id := access]), i)
  {}

  lemma AccessNoted(before: Transcript, s: State, e: CommunityEntry, t: State, i: Item)
    requires e.event.payload.KnowledgeAccessed?
    requires StepAccessed(s, e.event.actor, e.at, e.hash, e.event.payload) == Accept(t)
    ensures NotedIn(before, s, e, t, i)
  {
    hide StepAccessed, Takes;
    AccessEffect(s, e.event.actor, e.at, e.hash, e.event.payload, t);
    var p := e.event.payload;
    AccessAdds(s, p.accessId, t.accesses[p.accessId], i);
  }

  // ----- Results and the seal -----

  lemma ResultEffect(s: State, actor: Key, at: Time, hash: EntryHash, p: Payload, t: State)
    requires p.ResultProposed? && StepProposed(s, actor, at, hash, p) == Accept(t)
    ensures p.resultId !in s.results && p.resultId in t.results
    ensures t == s.(results := s.results[p.resultId := t.results[p.resultId]])
    ensures ProposalOf(t.results[p.resultId]) ==
            Proposal(p.participantId, p.artifactDigest, p.direct, Elements(p.claimed), p.dispositions, hash,
                     Accessed(s, p.participantId) - p.dispositions.Keys)
  {
    hide ActsAs, Closure, NoDuplicates;
  }

  lemma ResultAdds(s: State, id: Id, r: ResultRecord, i: Item)
    requires id !in s.results
    ensures Takes(s, map[ResultItem(id) := ResultNote(ProposalOf(r))], s.(results := s.results[id := r]), i)
  {}

  lemma ResultNoted(before: Transcript, s: State, e: CommunityEntry, t: State, i: Item)
    requires e.event.payload.ResultProposed?
    requires StepProposed(s, e.event.actor, e.at, e.hash, e.event.payload) == Accept(t)
    requires Accessed(s, e.event.payload.participantId) == ReceivedBy(before, e.event.payload.participantId)
    ensures NotedIn(before, s, e, t, i)
  {
    hide StepProposed, Takes;
    ResultEffect(s, e.event.actor, e.at, e.hash, e.event.payload, t);
    var p := e.event.payload;
    ResultAdds(s, p.resultId, t.results[p.resultId], i);
  }

  lemma ReceiptEffect(s: State, actor: Key, hash: EntryHash, p: Payload, t: State)
    requires p.TechnicalReceiptRecorded? && StepReceipt(s, actor, hash, p) == Accept(t)
    ensures p.resultId !in s.receipts
    ensures t == s.(receipts := s.receipts[p.resultId := TechnicalReceipt(p.pass, hash)])
  {}

  lemma ReceiptAdds(s: State, id: Id, receipt: TechnicalReceipt, i: Item)
    requires id !in s.receipts
    ensures Takes(s, map[ReceiptItem(id) := ReceiptNote(receipt)], s.(receipts := s.receipts[id := receipt]), i)
  {}

  lemma ReceiptNoted(before: Transcript, s: State, e: CommunityEntry, t: State, i: Item)
    requires e.event.payload.TechnicalReceiptRecorded?
    requires StepReceipt(s, e.event.actor, e.hash, e.event.payload) == Accept(t)
    ensures NotedIn(before, s, e, t, i)
  {
    hide StepReceipt, Takes;
    ReceiptEffect(s, e.event.actor, e.hash, e.event.payload, t);
    var p := e.event.payload;
    ReceiptAdds(s, p.resultId, t.receipts[p.resultId], i);
  }

  lemma SealEffect(s: State, actor: Key, p: Payload, t: State)
    requires p.EvidenceSealed? && StepSealed(s, actor, p) == Accept(t)
    ensures t == s.(sealedResult := Some(p.resultId), evidenceRoot := Some(p.evidenceRoot), phase := Reviewing)
  {
    hide EvidenceOf;
  }

  lemma SealAdds(s: State, id: Id, root: Digest, i: Item)
    requires s.sealedResult.None?
    ensures Takes(s, map[SealItem := SealNote(id, root)],
                  s.(sealedResult := Some(id), evidenceRoot := Some(root), phase := Reviewing), i)
  {}

  lemma SealNoted(before: Transcript, s: State, e: CommunityEntry, t: State, i: Item)
    requires e.event.payload.EvidenceSealed? && StepSealed(s, e.event.actor, e.event.payload) == Accept(t)
    requires s.sealedResult.None?
    ensures NotedIn(before, s, e, t, i)
  {
    hide StepSealed, Takes;
    SealEffect(s, e.event.actor, e.event.payload, t);
    var p := e.event.payload;
    SealAdds(s, p.resultId, p.evidenceRoot, i);
  }

  // ----- Review and payout -----

  lemma BallotEffect(s: State, actor: Key, p: Payload, t: State)
    requires p.BallotCommitted? && StepBallotCommitted(s, actor, p) == Accept(t)
    ensures p.reviewerId !in s.commits
    ensures t == s.(commits := s.commits[p.reviewerId := p.commitment])
  {
    hide Reviews;
  }

  lemma BallotAdds(s: State, id: Id, hidden: Digest, i: Item)
    requires id !in s.commits
    ensures Takes(s, map[CommitItem(id) := CommitNote(hidden)], s.(commits := s.commits[id := hidden]), i)
  {}

  lemma BallotNoted(before: Transcript, s: State, e: CommunityEntry, t: State, i: Item)
    requires e.event.payload.BallotCommitted? && StepBallotCommitted(s, e.event.actor, e.event.payload) == Accept(t)
    ensures NotedIn(before, s, e, t, i)
  {
    hide StepBallotCommitted, Takes;
    BallotEffect(s, e.event.actor, e.event.payload, t);
    var p := e.event.payload;
    BallotAdds(s, p.reviewerId, p.commitment, i);
  }

  lemma CloseEffect(s: State, actor: Key, p: Payload, t: State)
    requires p.CommitsClosed? && StepClosed(s, actor, p) == Accept(t)
    ensures !s.commitsClosed && t == s.(commitsClosed := true)
  {}

  lemma CloseAdds(s: State, i: Item)
    requires !s.commitsClosed
    ensures Takes(s, map[CloseItem := Marked], s.(commitsClosed := true), i)
  {}

  lemma CloseNoted(before: Transcript, s: State, e: CommunityEntry, t: State, i: Item)
    requires e.event.payload.CommitsClosed? && StepClosed(s, e.event.actor, e.event.payload) == Accept(t)
    ensures NotedIn(before, s, e, t, i)
  {
    hide StepClosed, Takes;
    CloseEffect(s, e.event.actor, e.event.payload, t);
    CloseAdds(s, i);
  }

  lemma RevealEffect(s: State, actor: Key, p: Payload, t: State)
    requires p.BallotRevealed? && StepRevealed(s, actor, p) == Accept(t)
    ensures p.reviewerId !in s.ballots
    ensures t == s.(ballots := s.ballots[p.reviewerId := p.ballot], revealed := s.revealed + [p.reviewerId])
  {
    hide Reviews, ValidBallot;
  }

  lemma RevealAdds(s: State, id: Id, ballot: Ballot, i: Item)
    requires id !in s.ballots
    ensures Takes(s, map[BallotItem(id) := BallotNote(ballot)],
                  s.(ballots := s.ballots[id := ballot], revealed := s.revealed + [id]), i)
  {}

  lemma RevealNoted(before: Transcript, s: State, e: CommunityEntry, t: State, i: Item)
    requires e.event.payload.BallotRevealed? && StepRevealed(s, e.event.actor, e.event.payload) == Accept(t)
    ensures NotedIn(before, s, e, t, i)
  {
    hide StepRevealed, Takes;
    RevealEffect(s, e.event.actor, e.event.payload, t);
    var p := e.event.payload;
    RevealAdds(s, p.reviewerId, p.ballot, i);
  }

  lemma FinalEffect(s: State, actor: Key, p: Payload, t: State)
    requires p.AllocationFinalized? && StepFinalized(s, actor, p) == Accept(t)
    ensures s.allocation.None?
    ensures t == s.(allocation := Some(p.allocation),
                    phase := if p.allocation.Decided() then Allocated else Inconclusive)
  {
    hide Aggregate;
  }

  lemma FinalAdds(s: State, allocation: Allocation, phase: Phase, i: Item)
    requires s.allocation.None?
    ensures Takes(s, map[FinalItem := FinalNote(allocation)], s.(allocation := Some(allocation), phase := phase), i)
  {}

  lemma FinalNoted(before: Transcript, s: State, e: CommunityEntry, t: State, i: Item)
    requires e.event.payload.AllocationFinalized? && StepFinalized(s, e.event.actor, e.event.payload) == Accept(t)
    ensures NotedIn(before, s, e, t, i)
  {
    hide StepFinalized, Takes;
    FinalEffect(s, e.event.actor, e.event.payload, t);
    var p := e.event.payload;
    FinalAdds(s, p.allocation, t.phase, i);
  }

  lemma PlanEffect(s: State, actor: Key, p: Payload, t: State)
    requires p.PayoutPlanCreated? && StepPlanned(s, actor, p) == Accept(t)
    ensures s.plan.None? && t == s.(plan := Some(p.plan), phase := MockPaying)
  {
    hide PayoutLegs, Amounts;
  }

  lemma PlanAdds(s: State, plan: Plan, phase: Phase, i: Item)
    requires s.plan.None?
    ensures Takes(s, map[PlanItem := PlanNote(plan)], s.(plan := Some(plan), phase := phase), i)
  {}

  lemma PlanNoted(before: Transcript, s: State, e: CommunityEntry, t: State, i: Item)
    requires e.event.payload.PayoutPlanCreated? && StepPlanned(s, e.event.actor, e.event.payload) == Accept(t)
    ensures NotedIn(before, s, e, t, i)
  {
    hide StepPlanned, Takes;
    PlanEffect(s, e.event.actor, e.event.payload, t);
    var p := e.event.payload;
    PlanAdds(s, p.plan, MockPaying, i);
  }

  lemma SubmissionEffect(s: State, actor: Key, p: Payload, t: State)
    requires p.PayoutLegSubmitted? && StepSubmitted(s, actor, p) == Accept(t)
    ensures p.legId !in s.submitted && t == s.(submitted := s.submitted[p.legId := p.reference])
  {
    hide CitesLeg;
  }

  lemma SubmissionAdds(s: State, leg: LegId, reference: Reference, i: Item)
    requires leg !in s.submitted
    ensures Takes(s, map[SubmissionItem(leg) := SubmissionNote(reference)],
                  s.(submitted := s.submitted[leg := reference]), i)
  {}

  lemma SubmissionNoted(before: Transcript, s: State, e: CommunityEntry, t: State, i: Item)
    requires e.event.payload.PayoutLegSubmitted? && StepSubmitted(s, e.event.actor, e.event.payload) == Accept(t)
    ensures NotedIn(before, s, e, t, i)
  {
    hide StepSubmitted, Takes;
    SubmissionEffect(s, e.event.actor, e.event.payload, t);
    var p := e.event.payload;
    SubmissionAdds(s, p.legId, p.reference, i);
  }

  lemma ConfirmationEffect(s: State, actor: Key, p: Payload, t: State)
    requires p.PayoutLegConfirmed? && StepConfirmed(s, actor, p) == Accept(t)
    ensures p.legId !in s.confirmed && t == s.(confirmed := s.confirmed + {p.legId}, phase := t.phase)
  {
    hide CitesLeg, PositiveLegIds;
  }

  lemma ConfirmationAdds(s: State, leg: LegId, phase: Phase, i: Item)
    requires leg !in s.confirmed
    ensures Takes(s, map[ConfirmationItem(leg) := Marked], s.(confirmed := s.confirmed + {leg}, phase := phase), i)
  {}

  lemma ConfirmationNoted(before: Transcript, s: State, e: CommunityEntry, t: State, i: Item)
    requires e.event.payload.PayoutLegConfirmed? && StepConfirmed(s, e.event.actor, e.event.payload) == Accept(t)
    ensures NotedIn(before, s, e, t, i)
  {
    hide StepConfirmed, Takes;
    ConfirmationEffect(s, e.event.actor, e.event.payload, t);
    var p := e.event.payload;
    ConfirmationAdds(s, p.legId, t.phase, i);
  }

  // ----- Any entry -----

  /** What the entries so far add up to. */
  ghost predicate AddsUp(es: Transcript, s: State) {
    && s.currentFrontier == FrontierNow(es) && s.accepted == AcceptedNow(es)
    && s.ballots == CastNow(es) && s.revealed == RevealedNow(es)
    && forall q :: Accessed(s, q) == ReceivedBy(es, q)
  }

  /** A case starts empty and is sealed only once. */
  ghost predicate StartsOpen(s: State) {
    && (s.phase == New ==> s == EmptyState)
    && (s.phase == New || s.phase == Active ==> s.sealedResult.None? && s.evidenceRoot.None?)
  }

  lemma SessionWorkNoted(before: Transcript, s: State, e: CommunityEntry, t: State, i: Item)
    requires StepWork(s, e.event.actor, e.at, e.hash, e.event.payload) == Accept(t)
    requires var p := e.event.payload;
             p.SessionDelegated? || p.SessionRevoked? || p.MessagePosted? || p.RouteClaimed? || p.ContributionCommitted?
    ensures NotedIn(before, s, e, t, i)
  {
    hide NotedIn, StepDelegated, StepRevoked, StepMessage, StepClaimed, StepCommitted;
    var p := e.event.payload;
    if p.SessionDelegated? {
      DelegationNoted(before, s, e, t, i);
    } else if p.SessionRevoked? {
      RevocationNoted(before, s, e, t, i);
    } else if p.MessagePosted? {
      MessageNoted(before, s, e, t, i);
    } else if p.RouteClaimed? {
      ClaimNoted(before, s, e, t, i);
    } else {
      CommitNoted(before, s, e, t, i);
    }
  }

  lemma HandoffWorkNoted(before: Transcript, s: State, e: CommunityEntry, t: State, i: Item)
    requires StepWork(s, e.event.actor, e.at, e.hash, e.event.payload) == Accept(t)
    requires var p := e.event.payload;
             p.HandoffPublished? || p.FrontierAccepted? || p.KnowledgeAccessed? || p.ResultProposed?
             || p.TechnicalReceiptRecorded? || p.EvidenceSealed?
    requires StartsOpen(s) && AddsUp(before, s)
    ensures NotedIn(before, s, e, t, i)
  {
    hide NotedIn, StepPublished, StepAdvanced, StepAccessed, StepProposed, StepReceipt, StepSealed;
    var p := e.event.payload;
    if p.HandoffPublished? {
      PublishNoted(before, s, e, t, i);
    } else if p.FrontierAccepted? {
      FrontierNoted(before, s, e, t, i);
    } else if p.KnowledgeAccessed? {
      AccessNoted(before, s, e, t, i);
    } else if p.ResultProposed? {
      ResultNoted(before, s, e, t, i);
    } else if p.TechnicalReceiptRecorded? {
      ReceiptNoted(before, s, e, t, i);
    } else {
      SealNeedsActive(s, e.event.actor, p, t);
      SealNoted(before, s, e, t, i);
    }
  }

  lemma SealNeedsActive(s: State, actor: Key, p: Payload, t: State)
    requires p.EvidenceSealed? && StepSealed(s, actor, p) == Accept(t)
    ensures s.phase == Active
  {
    hide EvidenceOf;
  }

  lemma ReviewNoted(before: Transcript, s: State, e: CommunityEntry, t: State, i: Item)
    requires StepReview(s, e.event.actor, e.event.payload) == Accept(t)
    ensures NotedIn(before, s, e, t, i)
  {
    hide NotedIn, StepBallotCommitted, StepClosed, StepRevealed, StepFinalized, StepPlanned, StepSubmitted,
         StepConfirmed;
    var p := e.event.payload;
    if p.BallotCommitted? {
      BallotNoted(before, s, e, t, i);
    } else if p.CommitsClosed? {
      CloseNoted(before, s, e, t, i);
    } else if p.BallotRevealed? {
      RevealNoted(before, s, e, t, i);
    } else if p.AllocationFinalized? {
      FinalNoted(before, s, e, t, i);
    } else if p.PayoutPlanCreated? {
      PlanNoted(before, s, e, t, i);
    } else if p.PayoutLegSubmitted? {
      SubmissionNoted(before, s, e, t, i);
    } else {
      ConfirmationNoted(before, s, e, t, i);
    }
  }

  /** Every accepted entry puts exactly its own items on record, none of which was there, and changes no other. */
  lemma StepNoted(before: Transcript, s: State, e: CommunityEntry, t: State, i: Item)
    requires Step(s, e) == Accept(t) && StartsOpen(s) && AddsUp(before, s)
    ensures NotedIn(before, s, e, t, i)
  {
    hide NotedIn, StepOpened, StepWork, StepReview, AddsUp;
    var p := e.event.payload;
    if p.CommunityOpened? {
      OpeningNeedsNew(s, e);
      OpeningNoted(before, s, e, t, i);
    } else if !WorkKind(p) {
      ReviewNoted(before, s, e, t, i);
    } else if p.SessionDelegated? || p.SessionRevoked? || p.MessagePosted? || p.RouteClaimed?
              || p.ContributionCommitted? {
      SessionWorkNoted(before, s, e, t, i);
    } else {
      HandoffWorkNoted(before, s, e, t, i);
    }
  }

  lemma OpeningNeedsNew(s: State, e: CommunityEntry)
    requires e.event.payload.CommunityOpened? && StepOpened(s, e).Accept?
    ensures s.phase == New
  {
    hide ValidManifest, CaseActorKey;
  }

  // ----- What entries add up to -----

  lemma FrontierCounted(es: Transcript, s: State, t: State)
    requires es != [] && AddsUp(es[..|es| - 1], s) && Step(s, es[|es| - 1]) == Accept(t) && StartsOpen(s)
    ensures t.currentFrontier == FrontierNow(es) && t.accepted == AcceptedNow(es)
  {
    hide StepOpened, StepWork, StepReview, Accessed;
    var e := es[|es| - 1];
    StepFramed(s, e, t);
    if e.event.payload.FrontierAccepted? {
      FrontierTaken(s, e, t);
    } else if e.event.payload.CommunityOpened? {
      OpeningTaken(s, e, t);
    }
  }

  lemma FrontierTaken(s: State, e: CommunityEntry, t: State)
    requires e.event.payload.FrontierAccepted? && Step(s, e) == Accept(t)
    ensures t.currentFrontier == Some(e.event.payload.frontierId)
    ensures t.accepted == s.accepted + Elements(e.event.payload.acceptedHandoffs)
  {
    hide StepAdvanced;
    FrontierEffect(s, e.event.actor, e.event.payload, t);
  }

  lemma OpeningTaken(s: State, e: CommunityEntry, t: State)
    requires e.event.payload.CommunityOpened? && Step(s, e) == Accept(t)
    ensures t.currentFrontier == Some(e.event.payload.manifest.initialFrontier.frontierId)
    ensures s.phase == New && t.phase == Active && t.sealedResult == s.sealedResult && t.evidenceRoot == s.evidenceRoot
  {
    hide ValidManifest, CaseActorKey;
  }

  lemma BallotsCounted(es: Transcript, s: State, t: State)
    requires es != [] && AddsUp(es[..|es| - 1], s) && Step(s, es[|es| - 1]) == Accept(t)
    ensures t.ballots == CastNow(es) && t.revealed == RevealedNow(es)
  {
    hide StepOpened, StepWork, StepReview, Accessed;
    var e := es[|es| - 1];
    StepFramed(s, e, t);
    if e.event.payload.BallotRevealed? {
      RevealTaken(s, e, t);
    }
  }

  lemma RevealTaken(s: State, e: CommunityEntry, t: State)
    requires e.event.payload.BallotRevealed? && Step(s, e) == Accept(t)
    ensures t.ballots == s.ballots[e.event.payload.reviewerId := e.event.payload.ballot]
    ensures t.revealed == s.revealed + [e.event.payload.reviewerId]
  {
    hide StepRevealed;
    RevealEffect(s, e.event.actor, e.event.payload, t);
  }

  lemma AccessCounted(es: Transcript, s: State, t: State, q: Id)
    requires es != [] && AddsUp(es[..|es| - 1], s) && Step(s, es[|es| - 1]) == Accept(t)
    ensures Accessed(t, q) == ReceivedBy(es, q)
  {
    hide StepOpened, StepWork, StepReview;
    var e := es[|es| - 1];
    var p := e.event.payload;
    StepFramed(s, e, t);
    if p.KnowledgeAccessed? {
      AccessTaken(s, e, t);
      OneMoreReceived(s, t, p.accessId, t.accesses[p.accessId], q);
    } else {
      assert Accessed(t, q) == Accessed(s, q);
    }
  }

  lemma AccessTaken(s: State, e: CommunityEntry, t: State)
    requires e.event.payload.KnowledgeAccessed? && Step(s, e) == Accept(t)
    ensures var p := e.event.payload;
            && p.accessId !in s.accesses && p.accessId in t.accesses
            && t.accesses == s.accesses[p.accessId := t.accesses[p.accessId]]
            && t.accesses[p.accessId].contributionId == p.contributionId
            && t.accesses[p.accessId].receiver == p.receiver
  {
    hide StepAccessed;
    AccessEffect(s, e.event.actor, e.at, e.hash, e.event.payload, t);
  }

  lemma OneMoreReceived(s: State, t: State, id: Id, access: Access, q: Id)
    requires id !in s.accesses && t.accesses == s.accesses[id := access]
    ensures Accessed(t, q) == Accessed(s, q) + if access.receiver == q then {access.contributionId} else {}
  {
    forall a | a in s.accesses && s.accesses[a].receiver == q
      ensures s.accesses[a].contributionId in Accessed(t, q)
    {
      assert t.accesses[a] == s.accesses[a];
    }
    if access.receiver == q {
      assert t.accesses[id] == access;
    }
  }

  lemma AddsUpKept(es: Transcript, s: State, t: State)
    requires es != [] && AddsUp(es[..|es| - 1], s) && Step(s, es[|es| - 1]) == Accept(t) && StartsOpen(s)
    ensures AddsUp(es, t)
  {
    hide Step, FrontierNow, AcceptedNow, CastNow, RevealedNow, ReceivedBy, Accessed;
    FrontierCounted(es, s, t);
    BallotsCounted(es, s, t);
    forall q ensures Accessed(t, q) == ReceivedBy(es, q) {
      AccessCounted(es, s, t, q);
    }
  }

  lemma StartsOpenKept(s: State, e: CommunityEntry, t: State)
    requires Step(s, e) == Accept(t) && StartsOpen(s)
    ensures StartsOpen(t)
  {
    hide StepOpened, StepWork, StepReview;
    var p := e.event.payload;
    StepFramed(s, e, t);
    if p.CommunityOpened? {
      OpeningTaken(s, e, t);
    } else if WorkKind(p) {
      WorkFramed(s, e.event.actor, e.at, e.hash, p, t);
    } else {
      ReviewFramed(s, e.event.actor, p, t);
    }
  }

  // ----- Whole transcripts -----

  /** What entry k says of an item is what the state holds of it. */
  ghost predicate KeptAt(es: Transcript, s: State, k: nat, i: Item) {
    IntroducedAt(es, k, i) ==> i in Notes(es[..k], es[k]) && Holds(s, i) == Some(Notes(es[..k], es[k])[i])
  }

  /** The state holds what the transcript puts on record, each item as its entry said it, and nothing else. */
  ghost predicate Recorded(es: Transcript, s: State) {
    && (forall i :: Holds(s, i).Some? ==> Has(es, i))
    && (forall k: nat, i :: KeptAt(es, s, k, i))
  }

  lemma KeptNext(es: Transcript, s: State, t: State, k: nat, i: Item)
    requires es != [] && NotedIn(es[..|es| - 1], s, es[|es| - 1], t, i)
    requires KeptAt(es[..|es| - 1], s, k, i)
    ensures KeptAt(es, t, k, i)
  {
    hide Notes, Holds, Introduces;
    if IntroducedAt(es, k, i) {
      NotesCover(es[..|es| - 1], es[|es| - 1], i);
      if k < |es| - 1 {
        assert es[..|es| - 1][..k] == es[..k];
        assert IntroducedAt(es[..|es| - 1], k, i);
      }
    }
  }

  lemma HeldWasIntroduced(es: Transcript, s: State, t: State, i: Item)
    requires es != [] && NotedIn(es[..|es| - 1], s, es[|es| - 1], t, i)
    requires Holds(s, i).Some? ==> Has(es[..|es| - 1], i)
    ensures Holds(t, i).Some? ==> Has(es, i)
  {
    hide Notes, Holds, Introduces;
    NotesCover(es[..|es| - 1], es[|es| - 1], i);
    if Introduces(es[|es| - 1].event.payload, i) {
      assert IntroducedAt(es, |es| - 1, i);
    } else if Has(es[..|es| - 1], i) {
      var k: nat :| IntroducedAt(es[..|es| - 1], k, i);
      assert IntroducedAt(es, k, i);
    }
  }

  lemma RecordedKept(es: Transcript, s: State, t: State)
    requires es != [] && Step(s, es[|es| - 1]) == Accept(t)
    requires Recorded(es[..|es| - 1], s) && AddsUp(es[..|es| - 1], s) && StartsOpen(s)
    ensures Recorded(es, t)
  {
    hide Step, AddsUp, KeptAt, NotedIn, Has, Holds;
    forall i ensures Holds(t, i).Some? ==> Has(es, i) {
      StepNoted(es[..|es| - 1], s, es[|es| - 1], t, i);
      HeldWasIntroduced(es, s, t, i);
    }
    forall k: nat, i ensures KeptAt(es, t, k, i) {
      StepNoted(es[..|es| - 1], s, es[|es| - 1], t, i);
      KeptNext(es, s, t, k, i);
    }
  }

  lemma EmptyRecorded()
    ensures Recorded([], EmptyState) && AddsUp([], EmptyState) && StartsOpen(EmptyState)
  {
    assert forall q :: Accessed(EmptyState, q) == {};
  }

  lemma {:induction false} RunRecorded(es: Transcript, s: State)
    requires Run(es) == Accept(s)
    ensures Recorded(es, s) && AddsUp(es, s) && StartsOpen(s)
  {
    hide Step, Recorded, AddsUp, StartsOpen;
    if es == [] {
      EmptyRecorded();
    } else {
      var prev := RunLast(es, s);
      RunRecorded(es[..|es| - 1], prev);
      RecordedKept(es, prev, s);
      AddsUpKept(es, prev, s);
      StartsOpenKept(prev, es[|es| - 1], s);
    }
  }

  // ----- Technical receipts -----

  /** The state before and after entry k. */
  lemma StatesAt(es: Transcript, s: State, k: nat) returns (a: State, b: State)
    requires Run(es) == Accept(s) && k < |es|
    ensures Run(es[..k]) == Accept(a) && Step(a, es[k]) == Accept(b) && Run(es[..k + 1]) == Accept(b)
  {
    hide Step;
    assert es == es[..k + 1] + es[k + 1..];
    RunPrefix(es[..k + 1], es[k + 1..], s);
    b := Run(es[..k + 1]).value;
    a := RunLast(es[..k + 1], b);
    assert es[..k + 1][..k] == es[..k];
  }

  /** Entry k is the verifier's own verdict on this result, on the artifact proposed and the frozen environment. */
  predicate VerdictAt(es: Transcript, m: Manifest, r: Id, artifact: Digest, k: nat) {
    && k < |es| && es[k].event.payload.TechnicalReceiptRecorded? && es[k].event.actor == m.verifierKey
    && es[k].event.payload.resultId == r && es[k].event.payload.artifactDigest == artifact
    && es[k].event.payload.environmentDigest == m.environmentDigest
  }

  lemma VerdictNeeds(s: State, e: CommunityEntry, t: State)
    requires e.event.payload.TechnicalReceiptRecorded? && Step(s, e) == Accept(t)
    ensures var p := e.event.payload;
            && s.manifest.Some? && s.clerkKey == t.clerkKey && e.event.actor == s.manifest.value.verifierKey
            && p.environmentDigest == s.manifest.value.environmentDigest
            && p.resultId in s.results && s.results[p.resultId].artifactDigest == p.artifactDigest
  {}

  /** Whatever a prefix put on record is on record, with the same note, at the end. */
  lemma StillHeld(es: Transcript, s: State, k: nat, a: State, i: Item)
    requires Run(es) == Accept(s) && k <= |es| && Run(es[..k]) == Accept(a) && Holds(a, i).Some?
    ensures Holds(s, i) == Holds(a, i)
  {
    hide Run, Holds, Notes, Introduces, AddsUp, StartsOpen;
    RunRecorded(es, s);
    RunRecorded(es[..k], a);
    var j: nat :| IntroducedAt(es[..k], j, i);
    assert KeptAt(es[..k], a, j, i) && KeptAt(es, s, j, i);
    assert es[..k][..j] == es[..j];
  }

  /**
   Every technical receipt on record is the verifier's own entry: the transcript holds a verdict by the frozen verifier
   key on this result and its artifact, and the receipt has that entry's hash and pass.
   */
  lemma ReceiptsAreVerdicts(es: Transcript, s: State, r: Id)
    requires Run(es) == Accept(s) && r in s.receipts
    ensures s.manifest.Some? && r in s.results
    ensures exists k: nat ::
              && VerdictAt(es, s.manifest.value, r, s.results[r].artifactDigest, k)
              && s.receipts[r].entryHash == es[k].hash && s.receipts[r].pass == es[k].event.payload.pass
  {
    hide Run, Step, AddsUp, StartsOpen, Notes;
    RunRecorded(es, s);
    assert Holds(s, ReceiptItem(r)).Some?;
    var k: nat :| IntroducedAt(es, k, ReceiptItem(r));
    assert KeptAt(es, s, k, ReceiptItem(r));
    NoteOfReceipt(es[..k], es[k], r);
    var a, b := StatesAt(es, s, k);
    VerdictNeeds(a, es[k], b);
    VerdictKept(es, s, k, a, r);
    assert VerdictAt(es, s.manifest.value, r, s.results[r].artifactDigest, k);
  }

  lemma NoteOfReceipt(before: Transcript, e: CommunityEntry, r: Id)
    requires Introduces(e.event.payload, ReceiptItem(r))
    ensures Notes(before, e) == map[ReceiptItem(r) := ReceiptNote(TechnicalReceipt(e.event.payload.pass, e.hash))]
  {}

  /** A result keeps its artifact, and the case its manifest. */
  lemma VerdictKept(es: Transcript, s: State, k: nat, a: State, r: Id)
    requires Run(es) == Accept(s) && k <= |es| && Run(es[..k]) == Accept(a)
    requires a.manifest.Some? && r in a.results
    ensures s.manifest == a.manifest
    ensures r in s.results && s.results[r].artifactDigest == a.results[r].artifactDigest
  {
    hide Run, ValidManifest, CaseActorKey;
    RunOpen(es[..k], a);
    StillHeld(es, s, k, a, OpeningItem);
    StillHeld(es, s, k, a, ResultItem(r));
  }
}
