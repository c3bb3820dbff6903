/**
 A community case read from its transcript alone: what each entry puts on record, and which entry may come next. Nothing
 here keeps a state; everything is looked up in the entries so far.
 */
module CommunityHistory {
  import opened Basics
  import opened Ordering
  import opened CommunityTypes
  import opened Credit
  import opened Aggregation
  import opened Payout

  type Transcript = seq<CommunityEntry>

  // ----- What entries put on record -----

  /** Something that one entry, and no other, puts on record. */
  datatype Item =
    | OpeningItem | SessionItem(sessionId: Id) | KeyItem(key: Key) | RevokedItem(sessionId: Id) | MessageItem(id: Id)
    | ClaimItem(claimId: Id) | CommitmentItem(commitmentId: Id) | OpenedItem(commitmentId: Id)
    | CompletedItem(claimId: Id) | HandoffItem(handoffId: Id) | FrontierItem(frontierId: Id) | AccessItem(accessId: Id)
    | ResultItem(resultId: Id) | ReceiptItem(resultId: Id) | SealItem
    | CommitItem(reviewerId: Id) | CloseItem | BallotItem(reviewerId: Id) | FinalItem
    | PlanItem | SubmissionItem(leg: LegId) | ConfirmationItem(leg: LegId)

  predicate Introduces(p: Payload, i: Item) {
    match i
    case OpeningItem => p.CommunityOpened?
    case SessionItem(id) => p.SessionDelegated? && p.sessionId == id
    case KeyItem(key) => p.SessionDelegated? && p.sessionKey == key
    case RevokedItem(id) => p.SessionRevoked? && p.sessionId == id
    case MessageItem(id) => p.MessagePosted? && p.messageId == id
    case ClaimItem(id) => p.RouteClaimed? && p.claimId == id
    case CommitmentItem(id) => p.ContributionCommitted? && p.commitmentId == id
    case OpenedItem(id) => p.HandoffPublished? && p.commitmentId == id
    case CompletedItem(id) => p.HandoffPublished? && p.claimId == id
    case HandoffItem(id) => p.HandoffPublished? && p.handoffId == id
    case FrontierItem(id) =>
      || (p.CommunityOpened? && p.manifest.initialFrontier.frontierId == id)
      || (p.FrontierAccepted? && p.frontierId == id)
    case AccessItem(id) => p.KnowledgeAccessed? && p.accessId == id
    case ResultItem(id) => p.ResultProposed? && p.resultId == id
    case ReceiptItem(id) => p.TechnicalReceiptRecorded? && p.resultId == id
    case SealItem => p.EvidenceSealed?
    case CommitItem(id) => p.BallotCommitted? && p.reviewerId == id
    case CloseItem => p.CommitsClosed?
    case BallotItem(id) => p.BallotRevealed? && p.reviewerId == id
    case FinalItem => p.AllocationFinalized?
    case PlanItem => p.PayoutPlanCreated?
    case SubmissionItem(leg) => p.PayoutLegSubmitted? && p.legId == leg
    case ConfirmationItem(leg) => p.PayoutLegConfirmed? && p.legId == leg
  }

  ghost predicate IntroducedAt(es: Transcript, k: nat, i: Item) {
    k < |es| && Introduces(es[k].event.payload, i)
  }

  /** The item is on record. */
  ghost predicate Has(es: Transcript, i: Item) {
    exists k: nat :: IntroducedAt(es, k, i)
  }

  /** Where it was put there. */
  ghost function Position(es: Transcript, i: Item): (k: nat)
    requires Has(es, i)
    ensures IntroducedAt(es, k, i)
  {
    var k: nat :| IntroducedAt(es, k, i);
    k
  }

  ghost function EntryFor(es: Transcript, i: Item): CommunityEntry
    requires Has(es, i)
  {
    es[Position(es, i)]
  }

  /** What its entry said. */
  ghost function Said(es: Transcript, i: Item): (p: Payload)
    requires Has(es, i)
    ensures Introduces(p, i)
  {
    EntryFor(es, i).event.payload
  }

  // ----- What several entries add up to -----

  /** The frontier accepted last, or the initial one. */
  function FrontierNow(es: Transcript): Option<Id> {
    if es == [] then None
    else
      var p := es[|es| - 1].event.payload;
      if p.CommunityOpened? then Some(p.manifest.initialFrontier.frontierId)
      else if p.FrontierAccepted? then Some(p.frontierId)
      else FrontierNow(es[..|es| - 1])
  }

  /** All handoffs that frontiers have accepted. */
  function AcceptedNow(es: Transcript): set<Id> {
    if es == [] then {}
    else
      var p := es[|es| - 1].event.payload;
      AcceptedNow(es[..|es| - 1]) + if p.FrontierAccepted? then Elements(p.acceptedHandoffs) else {}
  }

  /** The contributions that a participant has signed for. */
  function ReceivedBy(es: Transcript, participantId: Id): set<Id> {
    if es == [] then {}
    else
      var p := es[|es| - 1].event.payload;
      ReceivedBy(es[..|es| - 1], participantId)
      + if p.KnowledgeAccessed? && p.receiver == participantId then {p.contributionId} else {}
  }

  /** The revealed ballots, and the order they were revealed in. */
  function CastNow(es: Transcript): Ballots {
    if es == [] then map[]
    else
      var p := es[|es| - 1].event.payload;
      var before := CastNow(es[..|es| - 1]);
      if p.BallotRevealed? then before[p.reviewerId := p.ballot] else before
  }

  function RevealedNow(es: Transcript): seq<Id> {
    if es == [] then []
    else
      var p := es[|es| - 1].event.payload;
      RevealedNow(es[..|es| - 1]) + if p.BallotRevealed? then [p.reviewerId] else []
  }

  // ----- Who plays which role -----

  datatype Role = ClerkRole | VerifierRole | ControllerRole(participantId: Id) | ReviewerRole(reviewerId: Id)

  predicate Plays(m: Manifest, role: Role) {
    match role
    case ControllerRole(p) => p in m.participants
    case ReviewerRole(r) => r in m.reviewers
    case _ => true
  }

  function KeyOf(m: Manifest, clerk: Key, role: Role): Key
    requires Plays(m, role)
  {
    match role
    case ClerkRole => clerk
    case VerifierRole => m.verifierKey
    case ControllerRole(p) => m.participants[p].controllerKey
    case ReviewerRole(r) => m.reviewers[r].reviewerKey
  }

  /** The person behind a participant or a reviewer. */
  function PersonOf(m: Manifest, role: Role): Option<Id>
    requires Plays(m, role)
  {
    match role
    case ControllerRole(p) => Some(m.participants[p].controllerId)
    case ReviewerRole(r) => Some(m.reviewers[r].controllerId)
    case _ => None
  }

  /** No key plays two roles, no person is behind two of them, and no destination is paid twice. */
  ghost predicate RolesApart(m: Manifest, clerk: Key) {
    && (forall a, b :: Plays(m, a) && Plays(m, b) && KeyOf(m, clerk, a) == KeyOf(m, clerk, b) ==> a == b)
    && (forall a, b :: Plays(m, a) && Plays(m, b) && PersonOf(m, a) == PersonOf(m, b) && PersonOf(m, a).Some? ==>
          a == b)
    && (forall p, q :: p in m.participants && q in m.participants && SameDestination(m, p, q) ==> p == q)
  }

  predicate SameDestination(m: Manifest, p: Id, q: Id)
    requires p in m.participants && q in m.participants
  {
    && m.participants[p].coldkey == m.participants[q].coldkey
    && m.participants[p].hotkey == m.participants[q].hotkey
  }

  ghost predicate LimitsOk(m: Manifest) {
    && 2 <= |m.participants| <= 128 && 3 <= m.policy.reviewQuorum <= |m.reviewers| <= 21
    && 60 <= m.policy.leaseMaxSeconds <= 604_800 && 0 <= m.policy.maxDispersionBps <= 10_000
    && 1 <= m.bountyRao <= 1_000_000_000_000_000_000_000_000_000_000
  }

  /** The first frontier accepts nothing and is the one its digest names. */
  ghost predicate StartsBlank(m: Manifest) {
    var f := m.initialFrontier;
    && f.parent.None? && f.accepted == {} && NoDuplicates(f.openObligations)
    && f.digest == FrontierDigest(m.caseId, f.frontierId, None, f.summary, f.openObligations, {})
  }

  // ----- Looking things up -----

  ghost function Charter(es: Transcript): Manifest
    requires Has(es, OpeningItem)
  {
    Said(es, OpeningItem).manifest
  }

  ghost function Clerk(es: Transcript): Key
    requires Has(es, OpeningItem)
  {
    EntryFor(es, OpeningItem).event.actor
  }

  ghost predicate InCase(es: Transcript, caseId: Id) {
    Has(es, OpeningItem) && Charter(es).caseId == caseId
  }

  ghost predicate ByClerk(es: Transcript, e: CommunityEntry) {
    Has(es, OpeningItem) && e.event.actor == Clerk(es)
  }

  /** The case is open and its evidence is not sealed. */
  ghost predicate Working(es: Transcript) {
    Has(es, OpeningItem) && !Has(es, SealItem)
  }

  /** The evidence is sealed and there is no allocation yet. */
  ghost predicate UnderReview(es: Transcript) {
    Has(es, SealItem) && !Has(es, FinalItem)
  }

  ghost predicate ByController(es: Transcript, e: CommunityEntry, participantId: Id) {
    && Has(es, OpeningItem) && participantId in Charter(es).participants
    && Charter(es).participants[participantId].controllerKey == e.event.actor
  }

  ghost predicate ByReviewer(es: Transcript, e: CommunityEntry, reviewerId: Id) {
    && Has(es, OpeningItem) && reviewerId in Charter(es).reviewers
    && Charter(es).reviewers[reviewerId].reviewerKey == e.event.actor
  }

  /** Signed by a session of the working case that was given this scope, in its time, and not revoked since. */
  ghost predicate ActsIn(es: Transcript, e: CommunityEntry, sessionId: Id, scope: Scope) {
    && Working(es) && Has(es, SessionItem(sessionId)) && !Has(es, RevokedItem(sessionId))
    && var session := Said(es, SessionItem(sessionId));
    && session.sessionKey == e.event.actor && scope in session.scopes && e.at < session.notAfter
  }

  ghost predicate ActsFor(es: Transcript, e: CommunityEntry, sessionId: Id, participantId: Id, scope: Scope) {
    ActsIn(es, e, sessionId, scope) && Said(es, SessionItem(sessionId)).participantId == participantId
  }

  /** Claimed, not expired, and neither completed by a handoff nor released by revoking its session. */
  ghost predicate Held(es: Transcript, claimId: Id, at: Time) {
    && Has(es, ClaimItem(claimId)) && !Has(es, CompletedItem(claimId))
    && !Has(es, RevokedItem(Said(es, ClaimItem(claimId)).sessionId))
    && at < Said(es, ClaimItem(claimId)).expiresAt
  }

  /** A published handoff that found something. */
  ghost predicate Useful(es: Transcript, handoffId: Id) {
    Has(es, HandoffItem(handoffId)) && Said(es, HandoffItem(handoffId)).outcome != NoSignal
  }

  /** What a handoff rests on. */
  ghost function RestsOn(es: Transcript, handoffId: Id): seq<Id>
    requires Has(es, HandoffItem(handoffId))
  {
    Said(es, HandoffItem(handoffId)).dependsOn + Said(es, HandoffItem(handoffId)).uses
  }

  /** A set of useful handoffs that holds whatever they rest on. */
  ghost predicate Supported(es: Transcript, s: set<Id>) {
    forall h :: h in s ==> Useful(es, h) && Elements(RestsOn(es, h)) <= s
  }

  /** The least supported set that holds these. */
  ghost predicate LeastSupport(es: Transcript, direct: seq<Id>, s: set<Id>) {
    && Supported(es, s) && Elements(direct) <= s
    && forall other :: Supported(es, other) && Elements(direct) <= other ==> s <= other
  }

  // ----- Which entry may come next -----

  ghost predicate LawfulOpening(es: Transcript, e: CommunityEntry)
    requires e.event.payload.CommunityOpened?
  {
    var p := e.event.payload;
    && es == [] && e.seqNo == 0 && e.event.actor == p.clerkKey
    && RolesApart(p.manifest, p.clerkKey) && LimitsOk(p.manifest) && StartsBlank(p.manifest)
  }

  ghost predicate LawfulDelegation(es: Transcript, e: CommunityEntry)
    requires e.event.payload.SessionDelegated?
  {
    var p := e.event.payload;
    && Working(es) && InCase(es, p.caseId) && ByController(es, e, p.participantId)
    && !Has(es, SessionItem(p.sessionId)) && !Has(es, KeyItem(p.sessionKey))
    && (forall role :: Plays(Charter(es), role) ==> KeyOf(Charter(es), Clerk(es), role) != p.sessionKey)
    && p.scopes != [] && NoDuplicates(p.scopes) && e.at < p.notAfter
  }

  ghost predicate LawfulRevocation(es: Transcript, e: CommunityEntry)
    requires e.event.payload.SessionRevoked?
  {
    var p := e.event.payload;
    && Working(es) && InCase(es, p.caseId) && ByController(es, e, p.participantId)
    && Has(es, SessionItem(p.sessionId)) && Said(es, SessionItem(p.sessionId)).participantId == p.participantId
    && !Has(es, RevokedItem(p.sessionId))
  }

  ghost predicate LawfulMessage(es: Transcript, e: CommunityEntry)
    requires e.event.payload.MessagePosted?
  {
    var p := e.event.payload;
    && ActsIn(es, e, p.sessionId, MessageScope) && InCase(es, p.caseId)
    && !Has(es, MessageItem(p.messageId)) && NoDuplicates(p.references)
  }

  /** No claim stands on the route, or all of them and this one share it as the policy allows. */
  ghost predicate RouteOpen(es: Transcript, at: Time, routeId: Id, overlap: Overlap)
    requires Has(es, OpeningItem)
  {
    forall c :: Held(es, c, at) && Said(es, ClaimItem(c)).routeId == routeId ==>
      Charter(es).policy.allowParallel && overlap == Parallel && Said(es, ClaimItem(c)).overlap == Parallel
  }

  ghost predicate LawfulClaim(es: Transcript, e: CommunityEntry)
    requires e.event.payload.RouteClaimed?
  {
    var p := e.event.payload;
    && ActsFor(es, e, p.sessionId, p.participantId, ClaimScope) && InCase(es, p.caseId)
    && !Has(es, ClaimItem(p.claimId)) && FrontierNow(es) == Some(p.baseFrontierId)
    && e.at < p.expiresAt <= e.at + Charter(es).policy.leaseMaxSeconds * 1_000_000
    && RouteOpen(es, e.at, p.routeId, p.overlap)
  }

  ghost predicate LawfulCommitment(es: Transcript, e: CommunityEntry)
    requires e.event.payload.ContributionCommitted?
  {
    var p := e.event.payload;
    && ActsFor(es, e, p.sessionId, p.participantId, HandoffScope) && InCase(es, p.caseId)
    && !Has(es, CommitmentItem(p.commitmentId))
    && Held(es, p.claimId, e.at) && Said(es, ClaimItem(p.claimId)).sessionId == p.sessionId
  }

  ghost predicate LawfulHandoff(es: Transcript, e: CommunityEntry)
    requires e.event.payload.HandoffPublished?
  {
    var p := e.event.payload;
    && ActsFor(es, e, p.sessionId, p.participantId, HandoffScope) && InCase(es, p.caseId)
    && !Has(es, HandoffItem(p.handoffId))
    && Held(es, p.claimId, e.at) && Said(es, ClaimItem(p.claimId)).sessionId == p.sessionId
    && Has(es, CommitmentItem(p.commitmentId)) && !Has(es, OpenedItem(p.commitmentId))
    && Opens(Said(es, CommitmentItem(p.commitmentId)), p)
    && Charter(es).environmentDigest == p.environmentDigest
    && NoDuplicates(p.dependsOn + p.uses + p.refutes)
    && forall h :: h in p.dependsOn + p.uses + p.refutes ==> Useful(es, h)
  }

  /** The handoff shows what the commitment hid, on the same claim. */
  predicate Opens(commitment: Payload, p: Payload)
    requires commitment.ContributionCommitted? && p.HandoffPublished?
  {
    && commitment.claimId == p.claimId && commitment.artifactDigest == p.artifactDigest
    && commitment.summaryDigest == SummaryDigest(p.summary)
  }

  /** A useful handoff whose commitment let the artifact be inspected. */
  ghost predicate Inspectable(es: Transcript, handoffId: Id) {
    && Useful(es, handoffId)
    && Has(es, CommitmentItem(Said(es, HandoffItem(handoffId)).commitmentId))
    && Said(es, CommitmentItem(Said(es, HandoffItem(handoffId)).commitmentId)).visibility != HashOnly
  }

  ghost predicate LawfulFrontier(es: Transcript, e: CommunityEntry)
    requires e.event.payload.FrontierAccepted?
  {
    var p := e.event.payload;
    var accepted := AcceptedNow(es) + Elements(p.acceptedHandoffs);
    && Working(es) && ByClerk(es, e) && InCase(es, p.caseId)
    && !Has(es, FrontierItem(p.frontierId)) && FrontierNow(es) == Some(p.parentFrontierId)
    && NoDuplicates(p.openObligations) && p.acceptedHandoffs != [] && NoDuplicates(p.acceptedHandoffs)
    && (forall h :: h in p.acceptedHandoffs ==> Inspectable(es, h) && Elements(RestsOn(es, h)) <= accepted)
    && p.frontierDigest == FrontierDigest(p.caseId, p.frontierId, Some(p.parentFrontierId), p.summary,
                                          p.openObligations, accepted)
  }

  ghost predicate LawfulAccess(es: Transcript, e: CommunityEntry)
    requires e.event.payload.KnowledgeAccessed?
  {
    var p := e.event.payload;
    && ActsFor(es, e, p.sessionId, p.receiver, AccessScope) && InCase(es, p.caseId)
    && !Has(es, AccessItem(p.accessId)) && p.sender != p.receiver
    && Has(es, HandoffItem(p.contributionId))
    && Said(es, HandoffItem(p.contributionId)).participantId == p.sender
    && Said(es, HandoffItem(p.contributionId)).artifactDigest == p.artifactDigest
  }

  ghost predicate LawfulResult(es: Transcript, e: CommunityEntry)
    requires e.event.payload.ResultProposed?
  {
    var p := e.event.payload;
    && ActsFor(es, e, p.sessionId, p.participantId, ResultScope) && InCase(es, p.caseId)
    && !Has(es, ResultItem(p.resultId)) && Charter(es).environmentDigest == p.environmentDigest
    && p.direct != [] && NoDuplicates(p.direct) && p.claimed != [] && NoDuplicates(p.claimed)
    && p.dispositions.Keys <= ReceivedBy(es, p.participantId) && Elements(p.direct) <= AcceptedNow(es)
  }

  ghost predicate LawfulReceipt(es: Transcript, e: CommunityEntry)
    requires e.event.payload.TechnicalReceiptRecorded?
  {
    var p := e.event.payload;
    && Working(es) && InCase(es, p.caseId) && e.event.actor == Charter(es).verifierKey
    && Has(es, ResultItem(p.resultId)) && !Has(es, ReceiptItem(p.resultId))
    && Said(es, ResultItem(p.resultId)).artifactDigest == p.artifactDigest
    && Charter(es).environmentDigest == p.environmentDigest
  }

  /** The result claims exactly what it rests on, and answers for everything its proposer had received. */
  ghost predicate Attributed(es: Transcript, resultId: Id, s: set<Id>)
    requires Has(es, ResultItem(resultId))
  {
    var r := Said(es, ResultItem(resultId));
    && LeastSupport(es, r.direct, s) && Elements(r.claimed) == s
    && (forall c :: c in r.dispositions && r.dispositions[c] == Used ==> c in s)
    && ReceivedBy(es[..Position(es, ResultItem(resultId))], r.participantId) <= r.dispositions.Keys
  }

  /** These hashes are those of the entries that introduced the listed items, and all such items are listed. */
  ghost predicate Hashes(es: Transcript, item: Id -> Item, hashes: map<Id, EntryHash>) {
    forall id :: (id in hashes <==> Has(es, item(id))) && (id in hashes ==> hashes[id] == EntryFor(es, item(id)).hash)
  }

  /** The evidence names the case, its frontier, every commitment, handoff and access, the result and its receipt. */
  ghost predicate Binds(es: Transcript, ev: Evidence, resultId: Id)
    requires Has(es, OpeningItem) && Has(es, ResultItem(resultId)) && Has(es, ReceiptItem(resultId))
  {
    && ev.caseId == Charter(es).caseId && FrontierNow(es) == Some(ev.frontier.frontierId)
    && Has(es, FrontierItem(ev.frontier.frontierId))
    && ev.frontier == FrontierSaid(Said(es, FrontierItem(ev.frontier.frontierId)))
    && Hashes(es, id => CommitmentItem(id), ev.commitments)
    && Hashes(es, id => HandoffItem(id), ev.handoffs)
    && Hashes(es, id => AccessItem(id), ev.accesses)
    && ev.resultId == resultId && ev.resultHash == EntryFor(es, ResultItem(resultId)).hash
    && ev.receiptHash == EntryFor(es, ReceiptItem(resultId)).hash
  }

  /** The frontier that an entry states. */
  function FrontierSaid(p: Payload): Frontier
    requires p.CommunityOpened? || p.FrontierAccepted?
  {
    if p.CommunityOpened? then p.manifest.initialFrontier
    else Frontier(p.frontierId, Some(p.parentFrontierId), p.summary, p.openObligations,
                  if p.frontierDigest.FrontierDigest? then p.frontierDigest.accepted else {}, p.frontierDigest)
  }

  ghost predicate LawfulSeal(es: Transcript, e: CommunityEntry)
    requires e.event.payload.EvidenceSealed?
  {
    var p := e.event.payload;
    && Working(es) && ByClerk(es, e) && InCase(es, p.caseId)
    && Has(es, ResultItem(p.resultId)) && Has(es, ReceiptItem(p.resultId)) && Said(es, ReceiptItem(p.resultId)).pass
    && SortedBy(TextLe, p.attributed) && Attributed(es, p.resultId, Elements(p.attributed))
    && p.evidenceRoot.EvidenceDigest? && Binds(es, p.evidenceRoot.evidence, p.resultId)
  }

  ghost predicate LawfulCommit(es: Transcript, e: CommunityEntry)
    requires e.event.payload.BallotCommitted?
  {
    var p := e.event.payload;
    && UnderReview(es) && !Has(es, CloseItem) && InCase(es, p.caseId) && ByReviewer(es, e, p.reviewerId)
    && p.evidenceRoot == Said(es, SealItem).evidenceRoot && !Has(es, CommitItem(p.reviewerId))
  }

  ghost predicate LawfulClose(es: Transcript, e: CommunityEntry)
    requires e.event.payload.CommitsClosed?
  {
    var p := e.event.payload;
    && UnderReview(es) && !Has(es, CloseItem) && ByClerk(es, e) && InCase(es, p.caseId)
    && p.evidenceRoot == Said(es, SealItem).evidenceRoot
    && SortedBy(TextLe, p.committed) && (forall r :: r in p.committed <==> Has(es, CommitItem(r)))
    && Charter(es).policy.reviewQuorum <= |p.committed|
  }

  /** A share in range, argued from the participant's own handoffs under the seal. */
  ghost predicate Argued(es: Transcript, ballot: Ballot, p: Id)
    requires Has(es, SealItem) && p in ballot.shares && p in ballot.evidenceRefs
  {
    && 0 <= ballot.shares[p] <= 10_000 && NoDuplicates(ballot.evidenceRefs[p])
    && (forall h :: h in ballot.evidenceRefs[p] ==>
          && h in Said(es, SealItem).attributed && Has(es, HandoffItem(h))
          && Said(es, HandoffItem(h)).participantId == p)
    && (ballot.shares[p] > 0 ==> ballot.evidenceRefs[p] != [])
  }

  ghost predicate LawfulBallot(es: Transcript, ballot: Ballot, reviewerId: Id)
    requires Has(es, OpeningItem) && Has(es, SealItem)
  {
    && ballot.caseId == Charter(es).caseId && ballot.evidenceRoot == Said(es, SealItem).evidenceRoot
    && ballot.reviewerId == reviewerId
    && ballot.shares.Keys == ballot.evidenceRefs.Keys == Charter(es).participants.Keys
    && (forall p :: p in ballot.shares ==> Argued(es, ballot, p))
    && Total(ballot.shares) == if ballot.decided then 10_000 else 0
  }

  /** This very ballot was committed to. */
  ghost predicate Committed(es: Transcript, reviewerId: Id, ballot: Ballot, salt: string) {
    Has(es, CommitItem(reviewerId)) && Said(es, CommitItem(reviewerId)).commitment == BallotDigest(ballot, salt)
  }

  ghost predicate LawfulReveal(es: Transcript, e: CommunityEntry)
    requires e.event.payload.BallotRevealed?
  {
    var p := e.event.payload;
    && UnderReview(es) && Has(es, CloseItem) && InCase(es, p.caseId) && ByReviewer(es, e, p.reviewerId)
    && p.evidenceRoot == Said(es, SealItem).evidenceRoot && !Has(es, BallotItem(p.reviewerId))
    && LawfulBallot(es, p.ballot, p.reviewerId) && Committed(es, p.reviewerId, p.ballot, p.salt)
  }

  ghost predicate LawfulFinal(es: Transcript, e: CommunityEntry)
    requires e.event.payload.AllocationFinalized?
  {
    var p := e.event.payload;
    && UnderReview(es) && ByClerk(es, e)
    && (forall r :: Has(es, CommitItem(r)) ==> Has(es, BallotItem(r)))
    && Aggregate(Charter(es), Said(es, SealItem).evidenceRoot, CastNow(es), RevealedNow(es)) == Accept(p.allocation)
  }

  ghost predicate LawfulPlan(es: Transcript, e: CommunityEntry)
    requires e.event.payload.PayoutPlanCreated?
  {
    var p := e.event.payload;
    && Has(es, FinalItem) && !Has(es, PlanItem) && ByClerk(es, e) && InCase(es, p.caseId)
    && var bps := Said(es, FinalItem).allocation.bps;
    && bps.Some? && p.plan.simulation && p.plan.finalMock && p.plan.allocationDigest == AllocationDigest(bps.value)
    && p.plan.totalRao == Charter(es).bountyRao && 0 <= p.plan.totalRao
    && PayoutLegs(Charter(es), bps.value) == Accept(p.plan.legs)
  }

  /** A leg of the plan, while some positive leg is not confirmed yet. */
  ghost predicate Payable(es: Transcript, planId: Id, leg: Leg) {
    && Has(es, PlanItem) && Said(es, PlanItem).plan.planId == planId && leg in Said(es, PlanItem).plan.legs
    && exists l :: l in Said(es, PlanItem).plan.legs && 0 < l.amountRao && !Has(es, ConfirmationItem(l.legId))
  }

  ghost predicate LawfulSubmission(es: Transcript, e: CommunityEntry)
    requires e.event.payload.PayoutLegSubmitted?
  {
    var p := e.event.payload;
    && ByClerk(es, e) && InCase(es, p.caseId)
    && (exists leg :: Payable(es, p.planId, leg) && leg.legId == p.legId && 0 < leg.amountRao)
    && p.chainObserved && !Has(es, SubmissionItem(p.legId)) && p.reference == MockReference(p.planId, p.legId)
  }

  ghost predicate LawfulConfirmation(es: Transcript, e: CommunityEntry)
    requires e.event.payload.PayoutLegConfirmed?
  {
    var p := e.event.payload;
    && ByClerk(es, e) && InCase(es, p.caseId)
    && (exists leg :: Payable(es, p.planId, leg) && leg.legId == p.legId)
    && Has(es, SubmissionItem(p.legId)) && Said(es, SubmissionItem(p.legId)).reference == p.reference
    && p.finalized && !Has(es, ConfirmationItem(p.legId))
  }

  /** Whether an entry may follow a transcript, decided by reading the transcript. */
  ghost predicate Lawful(es: Transcript, e: CommunityEntry) {
    match e.event.payload
    case CommunityOpened(_, _) => LawfulOpening(es, e)
    case SessionDelegated(_, _, _, _, _, _) => LawfulDelegation(es, e)
    case SessionRevoked(_, _, _) => LawfulRevocation(es, e)
    case MessagePosted(_, _, _, _) => LawfulMessage(es, e)
    case RouteClaimed(_, _, _, _, _, _, _, _) => LawfulClaim(es, e)
    case ContributionCommitted(_, _, _, _, _, _, _, _) => LawfulCommitment(es, e)
    case HandoffPublished(_, _, _, _, _, _, _, _, _, _, _, _, _) => LawfulHandoff(es, e)
    case FrontierAccepted(_, _, _, _, _, _, _) => LawfulFrontier(es, e)
    case KnowledgeAccessed(_, _, _, _, _, _, _) => LawfulAccess(es, e)
    case ResultProposed(_, _, _, _, _, _, _, _, _) => LawfulResult(es, e)
    case TechnicalReceiptRecorded(_, _, _, _, _) => LawfulReceipt(es, e)
    case EvidenceSealed(_, _, _, _) => LawfulSeal(es, e)
    case BallotCommitted(_, _, _, _) => LawfulCommit(es, e)
    case CommitsClosed(_, _, _) => LawfulClose(es, e)
    case BallotRevealed(_, _, _, _, _) => LawfulReveal(es, e)
    case AllocationFinalized(_) => LawfulFinal(es, e)
    case PayoutPlanCreated(_, _) => LawfulPlan(es, e)
    case PayoutLegSubmitted(_, _, _, _, _) => LawfulSubmission(es, e)
    case PayoutLegConfirmed(_, _, _, _, _) => LawfulConfirmation(es, e)
    case UnsupportedKind(_) => false
  }
}
