/** Entities of the two-agent review protocol: the frozen case, its events, and the records of its state. */
module ReviewTypes {
  import opened Basics
  import opened Ordering
  import opened Chain
  import opened ReviewPanel

  datatype Criterion = Criterion(name: string, weight: int)

  datatype Deadlines = Deadlines(submission: Time, commit: Time, revealing: Time, appeal: Time)

  datatype ReviewPolicy = ReviewPolicy(panel: PanelPolicy, quorum: int, maxDispersionBps: int,
                                       rosterDigest: RosterDigest)

  /** The digest of a roster listed by reviewer key. */
  datatype RosterDigest = RosterOf(profiles: set<Profile>) | OtherRoster(text: string)

  datatype ReviewCase = ReviewCase(
    caseId: Id, agents: map<Id, Key>, controllers: map<Id, string>, verifierKey: Key, environment: string,
    criteria: seq<Criterion>, floorBps: int, policy: ReviewPolicy, deadlines: Deadlines)

  function Weights(criteria: seq<Criterion>): seq<int> {
    seq(|criteria|, i requires 0 <= i < |criteria| => criteria[i].weight)
  }

  function Names(criteria: seq<Criterion>): set<string> {
    set c | c in criteria :: c.name
  }

  predicate ValidPolicy(p: ReviewPolicy) {
    && 3 <= p.panel.panelSize <= 21 && p.panel.panelSize % 2 == 1
    && 3 <= p.quorum <= p.panel.panelSize
    && 1 <= p.panel.minTotal <= 100 && 1 <= p.panel.minPasses <= p.panel.minTotal
    && 0 <= p.panel.minRevealRate <= 10_000 && 0 <= p.maxDispersionBps <= 10_000
  }

  /** Two agents under different controllers, weights adding to the whole, and strictly increasing deadlines. */
  predicate ValidCase(c: ReviewCase) {
    && |c.agents| == 2 && c.controllers.Keys == c.agents.Keys
    && (forall x, y :: x in c.controllers && y in c.controllers && x != y ==> c.controllers[x] != c.controllers[y])
    && 2 <= |c.criteria| <= 12
    && (forall i, j :: 0 <= i < j < |c.criteria| ==> c.criteria[i].name != c.criteria[j].name)
    && (forall i :: 0 <= i < |c.criteria| ==> 1 <= c.criteria[i].weight <= 10_000)
    && Sum(Weights(c.criteria)) == 10_000
    && 0 <= c.floorBps <= 4_999
    && ValidPolicy(c.policy)
    && c.deadlines.submission < c.deadlines.commit < c.deadlines.revealing < c.deadlines.appeal
  }

  /** The two agents by name. */
  function AgentA(c: ReviewCase): Id
    requires |c.agents| == 2
  {
    SortedTexts(c.agents.Keys)[0]
  }

  function AgentB(c: ReviewCase): Id
    requires |c.agents| == 2
  {
    SortedTexts(c.agents.Keys)[1]
  }

  datatype Visibility = Public | Committee | HashOnly

  datatype Contribution = Contribution(
    caseId: Id, contributionId: Id, agentId: Id, artifact: string, dependsOn: seq<Id>, visibility: Visibility)

  predicate ValidContribution(v: Contribution, c: ReviewCase) {
    && v.caseId == c.caseId && v.agentId in c.agents
    && NoDuplicates(v.dependsOn) && v.contributionId !in v.dependsOn
  }

  datatype TechnicalReport = TechnicalReport(caseId: Id, artifact: string, environment: string, report: string,
                                             pass: bool)

  predicate ValidReport(v: TechnicalReport, c: ReviewCase) {
    v.caseId == c.caseId && v.environment == c.environment
  }

  /** The digest of the sealed transcript: every contribution's entry, by id, and the technical receipt's entry. */
  datatype EvidenceRoot =
    | RootOf(caseId: Id, contributions: map<Id, Hash<ReviewEvent>>, technical: Hash<ReviewEvent>)
    | OtherRoot(text: string)

  datatype Finding = Finding(refs: seq<Id>, note: string)

  /** Scores by criterion and agent. */
  datatype ReviewBallot = ReviewBallot(
    caseId: Id, root: EvidenceRoot, reviewerId: Key, decided: bool, confidence: int,
    scores: map<string, map<Id, int>>, findings: map<string, Finding>)

  predicate ValidBallot(b: ReviewBallot, c: ReviewCase, root: EvidenceRoot, reviewer: Key, contributions: set<Id>) {
    && b.caseId == c.caseId && b.root == root && b.reviewerId == reviewer
    && 0 <= b.confidence <= 10_000
    && b.scores.Keys == Names(c.criteria) && b.findings.Keys == Names(c.criteria)
    && forall n :: n in b.scores ==>
         && b.scores[n].Keys == c.agents.Keys
         && (forall a :: a in b.scores[n] ==> 0 <= b.scores[n][a] <= 4)
         && b.findings[n].refs != [] && Elements(b.findings[n].refs) <= contributions
         && NoDuplicates(b.findings[n].refs)
  }

  /** A ballot commitment is the digest of one ballot and salt. */
  datatype BallotCommitment = CommitTo(ballot: ReviewBallot, salt: string) | OtherCommitment(text: string)

  datatype WhyNot = QuorumNotMet | TooFewDecided | TooDispersed

  /** allocation pairs the shares of the two agents, by name. */
  datatype Decision = Decision(
    caseId: Id, root: EvidenceRoot, allocation: Option<(int, int)>, median: Option<int>, dispersion: Option<int>,
    revealCount: nat, decidedBallots: nat, confidence: Option<int>, reason: Option<WhyNot>)

  datatype ReviewPayload =
    | CaseOpened(clerkKey: Key, opening: ReviewCase, reviewers: seq<Profile>)
    | ContributionAdded(contribution: Contribution)
    | TechnicalRecorded(report: TechnicalReport)
    | EvidenceSealed(caseId: Id, root: EvidenceRoot, contributionIds: seq<Id>, reportDigest: string,
                     artifactDigest: string)
    | ReviewersAssigned(caseId: Id, root: EvidenceRoot, seed: string, panel: seq<Key>)
    | ReviewCommitted(caseId: Id, root: EvidenceRoot, commitment: BallotCommitment)
    | CommitPhaseClosed(caseId: Id, root: EvidenceRoot, committed: seq<Key>)
    | ReviewRevealed(caseId: Id, root: EvidenceRoot, ballot: ReviewBallot, salt: string)
    | DecisionRecorded(decision: Decision)
    | UnsupportedKind(kind: string)

  datatype ReviewEvent = ReviewEvent(actor: Key, payload: ReviewPayload, signature: Signature<(Key, ReviewPayload)>)

  type ReviewEntry = Entry<ReviewEvent, Hash<ReviewEvent>>

  function SignedReview(payload: ReviewPayload, privateKey: Key): ReviewEvent {
    ReviewEvent(privateKey, payload, Signature(privateKey, (privateKey, payload)))
  }

  predicate GenuineReview(event: ReviewEvent) {
    event.signature == Signature(event.actor, (event.actor, event.payload))
  }

  function OpensReview(event: ReviewEvent): Option<Key> {
    if event.payload.CaseOpened? && event.actor == event.payload.clerkKey then Some(event.actor) else None
  }

  const ReviewRules: Rules<ReviewEvent> := Rules(OpensReview, GenuineReview)
}
