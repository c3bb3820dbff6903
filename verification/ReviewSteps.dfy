/** The two-agent review protocol as a fold: every event's checks, and the state it leaves. */
module ReviewSteps {
  import opened Basics
  import opened Ordering
  import opened Chain
  import opened ReviewPanel
  import opened ReviewTypes
  import opened ReviewDecision

  datatype ReviewPhase = Unopened | Collecting | Sealed | Reviewing | Provisional

  datatype Added = Added(contribution: Contribution, entryHash: Hash<ReviewEvent>)

  /** revealed lists the reviewers in the order they revealed. */
  datatype ReviewState = ReviewState(
    opening: Option<ReviewCase>, clerkKey: Option<Key>, roster: seq<Profile>, phase: ReviewPhase,
    contributions: map<Id, Added>, technical: Option<TechnicalReport>, technicalHash: Option<Hash<ReviewEvent>>,
    root: Option<EvidenceRoot>, panel: seq<Key>, commits: map<Key, BallotCommitment>, closed: bool,
    ballots: map<Key, ReviewBallot>, revealed: seq<Key>, decision: Option<Decision>)

  const Unstarted: ReviewState :=
    ReviewState(None, None, [], Unopened, map[], None, None, None, [], map[], false, map[], [], None)

  // ----- Values the checks compare with -----

  predicate ValidProfile(p: Profile) {
    0 <= p.total <= 100_000 && 0 <= p.passes <= p.total && 0 <= p.revealRate <= 10_000
  }

  /** A roster of valid profiles under distinct keys, and the one its frozen digest names. */
  predicate ValidRoster(roster: seq<Profile>, digest: RosterDigest) {
    && (forall i :: 0 <= i < |roster| ==> ValidProfile(roster[i]))
    && (forall i, j :: 0 <= i < j < |roster| ==> roster[i].reviewerId != roster[j].reviewerId)
    && digest == RosterOf(Elements(roster))
  }

  function RootOver(opening: Option<ReviewCase>, contributions: map<Id, Added>,
                    technicalHash: Option<Hash<ReviewEvent>>)
    : Option<EvidenceRoot>
  {
    if opening.None? || technicalHash.None? then None
    else Some(RootOf(opening.value.caseId, map k | k in contributions :: contributions[k].entryHash,
                     technicalHash.value))
  }

  /** expected_evidence_root. */
  function ExpectedRoot(s: ReviewState): Option<EvidenceRoot> {
    RootOver(s.opening, s.contributions, s.technicalHash)
  }

  function ContributingAgents(contributions: map<Id, Added>): set<Id> {
    set k | k in contributions :: contributions[k].contribution.agentId
  }

  function Excluded(c: ReviewCase): set<string> {
    set a | a in c.controllers :: c.controllers[a]
  }

  type RootDigests = Digests<EvidenceRoot>

  function PanelFor(digests: RootDigests, c: ReviewCase, roster: seq<Profile>, seed: string,
                    root: EvidenceRoot): Option<seq<Profile>> {
    Selected(digests, c.policy.panel, c.caseId, Excluded(c), roster, seed, root)
  }

  /** A reviewer in the reveal order has revealed, so the default is never taken. */
  function Cast(ballots: map<Key, ReviewBallot>, root: EvidenceRoot, r: Key): ReviewBallot {
    if r in ballots then ballots[r] else ReviewBallot("", root, r, false, 0, map[], map[])
  }

  /** The revealed ballots, in the order they came. */
  function BallotList(ballots: map<Key, ReviewBallot>, root: EvidenceRoot, revealed: seq<Key>): seq<ReviewBallot> {
    seq(|revealed|, i requires 0 <= i < |revealed| => Cast(ballots, root, revealed[i]))
  }

  // ----- One step for each kind of event -----

  predicate MayOpen(s: ReviewState, e: ReviewEntry)
    requires e.event.payload.CaseOpened?
  {
    var p := e.event.payload;
    && s.phase == Unopened && e.seqNo == 0 && e.event.actor == p.clerkKey
    && ValidCase(p.opening) && ValidRoster(p.reviewers, p.opening.policy.rosterDigest)
  }

  function Opened(s: ReviewState, e: ReviewEntry): ReviewState
    requires e.event.payload.CaseOpened?
  {
    var p := e.event.payload;
    s.(opening := Some(p.opening), clerkKey := Some(e.event.actor), roster := p.reviewers, phase := Collecting)
  }

  predicate MayContribute(s: ReviewState, e: ReviewEntry)
    requires e.event.payload.ContributionAdded? && s.opening.Some?
  {
    var c, v := s.opening.value, e.event.payload.contribution;
    && s.phase == Collecting && e.at <= c.deadlines.submission
    && ValidContribution(v, c) && e.event.actor == c.agents[v.agentId]
    && v.contributionId !in s.contributions && Elements(v.dependsOn) <= s.contributions.Keys
  }

  predicate MayReport(s: ReviewState, e: ReviewEntry)
    requires e.event.payload.TechnicalRecorded? && s.opening.Some?
  {
    var c := s.opening.value;
    && s.phase == Collecting && s.technical.None? && e.at <= c.deadlines.commit
    && e.event.actor == c.verifierKey && ValidReport(e.event.payload.report, c)
  }

  predicate MaySeal(s: ReviewState, e: ReviewEntry)
    requires e.event.payload.EvidenceSealed? && s.opening.Some?
  {
    var c, p := s.opening.value, e.event.payload;
    && s.phase == Collecting && s.root.None? && e.at <= c.deadlines.commit && Some(e.event.actor) == s.clerkKey
    && p.caseId == c.caseId
    && s.technical.Some? && s.technical.value.pass
    && ContributingAgents(s.contributions) == c.agents.Keys
    && p.contributionIds == SortedTexts(s.contributions.Keys)
    && p.reportDigest == s.technical.value.report && p.artifactDigest == s.technical.value.artifact
    && Some(p.root) == ExpectedRoot(s)
  }

  predicate MayAssign(digests: RootDigests, s: ReviewState, e: ReviewEntry)
    requires e.event.payload.ReviewersAssigned? && s.opening.Some?
  {
    var c, p := s.opening.value, e.event.payload;
    && s.phase == Sealed && e.at <= c.deadlines.commit && Some(e.event.actor) == s.clerkKey
    && p.caseId == c.caseId && Some(p.root) == s.root
    && var panel := PanelFor(digests, c, s.roster, p.seed, p.root);
    && panel.Some? && p.panel == Keys(panel.value)
  }

  predicate MayCommit(s: ReviewState, e: ReviewEntry)
    requires e.event.payload.ReviewCommitted? && s.opening.Some?
  {
    var c, p := s.opening.value, e.event.payload;
    && s.phase == Reviewing && !s.closed && e.at <= c.deadlines.commit
    && e.event.actor in s.panel && e.event.actor !in s.commits
    && p.caseId == c.caseId && Some(p.root) == s.root
  }

  predicate MayClose(s: ReviewState, e: ReviewEntry)
    requires e.event.payload.CommitPhaseClosed? && s.opening.Some?
  {
    var c, p := s.opening.value, e.event.payload;
    && s.phase == Reviewing && !s.closed && e.at <= c.deadlines.commit && Some(e.event.actor) == s.clerkKey
    && p.caseId == c.caseId && Some(p.root) == s.root
    && p.committed == SortedTexts(s.commits.Keys) && s.commits.Keys == Elements(s.panel)
  }

  predicate MayReveal(s: ReviewState, e: ReviewEntry)
    requires e.event.payload.ReviewRevealed? && s.opening.Some?
  {
    var c, p, r := s.opening.value, e.event.payload, e.event.actor;
    && s.phase == Reviewing && s.closed && e.at <= c.deadlines.revealing
    && r in s.panel && r in s.commits && r !in s.ballots
    && p.caseId == c.caseId && Some(p.root) == s.root
    && ValidBallot(p.ballot, c, p.root, r, s.contributions.Keys)
    && s.commits[r] == CommitTo(p.ballot, p.salt)
  }

  predicate MayDecide(s: ReviewState, e: ReviewEntry)
    requires e.event.payload.DecisionRecorded? && s.opening.Some?
  {
    var c := s.opening.value;
    && s.phase == Reviewing && s.closed && s.decision.None? && Some(e.event.actor) == s.clerkKey
    && (|s.ballots| < |s.panel| ==> c.deadlines.revealing <= e.at) && e.at <= c.deadlines.appeal
    && s.root.Some? && |c.agents| == 2
    && Aggregated(c, s.root.value, BallotList(s.ballots, s.root.value, s.revealed), s.contributions.Keys)
       == Accept(e.event.payload.decision)
  }

  /** Events up to the assignment of reviewers. */
  function TranscriptStep(digests: RootDigests, s: ReviewState, e: ReviewEntry): Result<ReviewState> {
    var p := e.event.payload;
    if p.CaseOpened? then (if MayOpen(s, e) then Accept(Opened(s, e)) else Reject)
    else if s.opening.None? then Reject
    else
      match p
      case ContributionAdded(v) =>
        if MayContribute(s, e)
        then Accept(s.(contributions := s.contributions[v.contributionId := Added(v, e.hash)]))
        else Reject
      case TechnicalRecorded(report) =>
        if MayReport(s, e) then Accept(s.(technical := Some(report), technicalHash := Some(e.hash))) else Reject
      case EvidenceSealed(_, root, _, _, _) =>
        if MaySeal(s, e) then Accept(s.(root := Some(root), phase := Sealed)) else Reject
      case ReviewersAssigned(_, _, _, panel) =>
        if MayAssign(digests, s, e) then Accept(s.(panel := panel, phase := Reviewing)) else Reject
      case _ => Reject
  }

  /** Events of the sealed review. */
  function ReviewStep(s: ReviewState, e: ReviewEntry): Result<ReviewState> {
    var actor := e.event.actor;
    if s.opening.None? then Reject
    else
      match e.event.payload
      case ReviewCommitted(_, _, commitment) =>
        if MayCommit(s, e) then Accept(s.(commits := s.commits[actor := commitment])) else Reject
      case CommitPhaseClosed(_, _, _) =>
        if MayClose(s, e) then Accept(s.(closed := true)) else Reject
      case ReviewRevealed(_, _, ballot, _) =>
        if MayReveal(s, e)
        then Accept(s.(ballots := s.ballots[actor := ballot], revealed := s.revealed + [actor]))
        else Reject
      case DecisionRecorded(decision) =>
        if MayDecide(s, e) then Accept(s.(decision := Some(decision), phase := Provisional)) else Reject
      case _ => Reject
  }

  predicate InReview(p: ReviewPayload) {
    p.ReviewCommitted? || p.CommitPhaseClosed? || p.ReviewRevealed? || p.DecisionRecorded?
  }

  /** ProtocolState.apply: Reject raises, and an accepted event yields the next state. */
  function Step(digests: RootDigests, s: ReviewState, e: ReviewEntry): Result<ReviewState> {
    if InReview(e.event.payload) then ReviewStep(s, e) else TranscriptStep(digests, s, e)
  }

  function Run(digests: RootDigests, entries: seq<ReviewEntry>): Result<ReviewState> {
    if entries == [] then Accept(Unstarted)
    else
      match Run(digests, entries[..|entries| - 1])
      case Reject => Reject
      case Accept(s) => Step(digests, s, entries[|entries| - 1])
  }

  /** replay_ledger: the chain must verify, then every entry must be accepted. */
  ghost function Replay(digests: RootDigests, entries: seq<ReviewEntry>): Result<ReviewState> {
    if Verified(ReviewRules, entries) then Run(digests, entries) else Reject
  }
}
