/**
 A two-agent review read from its transcript alone: what each entry puts on record, and which entry may come next.
 Nothing here keeps a state; everything is looked up in the entries so far.
 */
module ReviewHistory {
  import opened Basics
  import opened Ordering
  import opened Chain
  import opened ReviewPanel
  import opened ReviewTypes
  import opened ReviewDecision

  type Transcript = seq<ReviewEntry>

  // ----- What entries put on record -----

  datatype Item =
    | CaseItem | ContributionItem(id: Id) | ReportItem | SealItem | PanelItem | CommitItem(reviewer: Key) | CloseItem
    | BallotItem(reviewer: Key) | DecisionItem

  predicate Introduces(event: ReviewEvent, i: Item) {
    match i
    case CaseItem => event.payload.CaseOpened?
    case ContributionItem(id) => event.payload.ContributionAdded? && event.payload.contribution.contributionId == id
    case ReportItem => event.payload.TechnicalRecorded?
    case SealItem => event.payload.EvidenceSealed?
    case PanelItem => event.payload.ReviewersAssigned?
    case CommitItem(reviewer) => event.payload.ReviewCommitted? && event.actor == reviewer
    case CloseItem => event.payload.CommitPhaseClosed?
    case BallotItem(reviewer) => event.payload.ReviewRevealed? && event.actor == reviewer
    case DecisionItem => event.payload.DecisionRecorded?
  }

  ghost predicate IntroducedAt(es: Transcript, k: nat, i: Item) {
    k < |es| && Introduces(es[k].event, i)
  }

  ghost predicate Has(es: Transcript, i: Item) {
    exists k: nat :: IntroducedAt(es, k, i)
  }

  ghost function Position(es: Transcript, i: Item): (k: nat)
    requires Has(es, i)
    ensures IntroducedAt(es, k, i)
  {
    var k: nat :| IntroducedAt(es, k, i);
    k
  }

  ghost function EntryFor(es: Transcript, i: Item): (e: ReviewEntry)
    requires Has(es, i)
    ensures Introduces(e.event, i)
  {
    es[Position(es, i)]
  }

  ghost function Said(es: Transcript, i: Item): (p: ReviewPayload)
    requires Has(es, i)
    ensures Introduces(EntryFor(es, i).event, i) && p == EntryFor(es, i).event.payload
  {
    EntryFor(es, i).event.payload
  }

  /** The revealed ballots, in the order they came. */
  function BallotsNow(es: Transcript): seq<ReviewBallot> {
    if es == [] then []
    else
      var p := es[|es| - 1].event.payload;
      BallotsNow(es[..|es| - 1]) + if p.ReviewRevealed? then [p.ballot] else []
  }

  // ----- The frozen case -----

  ghost function Case(es: Transcript): ReviewCase
    requires Has(es, CaseItem)
  {
    Said(es, CaseItem).opening
  }

  ghost predicate ByClerk(es: Transcript, e: ReviewEntry)
    requires Has(es, CaseItem)
  {
    e.event.actor == EntryFor(es, CaseItem).event.actor
  }

  /** Two agents, each under a controller of its own. */
  ghost predicate TwoAgents(c: ReviewCase) {
    exists a, b ::
      && a != b && c.agents.Keys == {a, b} && c.controllers.Keys == {a, b}
      && c.controllers[a] != c.controllers[b]
  }

  /** Positive weights under different names that make up the whole. */
  ghost predicate FairCriteria(criteria: seq<Criterion>) {
    && 2 <= |criteria| <= 12 && Sum(Weights(criteria)) == 10_000
    && (forall i :: 0 <= i < |criteria| ==> 0 < criteria[i].weight)
    && (forall i, j :: 0 <= i < |criteria| && 0 <= j < |criteria| && criteria[i].name == criteria[j].name ==> i == j)
  }

  predicate FairLimits(c: ReviewCase) {
    && c.deadlines.submission < c.deadlines.commit && c.deadlines.commit < c.deadlines.revealing
    && c.deadlines.revealing < c.deadlines.appeal
    && 0 <= c.floorBps < 5_000 && 0 <= c.policy.maxDispersionBps <= 10_000
    && 3 <= c.policy.quorum <= c.policy.panel.panelSize <= 21 && c.policy.panel.panelSize % 2 != 0
    && 1 <= c.policy.panel.minPasses <= c.policy.panel.minTotal <= 100
    && 0 <= c.policy.panel.minRevealRate <= 10_000
  }

  /** Reviewers with possible records, one profile for each, and all of those that the case froze. */
  ghost predicate FrozenRoster(c: ReviewCase, roster: seq<Profile>) {
    && (forall p :: p in roster ==> 0 <= p.passes <= p.total <= 100_000 && 0 <= p.revealRate <= 10_000)
    && (forall i, j ::
        0 <= i < |roster| && 0 <= j < |roster| && roster[i].reviewerId == roster[j].reviewerId ==> i == j)
    && c.policy.rosterDigest.RosterOf? && forall p :: p in c.policy.rosterDigest.profiles <==> p in roster
  }

  // ----- Which entry may come next -----

  ghost predicate LawfulOpening(es: Transcript, e: ReviewEntry)
    requires e.event.payload.CaseOpened?
  {
    var p := e.event.payload;
    && es == [] && e.seqNo == 0 && e.event.actor == p.clerkKey
    && TwoAgents(p.opening) && FairCriteria(p.opening.criteria) && FairLimits(p.opening)
    && FrozenRoster(p.opening, p.reviewers)
  }

  ghost predicate LawfulContribution(es: Transcript, e: ReviewEntry)
    requires e.event.payload.ContributionAdded?
  {
    var v := e.event.payload.contribution;
    && Has(es, CaseItem) && !Has(es, SealItem) && e.at <= Case(es).deadlines.submission && v.caseId == Case(es).caseId
    && v.agentId in Case(es).agents && e.event.actor == Case(es).agents[v.agentId]
    && !Has(es, ContributionItem(v.contributionId))
    && NoDuplicates(v.dependsOn) && forall d :: d in v.dependsOn ==> Has(es, ContributionItem(d))
  }

  ghost predicate LawfulReport(es: Transcript, e: ReviewEntry)
    requires e.event.payload.TechnicalRecorded?
  {
    var r := e.event.payload.report;
    && Has(es, CaseItem) && !Has(es, SealItem) && !Has(es, ReportItem) && e.at <= Case(es).deadlines.commit
    && e.event.actor == Case(es).verifierKey && r.caseId == Case(es).caseId && r.environment == Case(es).environment
  }

  /** The root names the case, every contribution's entry, and the report's. */
  ghost predicate Binds(es: Transcript, root: EvidenceRoot)
    requires Has(es, CaseItem) && Has(es, ReportItem)
  {
    && root.RootOf? && root.caseId == Case(es).caseId && root.technical == EntryFor(es, ReportItem).hash
    && forall id :: (id in root.contributions <==> Has(es, ContributionItem(id)))
                    && (id in root.contributions ==>
                          root.contributions[id] == EntryFor(es, ContributionItem(id)).hash)
  }

  /** Contributed to the transcript. */
  ghost predicate Contributed(es: Transcript, agent: Id) {
    exists id :: Has(es, ContributionItem(id)) && Said(es, ContributionItem(id)).contribution.agentId == agent
  }

  ghost predicate LawfulSeal(es: Transcript, e: ReviewEntry)
    requires e.event.payload.EvidenceSealed?
  {
    var p := e.event.payload;
    && Has(es, CaseItem) && !Has(es, SealItem) && e.at <= Case(es).deadlines.commit && ByClerk(es, e)
    && p.caseId == Case(es).caseId && Has(es, ReportItem) && Said(es, ReportItem).report.pass
    && (forall a :: a in Case(es).agents ==> Contributed(es, a))
    && SortedBy(TextLe, p.contributionIds)
    && (forall id :: id in p.contributionIds <==> Has(es, ContributionItem(id)))
    && p.reportDigest == Said(es, ReportItem).report.report
    && p.artifactDigest == Said(es, ReportItem).report.artifact
    && Binds(es, p.root)
  }

  /** Under the seal of this case. */
  ghost predicate UnderSeal(es: Transcript, caseId: Id, root: EvidenceRoot) {
    Has(es, CaseItem) && Has(es, SealItem) && caseId == Case(es).caseId && root == Said(es, SealItem).root
  }

  ghost predicate LawfulAssignment(digests: Digests<EvidenceRoot>, es: Transcript, e: ReviewEntry)
    requires e.event.payload.ReviewersAssigned?
  {
    var p := e.event.payload;
    && UnderSeal(es, p.caseId, p.root) && !Has(es, PanelItem) && e.at <= Case(es).deadlines.commit && ByClerk(es, e)
    && var c := Case(es);
    && exists chosen: seq<Profile> ::
        && FairPanel(digests, c.policy.panel, c.caseId, c.controllers.Values, Said(es, CaseItem).reviewers, p.seed,
                     p.root, chosen)
        && |p.panel| == |chosen| && forall i :: 0 <= i < |chosen| ==> p.panel[i] == chosen[i].reviewerId
  }

  ghost predicate OnPanel(es: Transcript, reviewer: Key) {
    Has(es, PanelItem) && reviewer in Said(es, PanelItem).panel
  }

  ghost predicate LawfulCommit(es: Transcript, e: ReviewEntry)
    requires e.event.payload.ReviewCommitted?
  {
    var p := e.event.payload;
    && UnderSeal(es, p.caseId, p.root) && !Has(es, CloseItem) && e.at <= Case(es).deadlines.commit
    && OnPanel(es, e.event.actor) && !Has(es, CommitItem(e.event.actor))
  }

  ghost predicate LawfulClose(es: Transcript, e: ReviewEntry)
    requires e.event.payload.CommitPhaseClosed?
  {
    var p := e.event.payload;
    && UnderSeal(es, p.caseId, p.root) && !Has(es, CloseItem) && e.at <= Case(es).deadlines.commit && ByClerk(es, e)
    && Has(es, PanelItem) && SortedBy(TextLe, p.committed)
    && forall r :: (r in p.committed <==> Has(es, CommitItem(r))) && (r in p.committed <==> OnPanel(es, r))
  }

  /** Both agents scored from 0 to 4 on a criterion, on findings that cite the transcript. */
  ghost predicate Judged(es: Transcript, c: ReviewCase, scores: map<Id, int>, finding: Finding) {
    && (forall a :: a in scores <==> a in c.agents) && (forall a :: a in scores ==> 0 <= scores[a] <= 4)
    && finding.refs != [] && NoDuplicates(finding.refs)
    && forall id :: id in finding.refs ==> Has(es, ContributionItem(id))
  }

  ghost predicate LawfulBallot(es: Transcript, c: ReviewCase, b: ReviewBallot) {
    && b.caseId == c.caseId && 0 <= b.confidence <= 10_000
    && (forall n :: n in b.scores <==> exists j :: 0 <= j < |c.criteria| && c.criteria[j].name == n)
    && (forall n :: n in b.scores <==> n in b.findings)
    && forall n :: n in b.scores && n in b.findings ==> Judged(es, c, b.scores[n], b.findings[n])
  }

  ghost predicate LawfulReveal(es: Transcript, e: ReviewEntry)
    requires e.event.payload.ReviewRevealed?
  {
    var p, r := e.event.payload, e.event.actor;
    && UnderSeal(es, p.caseId, p.root) && Has(es, CloseItem) && !Has(es, DecisionItem)
    && e.at <= Case(es).deadlines.revealing && !Has(es, BallotItem(r))
    && Has(es, CommitItem(r)) && Said(es, CommitItem(r)).commitment == CommitTo(p.ballot, p.salt)
    && LawfulBallot(es, Case(es), p.ballot) && p.ballot.root == p.root && p.ballot.reviewerId == r
  }

  ghost predicate LawfulDecision(es: Transcript, e: ReviewEntry)
    requires e.event.payload.DecisionRecorded?
  {
    && Has(es, CaseItem) && Has(es, SealItem) && Has(es, CloseItem) && !Has(es, DecisionItem) && ByClerk(es, e)
    && ((forall r :: OnPanel(es, r) ==> Has(es, BallotItem(r))) || Case(es).deadlines.revealing <= e.at)
    && e.at <= Case(es).deadlines.appeal && |Case(es).agents| == 2
    && e.event.payload.decision == Outcome(Case(es), Said(es, SealItem).root, BallotsNow(es))
  }

  /** Whether an entry may follow a transcript, decided by reading the transcript. */
  ghost predicate Lawful(digests: Digests<EvidenceRoot>, es: Transcript, e: ReviewEntry) {
    match e.event.payload
    case CaseOpened(_, _, _) => LawfulOpening(es, e)
    case ContributionAdded(_) => LawfulContribution(es, e)
    case TechnicalRecorded(_) => LawfulReport(es, e)
    case EvidenceSealed(_, _, _, _, _) => LawfulSeal(es, e)
    case ReviewersAssigned(_, _, _, _) => LawfulAssignment(digests, es, e)
    case ReviewCommitted(_, _, _) => LawfulCommit(es, e)
    case CommitPhaseClosed(_, _, _) => LawfulClose(es, e)
    case ReviewRevealed(_, _, _, _) => LawfulReveal(es, e)
    case DecisionRecorded(_) => LawfulDecision(es, e)
    case UnsupportedKind(_) => false
  }
}
