/** Who may write each entry of a two-agent review, and by when. */
module ReviewAuthority {
  import opened Basics
  import opened ReviewTypes
  import opened ReviewSteps
  import opened ReviewRuns

  /** The party the frozen case entitles to an event, within its deadline. */
  predicate Entitled(c: ReviewCase, clerk: Option<Key>, panel: seq<Key>, e: ReviewEntry) {
    match e.event.payload
    case CaseOpened(_, _, _) => Some(e.event.actor) == clerk
    case ContributionAdded(v) => v.agentId in c.agents && e.event.actor == c.agents[v.agentId]
        && e.at <= c.deadlines.submission
    case TechnicalRecorded(_) => e.event.actor == c.verifierKey && e.at <= c.deadlines.commit
    case EvidenceSealed(_, _, _, _, _) => Some(e.event.actor) == clerk && e.at <= c.deadlines.commit
    case ReviewersAssigned(_, _, _, _) => Some(e.event.actor) == clerk && e.at <= c.deadlines.commit
    case ReviewCommitted(_, _, _) => e.event.actor in panel && e.at <= c.deadlines.commit
    case CommitPhaseClosed(_, _, _) => Some(e.event.actor) == clerk && e.at <= c.deadlines.commit
    case ReviewRevealed(_, _, _, _) => e.event.actor in panel && e.at <= c.deadlines.revealing
    case DecisionRecorded(_) => Some(e.event.actor) == clerk && e.at <= c.deadlines.appeal
    case UnsupportedKind(_) => false
  }

  /** The case and clerk are frozen at opening, and the panel once it is published. */
  ghost predicate SameParties(s: ReviewState, t: ReviewState) {
    s.opening.Some? ==> t.opening == s.opening && t.clerkKey == s.clerkKey && (s.panel != [] ==> t.panel == s.panel)
  }

  lemma StepEntitled(digests: RootDigests, s: ReviewState, e: ReviewEntry, t: ReviewState)
    requires CaseOk(s) && Step(digests, s, e) == Accept(t)
    ensures t.opening.Some? && Entitled(t.opening.value, t.clerkKey, t.panel, e) && SameParties(s, t)
  {
    if InReview(e.event.payload) {
      ReviewEntitled(s, e, t);
    } else {
      TranscriptEntitled(digests, s, e, t);
    }
  }

  lemma ReviewEntitled(s: ReviewState, e: ReviewEntry, t: ReviewState)
    requires ReviewStep(s, e) == Accept(t)
    ensures t.opening.Some? && Entitled(t.opening.value, t.clerkKey, t.panel, e) && SameParties(s, t)
  {
    hide ValidBallot, Names;
  }

  lemma OpeningEntitled(digests: RootDigests, s: ReviewState, e: ReviewEntry, t: ReviewState)
    requires CaseOk(s) && TranscriptStep(digests, s, e) == Accept(t) && e.event.payload.CaseOpened?
    ensures t.opening.Some? && Entitled(t.opening.value, t.clerkKey, t.panel, e) && SameParties(s, t)
  {
    hide ValidCase, ValidRoster, RootOver, ContributingAgents;
  }

  lemma CollectionEntitled(digests: RootDigests, s: ReviewState, e: ReviewEntry, t: ReviewState)
    requires CaseOk(s) && TranscriptStep(digests, s, e) == Accept(t) && !e.event.payload.CaseOpened?
    ensures t.opening.Some? && Entitled(t.opening.value, t.clerkKey, t.panel, e) && SameParties(s, t)
  {
    hide MayOpen, ValidCase, ValidRoster, ValidReport, RootOver, PanelFor, ContributingAgents;
  }

  lemma TranscriptEntitled(digests: RootDigests, s: ReviewState, e: ReviewEntry, t: ReviewState)
    requires CaseOk(s) && TranscriptStep(digests, s, e) == Accept(t)
    ensures t.opening.Some? && Entitled(t.opening.value, t.clerkKey, t.panel, e) && SameParties(s, t)
  {
    hide CaseOk, TranscriptStep, Entitled, SameParties;
    if e.event.payload.CaseOpened? {
      OpeningEntitled(digests, s, e, t);
    } else {
      CollectionEntitled(digests, s, e, t);
    }
  }

  /** An entitlement outlives everything that follows. */
  lemma StillEntitled(s: ReviewState, t: ReviewState, e: ReviewEntry)
    requires s.opening.Some? && Entitled(s.opening.value, s.clerkKey, s.panel, e) && SameParties(s, t)
    ensures t.opening.Some? && Entitled(t.opening.value, t.clerkKey, t.panel, e)
  {}

  /**
   In every run, each entry was signed by the party the frozen case, the clerk and the published panel entitle to it,
   and arrived by its deadline.
   */
  lemma {:induction false} EveryEntryEntitled(digests: RootDigests, entries: seq<ReviewEntry>, s: ReviewState, i: nat)
    requires Run(digests, entries) == Accept(s) && i < |entries|
    ensures s.opening.Some? && Entitled(s.opening.value, s.clerkKey, s.panel, entries[i])
  {
    hide Step, Entitled, SameParties, CaseOk;
    var n := |entries| - 1;
    var before := Run(digests, entries[..n]).value;
    RunOk(digests, entries[..n], before);
    StepEntitled(digests, before, entries[n], s);
    if i < n {
      EveryEntryEntitled(digests, entries[..n], before, i);
      StillEntitled(before, s, entries[i]);
    }
  }
}
