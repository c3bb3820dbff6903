/** What every run of the two-agent review keeps, and what two continuations of one transcript share. */
module ReviewRuns {
  import opened Basics
  import opened ReviewPanel
  import opened ReviewTypes
  import opened ReviewDecision
  import opened ReviewSteps

  // ----- Invariants -----

  /** The opened case is valid, and evidence is sealed exactly from the sealing on, over the transcript as it stands. */
  ghost predicate CaseOk(s: ReviewState) {
    && (s.opening.Some? <==> s.phase != Unopened)
    && (s.opening.Some? ==> s.clerkKey.Some? && ValidCase(s.opening.value))
    && (s.opening.Some? ==> ValidRoster(s.roster, s.opening.value.policy.rosterDigest))
    && (s.root.Some? <==> s.phase in {Sealed, Reviewing, Provisional}) && (s.root.Some? ==> s.root == ExpectedRoot(s))
    && (s.phase in {Unopened, Collecting, Sealed} ==> s.panel == [] && s.commits == map[] && !s.closed)
    && (s.decision.Some? <==> s.phase == Provisional) && (s.phase == Provisional ==> s.closed)
  }

  /** Only assigned reviewers commit, all of them before the close, and only after it does anyone reveal. */
  ghost predicate CommitsOk(s: ReviewState) {
    && s.commits.Keys <= Elements(s.panel)
    && (s.closed ==> s.commits.Keys == Elements(s.panel))
    && (!s.closed ==> s.ballots == map[])
  }

  /** A revealed ballot is valid and is the one its reviewer committed to. */
  ghost predicate BallotOk(s: ReviewState, r: Key)
    requires r in s.ballots
  {
    && s.opening.Some? && s.root.Some? && r in s.commits
    && ValidBallot(s.ballots[r], s.opening.value, s.root.value, r, s.contributions.Keys)
    && s.commits[r].CommitTo? && s.commits[r].ballot == s.ballots[r]
  }

  ghost predicate BallotsOk(s: ReviewState) {
    && (forall r :: r in s.ballots ==> BallotOk(s, r))
    && Elements(s.revealed) == s.ballots.Keys && NoDuplicates(s.revealed)
  }

  /** The panel is the one the digests select for some seed. */
  ghost predicate PanelOk(digests: RootDigests, s: ReviewState) {
    s.phase in {Reviewing, Provisional} ==>
      s.opening.Some? && s.root.Some? && exists seed ::
          SeedGives(digests, s.opening.value, s.roster, seed, s.root.value, s.panel)
  }

  predicate SeedGives(digests: RootDigests, c: ReviewCase, roster: seq<Profile>, seed: string,
                      root: EvidenceRoot, panel: seq<Key>) {
    var chosen := PanelFor(digests, c, roster, seed, root);
    chosen.Some? && panel == Keys(chosen.value)
  }

  /** A recorded decision is the aggregate of the revealed ballots. */
  ghost predicate DecisionOk(s: ReviewState) {
    s.decision.Some? ==>
      && s.opening.Some? && s.root.Some? && |s.opening.value.agents| == 2
      && Aggregated(s.opening.value, s.root.value, BallotList(s.ballots, s.root.value, s.revealed),
                    s.contributions.Keys)
         == Accept(s.decision.value)
  }

  ghost predicate StateOk(digests: RootDigests, s: ReviewState) {
    CaseOk(s) && CommitsOk(s) && BallotsOk(s) && PanelOk(digests, s) && DecisionOk(s)
  }

  /** What the transcript's events leave alone, and when they happen. */
  ghost predicate TranscriptFrame(s: ReviewState, t: ReviewState) {
    && t.commits == s.commits && t.closed == s.closed && t.ballots == s.ballots && t.revealed == s.revealed
    && t.decision == s.decision && s.phase in {Unopened, Collecting, Sealed}
  }

  /** What the review's events leave alone, and when they happen. */
  ghost predicate ReviewFrame(s: ReviewState, t: ReviewState) {
    && t.opening == s.opening && t.clerkKey == s.clerkKey && t.roster == s.roster && t.contributions == s.contributions
    && t.technical == s.technical && t.technicalHash == s.technicalHash && t.root == s.root && t.panel == s.panel
    && s.phase == Reviewing && t.phase in {Reviewing, Provisional}
  }

  lemma TranscriptPhases(digests: RootDigests, s: ReviewState, e: ReviewEntry)
    requires s.opening.Some?
    ensures e.event.payload.ContributionAdded? && MayContribute(s, e) ==> s.phase == Collecting
    ensures e.event.payload.TechnicalRecorded? && MayReport(s, e) ==> s.phase == Collecting
    ensures e.event.payload.EvidenceSealed? && MaySeal(s, e) ==> s.phase == Collecting
    ensures e.event.payload.ReviewersAssigned? && MayAssign(digests, s, e) ==> s.phase == Sealed
  {
    hide ValidContribution, ValidReport, RootOver, PanelFor;
  }

  lemma OpeningPhase(s: ReviewState, e: ReviewEntry)
    requires e.event.payload.CaseOpened? && MayOpen(s, e)
    ensures s.phase == Unopened
  {
    hide ValidCase, ValidRoster;
  }

  lemma TranscriptFrames(digests: RootDigests, s: ReviewState, e: ReviewEntry, t: ReviewState)
    requires TranscriptStep(digests, s, e) == Accept(t)
    ensures TranscriptFrame(s, t)
  {
    hide MayOpen, MayContribute, MayReport, MaySeal, MayAssign;
    if e.event.payload.CaseOpened? {
      OpeningPhase(s, e);
    } else {
      TranscriptPhases(digests, s, e);
    }
  }

  lemma ReviewFrames(s: ReviewState, e: ReviewEntry, t: ReviewState)
    requires ReviewStep(s, e) == Accept(t)
    ensures ReviewFrame(s, t)
  {
    hide ValidCase, ValidRoster, ValidContribution, ValidReport, ValidBallot, PanelFor, Aggregated, RootOver;
  }

  lemma OpeningKeepsCase(digests: RootDigests, s: ReviewState, e: ReviewEntry, t: ReviewState)
    requires CaseOk(s) && TranscriptStep(digests, s, e) == Accept(t) && e.event.payload.CaseOpened?
    ensures CaseOk(t)
  {
    hide ValidCase, ValidRoster, RootOver, ContributingAgents;
  }

  lemma AssignmentKeepsCase(digests: RootDigests, s: ReviewState, e: ReviewEntry, t: ReviewState)
    requires CaseOk(s) && TranscriptStep(digests, s, e) == Accept(t) && e.event.payload.ReviewersAssigned?
    ensures CaseOk(t)
  {
    hide ValidCase, ValidRoster, PanelFor, RootOver, ContributingAgents;
  }

  lemma CollectionKeepsCase(digests: RootDigests, s: ReviewState, e: ReviewEntry, t: ReviewState)
    requires CaseOk(s) && TranscriptStep(digests, s, e) == Accept(t)
    requires !e.event.payload.CaseOpened? && !e.event.payload.ReviewersAssigned?
    ensures CaseOk(t)
  {
    hide ValidCase, ValidRoster, ValidContribution, ValidReport, RootOver, Elements, ContributingAgents, MayOpen,
         MayAssign;
  }

  lemma CaseKept(digests: RootDigests, s: ReviewState, e: ReviewEntry, t: ReviewState)
    requires CaseOk(s) && TranscriptStep(digests, s, e) == Accept(t)
    ensures CaseOk(t)
  {
    hide CaseOk, TranscriptStep;
    if e.event.payload.CaseOpened? {
      OpeningKeepsCase(digests, s, e, t);
    } else if e.event.payload.ReviewersAssigned? {
      AssignmentKeepsCase(digests, s, e, t);
    } else {
      CollectionKeepsCase(digests, s, e, t);
    }
  }

  lemma CaseReviewed(s: ReviewState, e: ReviewEntry, t: ReviewState)
    requires CaseOk(s) && ReviewStep(s, e) == Accept(t)
    ensures CaseOk(t)
  {
    hide ValidCase, ValidRoster, ValidContribution, ValidReport, ValidBallot, PanelFor, Aggregated, RootOver, Elements,
      ContributingAgents;
  }

  lemma CommitsReviewed(s: ReviewState, e: ReviewEntry, t: ReviewState)
    requires CaseOk(s) && CommitsOk(s) && ReviewStep(s, e) == Accept(t)
    ensures CommitsOk(t)
  {
    hide ValidCase, ValidRoster, ValidContribution, ValidReport, ValidBallot, PanelFor, Aggregated, RootOver;
  }

  lemma BallotsReviewed(s: ReviewState, e: ReviewEntry, t: ReviewState)
    requires BallotsOk(s) && ReviewStep(s, e) == Accept(t)
    ensures BallotsOk(t)
  {
    hide ValidCase, ValidRoster, ValidContribution, ValidReport, ValidBallot, PanelFor, Aggregated, RootOver;
    if e.event.payload.ReviewRevealed? {
      var r := e.event.actor;
      assert forall x :: x in s.revealed <==> x in Elements(s.revealed);
      assert Elements(t.revealed) == Elements(s.revealed) + {r};
      forall x | x in t.ballots ensures BallotOk(t, x) {
        if x != r {
          assert BallotOk(s, x);
        }
      }
    } else {
      forall x | x in t.ballots ensures BallotOk(t, x) {
        assert BallotOk(s, x);
      }
    }
  }

  /** Nothing is committed or revealed while the transcript grows. */
  lemma TranscriptReviewless(s: ReviewState, t: ReviewState)
    requires CaseOk(s) && CommitsOk(s) && BallotsOk(s) && TranscriptFrame(s, t)
    ensures CommitsOk(t) && BallotsOk(t)
  {}

  lemma AssignmentKeepsPanel(digests: RootDigests, s: ReviewState, e: ReviewEntry, t: ReviewState)
    requires TranscriptStep(digests, s, e) == Accept(t) && e.event.payload.ReviewersAssigned?
    ensures PanelOk(digests, t)
  {
    hide ValidCase, PanelFor, RootOver;
    assert SeedGives(digests, t.opening.value, t.roster, e.event.payload.seed, t.root.value, t.panel);
  }

  lemma CollectionPhases(digests: RootDigests, s: ReviewState, e: ReviewEntry, t: ReviewState)
    requires TranscriptStep(digests, s, e) == Accept(t) && !e.event.payload.ReviewersAssigned?
    ensures t.phase == Collecting || t.phase == Sealed
  {
    hide ValidCase, ValidRoster, ValidContribution, ValidReport, RootOver, MayAssign, ContributingAgents, Elements;
  }

  lemma CollectionKeepsPanel(digests: RootDigests, s: ReviewState, e: ReviewEntry, t: ReviewState)
    requires TranscriptStep(digests, s, e) == Accept(t) && !e.event.payload.ReviewersAssigned?
    ensures PanelOk(digests, t)
  {
    hide TranscriptStep, SeedGives;
    CollectionPhases(digests, s, e, t);
  }

  lemma PanelKept(digests: RootDigests, s: ReviewState, e: ReviewEntry, t: ReviewState)
    requires CaseOk(s) && PanelOk(digests, s) && TranscriptStep(digests, s, e) == Accept(t)
    ensures PanelOk(digests, t)
  {
    hide CaseOk, PanelOk, TranscriptStep;
    if e.event.payload.ReviewersAssigned? {
      AssignmentKeepsPanel(digests, s, e, t);
    } else {
      CollectionKeepsPanel(digests, s, e, t);
    }
  }

  lemma PanelReviewed(digests: RootDigests, s: ReviewState, t: ReviewState)
    requires PanelOk(digests, s) && ReviewFrame(s, t)
    ensures PanelOk(digests, t)
  {
    hide SeedGives;
    var seed :| SeedGives(digests, s.opening.value, s.roster, seed, s.root.value, s.panel);
    assert SeedGives(digests, t.opening.value, t.roster, seed, t.root.value, t.panel);
  }

  lemma DecisionReviewed(s: ReviewState, e: ReviewEntry, t: ReviewState)
    requires CaseOk(s) && DecisionOk(s) && ReviewStep(s, e) == Accept(t)
    ensures DecisionOk(t)
  {
    hide ValidCase, ValidRoster, ValidContribution, ValidReport, ValidBallot, PanelFor, Aggregated, RootOver;
  }

  lemma StepKeeps(digests: RootDigests, s: ReviewState, e: ReviewEntry, t: ReviewState)
    requires StateOk(digests, s) && Step(digests, s, e) == Accept(t)
    ensures StateOk(digests, t)
  {
    hide CommitsOk, BallotsOk, PanelOk, TranscriptStep, ReviewStep, ReviewFrame, ValidCase, ValidRoster, RootOver;
    if InReview(e.event.payload) {
      ReviewFrames(s, e, t);
      CaseReviewed(s, e, t);
      CommitsReviewed(s, e, t);
      BallotsReviewed(s, e, t);
      PanelReviewed(digests, s, t);
      DecisionReviewed(s, e, t);
    } else {
      TranscriptFrames(digests, s, e, t);
      CaseKept(digests, s, e, t);
      TranscriptReviewless(s, t);
      PanelKept(digests, s, e, t);
    }
  }

  /** Every replayed state satisfies the invariants. */
  lemma {:induction false} RunOk(digests: RootDigests, entries: seq<ReviewEntry>, s: ReviewState)
    requires Run(digests, entries) == Accept(s)
    ensures StateOk(digests, s)
  {
    if entries != [] {
      hide StateOk, Step;
      var before := Run(digests, entries[..|entries| - 1]).value;
      RunOk(digests, entries[..|entries| - 1], before);
      StepKeeps(digests, before, entries[|entries| - 1], s);
    }
  }
}
