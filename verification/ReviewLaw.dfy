/**
 Which entries a two-agent review accepts, told by its transcript alone, and what its state holds of them: an entry is
 accepted exactly when it is lawful after the entries before it.
 */
module ReviewLaw {
  import opened Basics
  import opened Ordering
  import opened Chain
  import opened ReviewPanel
  import opened ReviewTypes
  import opened ReviewDecision
  import opened ReviewSteps
  import opened ReviewRuns
  import opened ReviewTheorems
  import opened ReviewHistory

  // ----- What an entry says of an item, and what a state holds of it -----

  datatype Note =
    | CaseNote(opening: ReviewCase, clerk: Key, roster: seq<Profile>) | ContributionNote(added: Added)
    | ReportNote(report: TechnicalReport, hash: Hash<ReviewEvent>) | SealNote(root: EvidenceRoot)
    | PanelNote(panel: seq<Key>) | CommitNote(commitment: BallotCommitment) | BallotNote(ballot: ReviewBallot)
    | DecisionNote(decision: Decision) | Marked

  /** What an entry puts on record. */
  function Notes(e: ReviewEntry): map<Item, Note> {
    match e.event.payload
    case CaseOpened(_, opening, reviewers) => map[CaseItem := CaseNote(opening, e.event.actor, reviewers)]
    case ContributionAdded(v) => map[ContributionItem(v.contributionId) := ContributionNote(Added(v, e.hash))]
    case TechnicalRecorded(report) => map[ReportItem := ReportNote(report, e.hash)]
    case EvidenceSealed(_, root, _, _, _) => map[SealItem := SealNote(root)]
    case ReviewersAssigned(_, _, _, panel) => map[PanelItem := PanelNote(panel)]
    case ReviewCommitted(_, _, commitment) => map[CommitItem(e.event.actor) := CommitNote(commitment)]
    case CommitPhaseClosed(_, _, _) => map[CloseItem := Marked]
    case ReviewRevealed(_, _, ballot, _) => map[BallotItem(e.event.actor) := BallotNote(ballot)]
    case DecisionRecorded(decision) => map[DecisionItem := DecisionNote(decision)]
    case UnsupportedKind(_) => map[]
  }

  lemma NotesCover(e: ReviewEntry, i: Item)
    ensures i in Notes(e) <==> Introduces(e.event, i)
  {}

  /** What a state holds of an item. */
  function Holds(s: ReviewState, i: Item): Option<Note> {
    match i
    case CaseItem =>
      if s.opening.Some? && s.clerkKey.Some?
      then Some(CaseNote(s.opening.value, s.clerkKey.value, s.roster)) else None
    case ContributionItem(id) => if id in s.contributions then Some(ContributionNote(s.contributions[id])) else None
    case ReportItem =>
      if s.technical.Some? && s.technicalHash.Some?
      then Some(ReportNote(s.technical.value, s.technicalHash.value)) else None
    case SealItem => if s.root.Some? then Some(SealNote(s.root.value)) else None
    case PanelItem => if s.phase == Reviewing || s.phase == Provisional then Some(PanelNote(s.panel)) else None
    case CommitItem(r) => if r in s.commits then Some(CommitNote(s.commits[r])) else None
    case CloseItem => if s.closed then Some(Marked) else None
    case BallotItem(r) => if r in s.ballots then Some(BallotNote(s.ballots[r])) else None
    case DecisionItem => if s.decision.Some? then Some(DecisionNote(s.decision.value)) else None
  }

  /** A noted item was not on record and now is, as noted; about any other item nothing changed. */
  predicate Takes(s: ReviewState, notes: map<Item, Note>, t: ReviewState, i: Item) {
    if i in notes then Holds(s, i).None? && Holds(t, i) == Some(notes[i]) else Holds(t, i) == Holds(s, i)
  }

  // ----- One entry -----

  /** The report and its hash come together. */
  predicate ReportOk(s: ReviewState) {
    s.technical.Some? <==> s.technicalHash.Some?
  }

  lemma OpeningTakes(s: ReviewState, e: ReviewEntry, t: ReviewState, i: Item)
    requires CaseOk(s) && e.event.payload.CaseOpened? && MayOpen(s, e) && t == Opened(s, e)
    ensures Takes(s, Notes(e), t, i)
  {
    hide ValidCase, ValidRoster, RootOver;
  }

  lemma ContributionTakes(s: ReviewState, e: ReviewEntry, t: ReviewState, i: Item)
    requires e.event.payload.ContributionAdded? && s.opening.Some? && MayContribute(s, e)
    requires var v := e.event.payload.contribution;
             t == s.(contributions := s.contributions[v.contributionId := Added(v, e.hash)])
    ensures Takes(s, Notes(e), t, i)
  {
    hide ValidContribution;
  }

  lemma ReportTakes(s: ReviewState, e: ReviewEntry, t: ReviewState, i: Item)
    requires e.event.payload.TechnicalRecorded? && s.opening.Some? && MayReport(s, e)
    requires t == s.(technical := Some(e.event.payload.report), technicalHash := Some(e.hash))
    ensures Takes(s, Notes(e), t, i)
  {
    hide ValidReport;
  }

  lemma SealTakes(s: ReviewState, e: ReviewEntry, t: ReviewState, i: Item)
    requires e.event.payload.EvidenceSealed? && s.root.None? && s.phase == Collecting
    requires t == s.(root := Some(e.event.payload.root), phase := Sealed)
    ensures Takes(s, Notes(e), t, i)
  {}

  lemma SealNeeds(s: ReviewState, e: ReviewEntry)
    requires e.event.payload.EvidenceSealed? && s.opening.Some? && MaySeal(s, e)
    ensures s.root.None? && s.phase == Collecting
  {
    hide RootOver, ContributingAgents;
  }

  lemma AssignmentTakes(digests: RootDigests, s: ReviewState, e: ReviewEntry, t: ReviewState, i: Item)
    requires e.event.payload.ReviewersAssigned? && s.opening.Some? && MayAssign(digests, s, e)
    requires t == s.(panel := e.event.payload.panel, phase := Reviewing)
    ensures Takes(s, Notes(e), t, i)
  {
    hide PanelFor;
  }

  lemma TranscriptTakes(digests: RootDigests, s: ReviewState, e: ReviewEntry, t: ReviewState, i: Item)
    requires CaseOk(s) && TranscriptStep(digests, s, e) == Accept(t)
    ensures Takes(s, Notes(e), t, i)
  {
    hide CaseOk, MayOpen, MayContribute, MayReport, MaySeal, MayAssign, Notes, Takes;
    var p := e.event.payload;
    if p.CaseOpened? {
      OpeningTakes(s, e, t, i);
    } else if p.ContributionAdded? {
      ContributionTakes(s, e, t, i);
    } else if p.TechnicalRecorded? {
      ReportTakes(s, e, t, i);
    } else if p.EvidenceSealed? {
      SealNeeds(s, e);
      SealTakes(s, e, t, i);
    } else {
      AssignmentTakes(digests, s, e, t, i);
    }
  }

  lemma CommitTakes(s: ReviewState, e: ReviewEntry, t: ReviewState, i: Item)
    requires e.event.payload.ReviewCommitted? && ReviewStep(s, e) == Accept(t)
    ensures Takes(s, Notes(e), t, i)
  {}

  lemma CloseTakes(s: ReviewState, e: ReviewEntry, t: ReviewState, i: Item)
    requires e.event.payload.CommitPhaseClosed? && ReviewStep(s, e) == Accept(t)
    ensures Takes(s, Notes(e), t, i)
  {
    hide Elements;
  }

  lemma RevealTakes(s: ReviewState, e: ReviewEntry, t: ReviewState, i: Item)
    requires e.event.payload.ReviewRevealed? && ReviewStep(s, e) == Accept(t)
    ensures Takes(s, Notes(e), t, i)
  {
    hide ValidBallot;
  }

  lemma DecisionTakes(s: ReviewState, e: ReviewEntry, t: ReviewState, i: Item)
    requires e.event.payload.DecisionRecorded? && ReviewStep(s, e) == Accept(t)
    ensures Takes(s, Notes(e), t, i)
  {
    hide Aggregated, BallotList;
  }

  lemma ReviewTakes(s: ReviewState, e: ReviewEntry, t: ReviewState, i: Item)
    requires ReviewStep(s, e) == Accept(t)
    ensures Takes(s, Notes(e), t, i)
  {
    hide MayCommit, MayClose, MayReveal, MayDecide, Notes, Takes;
    var p := e.event.payload;
    if p.ReviewCommitted? {
      CommitTakes(s, e, t, i);
    } else if p.CommitPhaseClosed? {
      CloseTakes(s, e, t, i);
    } else if p.ReviewRevealed? {
      RevealTakes(s, e, t, i);
    } else {
      DecisionTakes(s, e, t, i);
    }
  }

  /** Every accepted entry puts exactly its own items on record, none of which was there, and changes no other. */
  lemma StepTakes(digests: RootDigests, s: ReviewState, e: ReviewEntry, t: ReviewState, i: Item)
    requires CaseOk(s) && Step(digests, s, e) == Accept(t)
    ensures Takes(s, Notes(e), t, i)
  {
    hide CaseOk, TranscriptStep, ReviewStep, Takes;
    if InReview(e.event.payload) {
      ReviewTakes(s, e, t, i);
    } else {
      TranscriptTakes(digests, s, e, t, i);
    }
  }

  lemma ReportKept(digests: RootDigests, s: ReviewState, e: ReviewEntry, t: ReviewState)
    requires ReportOk(s) && Step(digests, s, e) == Accept(t)
    ensures ReportOk(t)
  {
    hide MayOpen, MayContribute, MayReport, MaySeal, MayAssign, ReviewStep;
    if InReview(e.event.payload) {
      ReviewFrames(s, e, t);
    }
  }

  /** The list of ballots, without the default that is never taken. */
  ghost predicate Listed(es: Transcript, s: ReviewState) {
    && |s.revealed| == |BallotsNow(es)|
    && forall j :: 0 <= j < |s.revealed| ==>
         s.revealed[j] in s.ballots && s.ballots[s.revealed[j]] == BallotsNow(es)[j]
  }

  lemma RevealListed(es: Transcript, s: ReviewState, t: ReviewState)
    requires es != [] && Listed(es[..|es| - 1], s) && es[|es| - 1].event.payload.ReviewRevealed?
    requires ReviewStep(s, es[|es| - 1]) == Accept(t)
    ensures Listed(es, t)
  {
    hide ValidBallot;
  }

  lemma ListedKept(digests: RootDigests, es: Transcript, s: ReviewState, t: ReviewState)
    requires es != [] && Listed(es[..|es| - 1], s) && Step(digests, s, es[|es| - 1]) == Accept(t)
    ensures Listed(es, t)
  {
    hide TranscriptStep, MayCommit, MayClose, MayDecide, MayReveal;
    var e := es[|es| - 1];
    if !InReview(e.event.payload) {
      TranscriptFrames(digests, s, e, t);
    } else if e.event.payload.ReviewRevealed? {
      RevealListed(es, s, t);
    }
  }

  // ----- Whole transcripts -----

  ghost predicate KeptAt(es: Transcript, s: ReviewState, k: nat, i: Item) {
    IntroducedAt(es, k, i) ==> i in Notes(es[k]) && Holds(s, i) == Some(Notes(es[k])[i])
  }

  /** The state holds what the transcript puts on record, each item as its entry said it, and nothing else. */
  ghost predicate Recorded(es: Transcript, s: ReviewState) {
    && (forall i :: Holds(s, i).Some? ==> Has(es, i))
    && (forall k: nat, i :: KeptAt(es, s, k, i))
  }

  lemma KeptNext(es: Transcript, s: ReviewState, t: ReviewState, k: nat, i: Item)
    requires es != [] && Takes(s, Notes(es[|es| - 1]), t, i) && KeptAt(es[..|es| - 1], s, k, i)
    ensures KeptAt(es, t, k, i)
  {
    hide Notes, Holds, Introduces;
    if IntroducedAt(es, k, i) {
      NotesCover(es[|es| - 1], i);
      if k < |es| - 1 {
        assert IntroducedAt(es[..|es| - 1], k, i);
      }
    }
  }

  lemma HeldWasIntroduced(es: Transcript, s: ReviewState, t: ReviewState, i: Item)
    requires es != [] && Takes(s, Notes(es[|es| - 1]), t, i) && (Holds(s, i).Some? ==> Has(es[..|es| - 1], i))
    ensures Holds(t, i).Some? ==> Has(es, i)
  {
    hide Notes, Holds, Introduces;
    NotesCover(es[|es| - 1], i);
    if Introduces(es[|es| - 1].event, i) {
      assert IntroducedAt(es, |es| - 1, i);
    } else if Has(es[..|es| - 1], i) {
      var k: nat :| IntroducedAt(es[..|es| - 1], k, i);
      assert IntroducedAt(es, k, i);
    }
  }

  lemma RecordedKept(digests: RootDigests, es: Transcript, s: ReviewState, t: ReviewState)
    requires es != [] && CaseOk(s) && Step(digests, s, es[|es| - 1]) == Accept(t) && Recorded(es[..|es| - 1], s)
    ensures Recorded(es, t)
  {
    hide Step, CaseOk, KeptAt, Takes, Has, Holds;
    forall i ensures Holds(t, i).Some? ==> Has(es, i) {
      StepTakes(digests, s, es[|es| - 1], t, i);
      HeldWasIntroduced(es, s, t, i);
    }
    forall k: nat, i ensures KeptAt(es, t, k, i) {
      StepTakes(digests, s, es[|es| - 1], t, i);
      KeptNext(es, s, t, k, i);
    }
  }

  lemma NothingRecorded()
    ensures Recorded([], Unstarted) && ReportOk(Unstarted) && Listed([], Unstarted)
  {}

  lemma {:induction false} RunRecorded(digests: RootDigests, es: Transcript, s: ReviewState)
    requires Run(digests, es) == Accept(s)
    ensures Recorded(es, s) && ReportOk(s) && Listed(es, s) && (es == [] <==> s.phase == Unopened)
  {
    hide Step, Recorded, ReportOk, Listed, StateOk;
    if es == [] {
      NothingRecorded();
    } else {
      var before := Run(digests, es[..|es| - 1]).value;
      RunRecorded(digests, es[..|es| - 1], before);
      assert CaseOk(before) by { RunCase(digests, es[..|es| - 1], before); }
      RecordedKept(digests, es, before, s);
      ReportKept(digests, before, es[|es| - 1], s);
      ListedKept(digests, es, before, s);
      Starts(digests, before, es[|es| - 1], s);
    }
  }

  lemma RunCase(digests: RootDigests, es: Transcript, s: ReviewState)
    requires Run(digests, es) == Accept(s)
    ensures CaseOk(s) && CommitsOk(s) && BallotsOk(s)
  {
    hide Run, CaseOk, CommitsOk, BallotsOk;
    RunOk(digests, es, s);
  }

  lemma Starts(digests: RootDigests, s: ReviewState, e: ReviewEntry, t: ReviewState)
    requires Step(digests, s, e) == Accept(t) && (s.opening.Some? <==> s.phase != Unopened)
    ensures t.phase != Unopened
  {
    hide MayOpen, MayContribute, MayReport, MaySeal, MayAssign, ReviewStep;
    if InReview(e.event.payload) {
      ReviewFrames(s, e, t);
    }
  }

  // ----- Looking things up -----

  lemma Look(es: Transcript, s: ReviewState, i: Item)
    requires Recorded(es, s)
    ensures Has(es, i) <==> Holds(s, i).Some?
    ensures Has(es, i) ==>
              var e := EntryFor(es, i);
              i in Notes(e) && Holds(s, i) == Some(Notes(e)[i])
  {
    hide Notes, Holds, Introduces;
    if Has(es, i) {
      assert KeptAt(es, s, Position(es, i), i);
    }
  }

  /** The phase tells which parts of a review exist. */
  predicate Staged(s: ReviewState) {
    && (s.opening.Some? <==> s.phase != Unopened) && (s.opening.Some? ==> s.clerkKey.Some?)
    && (s.phase == Collecting <==> s.opening.Some? && s.root.None?)
    && (s.closed ==> s.phase == Reviewing || s.phase == Provisional)
    && (s.decision.Some? <==> s.phase == Provisional) && (s.decision.Some? ==> s.closed)
    && (s.phase == Provisional ==> s.root.Some?) && (s.phase == Reviewing ==> s.root.Some?)
  }

  lemma StageOf(s: ReviewState)
    requires CaseOk(s)
    ensures Staged(s)
  {
    hide ValidCase, ValidRoster, RootOver;
  }

  lemma ReadCase(es: Transcript, s: ReviewState)
    requires Recorded(es, s) && Staged(s)
    ensures Has(es, CaseItem) <==> s.opening.Some?
    ensures Has(es, CaseItem) ==>
              && s.opening == Some(Case(es)) && s.roster == Said(es, CaseItem).reviewers
              && forall e :: ByClerk(es, e) <==> Some(e.event.actor) == s.clerkKey
  {
    hide Recorded;
    Look(es, s, CaseItem);
  }

  lemma ReadSeal(es: Transcript, s: ReviewState)
    requires Recorded(es, s)
    ensures Has(es, SealItem) <==> s.root.Some?
    ensures Has(es, SealItem) ==> s.root == Some(Said(es, SealItem).root)
  {
    hide Recorded;
    Look(es, s, SealItem);
  }

  lemma ReadReport(es: Transcript, s: ReviewState)
    requires Recorded(es, s) && ReportOk(s)
    ensures Has(es, ReportItem) <==> s.technical.Some?
    ensures Has(es, ReportItem) ==>
              s.technical == Some(Said(es, ReportItem).report) && s.technicalHash == Some(EntryFor(es, ReportItem).hash)
  {
    hide Recorded;
    Look(es, s, ReportItem);
  }

  lemma ReadContribution(es: Transcript, s: ReviewState, id: Id)
    requires Recorded(es, s)
    ensures Has(es, ContributionItem(id)) <==> id in s.contributions
    ensures Has(es, ContributionItem(id)) ==>
              s.contributions[id] ==
              Added(Said(es, ContributionItem(id)).contribution, EntryFor(es, ContributionItem(id)).hash)
  {
    hide Recorded;
    Look(es, s, ContributionItem(id));
  }

  lemma ReadPanel(es: Transcript, s: ReviewState)
    requires Recorded(es, s) && Staged(s)
    ensures Has(es, PanelItem) <==> s.phase == Reviewing || s.phase == Provisional
    ensures Has(es, PanelItem) ==> s.panel == Said(es, PanelItem).panel
    ensures Has(es, CloseItem) <==> s.closed
    ensures Has(es, DecisionItem) <==> s.phase == Provisional
  {
    hide Recorded;
    Look(es, s, PanelItem);
    Look(es, s, CloseItem);
    Look(es, s, DecisionItem);
  }

  lemma ReadReviewer(es: Transcript, s: ReviewState, r: Key)
    requires Recorded(es, s)
    ensures Has(es, CommitItem(r)) <==> r in s.commits
    ensures Has(es, CommitItem(r)) ==> s.commits[r] == Said(es, CommitItem(r)).commitment
    ensures Has(es, BallotItem(r)) <==> r in s.ballots
  {
    hide Recorded;
    Look(es, s, CommitItem(r));
    Look(es, s, BallotItem(r));
  }

  // ----- The opening -----

  /** The frozen case has two agents under different controllers. */
  predicate PairedAgents(c: ReviewCase) {
    && |c.agents| == 2 && c.controllers.Keys == c.agents.Keys
    && forall x, y :: x in c.controllers && y in c.controllers && x != y ==> c.controllers[x] != c.controllers[y]
  }

  lemma PairIsTwo(c: ReviewCase)
    requires PairedAgents(c)
    ensures TwoAgents(c)
  {
    var a, b := PairOf(c.agents.Keys);
    assert c.controllers[a] != c.controllers[b];
  }

  lemma TwoIsPair(c: ReviewCase, a: Id, b: Id)
    requires a != b && c.agents.Keys == {a, b} && c.controllers.Keys == {a, b} && c.controllers[a] != c.controllers[b]
    ensures PairedAgents(c)
  {
    assert |c.agents| == |c.agents.Keys| == |{a, b}|;
    forall x, y | x in c.controllers && y in c.controllers && x != y ensures c.controllers[x] != c.controllers[y] {
      assert x in {a, b} && y in {a, b};
    }
  }

  lemma AgentsLaw(c: ReviewCase)
    ensures TwoAgents(c) <==> PairedAgents(c)
  {
    hide PairedAgents;
    if PairedAgents(c) {
      PairIsTwo(c);
    }
    if TwoAgents(c) {
      var a, b :| a != b && c.agents.Keys == {a, b} && c.controllers.Keys == {a, b}
                  && c.controllers[a] != c.controllers[b];
      TwoIsPair(c, a, b);
    }
  }

  lemma PairOf(s: set<Id>) returns (a: Id, b: Id)
    requires |s| == 2
    ensures a != b && s == {a, b}
  {
    a :| a in s;
    assert |s - {a}| == 1;
    b :| b in s - {a};
    assert |s - {a} - {b}| == 0;
  }

  lemma CriteriaLaw(criteria: seq<Criterion>)
    ensures FairCriteria(criteria) <==>
            && 2 <= |criteria| <= 12
            && (forall i, j :: 0 <= i < j < |criteria| ==> criteria[i].name != criteria[j].name)
            && (forall i :: 0 <= i < |criteria| ==> 1 <= criteria[i].weight <= 10_000)
            && Sum(Weights(criteria)) == 10_000
  {
    if FairCriteria(criteria) {
      forall i | 0 <= i < |criteria| ensures criteria[i].weight <= 10_000 {
        SumNonNegativeElement(Weights(criteria), i);
      }
    }
  }

  lemma RosterLaw(c: ReviewCase, roster: seq<Profile>)
    ensures FrozenRoster(c, roster) <==> ValidRoster(roster, c.policy.rosterDigest)
  {
    forall p ensures p in Elements(roster) <==> p in roster {}
    if FrozenRoster(c, roster) {
      assert c.policy.rosterDigest.profiles == Elements(roster);
      forall i | 0 <= i < |roster| ensures ValidProfile(roster[i]) {
        assert roster[i] in roster;
      }
    }
  }

  lemma OpeningLaw(es: Transcript, s: ReviewState, e: ReviewEntry)
    requires e.event.payload.CaseOpened? && (s.phase == Unopened <==> es == [])
    ensures MayOpen(s, e) <==> LawfulOpening(es, e)
  {
    var c := e.event.payload.opening;
    AgentsLaw(c);
    CriteriaLaw(c.criteria);
    RosterLaw(c, e.event.payload.reviewers);
    hide TwoAgents, FairCriteria, FrozenRoster, ValidRoster, Weights;
  }

  // ----- The transcript -----

  lemma ContributionLaw(es: Transcript, s: ReviewState, e: ReviewEntry)
    requires Recorded(es, s) && Staged(s) && e.event.payload.ContributionAdded?
    ensures s.opening.Some? && MayContribute(s, e) <==> LawfulContribution(es, e)
  {
    var v := e.event.payload.contribution;
    ReadCase(es, s);
    ReadSeal(es, s);
    ReadContribution(es, s, v.contributionId);
    forall d ensures Has(es, ContributionItem(d)) <==> d in s.contributions {
      ReadContribution(es, s, d);
    }
    hide Recorded, Has, NoDuplicates;
  }

  lemma ReportLaw(es: Transcript, s: ReviewState, e: ReviewEntry)
    requires Recorded(es, s) && Staged(s) && ReportOk(s) && e.event.payload.TechnicalRecorded?
    ensures s.opening.Some? && MayReport(s, e) <==> LawfulReport(es, e)
  {
    hide Recorded, Has;
    ReadCase(es, s);
    ReadSeal(es, s);
    ReadReport(es, s);
  }

  lemma BindsLaw(es: Transcript, s: ReviewState, root: EvidenceRoot)
    requires Recorded(es, s) && Staged(s) && ReportOk(s) && Has(es, CaseItem) && Has(es, ReportItem)
    ensures Binds(es, root) <==> Some(root) == ExpectedRoot(s)
  {
    ReadCase(es, s);
    ReadReport(es, s);
    forall id ensures Has(es, ContributionItem(id)) <==> id in s.contributions
      ensures id in s.contributions ==> s.contributions[id].entryHash == EntryFor(es, ContributionItem(id)).hash
    {
      ReadContribution(es, s, id);
    }
    hide Recorded, Has;
    if root.RootOf? {
      var hashes := map id | id in s.contributions :: s.contributions[id].entryHash;
      assert root.contributions == hashes <==>
             && root.contributions.Keys == hashes.Keys
             && forall id :: id in hashes ==> root.contributions[id] == hashes[id];
    }
  }

  lemma ContributedLaw(es: Transcript, s: ReviewState, a: Id)
    requires Recorded(es, s)
    ensures Contributed(es, a) <==> a in ContributingAgents(s.contributions)
  {
    forall id ensures Has(es, ContributionItem(id)) <==> id in s.contributions
      ensures id in s.contributions ==>
                s.contributions[id].contribution == Said(es, ContributionItem(id)).contribution
    {
      ReadContribution(es, s, id);
    }
    hide Recorded, Has;
  }

  lemma ContributorsLaw(es: Transcript, s: ReviewState, agents: set<Id>)
    requires Recorded(es, s) && ContributingAgents(s.contributions) <= agents
    ensures ContributingAgents(s.contributions) == agents <==> forall a :: a in agents ==> Contributed(es, a)
  {
    forall a ensures Contributed(es, a) <==> a in ContributingAgents(s.contributions) {
      ContributedLaw(es, s, a);
    }
    hide Recorded, Contributed, ContributingAgents;
  }

  lemma ListedLaw(xs: seq<Id>, c: set<Id>)
    ensures xs == SortedTexts(c) <==> SortedBy(TextLe, xs) && Elements(xs) == c
  {
    TextOrder();
    if SortedBy(TextLe, xs) && Elements(xs) == c {
      SortedUnique(TextLe, xs, SortedTexts(c));
    }
  }

  lemma ContributionsLaw(es: Transcript, s: ReviewState, ids: seq<Id>)
    requires Recorded(es, s)
    ensures ids == SortedTexts(s.contributions.Keys) <==>
            SortedBy(TextLe, ids) && forall id :: id in ids <==> Has(es, ContributionItem(id))
  {
    ListedLaw(ids, s.contributions.Keys);
    forall id ensures Has(es, ContributionItem(id)) <==> id in s.contributions
      ensures id in ids <==> id in Elements(ids)
    {
      ReadContribution(es, s, id);
    }
    hide Recorded, Has, SortedTexts, SortedBy, Elements;
  }

  lemma SealLaw(es: Transcript, s: ReviewState, e: ReviewEntry)
    requires Recorded(es, s) && Staged(s) && ReportOk(s) && e.event.payload.EvidenceSealed?
    requires s.opening.Some? ==> ContributingAgents(s.contributions) <= s.opening.value.agents.Keys
    ensures s.opening.Some? && MaySeal(s, e) <==> LawfulSeal(es, e)
  {
    hide Recorded, Has, ContributingAgents, Contributed, RootOver, Binds, SortedTexts, SortedBy;
    var p := e.event.payload;
    ReadCase(es, s);
    ReadSeal(es, s);
    ReadReport(es, s);
    ContributionsLaw(es, s, p.contributionIds);
    if s.opening.Some? {
      ContributorsLaw(es, s, s.opening.value.agents.Keys);
      if s.technical.Some? {
        BindsLaw(es, s, p.root);
      }
    }
  }

  /** Only agents of the case contribute. */
  lemma ContributorsKept(digests: RootDigests, s: ReviewState, e: ReviewEntry, t: ReviewState)
    requires CaseOk(s) && Step(digests, s, e) == Accept(t)
    requires s.opening.Some? ==> ContributingAgents(s.contributions) <= s.opening.value.agents.Keys
    requires s.opening.None? ==> s.contributions == map[]
    ensures t.opening.Some? && ContributingAgents(t.contributions) <= t.opening.value.agents.Keys
  {
    hide CaseOk, MayOpen, MayContribute, MayReport, MaySeal, MayAssign, ReviewStep;
    StageOf(s);
    if InReview(e.event.payload) {
      ReviewFrames(s, e, t);
    } else if e.event.payload.ContributionAdded? {
      ContributorKnown(s, e);
    } else if e.event.payload.CaseOpened? {
      NothingContributed(s, e);
    }
  }

  lemma ContributorKnown(s: ReviewState, e: ReviewEntry)
    requires e.event.payload.ContributionAdded? && s.opening.Some? && MayContribute(s, e)
    ensures e.event.payload.contribution.agentId in s.opening.value.agents
  {}

  lemma NothingContributed(s: ReviewState, e: ReviewEntry)
    requires CaseOk(s) && e.event.payload.CaseOpened? && MayOpen(s, e)
    ensures s.opening.None?
  {
    hide ValidCase, ValidRoster, RootOver;
  }

  lemma {:induction false} RunContributors(digests: RootDigests, es: Transcript, s: ReviewState)
    requires Run(digests, es) == Accept(s)
    ensures s.opening.Some? ==> ContributingAgents(s.contributions) <= s.opening.value.agents.Keys
    ensures s.opening.None? ==> s.contributions == map[]
  {
    hide Step, StateOk, ContributingAgents;
    if es != [] {
      var before := Run(digests, es[..|es| - 1]).value;
      RunContributors(digests, es[..|es| - 1], before);
      assert CaseOk(before) by { RunCase(digests, es[..|es| - 1], before); }
      ContributorsKept(digests, before, es[|es| - 1], s);
    }
  }

  // ----- The panel -----

  lemma KeysLaw(panel: seq<Key>, chosen: seq<Profile>)
    ensures panel == Keys(chosen) <==>
            |panel| == |chosen| && forall i :: 0 <= i < |chosen| ==> panel[i] == chosen[i].reviewerId
  {}

  lemma ExcludedLaw(c: ReviewCase)
    ensures Excluded(c) == c.controllers.Values
  {}

  lemma PanelLaw(digests: RootDigests, c: ReviewCase, roster: seq<Profile>, seed: string, root: EvidenceRoot,
                 panel: seq<Key>)
    requires ValidRoster(roster, c.policy.rosterDigest)
    ensures SeedGives(digests, c, roster, seed, root, panel) <==>
            exists chosen: seq<Profile> ::
              && FairPanel(digests, c.policy.panel, c.caseId, c.controllers.Values, roster, seed, root, chosen)
              && |panel| == |chosen| && forall i :: 0 <= i < |chosen| ==> panel[i] == chosen[i].reviewerId
  {
    ExcludedLaw(c);
    forall chosen: seq<Profile>
      ensures PanelFor(digests, c, roster, seed, root) == Some(chosen) <==>
              FairPanel(digests, c.policy.panel, c.caseId, c.controllers.Values, roster, seed, root, chosen)
      ensures panel == Keys(chosen) <==>
              |panel| == |chosen| && forall i :: 0 <= i < |chosen| ==> panel[i] == chosen[i].reviewerId
    {
      SelectedIsFair(digests, c.policy.panel, c.caseId, Excluded(c), roster, seed, root, chosen);
      KeysLaw(panel, chosen);
    }
    hide FairPanel, PanelFor, Keys, ValidRoster;
  }

  lemma AssignmentLaw(digests: RootDigests, es: Transcript, s: ReviewState, e: ReviewEntry)
    requires Recorded(es, s) && Staged(s) && e.event.payload.ReviewersAssigned?
    requires s.opening.Some? ==> ValidRoster(s.roster, s.opening.value.policy.rosterDigest)
    ensures s.opening.Some? && MayAssign(digests, s, e) <==> LawfulAssignment(digests, es, e)
  {
    var p := e.event.payload;
    ReadCase(es, s);
    ReadSeal(es, s);
    ReadPanel(es, s);
    if s.opening.Some? {
      PanelLaw(digests, s.opening.value, s.roster, p.seed, p.root, p.panel);
    }
    hide Recorded, Has, FairPanel, PanelFor, Keys, ValidRoster;
  }

  // ----- The review -----

  lemma CommitLaw(es: Transcript, s: ReviewState, e: ReviewEntry)
    requires Recorded(es, s) && Staged(s) && e.event.payload.ReviewCommitted?
    ensures s.opening.Some? && MayCommit(s, e) <==> LawfulCommit(es, e)
  {
    hide Recorded, Has;
    ReadCase(es, s);
    ReadSeal(es, s);
    ReadPanel(es, s);
    ReadReviewer(es, s, e.event.actor);
  }

  lemma CommittedLaw(es: Transcript, s: ReviewState, committed: seq<Key>)
    requires Recorded(es, s) && Staged(s) && Has(es, PanelItem)
    ensures committed == SortedTexts(s.commits.Keys) && s.commits.Keys == Elements(s.panel) <==>
            && SortedBy(TextLe, committed)
            && forall r :: (r in committed <==> Has(es, CommitItem(r))) && (r in committed <==> OnPanel(es, r))
  {
    ReadPanel(es, s);
    ListedLaw(committed, s.commits.Keys);
    forall r ensures Has(es, CommitItem(r)) <==> r in s.commits
      ensures OnPanel(es, r) <==> r in Elements(s.panel)
      ensures r in committed <==> r in Elements(committed)
    {
      ReadReviewer(es, s, r);
    }
    hide Recorded, Has, OnPanel, SortedTexts, SortedBy, Elements, Staged;
  }

  lemma CloseLaw(es: Transcript, s: ReviewState, e: ReviewEntry)
    requires Recorded(es, s) && Staged(s) && e.event.payload.CommitPhaseClosed?
    ensures s.opening.Some? && MayClose(s, e) <==> LawfulClose(es, e)
  {
    hide Recorded, Has, OnPanel, SortedTexts, SortedBy, Elements;
    ReadCase(es, s);
    ReadSeal(es, s);
    ReadPanel(es, s);
    if Has(es, PanelItem) {
      CommittedLaw(es, s, e.event.payload.committed);
    }
  }

  predicate Scored(c: ReviewCase, scores: map<Id, int>, finding: Finding, contributions: set<Id>) {
    && scores.Keys == c.agents.Keys && (forall a :: a in scores ==> 0 <= scores[a] <= 4)
    && finding.refs != [] && Elements(finding.refs) <= contributions && NoDuplicates(finding.refs)
  }

  lemma JudgedLaw(es: Transcript, s: ReviewState, c: ReviewCase, scores: map<Id, int>, finding: Finding)
    requires Recorded(es, s)
    ensures Judged(es, c, scores, finding) <==> Scored(c, scores, finding, s.contributions.Keys)
  {
    forall id ensures Has(es, ContributionItem(id)) <==> id in s.contributions {
      ReadContribution(es, s, id);
    }
    hide Recorded, Has, NoDuplicates;
  }

  lemma BallotScored(b: ReviewBallot, c: ReviewCase, root: EvidenceRoot, r: Key, contributions: set<Id>)
    ensures ValidBallot(b, c, root, r, contributions) <==>
            && b.caseId == c.caseId && b.root == root && b.reviewerId == r && 0 <= b.confidence <= 10_000
            && b.scores.Keys == Names(c.criteria) && b.findings.Keys == Names(c.criteria)
            && forall n :: n in b.scores && n in b.findings ==> Scored(c, b.scores[n], b.findings[n], contributions)
  {
    hide Names, NoDuplicates;
  }

  lemma NamesLaw(criteria: seq<Criterion>, n: string)
    ensures n in Names(criteria) <==> exists j :: 0 <= j < |criteria| && criteria[j].name == n
  {
    if n in Names(criteria) {
      var c :| c in criteria && c.name == n;
    }
    if j :| 0 <= j < |criteria| && criteria[j].name == n {
      assert criteria[j] in criteria;
    }
  }

  lemma BallotLaw(es: Transcript, s: ReviewState, c: ReviewCase, b: ReviewBallot, root: EvidenceRoot, r: Key)
    requires Recorded(es, s)
    ensures ValidBallot(b, c, root, r, s.contributions.Keys) <==>
            LawfulBallot(es, c, b) && b.root == root && b.reviewerId == r
  {
    hide Recorded, Judged, Scored, Names, ValidBallot;
    BallotScored(b, c, root, r, s.contributions.Keys);
    forall n | n in b.scores && n in b.findings
      ensures Judged(es, c, b.scores[n], b.findings[n]) <==>
              Scored(c, b.scores[n], b.findings[n], s.contributions.Keys)
    {
      JudgedLaw(es, s, c, b.scores[n], b.findings[n]);
    }
    CriteriaNamed(c.criteria, b);
  }

  lemma CriteriaNamed(criteria: seq<Criterion>, b: ReviewBallot)
    ensures b.scores.Keys == Names(criteria) <==>
            forall n :: n in b.scores <==> exists j :: 0 <= j < |criteria| && criteria[j].name == n
  {
    forall n ensures n in Names(criteria) <==> exists j :: 0 <= j < |criteria| && criteria[j].name == n {
      NamesLaw(criteria, n);
    }
    hide Names;
  }

  lemma RevealLaw(es: Transcript, s: ReviewState, e: ReviewEntry)
    requires Recorded(es, s) && Staged(s) && s.commits.Keys <= Elements(s.panel) && e.event.payload.ReviewRevealed?
    ensures s.opening.Some? && MayReveal(s, e) <==> LawfulReveal(es, e)
  {
    hide Recorded, Has, ValidBallot, LawfulBallot;
    var p := e.event.payload;
    ReadCase(es, s);
    ReadSeal(es, s);
    ReadPanel(es, s);
    ReadReviewer(es, s, e.event.actor);
    if s.opening.Some? {
      BallotLaw(es, s, s.opening.value, p.ballot, p.root, e.event.actor);
    }
  }

  lemma BallotsLaw(es: Transcript, s: ReviewState, root: EvidenceRoot)
    requires Listed(es, s)
    ensures BallotList(s.ballots, root, s.revealed) == BallotsNow(es)
  {}

  lemma AggregateLaw(s: ReviewState)
    requires BallotsOk(s) && s.opening.Some? && s.root.Some? && |s.opening.value.agents| == 2
    ensures var c, ballots := s.opening.value, BallotList(s.ballots, s.root.value, s.revealed);
            Aggregated(c, s.root.value, ballots, s.contributions.Keys) == Accept(Outcome(c, s.root.value, ballots))
  {
    hide BallotsOk, BallotList, Outcome, BallotsAggregate;
    BallotsAlwaysAggregate(s);
  }

  lemma AllRevealedLaw(digests: RootDigests, es: Transcript, s: ReviewState)
    requires Run(digests, es) == Accept(s) && Recorded(es, s) && Staged(s) && BallotsOk(s)
    requires s.phase == Reviewing && s.closed && s.commits.Keys == Elements(s.panel)
    ensures |s.ballots| < |s.panel| <==> !forall r :: OnPanel(es, r) ==> Has(es, BallotItem(r))
  {
    hide Run;
    PanelCounts(digests, es, s);
    forall r | r in s.ballots ensures r in Elements(s.panel) {
      assert BallotOk(s, r);
    }
    ReadPanel(es, s);
    forall r ensures Has(es, BallotItem(r)) <==> r in s.ballots
      ensures OnPanel(es, r) <==> r in Elements(s.panel)
    {
      ReadReviewer(es, s, r);
    }
    assert Elements(s.revealed) == s.ballots.Keys;
    hide Recorded, Has, OnPanel, BallotsOk, Staged, Elements;
  }

  lemma DecisionLaw(digests: RootDigests, es: Transcript, s: ReviewState, e: ReviewEntry)
    requires Run(digests, es) == Accept(s) && Recorded(es, s) && Staged(s) && BallotsOk(s) && Listed(es, s)
    requires s.closed ==> s.commits.Keys == Elements(s.panel)
    requires e.event.payload.DecisionRecorded?
    ensures s.opening.Some? && MayDecide(s, e) <==> LawfulDecision(es, e)
  {
    hide Run, Recorded, Has, OnPanel, BallotsOk, Aggregated, Outcome, BallotList, BallotsNow;
    ReadCase(es, s);
    ReadSeal(es, s);
    ReadPanel(es, s);
    if s.opening.Some? && s.root.Some? && |s.opening.value.agents| == 2 {
      AggregateLaw(s);
      BallotsLaw(es, s, s.root.value);
      if s.phase == Reviewing && s.closed {
        AllRevealedLaw(digests, es, s);
      }
    }
  }

  // ----- Every entry -----

  lemma TranscriptLaw(digests: RootDigests, es: Transcript, s: ReviewState, e: ReviewEntry)
    requires Run(digests, es) == Accept(s) && !InReview(e.event.payload)
    ensures TranscriptStep(digests, s, e).Accept? <==> Lawful(digests, es, e)
  {
    RunRecorded(digests, es, s);
    RunContributors(digests, es, s);
    assert Staged(s) && (s.opening.Some? ==> ValidRoster(s.roster, s.opening.value.policy.rosterDigest)) by {
      RunCase(digests, es, s);
      StageOf(s);
      hide ValidRoster;
    }
    hide Run, Recorded, ReportOk, Listed, Staged, ValidRoster, MayOpen, MayContribute, MayReport, MaySeal, MayAssign,
         LawfulOpening, LawfulContribution, LawfulReport, LawfulSeal, LawfulAssignment;
    var p := e.event.payload;
    if p.CaseOpened? {
      OpeningLaw(es, s, e);
    } else if p.ContributionAdded? {
      ContributionLaw(es, s, e);
    } else if p.TechnicalRecorded? {
      ReportLaw(es, s, e);
    } else if p.EvidenceSealed? {
      SealLaw(es, s, e);
    } else if p.ReviewersAssigned? {
      AssignmentLaw(digests, es, s, e);
    }
  }

  lemma SealedLaw(digests: RootDigests, es: Transcript, s: ReviewState, e: ReviewEntry)
    requires Run(digests, es) == Accept(s) && InReview(e.event.payload)
    ensures ReviewStep(s, e).Accept? <==> Lawful(digests, es, e)
  {
    RunRecorded(digests, es, s);
    RunCase(digests, es, s);
    StageOf(s);
    assert s.commits.Keys <= Elements(s.panel) && (s.closed ==> s.commits.Keys == Elements(s.panel));
    hide Run, Recorded, ReportOk, Listed, Staged, CaseOk, CommitsOk, BallotsOk, MayCommit, MayClose, MayReveal,
         MayDecide, LawfulCommit, LawfulClose, LawfulReveal, LawfulDecision;
    var p := e.event.payload;
    if p.ReviewCommitted? {
      CommitLaw(es, s, e);
    } else if p.CommitPhaseClosed? {
      CloseLaw(es, s, e);
    } else if p.ReviewRevealed? {
      RevealLaw(es, s, e);
    } else {
      DecisionLaw(digests, es, s, e);
    }
  }

  /** After any accepted transcript, an entry is accepted exactly when it is lawful after that transcript. */
  lemma StepLaw(digests: RootDigests, es: Transcript, s: ReviewState, e: ReviewEntry)
    requires Run(digests, es) == Accept(s)
    ensures Step(digests, s, e).Accept? <==> Lawful(digests, es, e)
  {
    hide Run, TranscriptStep, ReviewStep, Lawful;
    if InReview(e.event.payload) {
      SealedLaw(digests, es, s, e);
    } else {
      TranscriptLaw(digests, es, s, e);
    }
  }

  /** Every entry is lawful after those before it. */
  ghost predicate AllLawful(digests: RootDigests, es: Transcript) {
    forall i :: 0 <= i < |es| ==> LawfulAt(digests, es, i)
  }

  ghost predicate LawfulAt(digests: RootDigests, es: Transcript, i: nat)
    requires i < |es|
  {
    Lawful(digests, es[..i], es[i])
  }

  lemma AllLawfulLast(digests: RootDigests, es: Transcript)
    requires es != []
    ensures AllLawful(digests, es) <==>
            AllLawful(digests, es[..|es| - 1]) && Lawful(digests, es[..|es| - 1], es[|es| - 1])
  {
    hide Lawful;
    var init := es[..|es| - 1];
    forall i | 0 <= i < |init| ensures LawfulAt(digests, es, i) <==> LawfulAt(digests, init, i) {
      assert init[..i] == es[..i];
    }
    if AllLawful(digests, es) {
      assert LawfulAt(digests, es, |es| - 1);
    }
    if AllLawful(digests, init) && Lawful(digests, init, es[|es| - 1]) {
      forall i | 0 <= i < |es| ensures LawfulAt(digests, es, i) {
        if i < |init| {
          assert LawfulAt(digests, init, i);
        }
      }
    }
  }

  lemma {:induction false} RunLaw(digests: RootDigests, es: Transcript)
    ensures Run(digests, es).Accept? <==> AllLawful(digests, es)
  {
    hide Step, Lawful;
    if es != [] {
      var init := es[..|es| - 1];
      RunLaw(digests, init);
      AllLawfulLast(digests, es);
      hide AllLawful;
      if Run(digests, init).Accept? {
        StepLaw(digests, init, Run(digests, init).value, es[|es| - 1]);
      }
    }
  }

  /**
   A ledger replays exactly when its chain verifies and each entry is lawful after the entries before it; the state it
   replays to then holds, item by item, what those entries said.
   */
  lemma ReplayLaw(digests: RootDigests, es: Transcript)
    ensures Replay(digests, es).Accept? <==> Verified(ReviewRules, es) && AllLawful(digests, es)
    ensures Replay(digests, es).Accept? ==>
              Recorded(es, Replay(digests, es).value) && Listed(es, Replay(digests, es).value)
  {
    hide Run, Verified, AllLawful, Recorded, Listed;
    RunLaw(digests, es);
    if Replay(digests, es).Accept? {
      RunRecorded(digests, es, Run(digests, es).value);
    }
  }
}