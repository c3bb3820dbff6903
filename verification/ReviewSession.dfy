/** The mutable two-agent review: a state checked and updated in place, a session, and replay. */
module ReviewSession {
  import opened Basics
  import opened Chain
  import opened ReviewPanel
  import opened ReviewTypes
  import opened ReviewDecision
  import opened ReviewSteps
  import History = ReviewHistory
  import Law = ReviewLaw

  class ProtocolState {
    const digests: RootDigests
    var opening: Option<ReviewCase>
    var clerkKey: Option<Key>
    var roster: seq<Profile>
    var phase: ReviewPhase
    var contributions: map<Id, Added>
    var technical: Option<TechnicalReport>
    var technicalHash: Option<Hash<ReviewEvent>>
    var root: Option<EvidenceRoot>
    var panel: seq<Key>
    var commits: map<Key, BallotCommitment>
    var closed: bool
    var ballots: map<Key, ReviewBallot>
    var revealed: seq<Key>
    var decision: Option<Decision>

    constructor (digests: RootDigests)
      ensures this.digests == digests && View() == Unstarted && Valid()
    {
      this.digests := digests;
      opening, clerkKey, roster, phase := None, None, [], Unopened;
      contributions, technical, technicalHash, root := map[], None, None, None;
      panel, commits, closed, ballots, revealed, decision := [], map[], false, map[], [], None;
    }

    function View(): ReviewState
      reads this
    {
      ReviewState(opening, clerkKey, roster, phase, contributions, technical, technicalHash, root, panel, commits,
                  closed,
                  ballots, revealed, decision)
    }

    /** Only valid cases are opened. */
    ghost predicate Valid()
      reads this
    {
      opening.Some? ==> ValidCase(opening.value)
    }

    /** Apply one event of the transcript; a refused event changes nothing. */
    method ApplyTranscript(e: ReviewEntry) returns (ok: bool)
      requires Valid()
      modifies this`opening, this`clerkKey, this`roster, this`phase, this`contributions, this`technical,
               this`technicalHash, this`root, this`panel
      ensures Valid()
      ensures ok <==> TranscriptStep(digests, old(View()), e).Accept?
      ensures if ok then Accept(View()) == TranscriptStep(digests, old(View()), e) else View() == old(View())
    {
      hide ValidCase, ValidRoster, ValidContribution, ValidReport, RootOver, PanelFor, MayOpen, MayContribute,
           MayReport, MaySeal;
      var p := e.event.payload;
      if p.CaseOpened? {
        if !MayOpen(View(), e) {
          return false;
        }
        OpensValid(View(), e);
        opening, clerkKey, roster, phase := Some(p.opening), Some(e.event.actor), p.reviewers, Collecting;
        return true;
      }
      if opening.None? {
        return false;
      }
      match p {
        case ContributionAdded(v) =>
          if !MayContribute(View(), e) {
            return false;
          }
          contributions := contributions[v.contributionId := Added(v, e.hash)];
          return true;
        case TechnicalRecorded(report) =>
          if !MayReport(View(), e) {
            return false;
          }
          technical, technicalHash := Some(report), Some(e.hash);
          return true;
        case EvidenceSealed(_, sealedRoot, _, _, _) =>
          if !MaySeal(View(), e) {
            return false;
          }
          root, phase := Some(sealedRoot), Sealed;
          return true;
        case ReviewersAssigned(_, _, _, chosen) =>
          ok := MayAssignNow(e);
          if ok {
            panel, phase := chosen, Reviewing;
          }
        case _ => return false;
      }
    }

    /** The published panel must be the one the seed selects. */
    method MayAssignNow(e: ReviewEntry) returns (ok: bool)
      requires Valid() && e.event.payload.ReviewersAssigned? && opening.Some?
      ensures ok <==> MayAssign(digests, View(), e)
    {
      var c, p := opening.value, e.event.payload;
      if phase != Sealed || e.at > c.deadlines.commit || Some(e.event.actor) != clerkKey
         || p.caseId != c.caseId || Some(p.root) != root
      {
        return false;
      }
      var expected := SelectReviewers(digests, c.policy.panel, c.caseId, Excluded(c), roster, p.seed, p.root);
      return expected == Some(p.panel);
    }

    /** Apply one event of the sealed review; a refused event changes nothing. */
    method ApplyReview(e: ReviewEntry) returns (ok: bool)
      requires Valid()
      modifies this`commits, this`closed, this`ballots, this`revealed, this`decision, this`phase
      ensures Valid()
      ensures ok <==> ReviewStep(old(View()), e).Accept?
      ensures if ok then Accept(View()) == ReviewStep(old(View()), e) else View() == old(View())
    {
      hide ValidCase, ValidBallot, Aggregated, MayCommit, MayClose, MayReveal, MayDecide;
      if opening.None? {
        return false;
      }
      var actor := e.event.actor;
      match e.event.payload {
        case ReviewCommitted(_, _, commitment) =>
          if !MayCommit(View(), e) {
            return false;
          }
          commits := commits[actor := commitment];
          return true;
        case CommitPhaseClosed(_, _, _) =>
          if !MayClose(View(), e) {
            return false;
          }
          closed := true;
          return true;
        case ReviewRevealed(_, _, ballot, _) =>
          if !MayReveal(View(), e) {
            return false;
          }
          ballots, revealed := ballots[actor := ballot], revealed + [actor];
          return true;
        case DecisionRecorded(_) => ok := Decide(e);
        case _ => return false;
      }
    }

    /** Record the aggregate of the revealed ballots, or change nothing. */
    method Decide(e: ReviewEntry) returns (ok: bool)
      requires Valid() && e.event.payload.DecisionRecorded? && opening.Some?
      modifies this`decision, this`phase
      ensures ok <==> MayDecide(old(View()), e)
      ensures View() == if ok then old(View()).(decision := Some(e.event.payload.decision), phase := Provisional)
                        else old(View())
    {
      hide MayDecide;
      ok := MayDecideNow(e);
      if ok {
        decision, phase := Some(e.event.payload.decision), Provisional;
      }
    }

    /** The recorded decision must be the aggregate of the revealed ballots. */
    method MayDecideNow(e: ReviewEntry) returns (ok: bool)
      requires Valid() && e.event.payload.DecisionRecorded? && opening.Some?
      ensures ok <==> MayDecide(View(), e)
    {
      hide Aggregated, BallotList;
      var c := opening.value;
      assert |c.agents| == 2;
      hide ValidCase;
      if phase != Reviewing || !closed || decision.Some? || Some(e.event.actor) != clerkKey || root.None? {
        return false;
      }
      if (|ballots| < |panel| && e.at < c.deadlines.revealing) || e.at > c.deadlines.appeal {
        return false;
      }
      var expected := AggregateBallots(c, root.value, BallotList(ballots, root.value, revealed), contributions.Keys);
      return expected == Accept(e.event.payload.decision);
    }

    /** ProtocolState.apply. */
    method Apply(e: ReviewEntry) returns (ok: bool)
      requires Valid()
      modifies this
      ensures Valid()
      ensures ok <==> Step(digests, old(View()), e).Accept?
      ensures if ok then Accept(View()) == Step(digests, old(View()), e) else View() == old(View())
    {
      hide TranscriptStep, ReviewStep;
      if InReview(e.event.payload) {
        ok := ApplyReview(e);
      } else {
        ok := ApplyTranscript(e);
      }
    }
  }

  lemma OpensValid(s: ReviewState, e: ReviewEntry)
    requires e.event.payload.CaseOpened? && MayOpen(s, e)
    ensures ValidCase(e.event.payload.opening)
  {}

  // ----- Replay -----

  lemma RunExtended(digests: RootDigests, entries: seq<ReviewEntry>, e: ReviewEntry)
    requires Run(digests, entries).Accept?
    ensures Run(digests, entries + [e]) == Step(digests, Run(digests, entries).value, e)
  {
    hide Step;
    assert (entries + [e])[..|entries|] == entries;
  }

  lemma {:induction false} RejectedForGood(digests: RootDigests, entries: seq<ReviewEntry>, n: nat)
    requires n <= |entries| && Run(digests, entries[..n]).Reject?
    ensures Run(digests, entries).Reject?
  {
    hide Step;
    if n < |entries| {
      assert entries[..|entries| - 1][..n] == entries[..n];
      RejectedForGood(digests, entries[..|entries| - 1], n);
    } else {
      assert entries[..n] == entries;
    }
  }

  /** replay_ledger: verify, then fold every entry into a fresh state. */
  method ReplayLedger(digests: RootDigests, ledger: Ledger<ReviewEvent>) returns (state: ProtocolState?)
    requires ledger.rules == ReviewRules
    ensures state != null <==> Replay(digests, ledger.entries).Accept?
    ensures state != null ==> fresh(state) && state.digests == digests && state.Valid()
                              && Accept(state.View()) == Replay(digests, ledger.entries)
  {
    hide Step;
    var verified := ledger.Verify();
    if !verified {
      return null;
    }
    var folded := new ProtocolState(digests);
    var entries := ledger.entries;
    for i := 0 to |entries|
      invariant fresh(folded) && folded.Valid() && folded.digests == digests
      invariant Run(digests, entries[..i]) == Accept(folded.View())
      invariant ledger.entries == entries
    {
      assert entries[..i + 1] == entries[..i] + [entries[i]];
      RunExtended(digests, entries[..i], entries[i]);
      var ok := folded.Apply(entries[i]);
      if !ok {
        RejectedForGood(digests, entries, i + 1);
        return null;
      }
    }
    assert entries[..|entries|] == entries;
    return folded;
  }

  // ----- Sessions -----

  class ProtocolSession {
    const ledger: Ledger<ReviewEvent>
    const state: ProtocolState
    const clerk: Key

    /** The ledger verifies, and the live state is exactly a fresh fold of it. */
    ghost predicate Valid()
      reads this, ledger, state
    {
      && ledger.rules == ReviewRules
      && Verified(ReviewRules, ledger.entries)
      && OpensReview(ledger.entries[0].event) == Some(clerk)
      && Run(state.digests, ledger.entries) == Accept(state.View()) && state.Valid()
    }

    constructor (ledger: Ledger<ReviewEvent>, state: ProtocolState, clerk: Key)
      requires ledger.rules == ReviewRules && Verified(ReviewRules, ledger.entries)
      requires OpensReview(ledger.entries[0].event) == Some(clerk)
      requires Run(state.digests, ledger.entries) == Accept(state.View()) && state.Valid()
      ensures Valid() && this.ledger == ledger && this.state == state && this.clerk == clerk
    {
      this.ledger, this.state, this.clerk := ledger, state, clerk;
    }

    /** Open a case; null when it is refused. */
    static method Open(digests: RootDigests, opening: ReviewCase, reviewers: seq<Profile>, clerk: Key, at: Time)
      returns (session: ProtocolSession?)
      ensures var genesis := NextEntry([], SignedReview(CaseOpened(clerk, opening, reviewers), clerk), clerk, at);
              && (session != null <==> Step(digests, Unstarted, genesis).Accept?)
              && (session != null ==>
                    fresh(session) && fresh(session.ledger) && fresh(session.state) && session.Valid()
                    && session.clerk == clerk && session.ledger.entries == [genesis])
    {
      hide Step;
      var event := SignedReview(CaseOpened(clerk, opening, reviewers), clerk);
      ghost var genesis := NextEntry([], event, clerk, at);
      var ledger := new Ledger(ReviewRules, []);
      var entry := ledger.AppendEvent(event, clerk, at);
      assert ledger.entries == [genesis];
      var state := new ProtocolState(digests);
      var ok := state.Apply(ledger.entries[0]);
      RunExtended(digests, [], genesis);
      assert [] + [genesis] == [genesis];
      if !ok {
        return null;
      }
      VerifiedGenesis(ReviewRules, event, clerk, at);
      session := new ProtocolSession(ledger, state, clerk);
    }

    /**
     Write the entry to the ledger, apply it, and roll the ledger back if it is refused. Afterwards the ledger still
     verifies and the live state is still its fold; a failed append changes neither.
     */
    method Append(payload: ReviewPayload, actorPrivateKey: Key, at: Time) returns (entry: Option<ReviewEntry>)
      requires Valid()
      modifies ledger, state
      ensures Valid()
      ensures var next := NextEntry(old(ledger.entries), SignedReview(payload, actorPrivateKey), clerk, at);
              && (entry == Some(next) || entry == None)
              && (entry.Some? <==>
                    old(ledger.entries)[|old(ledger.entries)| - 1].at <= at
                        && Step(state.digests, old(state.View()), next).Accept?)
              && (entry.Some? <==>
                    && old(ledger.entries)[|old(ledger.entries)| - 1].at <= at
                    && History.Lawful(state.digests, old(ledger.entries), next))
              && (entry.Some? ==>
                    ledger.entries == old(ledger.entries) + [next]
                    && Accept(state.View()) == Step(state.digests, old(state.View()), next))
      ensures entry.None? ==> ledger.entries == old(ledger.entries) && state.View() == old(state.View())
      ensures Law.Recorded(ledger.entries, state.View()) && Law.Listed(ledger.entries, state.View())
    {
      hide Step, History.Lawful, Law.Recorded, Law.Listed, Law.ReportOk;
      ghost var before := ledger.entries;
      Law.RunRecorded(state.digests, before, state.View());
      var event := SignedReview(payload, actorPrivateKey);
      Law.StepLaw(state.digests, before, state.View(), NextEntry(before, event, clerk, at));
      entry := ledger.Append(event, clerk, at);
      if entry.None? {
        return;
      }
      RunExtended(state.digests, before, entry.value);
      var ok := state.Apply(entry.value);
      if !ok {
        ledger.RollbackLast();
        assert ledger.entries == before;
        return None;
      }
      VerifiedAppend(ReviewRules, before, event, at);
      Law.RunRecorded(state.digests, ledger.entries, state.View());
    }
  }
}
