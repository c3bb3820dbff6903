/** Until when a two-agent review can still be decided, and how one reviewer's silence ends it. */
module ReviewOutcome {
  import opened Basics
  import opened Ordering
  import opened Chain
  import opened ReviewTypes
  import opened ReviewDecision
  import opened ReviewSteps
  import opened ReviewRuns
  import opened ReviewTheorems

  // ----- Growing a transcript -----

  function LastTime(entries: seq<ReviewEntry>): Time
    requires entries != []
  {
    entries[|entries| - 1].at
  }

  /** The entry the founding clerk writes for one more event, received at a given time. */
  function Received(entries: seq<ReviewEntry>, payload: ReviewPayload, signer: Key, at: Time): ReviewEntry
    requires entries != [] && OpensReview(entries[0].event).Some?
  {
    NextEntry(entries, SignedReview(payload, signer), OpensReview(entries[0].event).value, at)
  }

  lemma Founded(digests: RootDigests, entries: seq<ReviewEntry>, s: ReviewState)
    requires Replay(digests, entries) == Accept(s)
    ensures entries != [] && OpensReview(entries[0].event).Some? && Run(digests, entries) == Accept(s)
  {
    hide Run;
  }

  /** An event that the state accepts, received in time, extends the transcript. */
  lemma Extend(digests: RootDigests, entries: seq<ReviewEntry>, s: ReviewState, payload: ReviewPayload, signer: Key,
               at: Time, t: ReviewState)
    requires Replay(digests, entries) == Accept(s) && entries != [] && OpensReview(entries[0].event).Some?
    requires LastTime(entries) <= at && Step(digests, s, Received(entries, payload, signer, at)) == Accept(t)
    ensures Replay(digests, entries + [Received(entries, payload, signer, at)]) == Accept(t)
  {
    hide Step;
    var e := Received(entries, payload, signer, at);
    VerifiedAppend(ReviewRules, entries, e.event, at);
    ShorterConcat(entries, [e]);
    assert entries + [e][..0] == entries;
  }

  lemma ReviewInTime(s: ReviewState, e: ReviewEntry, t: ReviewState)
    requires ReviewStep(s, e) == Accept(t) && t.phase == Reviewing
    ensures t.opening.Some?
    ensures t.closed ==> e.at <= t.opening.value.deadlines.commit || e.at <= t.opening.value.deadlines.revealing
    ensures !t.closed ==> e.at <= t.opening.value.deadlines.commit
  {
    hide ValidBallot, Aggregated;
  }

  lemma AssignedInTime(digests: RootDigests, s: ReviewState, e: ReviewEntry, t: ReviewState)
    requires TranscriptStep(digests, s, e) == Accept(t) && t.phase == Reviewing
    ensures t.opening.Some? && e.at <= t.opening.value.deadlines.commit
  {
    TranscriptFrames(digests, s, e, t);
    hide MayOpen, MayContribute, MayReport, MaySeal, PanelFor;
  }

  lemma StepInTime(digests: RootDigests, s: ReviewState, e: ReviewEntry, t: ReviewState)
    requires Step(digests, s, e) == Accept(t) && t.phase == Reviewing && CaseOk(t)
    ensures t.opening.Some?
    ensures t.closed ==> e.at <= t.opening.value.deadlines.revealing
    ensures !t.closed ==> e.at <= t.opening.value.deadlines.commit
  {
    hide TranscriptStep, ReviewStep;
    if InReview(e.event.payload) {
      ReviewInTime(s, e, t);
    } else {
      AssignedInTime(digests, s, e, t);
    }
  }

  /** While a review runs, its last entry came by the deadline of what it did. */
  lemma LastInTime(digests: RootDigests, entries: seq<ReviewEntry>, s: ReviewState)
    requires Replay(digests, entries) == Accept(s) && s.phase == Reviewing
    ensures entries != [] && s.opening.Some?
    ensures s.closed ==> LastTime(entries) <= s.opening.value.deadlines.revealing
    ensures !s.closed ==> LastTime(entries) <= s.opening.value.deadlines.commit
  {
    Founded(digests, entries, s);
    hide Step, ValidCase;
    var before := Run(digests, entries[..|entries| - 1]).value;
    RunOk(digests, entries, s);
    StepInTime(digests, before, entries[|entries| - 1], s);
  }

  // ----- A closed review is always decided -----

  /** The transcript is continued by entries received from this time on. */
  ghost predicate Continues(entries: seq<ReviewEntry>, next: seq<ReviewEntry>, now: Time) {
    entries <= next && forall i :: |entries| <= i < |next| ==> now <= next[i].at
  }

  /** Some continuation, received from this time on, records a decision. */
  ghost predicate CanDecideFrom(digests: RootDigests, entries: seq<ReviewEntry>, now: Time) {
    exists next, t :: Continues(entries, next, now) && Replay(digests, next) == Accept(t) && t.decision.Some?
  }

  /** When the rules let a closed review be decided. */
  predicate MayDecideAt(s: ReviewState, at: Time)
    requires s.opening.Some?
  {
    && (Elements(s.revealed) == Elements(s.panel) || s.opening.value.deadlines.revealing <= at)
    && at <= s.opening.value.deadlines.appeal
  }

  lemma DecisionStep(digests: RootDigests, s: ReviewState, e: ReviewEntry)
    requires e.event.payload.DecisionRecorded? && Step(digests, s, e).Accept?
    ensures Step(digests, s, e).value.decision.Some?
  {
    hide MayDecide;
  }

  /** At every time the rules allow, the clerk's next entry decides a closed review. */
  lemma DecideNext(digests: RootDigests, entries: seq<ReviewEntry>, s: ReviewState, at: Time)
    returns (e: ReviewEntry, t: ReviewState)
    requires Replay(digests, entries) == Accept(s) && s.phase == Reviewing && s.closed
    requires entries != [] && LastTime(entries) <= at && s.opening.Some? && MayDecideAt(s, at)
    ensures e.at == at && Replay(digests, entries + [e]) == Accept(t) && t.decision.Some?
  {
    Founded(digests, entries, s);
    hide Replay, Run, Step, Outcome;
    RunReviewed(digests, entries, s);
    var outcome := Outcome(s.opening.value, s.root.value, BallotList(s.ballots, s.root.value, s.revealed));
    e := Received(entries, DecisionRecorded(outcome), s.clerkKey.value, at);
    ReviewAlwaysDecides(digests, entries, s, e);
    DecisionStep(digests, s, e);
    t := Step(digests, s, e).value;
    Extend(digests, entries, s, DecisionRecorded(outcome), s.clerkKey.value, at, t);
  }

  /** What replay guarantees of a running review. */
  lemma Running(digests: RootDigests, entries: seq<ReviewEntry>, s: ReviewState)
    requires Replay(digests, entries) == Accept(s) && s.phase == Reviewing
    ensures entries != [] && s.opening.Some? && s.root.Some? && s.clerkKey.Some? && s.decision.None?
    ensures var d := s.opening.value.deadlines; d.submission < d.commit < d.revealing < d.appeal
    ensures CommitsOk(s)
  {
    Founded(digests, entries, s);
    hide Run, PanelOk, BallotsOk;
    RunOk(digests, entries, s);
  }

  /** No closed review is ever stuck: at the revealing deadline, if not before, its next entry can decide it. */
  lemma ClosedReviewDecides(digests: RootDigests, entries: seq<ReviewEntry>, s: ReviewState)
    returns (e: ReviewEntry, t: ReviewState)
    requires Replay(digests, entries) == Accept(s) && s.phase == Reviewing && s.closed
    ensures s.opening.Some? && e.at == s.opening.value.deadlines.revealing
    ensures Replay(digests, entries + [e]) == Accept(t) && t.decision.Some?
  {
    hide Replay;
    Running(digests, entries, s);
    LastInTime(digests, entries, s);
    e, t := DecideNext(digests, entries, s, s.opening.value.deadlines.revealing);
  }

  // ----- An open review is closed and decided while there is time -----

  lemma CommitAccepted(digests: RootDigests, s: ReviewState, e: ReviewEntry, r: Key, commitment: BallotCommitment)
    requires s.phase == Reviewing && !s.closed && s.opening.Some? && s.root.Some? && r in s.panel && r !in s.commits
    requires e.event.actor == r && e.at <= s.opening.value.deadlines.commit
    requires e.event.payload == ReviewCommitted(s.opening.value.caseId, s.root.value, commitment)
    ensures Step(digests, s, e) == Accept(s.(commits := s.commits[r := commitment]))
  {}

  lemma CommitNext(digests: RootDigests, entries: seq<ReviewEntry>, s: ReviewState, r: Key, at: Time)
    returns (e: ReviewEntry, t: ReviewState)
    requires Replay(digests, entries) == Accept(s) && s.phase == Reviewing && !s.closed && s.opening.Some?
    requires entries != [] && LastTime(entries) <= at <= s.opening.value.deadlines.commit
    requires r in s.panel && r !in s.commits
    ensures e.at == at && Replay(digests, entries + [e]) == Accept(t)
    ensures t == s.(commits := t.commits) && t.commits.Keys == s.commits.Keys + {r}
  {
    Founded(digests, entries, s);
    hide Replay, Step;
    Running(digests, entries, s);
    var commitment := OtherCommitment("");
    var payload := ReviewCommitted(s.opening.value.caseId, s.root.value, commitment);
    e, t := Received(entries, payload, r, at), s.(commits := s.commits[r := commitment]);
    CommitAccepted(digests, s, e, r, commitment);
    Extend(digests, entries, s, payload, r, at, t);
  }

  /** Everyone on the panel who has not committed yet does. */
  lemma {:induction false} CommitMissing(digests: RootDigests, entries: seq<ReviewEntry>, s: ReviewState, at: Time)
    returns (next: seq<ReviewEntry>, t: ReviewState)
    requires Replay(digests, entries) == Accept(s) && s.phase == Reviewing && !s.closed && s.opening.Some?
    requires entries != [] && LastTime(entries) <= at <= s.opening.value.deadlines.commit
    ensures Continues(entries, next, at) && LastTime(next) <= at && Replay(digests, next) == Accept(t)
    ensures t == s.(commits := t.commits) && t.commits.Keys == Elements(s.panel)
    decreases Elements(s.panel) - s.commits.Keys
  {
    hide Replay;
    Running(digests, entries, s);
    if s.commits.Keys == Elements(s.panel) {
      return entries, s;
    }
    var r :| r in Elements(s.panel) && r !in s.commits;
    var e, u := CommitNext(digests, entries, s, r, at);
    next, t := CommitMissing(digests, entries + [e], u, at);
  }

  lemma CloseAccepted(digests: RootDigests, s: ReviewState, e: ReviewEntry)
    requires s.phase == Reviewing && !s.closed && s.opening.Some? && s.root.Some?
    requires Some(e.event.actor) == s.clerkKey && e.at <= s.opening.value.deadlines.commit
    requires s.commits.Keys == Elements(s.panel)
    requires e.event.payload
             == CommitPhaseClosed(s.opening.value.caseId, s.root.value, SortedTexts(s.commits.Keys))
    ensures Step(digests, s, e) == Accept(s.(closed := true))
  {}

  lemma CloseNext(digests: RootDigests, entries: seq<ReviewEntry>, s: ReviewState, at: Time)
    returns (e: ReviewEntry)
    requires Replay(digests, entries) == Accept(s) && s.phase == Reviewing && !s.closed && s.opening.Some?
    requires entries != [] && LastTime(entries) <= at <= s.opening.value.deadlines.commit
    requires s.commits.Keys == Elements(s.panel)
    ensures e.at == at && Replay(digests, entries + [e]) == Accept(s.(closed := true))
  {
    Founded(digests, entries, s);
    hide Replay, Step, SortedTexts;
    Running(digests, entries, s);
    var payload := CommitPhaseClosed(s.opening.value.caseId, s.root.value, SortedTexts(s.commits.Keys));
    e := Received(entries, payload, s.clerkKey.value, at);
    CloseAccepted(digests, s, e);
    Extend(digests, entries, s, payload, s.clerkKey.value, at, s.(closed := true));
  }

  /** Up to the commit deadline, an open review can be closed by everyone committing, and then decided. */
  lemma OpenReviewDecides(digests: RootDigests, entries: seq<ReviewEntry>, s: ReviewState, now: Time)
    requires Replay(digests, entries) == Accept(s) && s.phase == Reviewing && !s.closed && s.opening.Some?
    requires entries != [] && LastTime(entries) <= now <= s.opening.value.deadlines.commit
    ensures CanDecideFrom(digests, entries, now)
  {
    hide Replay;
    Running(digests, entries, s);
    var next, t := CommitMissing(digests, entries, s, now);
    var closing := CloseNext(digests, next, t, now);
    var e, u := ClosedReviewDecides(digests, next + [closing], t.(closed := true));
    assert Continues(entries, next + [closing] + [e], now);
  }

  // ----- What an entry's time allows -----

  /** Before the close nothing is accepted after the commit deadline; after it, nothing after the appeal. */
  lemma NextInTime(digests: RootDigests, s: ReviewState, e: ReviewEntry)
    requires Step(digests, s, e).Accept? && CaseOk(s) && s.opening.Some?
    ensures var d := s.opening.value.deadlines; e.at <= if s.closed then d.appeal else d.commit
  {
    hide TranscriptStep, ReviewStep, RootOver;
    if InReview(e.event.payload) {
      ReviewedInTime(s, e);
    } else {
      TranscriptFrames(digests, s, e, Step(digests, s, e).value);
      TranscribedInTime(digests, s, e);
    }
  }

  lemma ReviewedInTime(s: ReviewState, e: ReviewEntry)
    requires ReviewStep(s, e).Accept?
    ensures s.opening.Some?
    ensures var d := s.opening.value.deadlines;
            if s.closed then e.at <= d.appeal || e.at <= d.revealing else e.at <= d.commit
  {
    hide ValidBallot, Aggregated;
  }

  lemma TranscribedInTime(digests: RootDigests, s: ReviewState, e: ReviewEntry)
    requires TranscriptStep(digests, s, e).Accept? && s.opening.Some? && s.phase != Unopened
    ensures e.at <= s.opening.value.deadlines.submission || e.at <= s.opening.value.deadlines.commit
  {
    hide ValidCase, ValidRoster, ValidContribution, ValidReport, PanelFor, RootOver, ContributingAgents;
  }

  lemma {:induction false} RunPrefix(digests: RootDigests, entries: seq<ReviewEntry>, more: seq<ReviewEntry>)
    requires Run(digests, entries + more).Accept?
    ensures Run(digests, entries).Accept?
    ensures more != [] ==> Step(digests, Run(digests, entries).value, more[0]).Accept?
  {
    hide Step;
    if more == [] {
      assert entries + more == entries;
    } else {
      ShorterConcat(entries, more);
      RunPrefix(digests, entries, more[..|more| - 1]);
      if |more| == 1 {
        assert entries + more[..0] == entries;
      }
    }
  }

  /**
   A running review can still be decided by entries received from now on exactly up to a deadline: that of commitments
   while commits are open, and that of the appeal once they are closed.
   */
  lemma DecidableExactly(digests: RootDigests, entries: seq<ReviewEntry>, s: ReviewState, now: Time)
    requires Replay(digests, entries) == Accept(s) && s.phase == Reviewing
    requires entries != [] && LastTime(entries) <= now
    ensures s.opening.Some?
    ensures var d := s.opening.value.deadlines;
            CanDecideFrom(digests, entries, now) <==> now <= if s.closed then d.appeal else d.commit
  {
    hide Replay;
    Running(digests, entries, s);
    var d := s.opening.value.deadlines;
    if CanDecideFrom(digests, entries, now) {
      var next, t :| Continues(entries, next, now) && Replay(digests, next) == Accept(t) && t.decision.Some?;
      DecidedInTime(digests, entries, s, next, t, now);
    }
    if !s.closed && now <= d.commit {
      OpenReviewDecides(digests, entries, s, now);
    }
    if s.closed && now <= d.appeal {
      var e, t := DecideNext(digests, entries, s, if now < d.revealing then d.revealing else now);
      assert Continues(entries, entries + [e], now);
    }
  }

  lemma RunCase(digests: RootDigests, entries: seq<ReviewEntry>, s: ReviewState)
    requires Run(digests, entries) == Accept(s)
    ensures CaseOk(s)
  {
    hide Run;
    RunOk(digests, entries, s);
  }

  lemma DecidedInTime(digests: RootDigests, entries: seq<ReviewEntry>, s: ReviewState, next: seq<ReviewEntry>,
                      t: ReviewState, now: Time)
    requires Replay(digests, entries) == Accept(s) && s.phase == Reviewing && Continues(entries, next, now)
    requires Replay(digests, next) == Accept(t) && next != entries
    ensures s.opening.Some? && var d := s.opening.value.deadlines; now <= if s.closed then d.appeal else d.commit
  {
    Running(digests, entries, s);
    Founded(digests, entries, s);
    Founded(digests, next, t);
    hide Replay, Run, Step, StateOk, CommitsOk;
    RunCase(digests, entries, s);
    var more := next[|entries|..];
    assert next == entries + more;
    RunPrefix(digests, entries, more);
    hide CaseOk;
    NextInTime(digests, s, more[0]);
  }

  // ----- One silent reviewer -----

  /**
   A panel member's silence is final: in every continuation in which that reviewer has not committed, commits are
   still open and nothing is decided, and once the commit deadline is past no entry at all is accepted.
   */
  lemma SilenceEndsTheCase(digests: RootDigests, entries: seq<ReviewEntry>, s: ReviewState, more: seq<ReviewEntry>,
                           t: ReviewState, r: Key, late: seq<ReviewEntry>)
    requires Replay(digests, entries) == Accept(s) && s.phase == Reviewing && r in s.panel
    requires Replay(digests, entries + more) == Accept(t) && r !in t.commits
    requires s.opening.Some? && late != [] && s.opening.value.deadlines.commit < late[0].at
    ensures t.phase == Reviewing && !t.closed && t.decision.None?
    ensures Replay(digests, entries + more + late).Reject?
  {
    Founded(digests, entries, s);
    Founded(digests, entries + more, t);
    hide Replay, Run, Step, ValidCase;
    FrozenForever(digests, entries, more, s, t);
    RunOk(digests, entries + more, t);
    if Replay(digests, entries + more + late).Accept? {
      Founded(digests, entries + more + late, Replay(digests, entries + more + late).value);
      RunPrefix(digests, entries + more, late);
      NextInTime(digests, t, late[0]);
    }
  }
}
