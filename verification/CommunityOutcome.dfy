/** Which closed reviews can still reach an outcome, and how one commitment keeps any review from it. */
module CommunityOutcome {
  import opened Basics
  import opened Ordering
  import opened CommunityTypes
  import opened Credit
  import opened Aggregation
  import opened CreditDeadlock
  import opened CommunitySteps
  import opened CommunityInvariants
  import opened CommunityAttribution
  import opened CommunityReview
  import opened CommunityRuns
  import opened CommunityExtension
  import opened CommunityTheorems
  import opened CommunityVoting
  import opened CommunityProgress
  import opened CommunityDeadlock

  // ----- What a closed review can still accept -----

  /** A committed reviewer whose ballot is not revealed yet. */
  predicate Awaited(s: State, r: Id) {
    r in s.commits && r !in s.ballots
  }

  /** A closed review only reveals what opens, and finalizes once everyone has revealed. */
  lemma ClosedAccepts(s: State, e: CommunityEntry)
    requires s.phase == Reviewing && s.commitsClosed && Step(s, e).Accept?
    ensures FullyRevealed(s) || exists r :: Awaited(s, r) && OpensTo(s, r)
  {
    var p := e.event.payload;
    if WorkKind(p) {
      WorkFramed(s, e.event.actor, e.at, e.hash, p, Step(s, e).value);
    } else if !p.CommunityOpened? {
      ClosedReviewAccepts(s, e.event.actor, p);
    }
  }

  lemma ClosedReviewAccepts(s: State, actor: Key, p: Payload)
    requires s.phase == Reviewing && s.commitsClosed && StepReview(s, actor, p).Accept?
    ensures FullyRevealed(s) || exists r :: Awaited(s, r) && OpensTo(s, r)
  {
    hide ValidBallot, Aggregate;
    if p.BallotRevealed? {
      RevealEffect(s, actor, p, StepReview(s, actor, p).value);
      assert Awaited(s, p.reviewerId) && OpensTo(s, p.reviewerId);
    }
  }

  /** When ballots are missing and none of their commitments opens, nothing can follow. */
  lemma UnopenableIsFinal(entries: seq<CommunityEntry>, s: State)
    requires Replay(entries) == Accept(s) && s.phase == Reviewing && s.commitsClosed
    requires s.ballots.Keys != s.commits.Keys && forall r :: Awaited(s, r) ==> !OpensTo(s, r)
    ensures Final(entries)
  {
    hide Step, Replay, OpensTo;
    forall e ensures Step(s, e).Reject? {
      if Step(s, e).Accept? {
        ClosedAccepts(s, e);
      }
    }
    FinalWhenRefused(entries, s);
  }

  /** The commitments of a replayed review are its frozen reviewers', and it has all that an election needs. */
  lemma ClosedElects(entries: seq<CommunityEntry>, s: State) returns (m: Manifest)
    requires Replay(entries) == Accept(s) && s.phase == Reviewing
    ensures s.manifest == Some(m) && Electing(s, m) && forall r :: r in s.commits ==> r in m.reviewers
  {
    hide Run, ValidReviewers;
    ReviewBound(entries, s);
    m := s.manifest.value;
    ReviewReady(entries, s, m);
    Founded(entries, s);
    RunCommitters(entries, s);
  }

  /**
   A transcript with closed commits is at its end exactly when nothing is left to share among all its ballots, or
   ballots are missing and no commitment of a missing one opens to a valid ballot of its reviewer.
   */
  lemma ClosedFinalExactly(entries: seq<CommunityEntry>, s: State)
    requires Replay(entries) == Accept(s) && s.phase == Reviewing && s.commitsClosed
    ensures s.manifest.Some?
    ensures Final(entries) <==>
              if s.ballots.Keys == s.commits.Keys then NothingToShare(s)
              else forall r :: Awaited(s, r) ==> !OpensTo(s, r)
  {
    hide Replay, OpensTo, NothingToShare, Electing, Final;
    var m := ClosedElects(entries, s);
    if s.ballots.Keys == s.commits.Keys {
      RevealedFinalExactly(entries, s);
    } else if forall r :: Awaited(s, r) ==> !OpensTo(s, r) {
      UnopenableIsFinal(entries, s);
    } else {
      var r :| Awaited(s, r) && OpensTo(s, r);
      RevealContinues(entries, s, m, r);
    }
  }

  lemma RevealContinues(entries: seq<CommunityEntry>, s: State, m: Manifest, r: Id)
    requires Replay(entries) == Accept(s) && Electing(s, m) && s.commitsClosed
    requires Awaited(s, r) && OpensTo(s, r) && r in m.reviewers
    ensures !Final(entries)
  {
    hide Replay, Electing;
    var next := RevealOne(entries, s, m, r);
    assert next == entries + next[|entries|..];
    assert next != entries by { assert WithBallot(s, r, s.commits[r].ballot) != s; }
  }

  lemma RevealedFinalExactly(entries: seq<CommunityEntry>, s: State)
    requires Replay(entries) == Accept(s) && FullyRevealed(s) && s.manifest.Some?
    ensures Final(entries) <==> NothingToShare(s)
  {
    hide Replay, Aggregate;
    ReviewFinishes(entries, s);
    if NothingToShare(s) {
      ReviewBound(entries, s);
      RejectsExactly(s.manifest.value, s.evidenceRoot.value, s.ballots, s.revealed);
      StuckWhenRejected(entries, s);
    } else if Final(entries) {
      FinalHasNoNext(entries);
    }
  }

  // ----- Which closed reviews reach an outcome -----

  /** Every ballot that is still missing can be revealed. */
  ghost predicate Openable(s: State) {
    forall r :: Awaited(s, r) ==> OpensTo(s, r)
  }

  /** The committed reviewers whose ballots are missing, in order. */
  function Missing(s: State): seq<Id> {
    SortedTexts(s.commits.Keys - s.ballots.Keys)
  }

  /** The review after every missing ballot was revealed. */
  function Completed(s: State): (t: State)
    ensures t.manifest == s.manifest && t.commits == s.commits && t.commitsClosed == s.commitsClosed
  {
    Unsealed(s, Missing(s))
  }

  lemma MissingAwaited(s: State)
    ensures NoDuplicates(Missing(s)) && forall r :: r in Missing(s) <==> Awaited(s, r)
  {
    var rs := Missing(s);
    hide SortedTexts;
    assert forall r :: r in rs <==> r in Elements(rs);
  }

  lemma CompletedKeys(s: State)
    requires Openable(s) && s.ballots.Keys <= s.commits.Keys
    ensures Completed(s).ballots.Keys == s.commits.Keys
  {
    MissingAwaited(s);
    MissingOpen(s);
    hide Missing, Openable, OpenedFor;
    MissingComplete(s.commits.Keys, s.ballots, OpenedFor(s.commits, Missing(s)), Missing(s));
  }

  lemma MissingOpen(s: State)
    requires Openable(s) && forall r :: r in Missing(s) <==> Awaited(s, r)
    ensures forall r :: r in Missing(s) <==> r in OpenedFor(s.commits, Missing(s))
  {
    hide ValidBallot, Missing;
  }

  lemma MissingComplete(committed: set<Id>, ballots: Ballots, found: Ballots, missing: seq<Id>)
    requires ballots.Keys <= committed && forall r :: r in missing <==> r in committed && r !in ballots
    requires forall r :: r in missing <==> r in found
    ensures (ballots + found).Keys == committed
  {}

  /** When every missing ballot opens, they can all be revealed. */
  lemma CanComplete(entries: seq<CommunityEntry>, s: State) returns (next: seq<CommunityEntry>)
    requires Replay(entries) == Accept(s) && s.phase == Reviewing && s.commitsClosed && Openable(s)
    ensures entries <= next && Replay(next) == Accept(Completed(s)) && FullyRevealed(Completed(s))
  {
    hide Replay, OpensTo, Electing, Missing;
    var m := ClosedElects(entries, s);
    MissingAwaited(s);
    next := RevealEach(entries, s, m, Missing(s));
    RevealedWithin(entries, s);
    CompletedKeys(s);
  }

  lemma RevealedWithin(entries: seq<CommunityEntry>, s: State)
    requires Replay(entries) == Accept(s)
    ensures s.ballots.Keys <= s.commits.Keys
  {
    hide Run;
    Founded(entries, s);
    RunBallots(entries, s);
  }

  /** Some continuation ends the review: with an allocation, or inconclusively. */
  ghost predicate CanConclude(entries: seq<CommunityEntry>) {
    exists more, t :: Replay(entries + more) == Accept(t) && (t.phase == Allocated || t.phase == Inconclusive)
  }

  /** A finalized review has revealed every commitment, so each opened. */
  lemma ConcludedOpened(s: State, t: State)
    requires BallotsOk(t) && SameEvidence(s, t) && t.commits == s.commits && t.ballots.Keys == t.commits.Keys
    ensures Openable(s)
  {
    hide ValidBallot;
    forall r | Awaited(s, r) ensures OpensTo(s, r) {
      assert t.ballots[r] == s.commits[r].ballot;
      ValidBallotStable(t, s, t.ballots[r], r);
    }
  }

  /** Two fully revealed reviews of one seal with the same commitments have something to share or neither has. */
  lemma SameToShare(s: State, t: State)
    requires BallotsOk(s) && BallotsOk(t) && SameEvidence(s, t) && s.commits == t.commits
    requires s.ballots.Keys == s.commits.Keys && t.ballots.Keys == t.commits.Keys
    requires s.manifest.Some? && t.evidenceRoot.Some?
    requires Aggregate(s.manifest.value, t.evidenceRoot.value, t.ballots, t.revealed).Accept?
    ensures !NothingToShare(s)
  {
    hide BallotsOk, Aggregate;
    var m, root := s.manifest.value, t.evidenceRoot.value;
    BallotsFromCommits(s, t);
    AggregateOrderFree(m, root, t.ballots, s.revealed, t.revealed);
    RejectsExactly(m, root, s.ballots, s.revealed);
  }

  /** What it takes for a continuation to have left the review. */
  lemma LeftReview(entries: seq<CommunityEntry>, s: State, more: seq<CommunityEntry>, t: State)
    requires Replay(entries) == Accept(s) && s.phase == Reviewing && s.commitsClosed && s.manifest.Some?
    requires Replay(entries + more) == Accept(t) && t.phase != Reviewing
    ensures Openable(s) && !NothingToShare(Completed(s))
  {
    hide Run, Replay, Aggregate, BallotsOk, NothingToShare, Completed;
    LeftWithAll(entries, s, more, t);
    ConcludedOpened(s, t);
    var next := CanComplete(entries, s);
    CompletedBallots(next, s);
    SameToShare(Completed(s), t);
  }

  lemma CompletedBallots(next: seq<CommunityEntry>, s: State)
    requires Replay(next) == Accept(Completed(s))
    ensures BallotsOk(Completed(s)) && SameEvidence(s, Completed(s)) && Completed(s).commits == s.commits
  {
    Founded(next, Completed(s));
    hide Replay, Run;
    RunBallots(next, Completed(s));
  }

  lemma LeftWithAll(entries: seq<CommunityEntry>, s: State, more: seq<CommunityEntry>, t: State)
    requires Replay(entries) == Accept(s) && s.phase == Reviewing && s.commitsClosed
    requires Replay(entries + more) == Accept(t) && t.phase != Reviewing
    ensures BallotsOk(t) && SameEvidence(s, t) && t.commits == s.commits && t.ballots.Keys == t.commits.Keys
    ensures t.manifest.Some? && t.evidenceRoot.Some?
    ensures Aggregate(t.manifest.value, t.evidenceRoot.value, t.ballots, t.revealed).Accept?
  {
    Founded(entries, s);
    Founded(entries + more, t);
    hide Run, Replay, BallotsOk, SameEvidence, Aggregate;
    SealedForever(entries, more, s, t);
    CommitsForever(entries, more, s, t);
    RunBallots(entries + more, t);
    RunAllocation(entries + more, t);
  }

  lemma Finalizing(entries: seq<CommunityEntry>, s: State, payload: Payload, signer: Key, t: State)
    returns (next: seq<CommunityEntry>)
    requires Replay(entries) == Accept(s) && payload.AllocationFinalized?
    requires StepFinalized(s, signer, payload) == Accept(t)
    ensures entries <= next && Replay(next) == Accept(t)
  {
    hide Replay, StepFinalized;
    next := Reviewed(entries, s, payload, signer, t);
  }

  lemma FinalizeAccepts(s: State) returns (payload: Payload, t: State)
    requires FullyRevealed(s) && s.manifest.Some? && s.evidenceRoot.Some? && s.clerkKey.Some? && s.allocation.None?
    requires Aggregate(s.manifest.value, s.evidenceRoot.value, s.ballots, s.revealed).Accept?
    ensures payload.AllocationFinalized? && StepFinalized(s, s.clerkKey.value, payload) == Accept(t)
    ensures t.phase == Allocated || t.phase == Inconclusive
  {
    hide Aggregate;
    payload := AllocationFinalized(Aggregate(s.manifest.value, s.evidenceRoot.value, s.ballots, s.revealed).value);
    t := StepFinalized(s, s.clerkKey.value, payload).value;
  }

  /** While something is left to share, finalization ends a fully revealed review. */
  lemma FinalizeConcludes(entries: seq<CommunityEntry>, s: State) returns (next: seq<CommunityEntry>, t: State)
    requires Replay(entries) == Accept(s) && FullyRevealed(s) && s.manifest.Some? && !NothingToShare(s)
    ensures entries <= next && Replay(next) == Accept(t) && (t.phase == Allocated || t.phase == Inconclusive)
  {
    ReviewBound(entries, s);
    hide Replay, StepFinalized, Aggregate;
    RejectsExactly(s.manifest.value, s.evidenceRoot.value, s.ballots, s.revealed);
    hide NothingToShare;
    var payload: Payload;
    payload, t := FinalizeAccepts(s);
    next := Finalizing(entries, s, payload, s.clerkKey.value, t);
  }

  /**
   From closed commits on, an outcome is still within reach exactly when every missing ballot opens to a valid ballot
   of its reviewer and all ballots together leave something to share; otherwise every continuation stays in review.
   */
  lemma ClosedReviewConcludes(entries: seq<CommunityEntry>, s: State)
    requires Replay(entries) == Accept(s) && s.phase == Reviewing && s.commitsClosed
    ensures s.manifest.Some?
    ensures CanConclude(entries) <==> Openable(s) && !NothingToShare(Completed(s))
    ensures !CanConclude(entries) ==>
              forall more, t :: Replay(entries + more) == Accept(t) ==> t.phase == Reviewing
  {
    hide Replay, Openable, NothingToShare, Completed, Electing;
    var m := ClosedElects(entries, s);
    forall more, t | Replay(entries + more) == Accept(t) && t.phase != Reviewing
      ensures Openable(s) && !NothingToShare(Completed(s))
    {
      LeftReview(entries, s, more, t);
    }
    if Openable(s) && !NothingToShare(Completed(s)) {
      var next := CanComplete(entries, s);
      var last, t := FinalizeConcludes(next, Completed(s));
      assert last == entries + last[|entries|..];
    }
  }

  // ----- One commitment that opens to nothing -----

  /** The review with these ballots committed and revealed, and one further commitment, which stays sealed. */
  function Blocked(s: State, ballots: Ballots, rs: seq<Id>, x: Id, digest: Digest): State
    requires forall r :: r in rs ==> r in ballots
  {
    s.(commits := CommitsFor(ballots, rs)[x := digest], commitsClosed := true, ballots := ballots, revealed := rs)
  }

  lemma BlockingCount(ballots: Ballots, rs: seq<Id>, x: Id, digest: Digest)
    requires x !in ballots && forall r :: r in rs <==> r in ballots
    ensures x !in CommitsFor(ballots, rs) && |CommitsFor(ballots, rs)[x := digest]| == |ballots| + 1
  {
    CommitCount(ballots, rs);
    var commits := CommitsFor(ballots, rs);
    assert commits[x := digest].Keys == commits.Keys + {x};
    assert |commits[x := digest].Keys| == |commits[x := digest]| && |commits.Keys| == |commits|;
  }

  /** Every reviewer but one commits a ballot, that one commits any digest at all, and commits close. */
  lemma CommitWithOne(entries: seq<CommunityEntry>, s: State, m: Manifest, ballots: Ballots, rs: seq<Id>, x: Id,
                      digest: Digest)
    returns (next: seq<CommunityEntry>)
    requires NoDuplicates(rs) && forall r :: r in rs <==> r in ballots
    requires Replay(entries) == Accept(s) && Castable(s, m, ballots) && Electing(s, m)
    requires !s.commitsClosed && s.commits == map[]
    requires x in m.reviewers && x !in ballots && 3 <= m.policy.reviewQuorum <= |ballots| + 1
    ensures entries <= next
    ensures Replay(next) == Accept(s.(commits := CommitsFor(ballots, rs)[x := digest], commitsClosed := true))
  {
    hide Replay, Castable, ValidReviewers;
    BlockingCount(ballots, rs, x, digest);
    hide CommitsFor;
    next := CommitEach(entries, s, m, ballots, rs);
    next := CommitAny(next, s.(commits := CommitsFor(ballots, rs)), m, x, digest);
    next := CloseNext(next, s.(commits := CommitsFor(ballots, rs)[x := digest]), m);
  }

  lemma OthersOpen(s: State, m: Manifest, ballots: Ballots, rs: seq<Id>, x: Id, digest: Digest)
    requires x !in ballots && forall r :: r in rs <==> r in ballots
    requires Castable(s, m, ballots) && s.commits == CommitsFor(ballots, rs)[x := digest]
    ensures forall r :: r in rs ==> r in m.reviewers && OpensTo(s, r)
  {
    hide ValidBallot, ValidReviewers;
  }

  lemma OthersUnsealed(s: State, ballots: Ballots, rs: seq<Id>, x: Id, digest: Digest)
    requires x !in ballots && forall r :: r in rs <==> r in ballots
    requires s.commits == CommitsFor(ballots, rs)[x := digest] && s.ballots == map[] && s.revealed == []
    ensures Unsealed(s, rs) == s.(ballots := ballots, revealed := rs)
  {
    OthersOpened(ballots, rs, x, digest);
    hide CommitsFor, OpenedFor;
    assert [] + rs == rs;
  }

  lemma OthersOpened(ballots: Ballots, rs: seq<Id>, x: Id, digest: Digest)
    requires x !in ballots && forall r :: r in rs <==> r in ballots
    ensures map[] + OpenedFor(CommitsFor(ballots, rs)[x := digest], rs) == ballots
  {}

  /** Everyone else's ballots are revealed. */
  lemma RevealOthers(entries: seq<CommunityEntry>, s: State, m: Manifest, ballots: Ballots, rs: seq<Id>, x: Id,
                     digest: Digest)
    returns (next: seq<CommunityEntry>)
    requires NoDuplicates(rs) && x !in ballots && forall r :: r in rs <==> r in ballots
    requires Replay(entries) == Accept(s) && Castable(s, m, ballots) && Electing(s, m) && s.commitsClosed
    requires s.commits == CommitsFor(ballots, rs)[x := digest] && s.ballots == map[] && s.revealed == []
    ensures entries <= next && Replay(next) == Accept(s.(ballots := ballots, revealed := rs))
  {
    hide Replay;
    OthersOpen(s, m, ballots, rs, x, digest);
    OthersUnsealed(s, ballots, rs, x, digest);
    hide Castable, ValidReviewers, OpensTo, Unsealed, CommitsFor;
    next := RevealEach(entries, s, m, rs);
  }

  lemma OneAwaited(s: State, ballots: Ballots, rs: seq<Id>, x: Id, digest: Digest)
    requires x !in ballots && forall r :: r in rs <==> r in ballots
    requires s.commits == CommitsFor(ballots, rs)[x := digest] && s.ballots == ballots
    ensures s.ballots.Keys != s.commits.Keys && forall r :: Awaited(s, r) <==> r == x
  {
    assert x in s.commits.Keys && x !in s.ballots.Keys;
  }

  /** The digest is to no valid ballot of this reviewer. */
  ghost predicate OpensToNothing(s: State, x: Id, digest: Digest) {
    !(digest.BallotDigest? && ValidBallot(s, digest.ballot, x))
  }

  lemma NothingStays(s: State, t: State, x: Id, digest: Digest)
    requires OpensToNothing(s, x, digest) && SameEvidence(s, t) && x in t.commits && t.commits[x] == digest
    ensures !OpensTo(t, x)
  {
    hide ValidBallot;
    if OpensTo(t, x) {
      ValidBallotStable(t, s, digest.ballot, x);
    }
  }

  lemma BlockedIsFinal(entries: seq<CommunityEntry>, s: State, t: State, ballots: Ballots, rs: seq<Id>, x: Id,
                       digest: Digest)
    requires x !in ballots && forall r :: r in rs <==> r in ballots
    requires t == Blocked(s, ballots, rs, x, digest) && OpensToNothing(s, x, digest)
    requires s.phase == Reviewing && Replay(entries) == Accept(t)
    ensures t.commits == CommitsFor(ballots, rs)[x := digest] && t.commits[x] == digest
    ensures Final(entries)
  {
    OneAwaited(t, ballots, rs, x, digest);
    hide Replay, OpensToNothing, OpensTo, Final;
    NothingStays(s, t, x, digest);
    UnopenableIsFinal(entries, t);
  }

  /**
   From any open review, whatever valid ballots the others cast and reveal, one more reviewer can commit a digest that
   opens to none of its valid ballots, and then nothing can follow once commits are closed and the others revealed.
   */
  lemma ReviewCanBlock(entries: seq<CommunityEntry>, s: State, m: Manifest, ballots: Ballots, x: Id, digest: Digest)
    returns (next: seq<CommunityEntry>, t: State)
    requires Replay(entries) == Accept(s) && s.phase == Reviewing && ReviewBlank(s) && Castable(s, m, ballots)
    requires x in m.reviewers && x !in ballots && 3 <= m.policy.reviewQuorum <= |ballots| + 1
    requires OpensToNothing(s, x, digest)
    ensures entries <= next && Replay(next) == Accept(t) && t.manifest == Some(m) && t.phase == Reviewing
    ensures t.commitsClosed && t.ballots == ballots && t.commits.Keys == ballots.Keys + {x} && t.commits[x] == digest
    ensures Final(next)
  {
    hide Replay, Castable, ValidReviewers, ReviewBlank, OpensToNothing, Final, SortedTexts;
    BlankStart(s);
    CastableElects(s, m, ballots);
    var rs := SortedTexts(ballots.Keys);
    SortedKeys(ballots);
    var closed := s.(commits := CommitsFor(ballots, rs)[x := digest], commitsClosed := true);
    next := CommitWithOne(entries, s, m, ballots, rs, x, digest);
    StaysCastable(s, closed, m, ballots);
    CastableElects(closed, m, ballots);
    next := RevealOthers(next, closed, m, ballots, rs, x, digest);
    t := Blocked(s, ballots, rs, x, digest);
    BlockedIsFinal(next, s, t, ballots, rs, x, digest);
  }

  // ----- Every manifest can be blocked -----

  /** A ballot that gives nothing to anyone. */
  function UndecidedBallot(m: Manifest, root: Digest, r: Id): Ballot {
    Ballot(m.caseId, root, r, false, map p | p in m.participants :: 0, map p | p in m.participants :: [], "")
  }

  lemma UndecidedIsValid(s: State, m: Manifest, r: Id)
    requires s.manifest == Some(m) && s.evidenceRoot.Some? && s.sealedResult.Some? && s.sealedResult.value in s.results
    ensures ValidBallot(s, UndecidedBallot(m, s.evidenceRoot.value, r), r)
  {
    var ballot := UndecidedBallot(m, s.evidenceRoot.value, r);
    ZeroMapTotal(ballot.shares);
    hide Total;
    forall p | p in ballot.shares ensures ValidShare(s, ballot, s.results[s.sealedResult.value].expected, p) {
      SingleDistinct(p);
    }
  }

  function UndecidedBy(m: Manifest, root: Digest, rs: set<Id>): Ballots {
    map r | r in rs :: UndecidedBallot(m, root, r)
  }

  lemma UndecidedCastable(s: State, m: Manifest, rs: set<Id>)
    requires s.manifest == Some(m) && ValidReviewers(m) && rs <= m.reviewers.Keys && s.clerkKey.Some?
    requires s.evidenceRoot.Some? && s.sealedResult.Some? && s.sealedResult.value in s.results
    ensures Castable(s, m, UndecidedBy(m, s.evidenceRoot.value, rs))
  {
    hide ValidBallot, ValidReviewers, UndecidedBallot;
    var ballots := UndecidedBy(m, s.evidenceRoot.value, rs);
    forall r | r in ballots ensures ValidBallot(s, ballots[r], r) {
      UndecidedIsValid(s, m, r);
    }
  }

  /** Some transcript of the manifest can never be continued, because one reviewer's commitment opens to nothing. */
  ghost predicate GetsBlocked(m: Manifest) {
    exists entries, s, x ::
      && Replay(entries) == Accept(s) && s.manifest == Some(m) && s.phase == Reviewing && s.commitsClosed
      && s.commits.Keys == m.reviewers.Keys && x in s.commits && s.ballots.Keys == s.commits.Keys - {x}
      && Final(entries)
  }

  /** Where nobody has voted, everyone but one can vote undecided, and that one commit to nothing. */
  lemma OpenReviewBlocks(entries: seq<CommunityEntry>, s: State, m: Manifest, x: Id)
    returns (next: seq<CommunityEntry>, t: State)
    requires Replay(entries) == Accept(s) && s.phase == Reviewing && ReviewBlank(s) && s.manifest == Some(m)
    requires x in m.reviewers && 3 <= m.policy.reviewQuorum <= |m.reviewers.Keys|
    ensures Replay(next) == Accept(t) && t.manifest == Some(m) && t.phase == Reviewing && t.commitsClosed
    ensures t.commits.Keys == m.reviewers.Keys && t.ballots.Keys == m.reviewers.Keys - {x} && Final(next)
  {
    hide Run, Step, Replay, ValidReviewers, Final, ReviewBlank, Castable, UndecidedBy;
    ReviewReady(entries, s, m);
    var root := s.evidenceRoot.value;
    var ballots := UndecidedBy(m, root, m.reviewers.Keys - {x});
    UndecidedCastable(s, m, m.reviewers.Keys - {x});
    UndecidedCount(m, root, x);
    next, t := ReviewCanBlock(entries, s, m, ballots, x, OtherDigest("sealed"));
  }

  /** Under every valid manifest, whatever its limits, one reviewer can keep a review from ever ending. */
  lemma ManifestCanBlock(m: Manifest, clerk: Key)
    requires ValidManifest(m) && !CaseActorKey(m, clerk)
    ensures GetsBlocked(m)
  {
    assert 3 <= m.policy.reviewQuorum <= |m.reviewers.Keys| by { assert |m.reviewers.Keys| == |m.reviewers|; }
    hide ValidManifest, CaseActorKey, Replay, Final, Contributed, ReviewBlank;
    var entries, s := ReviewReachable(m, clerk);
    var x :| x in m.reviewers.Keys;
    var next, t := OpenReviewBlocks(entries, s, m, x);
  }

  lemma UndecidedCount(m: Manifest, root: Digest, x: Id)
    requires x in m.reviewers
    ensures var ballots := UndecidedBy(m, root, m.reviewers.Keys - {x});
            && |ballots| + 1 == |m.reviewers.Keys| && ballots.Keys == m.reviewers.Keys - {x}
  {
    var ballots := UndecidedBy(m, root, m.reviewers.Keys - {x});
    assert ballots.Keys == m.reviewers.Keys - {x};
    assert |ballots.Keys| == |ballots|;
  }

  // ----- One reviewer is enough, whatever the others do -----

  lemma CommitNeedsRoom(s: State, actor: Key, p: Payload, t: State)
    requires p.BallotCommitted? && StepBallotCommitted(s, actor, p) == Accept(t)
    ensures p.reviewerId !in s.commits && t.commits == s.commits[p.reviewerId := p.commitment]
  {}

  lemma CommitHeld(s: State, e: CommunityEntry, t: State, x: Id)
    requires Step(s, e) == Accept(t) && x in s.commits
    ensures x in t.commits && t.commits[x] == s.commits[x]
  {
    hide Step;
    StepFramed(s, e, t);
    if e.event.payload.BallotCommitted? {
      CommitStep(s, e, t);
      CommitNeedsRoom(s, e.event.actor, e.event.payload, t);
    }
  }

  /** A commitment is never changed or withdrawn, before the close or after. */
  lemma {:induction false} CommitmentForever(entries: seq<CommunityEntry>, more: seq<CommunityEntry>, s: State,
                                             t: State, x: Id)
    requires Run(entries) == Accept(s) && Run(entries + more) == Accept(t) && x in s.commits
    ensures x in t.commits && t.commits[x] == s.commits[x]
  {
    hide Step;
    if more == [] {
      assert entries + more == entries;
    } else {
      var prev := RunShorter(entries, more, t);
      CommitmentForever(entries, more[..|more| - 1], s, prev, x);
      CommitHeld(prev, more[|more| - 1], t, x);
    }
  }

  /** A commitment that opens to nothing keeps every continuation in review. */
  lemma UnopenableNeverConcludes(entries: seq<CommunityEntry>, s: State, x: Id, more: seq<CommunityEntry>, t: State)
    requires Replay(entries) == Accept(s) && s.phase == Reviewing && x in s.commits
    requires OpensToNothing(s, x, s.commits[x]) && Replay(entries + more) == Accept(t)
    ensures t.phase == Reviewing
  {
    Founded(entries, s);
    Founded(entries + more, t);
    hide Run, Replay, OpensToNothing, SameEvidence, Aggregate;
    SealedForever(entries, more, s, t);
    CommitmentForever(entries, more, s, t, x);
    RunBallots(entries + more, t);
    RunAllocation(entries + more, t);
    if t.phase != Reviewing {
      RevealedOpens(t, x);
      hide BallotsOk;
      NothingStays(s, t, x, s.commits[x]);
    }
  }

  lemma RevealedOpens(t: State, x: Id)
    requires BallotsOk(t) && x in t.commits && t.ballots.Keys == t.commits.Keys
    ensures OpensTo(t, x)
  {
    hide ValidBallot;
    assert x in t.ballots;
  }

  /**
   Any frozen reviewer that has not committed yet can, alone and while commits are open, append one commitment after
   which no continuation whatever, of any length, ends the review.
   */
  lemma OneReviewerBlocks(entries: seq<CommunityEntry>, s: State, m: Manifest, x: Id)
    returns (next: seq<CommunityEntry>)
    requires Replay(entries) == Accept(s) && s.phase == Reviewing && s.manifest == Some(m) && !s.commitsClosed
    requires x in m.reviewers && x !in s.commits
    ensures entries <= next && Replay(next).Accept? && !CanConclude(next)
    ensures forall more, t :: Replay(next + more) == Accept(t) ==> t.phase == Reviewing
  {
    hide Replay, Electing;
    var roster := ClosedElects(entries, s);
    var digest := OtherDigest("sealed");
    next := CommitAny(entries, s, m, x, digest);
    var u := s.(commits := s.commits[x := digest]);
    forall more, t | Replay(next + more) == Accept(t) ensures t.phase == Reviewing {
      UnopenableNeverConcludes(next, u, x, more, t);
    }
  }
}
