/** From an open review, any quorum can cast any valid ballots; from a closed one, what opens can be revealed. */
module CommunityVoting {
  import opened Basics
  import opened Ordering
  import opened CommunityTypes
  import opened Aggregation
  import opened CommunitySteps
  import opened CommunityAttribution
  import opened CommunityReview
  import opened CommunityExtension

  lemma Reviewed(entries: seq<CommunityEntry>, s: State, payload: Payload, signer: Key, t: State)
    returns (next: seq<CommunityEntry>)
    requires Replay(entries) == Accept(s) && !WorkKind(payload) && !payload.CommunityOpened?
    requires StepReview(s, signer, payload) == Accept(t)
    ensures entries <= next && Replay(next) == Accept(t)
  {
    hide StepReview;
    Founded(entries, s);
    hide Replay;
    ExtendReview(entries, s, payload, signer, t);
    next := entries + [Signed(entries, payload, signer)];
  }

  lemma Committing(entries: seq<CommunityEntry>, s: State, payload: Payload, signer: Key, t: State)
    returns (next: seq<CommunityEntry>)
    requires Replay(entries) == Accept(s) && payload.BallotCommitted?
    requires StepBallotCommitted(s, signer, payload) == Accept(t)
    ensures entries <= next && Replay(next) == Accept(t)
  {
    hide Replay, StepBallotCommitted;
    next := Reviewed(entries, s, payload, signer, t);
  }

  lemma Revealing(entries: seq<CommunityEntry>, s: State, payload: Payload, signer: Key, t: State)
    returns (next: seq<CommunityEntry>)
    requires Replay(entries) == Accept(s) && payload.BallotRevealed? && StepRevealed(s, signer, payload) == Accept(t)
    ensures entries <= next && Replay(next) == Accept(t)
  {
    hide Replay, StepRevealed;
    next := Reviewed(entries, s, payload, signer, t);
  }

  lemma Closing(entries: seq<CommunityEntry>, s: State, payload: Payload, signer: Key, t: State)
    returns (next: seq<CommunityEntry>)
    requires Replay(entries) == Accept(s) && payload.CommitsClosed? && StepClosed(s, signer, payload) == Accept(t)
    ensures entries <= next && Replay(next) == Accept(t)
  {
    hide Replay, StepClosed;
    next := Reviewed(entries, s, payload, signer, t);
  }

  // ----- Casting ballots -----

  function CommitsFor(ballots: Ballots, rs: seq<Id>): map<Id, Digest>
    requires forall r :: r in rs ==> r in ballots
  {
    map r | r in rs :: BallotDigest(ballots[r], "")
  }

  /** The ballots that commitments open to. */
  function OpenedFor(commits: map<Id, Digest>, rs: seq<Id>): Ballots {
    map r | r in rs && r in commits && commits[r].BallotDigest? :: commits[r].ballot
  }

  lemma OneMore(ballots: Ballots, rs: seq<Id>)
    requires rs != [] && NoDuplicates(rs) && forall r :: r in rs ==> r in ballots
    ensures var init, last := rs[..|rs| - 1], rs[|rs| - 1];
            && NoDuplicates(init) && last in rs && (forall r :: r in init ==> r in rs)
            && last !in CommitsFor(ballots, init)
            && CommitsFor(ballots, rs) == CommitsFor(ballots, init)[last := BallotDigest(ballots[last], "")]
  {
    SplitLast(rs);
    var init, last := rs[..|rs| - 1], rs[|rs| - 1];
    assert last !in init;
    assert forall r :: r in rs <==> r in init || r == last;
  }

  /** These ballots may be cast: each by a frozen reviewer, each valid on the sealed evidence. */
  ghost predicate Castable(s: State, m: Manifest, ballots: Ballots) {
    && s.manifest == Some(m) && ValidReviewers(m) && s.evidenceRoot.Some? && s.clerkKey.Some?
    && ballots.Keys <= m.reviewers.Keys
    && forall r :: r in ballots ==> ValidBallot(s, ballots[r], r)
  }

  lemma ReviewerIsUnique(s: State, m: Manifest, r: Id)
    requires s.manifest == Some(m) && ValidReviewers(m) && r in m.reviewers
    ensures Reviews(s, m.reviewers[r].reviewerKey, r)
  {}

  function Committal(m: Manifest, root: Digest, ballot: Ballot, r: Id): Payload {
    BallotCommitted(m.caseId, root, r, BallotDigest(ballot, ""))
  }

  lemma CommitAccepted(s: State, m: Manifest, ballots: Ballots, r: Id)
    requires Castable(s, m, ballots) && r in ballots && s.phase == Reviewing && !s.commitsClosed && r !in s.commits
    ensures StepBallotCommitted(s, m.reviewers[r].reviewerKey, Committal(m, s.evidenceRoot.value, ballots[r], r))
            == Accept(s.(commits := s.commits[r := BallotDigest(ballots[r], "")]))
  {
    ReviewerIsUnique(s, m, r);
    hide ValidBallot, ValidReviewers, Reviews;
  }

  lemma StaysCastable(s: State, t: State, m: Manifest, ballots: Ballots)
    requires Castable(s, m, ballots) && SameEvidence(s, t) && t.clerkKey == s.clerkKey
    ensures Castable(t, m, ballots)
  {
    hide ValidBallot, ValidReviewers;
    forall r | r in ballots ensures ValidBallot(t, ballots[r], r) {
      ValidBallotStable(s, t, ballots[r], r);
    }
  }

  lemma CommitOne(entries: seq<CommunityEntry>, s: State, m: Manifest, ballots: Ballots, r: Id)
    returns (next: seq<CommunityEntry>)
    requires Replay(entries) == Accept(s)
    requires Castable(s, m, ballots) && r in ballots && s.phase == Reviewing && !s.commitsClosed && r !in s.commits
    ensures entries <= next && Replay(next) == Accept(s.(commits := s.commits[r := BallotDigest(ballots[r], "")]))
  {
    CommitAccepted(s, m, ballots, r);
    hide Replay, StepBallotCommitted, Castable;
    next := Committing(entries, s, Committal(m, s.evidenceRoot.value, ballots[r], r), m.reviewers[r].reviewerKey,
                       s.(commits := s.commits[r := BallotDigest(ballots[r], "")]));
  }

  lemma {:induction false} CommitEach(entries: seq<CommunityEntry>, s: State, m: Manifest, ballots: Ballots,
                                      rs: seq<Id>)
    returns (next: seq<CommunityEntry>)
    requires Replay(entries) == Accept(s) && Castable(s, m, ballots)
    requires s.phase == Reviewing && !s.commitsClosed && s.commits == map[]
    requires NoDuplicates(rs) && forall r :: r in rs ==> r in ballots
    ensures entries <= next && Replay(next) == Accept(s.(commits := CommitsFor(ballots, rs)))
  {
    hide Replay, Castable;
    if rs == [] {
      assert CommitsFor(ballots, rs) == map[];
      return entries;
    }
    OneMore(ballots, rs);
    var init, last := rs[..|rs| - 1], rs[|rs| - 1];
    var t := s.(commits := CommitsFor(ballots, init));
    next := CommitEach(entries, s, m, ballots, init);
    StaysCastable(s, t, m, ballots);
    next := CommitOne(next, t, m, ballots, last);
  }

  /** A review under a frozen roster, with its root and clerk. */
  ghost predicate Electing(s: State, m: Manifest) {
    s.manifest == Some(m) && ValidReviewers(m) && s.evidenceRoot.Some? && s.clerkKey.Some? && s.phase == Reviewing
  }

  /** Any digest at all may be committed. */
  lemma CommitAny(entries: seq<CommunityEntry>, s: State, m: Manifest, r: Id, digest: Digest)
    returns (next: seq<CommunityEntry>)
    requires Replay(entries) == Accept(s) && Electing(s, m) && r in m.reviewers && !s.commitsClosed && r !in s.commits
    ensures entries <= next && Replay(next) == Accept(s.(commits := s.commits[r := digest]))
  {
    var payload := BallotCommitted(m.caseId, s.evidenceRoot.value, r, digest);
    AnyAccepted(s, m, r, digest);
    hide Replay, StepBallotCommitted, ValidReviewers;
    next := Committing(entries, s, payload, m.reviewers[r].reviewerKey, s.(commits := s.commits[r := digest]));
  }

  lemma AnyAccepted(s: State, m: Manifest, r: Id, digest: Digest)
    requires Electing(s, m) && r in m.reviewers && !s.commitsClosed && r !in s.commits
    ensures StepBallotCommitted(s, m.reviewers[r].reviewerKey,
                                BallotCommitted(m.caseId, s.evidenceRoot.value, r, digest))
            == Accept(s.(commits := s.commits[r := digest]))
  {
    ReviewerIsUnique(s, m, r);
    hide ValidReviewers, Reviews;
  }

  lemma CloseNext(entries: seq<CommunityEntry>, s: State, m: Manifest)
    returns (next: seq<CommunityEntry>)
    requires Replay(entries) == Accept(s) && Electing(s, m) && !s.commitsClosed
    requires 3 <= m.policy.reviewQuorum <= |s.commits|
    ensures entries <= next && Replay(next) == Accept(s.(commitsClosed := true))
  {
    var payload := CommitsClosed(m.caseId, s.evidenceRoot.value, SortedTexts(s.commits.Keys));
    assert |s.commits.Keys| == |s.commits|;
    CloseAccepted(s, m, payload);
    hide Replay, StepClosed, ValidReviewers;
    next := Closing(entries, s, payload, s.clerkKey.value, s.(commitsClosed := true));
  }

  lemma CloseAccepted(s: State, m: Manifest, payload: Payload)
    requires s.manifest == Some(m) && s.evidenceRoot.Some? && s.clerkKey.Some? && s.phase == Reviewing
             && !s.commitsClosed
    requires payload == CommitsClosed(m.caseId, s.evidenceRoot.value, SortedTexts(s.commits.Keys))
    requires 3 <= m.policy.reviewQuorum <= |s.commits.Keys|
    ensures StepClosed(s, s.clerkKey.value, payload) == Accept(s.(commitsClosed := true))
  {}

  /** The commitment is to a ballot that its reviewer may reveal. */
  ghost predicate OpensTo(s: State, r: Id) {
    r in s.commits && s.commits[r].BallotDigest? && ValidBallot(s, s.commits[r].ballot, r)
  }

  function Revelation(m: Manifest, root: Digest, digest: Digest, r: Id): Payload
    requires digest.BallotDigest?
  {
    BallotRevealed(m.caseId, root, r, digest.ballot, digest.salt)
  }

  function WithBallot(s: State, r: Id, ballot: Ballot): State {
    s.(ballots := s.ballots[r := ballot], revealed := s.revealed + [r])
  }

  lemma RevealAccepted(s: State, m: Manifest, r: Id)
    requires Electing(s, m) && s.commitsClosed && r in m.reviewers && r !in s.ballots && OpensTo(s, r)
    ensures StepRevealed(s, m.reviewers[r].reviewerKey, Revelation(m, s.evidenceRoot.value, s.commits[r], r))
            == Accept(WithBallot(s, r, s.commits[r].ballot))
  {
    ReviewerIsUnique(s, m, r);
    hide ValidBallot, ValidReviewers, Reviews;
  }

  /** A commitment that opens to a valid ballot can be revealed. */
  lemma RevealOne(entries: seq<CommunityEntry>, s: State, m: Manifest, r: Id) returns (next: seq<CommunityEntry>)
    requires Replay(entries) == Accept(s)
    requires Electing(s, m) && s.commitsClosed && r in m.reviewers && r !in s.ballots && OpensTo(s, r)
    ensures entries <= next && Replay(next) == Accept(WithBallot(s, r, s.commits[r].ballot))
  {
    var payload := Revelation(m, s.evidenceRoot.value, s.commits[r], r);
    var signer := m.reviewers[r].reviewerKey;
    RevealAccepted(s, m, r);
    hide Replay, StepRevealed, ValidBallot, ValidReviewers, WithBallot, Electing;
    next := Revealing(entries, s, payload, signer, WithBallot(s, r, s.commits[r].ballot));
  }

  lemma StillOpens(s: State, t: State, r: Id)
    requires OpensTo(s, r) && SameEvidence(s, t) && t.commits == s.commits
    ensures OpensTo(t, r)
  {
    ValidBallotStable(s, t, s.commits[r].ballot, r);
  }

  /** The review after these reviewers revealed, in this order. */
  function Unsealed(s: State, rs: seq<Id>): State {
    s.(ballots := s.ballots + OpenedFor(s.commits, rs), revealed := s.revealed + rs)
  }

  lemma UnsealedNone(s: State)
    ensures Unsealed(s, []) == s
  {
    assert s.ballots + map[] == s.ballots && s.revealed + [] == s.revealed;
    assert OpenedFor(s.commits, []) == map[];
  }

  lemma UnsealedMore(s: State, rs: seq<Id>)
    requires rs != [] && NoDuplicates(rs) && OpensTo(s, rs[|rs| - 1]) && rs[|rs| - 1] !in s.ballots
    ensures var init, last := rs[..|rs| - 1], rs[|rs| - 1];
            && last !in Unsealed(s, init).ballots
            && WithBallot(Unsealed(s, init), last, s.commits[last].ballot) == Unsealed(s, rs)
  {
    hide ValidBallot;
    var init, last := rs[..|rs| - 1], rs[|rs| - 1];
    OpenedMore(s.commits, s.ballots, rs);
    assert s.revealed + rs == (s.revealed + init) + [last];
    hide OpenedFor;
  }

  lemma OpenedMore(commits: map<Id, Digest>, ballots: Ballots, rs: seq<Id>)
    requires rs != [] && NoDuplicates(rs)
    requires var last := rs[|rs| - 1]; last in commits && commits[last].BallotDigest? && last !in ballots
    ensures var init, last := rs[..|rs| - 1], rs[|rs| - 1];
            && last !in ballots + OpenedFor(commits, init)
            && ballots + OpenedFor(commits, rs) == (ballots + OpenedFor(commits, init))[last := commits[last].ballot]
  {
    var init, last := rs[..|rs| - 1], rs[|rs| - 1];
    SplitLast(rs);
    assert last !in init && forall r :: r in rs <==> r in init || r == last;
  }

  /** Every one of these commitments can be revealed, one after another. */
  lemma {:induction false} RevealEach(entries: seq<CommunityEntry>, s: State, m: Manifest, rs: seq<Id>)
    returns (next: seq<CommunityEntry>)
    requires Replay(entries) == Accept(s) && Electing(s, m) && s.commitsClosed && NoDuplicates(rs)
    requires forall r :: r in rs ==> r in m.reviewers && r !in s.ballots && OpensTo(s, r)
    ensures entries <= next && Replay(next) == Accept(Unsealed(s, rs))
  {
    hide Replay, OpensTo, WithBallot, ValidReviewers;
    if rs == [] {
      UnsealedNone(s);
      return entries;
    }
    var init, last := rs[..|rs| - 1], rs[|rs| - 1];
    assert last in rs;
    SplitLast(rs);
    next := RevealEach(entries, s, m, init);
    UnsealedMore(s, rs);
    StillOpens(s, Unsealed(s, init), last);
    next := RevealOne(next, Unsealed(s, init), m, last);
  }

  /** The review with exactly these ballots committed, closed and revealed. */
  function Voted(s: State, ballots: Ballots): State {
    var rs := SortedTexts(ballots.Keys);
    s.(commits := map r | r in ballots :: BallotDigest(ballots[r], ""), commitsClosed := true,
       ballots := ballots, revealed := rs)
  }

  lemma BlankStart(s: State)
    requires ReviewBlank(s)
    ensures s.commits == map[] && !s.commitsClosed && s.ballots == map[] && s.revealed == []
  {}

  lemma CastableElects(s: State, m: Manifest, ballots: Ballots)
    requires Castable(s, m, ballots) && s.phase == Reviewing
    ensures Electing(s, m) && ballots.Keys <= m.reviewers.Keys
  {}

  lemma CommitAndClose(entries: seq<CommunityEntry>, s: State, m: Manifest, ballots: Ballots, rs: seq<Id>)
    returns (next: seq<CommunityEntry>)
    requires Replay(entries) == Accept(s) && Castable(s, m, ballots)
    requires s.phase == Reviewing && !s.commitsClosed && s.commits == map[]
    requires NoDuplicates(rs) && (forall r :: r in rs <==> r in ballots)
    requires 3 <= m.policy.reviewQuorum <= |ballots|
    ensures entries <= next
    ensures Replay(next) == Accept(s.(commits := CommitsFor(ballots, rs), commitsClosed := true))
  {
    hide Replay, Castable;
    CastableElects(s, m, ballots);
    hide ValidReviewers;
    next := CommitEach(entries, s, m, ballots, rs);
    CommitCount(ballots, rs);
    next := CloseNext(next, s.(commits := CommitsFor(ballots, rs)), m);
  }

  lemma CommitCount(ballots: Ballots, rs: seq<Id>)
    requires forall r :: r in rs <==> r in ballots
    ensures |CommitsFor(ballots, rs)| == |ballots|
  {
    assert CommitsFor(ballots, rs).Keys == ballots.Keys;
    assert |CommitsFor(ballots, rs).Keys| == |CommitsFor(ballots, rs)| && |ballots.Keys| == |ballots|;
  }

  /** Any valid ballots of a quorum of reviewers can be committed, closed and revealed. */
  lemma AnyPanelVotes(entries: seq<CommunityEntry>, s: State, m: Manifest, ballots: Ballots)
    returns (next: seq<CommunityEntry>)
    requires Replay(entries) == Accept(s) && s.phase == Reviewing && ReviewBlank(s) && Castable(s, m, ballots)
    requires 3 <= m.policy.reviewQuorum <= |ballots|
    ensures entries <= next && Replay(next) == Accept(Voted(s, ballots))
  {
    hide Replay, Castable, SortedTexts, ReviewBlank, CommitsFor;
    BlankStart(s);
    var rs := SortedTexts(ballots.Keys);
    SortedKeys(ballots);
    ListedBallots(ballots, rs);
    var closed := s.(commits := CommitsFor(ballots, rs), commitsClosed := true);
    next := CommitAndClose(entries, s, m, ballots, rs);
    StaysCastable(s, closed, m, ballots);
    next := RevealCommitted(next, closed, m, ballots, rs);
  }

  lemma RevealCommitted(entries: seq<CommunityEntry>, s: State, m: Manifest, ballots: Ballots, rs: seq<Id>)
    returns (next: seq<CommunityEntry>)
    requires NoDuplicates(rs) && forall r :: r in rs <==> r in ballots
    requires s.commits == CommitsFor(ballots, rs) && s.ballots == map[] && s.revealed == []
    requires Replay(entries) == Accept(s) && Castable(s, m, ballots) && s.phase == Reviewing && s.commitsClosed
    ensures entries <= next && Replay(next) == Accept(s.(ballots := ballots, revealed := rs))
  {
    hide Replay;
    CommittedOpens(s, m, ballots, rs);
    CastableElects(s, m, ballots);
    AllUnsealed(s, ballots, rs);
    hide Castable, ValidReviewers, OpensTo, Unsealed, CommitsFor;
    next := RevealEach(entries, s, m, rs);
  }

  lemma AllUnsealed(s: State, ballots: Ballots, rs: seq<Id>)
    requires forall r :: r in rs <==> r in ballots
    requires s.commits == CommitsFor(ballots, rs) && s.ballots == map[] && s.revealed == []
    ensures Unsealed(s, rs) == s.(ballots := ballots, revealed := rs)
  {
    ListedBallots(ballots, rs);
    hide CommitsFor, OpenedFor;
    assert [] + rs == rs;
  }

  lemma CommittedOpens(s: State, m: Manifest, ballots: Ballots, rs: seq<Id>)
    requires forall r :: r in rs ==> r in ballots
    requires Castable(s, m, ballots) && s.commits == CommitsFor(ballots, rs)
    ensures forall r :: r in rs ==> r in m.reviewers && OpensTo(s, r)
  {
    hide ValidBallot, ValidReviewers;
  }

  lemma SortedKeys(ballots: Ballots)
    ensures var rs := SortedTexts(ballots.Keys);
            && NoDuplicates(rs) && (forall r :: r in rs <==> r in ballots)
  {
    var rs := SortedTexts(ballots.Keys);
    hide SortedTexts;
    assert forall r :: r in rs <==> r in Elements(rs);
  }

  lemma ListedBallots(ballots: Ballots, rs: seq<Id>)
    requires forall r :: r in rs <==> r in ballots
    ensures CommitsFor(ballots, rs) == map r | r in ballots :: BallotDigest(ballots[r], "")
    ensures forall r :: r in rs ==>
              r in CommitsFor(ballots, rs) && CommitsFor(ballots, rs)[r] == BallotDigest(ballots[r], "")
    ensures OpenedFor(CommitsFor(ballots, rs), rs) == ballots && map[] + ballots == ballots
  {}
}
