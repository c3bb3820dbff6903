/** Which frozen policies let a review get stuck: every ballot revealed, and no entry that can follow. */
module CommunityDeadlock {
  import opened Basics
  import opened Ordering
  import opened CommunityTypes
  import opened Credit
  import opened Aggregation
  import opened CreditRobustness
  import opened CreditDeadlock
  import opened CommunitySteps
  import opened CommunityInvariants
  import opened CommunityReview
  import opened CommunityRuns
  import opened CommunityExtension
  import opened CommunityTheorems
  import opened CommunityVoting
  import opened CommunityProgress
  import opened CommunityRefusal

  /** Any number of reviewers up to all of them. */
  lemma SomeReviewers(reviewers: set<Id>, k: nat) returns (ids: seq<Id>)
    requires k <= |reviewers|
    ensures |ids| == k && NoDuplicates(ids) && Elements(ids) <= reviewers
  {
    ids := SortedTexts(reviewers)[..k];
    assert Elements(ids) <= Elements(SortedTexts(reviewers));
  }

  /** What replay guarantees of a review nobody has voted in yet. */
  lemma ReviewReady(entries: seq<CommunityEntry>, s: State, m: Manifest)
    requires Replay(entries) == Accept(s) && s.phase == Reviewing && s.manifest == Some(m)
    ensures ValidManifest(m) && s.evidenceRoot.Some? && s.clerkKey.Some?
    ensures s.sealedResult.Some? && s.sealedResult.value in s.results
  {
    hide Run, Step;
    Founded(entries, s);
    RunOpen(entries, s);
    RunSealed(entries, s);
  }

  /** Refused aggregation leaves nothing to append. */
  lemma StuckWhenRejected(entries: seq<CommunityEntry>, s: State)
    requires Replay(entries) == Accept(s) && FullyRevealed(s) && s.manifest.Some? && s.evidenceRoot.Some?
    requires Aggregate(s.manifest.value, s.evidenceRoot.value, s.ballots, s.revealed).Reject?
    ensures Final(entries)
  {
    hide Step, Replay, Aggregate;
    forall e ensures Step(s, e).Reject? {
      if Step(s, e).Accept? {
        OnlyFinalize(s, e);
      }
    }
    FinalWhenRefused(entries, s);
  }

  lemma VotesReject(s: State, m: Manifest, ballots: Ballots)
    requires s.phase == Reviewing && s.manifest == Some(m)
    requires s.evidenceRoot.Some? && AlwaysRejects(m, s.evidenceRoot.value, ballots)
    ensures var t := Voted(s, ballots);
            && FullyRevealed(t) && t.manifest == Some(m) && t.evidenceRoot.Some?
            && Aggregate(m, t.evidenceRoot.value, t.ballots, t.revealed).Reject?
  {}

  /** How many of the revealed ballots decided. */
  function Deciders(s: State): nat {
    |DecidedIds(s.ballots, s.revealed)|
  }

  lemma PanelVotes(s: State, m: Manifest, ballots: Ballots, ids: seq<Id>)
    requires PanelOf(s, m, ballots, ids) && NoDuplicates(ids) && Elements(ids) <= m.reviewers.Keys
    requires s.manifest == Some(m) && ValidReviewers(m) && s.evidenceRoot.Some? && s.clerkKey.Some?
    ensures Castable(s, m, ballots) && |ballots| == |ids|
    ensures Deciders(Voted(s, ballots)) == |ids|
  {
    hide ValidBallot, ValidReviewers, DecidedIds;
    DistinctCount(ballots, ids);
    var revealed := SortedTexts(ballots.Keys);
    assert |ballots.Keys| == |ballots|;
    forall r | r in revealed ensures r in ballots && ballots[r].decided {
      assert r in Elements(revealed);
      assert r in ids;
    }
    AllDecided(ballots, revealed);
  }

  /** A panel that aggregates to nothing votes its review to a stop. */
  lemma PanelSticks(entries: seq<CommunityEntry>, s: State, m: Manifest, ballots: Ballots, ids: seq<Id>)
    returns (next: seq<CommunityEntry>, t: State)
    requires Replay(entries) == Accept(s) && s.phase == Reviewing && ReviewBlank(s) && s.manifest == Some(m)
    requires s.evidenceRoot.Some? && PanelOf(s, m, ballots, ids) && AlwaysRejects(m, s.evidenceRoot.value, ballots)
    requires NoDuplicates(ids) && Elements(ids) <= m.reviewers.Keys && m.policy.reviewQuorum <= |ids|
    ensures entries <= next && Replay(next) == Accept(t) && t.manifest == Some(m) && FullyRevealed(t)
    ensures Deciders(t) == |ids| && Final(next)
  {
    ReviewReady(entries, s, m);
    hide Replay, ReviewBlank, AlwaysRejects, Final, Aggregate, PanelOf, NoDuplicates, Elements;
    hide ValidParticipants, ValidReviewers, Deciders, Castable, Voted, FullyRevealed;
    PanelVotes(s, m, ballots, ids);
    VotesReject(s, m, ballots);
    next := AnyPanelVotes(entries, s, m, ballots);
    t := Voted(s, ballots);
    StuckWhenRejected(next, t);
  }

  /**
   From any open review in which enough contributors have work under the seal, any number of reviewers that makes the
   quorum can vote so that the transcript can never be continued.
   */
  lemma ReviewCanDeadlock(entries: seq<CommunityEntry>, s: State, m: Manifest, workers: set<Id>, k: nat)
    returns (next: seq<CommunityEntry>, t: State)
    requires Replay(entries) == Accept(s) && s.phase == Reviewing && ReviewBlank(s) && s.manifest == Some(m)
    requires m.policy.reviewQuorum <= k <= |m.reviewers.Keys| && 0 < m.policy.maxDispersionBps <= 10_000
    requires workers <= m.participants.Keys && Workers(s, workers)
    requires k * Bearers(m.policy.maxDispersionBps) <= Minority(k) * |workers|
    ensures entries <= next && Replay(next) == Accept(t) && t.manifest == Some(m) && FullyRevealed(t)
    ensures Deciders(t) == k && Final(next)
  {
    ReviewReady(entries, s, m);
    assert 0 < m.policy.reviewQuorum;
    hide Replay, ReviewBlank, Workers, Bearers, Minority, AlwaysRejects, Final, PanelOf, ValidManifest, Deciders;
    hide NoDuplicates, Elements, FullyRevealed;
    var ids := SomeReviewers(m.reviewers.Keys, k);
    var ballots := PanelDeadlock(s, m, ids, workers);
    next, t := PanelSticks(entries, s, m, ballots, ids);
  }

  // ----- What a stuck panel needs -----

  /** Only frozen reviewers commit. */
  ghost predicate CommittersOk(s: State) {
    s.commits != map[] ==> s.manifest.Some? && s.commits.Keys <= s.manifest.value.reviewers.Keys
  }

  lemma CommitByReviewer(s: State, actor: Key, p: Payload, t: State)
    requires p.BallotCommitted? && StepBallotCommitted(s, actor, p) == Accept(t) && CommittersOk(s)
    ensures CommittersOk(t)
  {}

  lemma CommitStep(s: State, e: CommunityEntry, t: State)
    requires e.event.payload.BallotCommitted? && Step(s, e) == Accept(t)
    ensures StepBallotCommitted(s, e.event.actor, e.event.payload) == Accept(t)
  {
    hide StepBallotCommitted;
  }

  lemma CommittersKept(s: State, e: CommunityEntry, t: State)
    requires Step(s, e) == Accept(t) && CommittersOk(s) && OpenOk(s)
    ensures CommittersOk(t)
  {
    hide Step;
    StepFramed(s, e, t);
    OpenKept(s, e, t);
    if e.event.payload.BallotCommitted? {
      CommitStep(s, e, t);
      CommitByReviewer(s, e.event.actor, e.event.payload, t);
    }
  }

  lemma {:induction false} RunCommitters(entries: seq<CommunityEntry>, s: State)
    requires Run(entries) == Accept(s)
    ensures CommittersOk(s)
  {
    hide Step;
    if entries != [] {
      var prev := RunLast(entries, s);
      RunCommitters(entries[..|entries| - 1], prev);
      RunOpen(entries[..|entries| - 1], prev);
      CommittersKept(prev, entries[|entries| - 1], s);
    }
  }

  lemma DecidedCount(ballots: Ballots, revealed: seq<Id>, reviewers: set<Id>)
    requires NoDuplicates(revealed) && ballots.Keys <= reviewers
    ensures |DecidedIds(ballots, revealed)| <= |reviewers|
  {
    var ids := DecidedIds(ballots, revealed);
    DecidedDistinct(ballots, revealed);
    DistinctMultiset(ids);
    assert |multiset(ids)| == |ids| && |multiset(Elements(ids))| == |Elements(ids)|;
    SubsetSize(Elements(ids), reviewers);
  }

  /** Dealing k whole ballots within the limit leaves every participant a minority of them. */
  predicate PlacesSuffice(m: Manifest, k: nat) {
    && 0 < m.policy.maxDispersionBps
    && k * Bearers(m.policy.maxDispersionBps) <= Minority(k) * |m.participants|
  }

  /** Nothing left to share among an odd number of decided ballots needs places for all of their bearers. */
  lemma StuckNeedsBearers(entries: seq<CommunityEntry>, s: State, m: Manifest)
    requires Replay(entries) == Accept(s) && s.manifest == Some(m) && FullyRevealed(s) && NothingToShare(s)
    ensures m.policy.reviewQuorum <= Deciders(s) <= |m.reviewers|
    ensures Deciders(s) % 2 == 1 ==> PlacesSuffice(m, Deciders(s))
  {
    hide Run, Step, NothingToShare, PlacesSuffice, Deciders;
    ReviewReady(entries, s, m);
    Founded(entries, s);
    RunBallots(entries, s);
    RunCommitters(entries, s);
    PanelSize(s, m);
    QuorumDecides(s, m);
    if Deciders(s) % 2 == 1 {
      PanelNeedsBearers(s, m);
    }
  }

  lemma QuorumDecides(s: State, m: Manifest)
    requires s.manifest == Some(m) && NothingToShare(s)
    ensures m.policy.reviewQuorum <= Deciders(s)
  {
    hide Total, MediansFor, DecidedIds, Dispersion, SortedTexts;
  }

  lemma PanelNeedsBearers(s: State, m: Manifest)
    requires s.manifest == Some(m) && ValidManifest(m) && BallotsOk(s) && NothingToShare(s) && Deciders(s) % 2 == 1
    ensures PlacesSuffice(m, Deciders(s))
  {
    hide BallotsOk, FullBallots, ValidManifest, NothingToShare, PlacesSuffice, DecidedIds;
    ValidatedBallotsFull(s);
    PolicyInRange(m);
    NothingLeft(s, m);
    hide Dispersion, MediansFor, Total, ReasonFor;
    OddNeedsBearers(m, s.ballots, DecidedIds(s.ballots, s.revealed), |s.ballots|);
  }

  lemma PolicyInRange(m: Manifest)
    requires ValidManifest(m)
    ensures 2 <= |m.participants| <= 128 && 3 <= m.policy.reviewQuorum && 0 <= m.policy.maxDispersionBps
  {}

  lemma NothingLeft(s: State, m: Manifest)
    requires s.manifest == Some(m) && NothingToShare(s)
    ensures var ids := DecidedIds(s.ballots, s.revealed);
            && ReasonFor(m.policy, |s.ballots|, |ids|,
                         Dispersion(s.ballots, ids, SortedTexts(m.participants.Keys))).None?
            && Total(MediansFor(s.ballots, ids, m.participants.Keys)) <= 0
  {
    hide ReasonFor, Total, MediansFor, DecidedIds, Dispersion, SortedTexts;
  }

  lemma OddNeedsBearers(m: Manifest, ballots: Ballots, ids: seq<Id>, cast: nat)
    requires 2 <= |m.participants| <= 128 && 3 <= m.policy.reviewQuorum && 0 <= m.policy.maxDispersionBps
    requires FullBallots(ballots, ids, m.participants.Keys) && |ids| % 2 == 1
    requires ReasonFor(m.policy, cast, |ids|, Dispersion(ballots, ids, SortedTexts(m.participants.Keys))).None?
    requires Total(MediansFor(ballots, ids, m.participants.Keys)) <= 0
    ensures PlacesSuffice(m, |ids|)
  {
    hide Bearers, Minority, Dispersion, MediansFor, Total, FullBallots, WithinLimit;
    LimitHolds(m, ballots, ids, cast);
    VanishedNeedsBearers(ballots, ids, m.participants.Keys, m.policy.maxDispersionBps);
  }

  /** No more ballots decide than there are reviewers. */
  lemma PanelSize(s: State, m: Manifest)
    requires s.manifest == Some(m) && BallotsOk(s) && CommittersOk(s)
    requires s.ballots.Keys == s.commits.Keys
    ensures Deciders(s) <= |m.reviewers|
  {
    hide ValidBallot, DecidedIds;
    assert |m.reviewers.Keys| == |m.reviewers|;
    assert s.ballots.Keys <= m.reviewers.Keys by {
      if s.commits == map[] {
        assert s.ballots.Keys == {};
      }
    }
    DecidedCount(s.ballots, s.revealed, m.reviewers.Keys);
  }

  lemma FinalHasNoNext(entries: seq<CommunityEntry>)
    requires Final(entries)
    ensures forall e :: Replay(entries + [e]).Reject?
  {
    hide Replay;
    assert forall e: CommunityEntry :: [e] != [];
  }

  // ----- Which manifests let a fully revealed review get stuck -----

  /** A transcript of the manifest that has revealed every ballot, `k` of them decided, and can never be continued. */
  ghost predicate StuckAt(m: Manifest, k: nat, entries: seq<CommunityEntry>, s: State) {
    && Replay(entries) == Accept(s) && s.manifest == Some(m) && FullyRevealed(s)
    && Deciders(s) == k && Final(entries)
  }

  /** Some fully revealed transcript of the manifest, with `k` decided ballots, gets stuck. */
  ghost predicate GetsStuckWith(m: Manifest, k: nat) {
    exists entries, s :: StuckAt(m, k, entries, s)
  }

  /** Some fully revealed transcript of the manifest gets stuck. */
  ghost predicate GetsStuck(m: Manifest) {
    exists k: nat :: GetsStuckWith(m, k)
  }

  lemma StuckWithNeeds(m: Manifest, k: nat)
    requires GetsStuckWith(m, k)
    ensures m.policy.reviewQuorum <= k <= |m.reviewers|
    ensures k % 2 == 1 ==> PlacesSuffice(m, k)
  {
    hide Replay, FullyRevealed, Final, NothingToShare, PlacesSuffice, Deciders;
    var entries, s :| StuckAt(m, k, entries, s);
    FinalHasNoNext(entries);
    ReviewFinishes(entries, s);
    StuckNeedsBearers(entries, s, m);
  }

  /**
   From the opening on: any number of decided ballots within the roster that makes the quorum, over participants enough
   to carry them, gets some fully revealed transcript stuck for ever.
   */
  lemma ManifestCanDeadlock(m: Manifest, clerk: Key, k: nat)
    requires ValidManifest(m) && !CaseActorKey(m, clerk)
    requires m.policy.reviewQuorum <= k <= |m.reviewers| && PlacesSuffice(m, k)
    ensures GetsStuckWith(m, k)
  {
    assert m.policy.maxDispersionBps <= 10_000 && |m.participants.Keys| == |m.participants|;
    assert |m.reviewers.Keys| == |m.reviewers|;
    hide ValidManifest, CaseActorKey, Replay, FullyRevealed, Final, Bearers, Minority, Contributed, ReviewBlank;
    hide Deciders;
    var entries, s := ReviewReachable(m, clerk);
    assert Workers(s, m.participants.Keys);
    var next, t := ReviewCanDeadlock(entries, s, m, m.participants.Keys, k);
    assert StuckAt(m, k, next, t);
  }

  /**
   For every odd k, a valid manifest gets some fully revealed transcript with k decided ballots stuck for ever exactly
   when k makes the quorum within the roster and k * ceil(10000 / D) <= ((k - 1) / 2) * n, for n participants and a
   dispersion limit of D.
   */
  lemma StuckWithExactly(m: Manifest, clerk: Key, k: nat)
    requires ValidManifest(m) && !CaseActorKey(m, clerk) && k % 2 == 1
    ensures GetsStuckWith(m, k) <==> m.policy.reviewQuorum <= k <= |m.reviewers| && PlacesSuffice(m, k)
  {
    hide ValidManifest, CaseActorKey, GetsStuckWith, PlacesSuffice;
    if GetsStuckWith(m, k) {
      StuckWithNeeds(m, k);
    }
    if m.policy.reviewQuorum <= k <= |m.reviewers| && PlacesSuffice(m, k) {
      ManifestCanDeadlock(m, clerk, k);
    }
  }

  /**
   Where an odd roster must be unanimous, as every roster of three must, some fully revealed transcript gets stuck for
   ever exactly when places suffice for a ballot of each reviewer; with three reviewers, when n >= 3 * ceil(10000 / D).
   */
  lemma StuckExactly(m: Manifest, clerk: Key)
    requires ValidManifest(m) && !CaseActorKey(m, clerk)
    requires m.policy.reviewQuorum == |m.reviewers| && |m.reviewers| % 2 == 1
    ensures GetsStuck(m) <==> PlacesSuffice(m, |m.reviewers|)
  {
    hide ValidManifest, CaseActorKey, GetsStuckWith, PlacesSuffice;
    StuckWithExactly(m, clerk, |m.reviewers|);
    if GetsStuck(m) {
      var k: nat :| GetsStuckWith(m, k);
      StuckWithNeeds(m, k);
    }
  }

  // ----- One such manifest -----

  const TrioFrontier: Frontier :=
    Frontier("f", None, "start", [], {}, FrontierDigest("trio", "f", None, "start", [], {}))

  /** Three participants, three reviewers, a quorum of three, and no effective limit on dispersion. */
  const Trio: Manifest := Manifest(
    "trio",
    map["a" := Participant("a", "a", "a", "a"), "b" := Participant("b", "b", "b", "b"),
        "c" := Participant("c", "c", "c", "c")],
    "v",
    map["r" := Reviewer("r", "r"), "s" := Reviewer("s", "s"), "t" := Reviewer("t", "t")],
    Policy(60, true, 3, 10_000), 1, OtherDigest("env"), TrioFrontier)

  lemma TrioRosters()
    ensures Trio.participants.Keys == {"a", "b", "c"} && |Trio.participants| == 3
    ensures Trio.reviewers.Keys == {"r", "s", "t"} && |Trio.reviewers| == 3
    ensures forall k :: k in Trio.participants ==> Trio.participants[k] == Participant(k, k, k, k)
    ensures forall k :: k in Trio.reviewers ==> Trio.reviewers[k] == Reviewer(k, k)
  {
    var ps, rs := Trio.participants, Trio.reviewers;
    assert ps.Keys == {"a", "b", "c"} && |ps| == |ps.Keys|;
    assert rs.Keys == {"r", "s", "t"} && |rs| == |rs.Keys|;
  }

  /** Participants that sign with their own names. */
  lemma NamedParticipants(m: Manifest)
    requires 2 <= |m.participants| <= 128 && m.verifierKey !in m.participants
    requires forall k :: k in m.participants ==> m.participants[k] == Participant(k, k, k, k)
    ensures ValidParticipants(m)
  {}

  lemma NamedClerk(m: Manifest, clerk: Key)
    requires forall k :: k in m.participants ==> m.participants[k] == Participant(k, k, k, k)
    requires forall k :: k in m.reviewers ==> m.reviewers[k] == Reviewer(k, k)
    requires clerk != m.verifierKey && clerk !in m.participants && clerk !in m.reviewers
    ensures !CaseActorKey(m, clerk)
  {}

  lemma TrioActors()
    ensures ValidParticipants(Trio) && ValidReviewers(Trio)
  {
    hide ValidParticipants, ValidReviewers;
    TrioRosters();
    NamedParticipants(Trio);
    NamedReviewers(Trio);
  }

  lemma TrioClerk()
    ensures !CaseActorKey(Trio, "k")
  {
    hide CaseActorKey;
    TrioRosters();
    NamedClerk(Trio, "k");
  }

  lemma TrioIsValid()
    ensures ValidManifest(Trio)
  {
    hide ValidParticipants, ValidReviewers;
    TrioActors();
    assert |Trio.reviewers| == 3 by { TrioRosters(); }
  }

  /** A concrete manifest under which a review can get stuck for ever. */
  lemma TrioGetsStuck()
    ensures GetsStuck(Trio)
  {
    hide ValidManifest, CaseActorKey, GetsStuckWith;
    TrioIsValid();
    TrioClerk();
    TrioRosters();
    ManifestCanDeadlock(Trio, "k", 3);
  }
}
