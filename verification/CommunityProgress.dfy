/** Every valid manifest can be run up to its credit review, with work of every participant sealed. */
module CommunityProgress {
  import opened Basics
  import opened Ordering
  import opened Chain
  import opened CommunityTypes
  import opened Causality
  import opened CommunitySteps
  import opened CommunityReview
  import opened CommunityRuns
  import opened CommunityExtension
  import opened CreditDeadlock

  // ----- Keys nobody uses yet -----

  lemma {:induction false} LongestText(texts: set<string>) returns (n: nat)
    ensures forall t :: t in texts ==> |t| <= n
  {
    if texts == {} {
      n := 0;
    } else {
      var t :| t in texts;
      var rest := LongestText(texts - {t});
      n := if |t| <= rest then rest else |t|;
    }
  }

  lemma FreshText(texts: set<string>) returns (text: string)
    ensures text !in texts
  {
    var n := LongestText(texts);
    text := seq(n + 1, i => 'k');
  }

  /** The keys a new session must not use. */
  function UsedKeys(s: State, m: Manifest, clerk: Key): set<Key> {
    {clerk, m.verifierKey} + s.sessionByKey.Keys
    + (set p | p in m.participants :: m.participants[p].controllerKey)
    + (set r | r in m.reviewers :: m.reviewers[r].reviewerKey)
  }

  lemma FreshKey(s: State, m: Manifest, clerk: Key) returns (key: Key)
    ensures key != clerk && key !in s.sessionByKey && !CaseActorKey(m, key)
  {
    key := FreshText(UsedKeys(s, m, clerk));
  }

  // ----- One round of work for each participant -----

  const AllScopes: seq<Scope> := [ClaimScope, HandoffScope, ResultScope]

  /** Participant p holds a live session, named after it, for claims, handoffs and results. */
  ghost predicate SessionReady(s: State, p: Id) {
    && p in s.sessions && s.sessions[p].sessionKey in s.sessionByKey
    && s.sessionByKey[s.sessions[p].sessionKey] == p
    && s.sessions[p] == Session(p, p, s.sessions[p].sessionKey, AllScopes, 1, false)
  }

  /** Participant p published one useful, public handoff that rests on nothing. */
  ghost predicate LoneHandoff(s: State, p: Id) {
    && p in s.handoffs && s.handoffs[p].participantId == p && s.handoffs[p].outcome == Advance
    && Edges(s.handoffs[p]) == [] && s.handoffs[p].commitmentId == p
    && p in s.commitments && s.commitments[p].visibility == Public
  }

  /** No one has had anything accepted, received or proposed yet. */
  ghost predicate NothingJudged(s: State, m: Manifest) {
    && s.frontiers.Keys == {m.initialFrontier.frontierId} && s.currentFrontier == Some(m.initialFrontier.frontierId)
    && s.accepted == {} && s.accesses == map[] && s.results == map[] && s.receipts == map[]
  }

  ghost predicate Opened(s: State, m: Manifest, clerk: Key) {
    s.phase == Active && s.manifest == Some(m) && s.clerkKey == Some(clerk)
  }

  /** The participants of `done` have each finished one round of work; nothing else has happened. */
  ghost predicate Working(s: State, m: Manifest, clerk: Key, done: set<Id>) {
    && Opened(s, m, clerk) && NothingJudged(s, m)
    && s.sessions.Keys == done && s.claims.Keys == done && s.commitments.Keys == done && s.handoffs.Keys == done
    && (forall c :: c in s.claims ==> s.claims[c].routeId == c)
    && (forall p :: p in done ==> SessionReady(s, p))
    && (forall p :: p in done ==> LoneHandoff(s, p))
  }

  function Delegation(m: Manifest, p: Id, key: Key): Payload {
    SessionDelegated(m.caseId, p, p, key, AllScopes, 1)
  }

  function Claiming(m: Manifest, p: Id): Payload {
    RouteClaimed(m.caseId, p, p, p, p, m.initialFrontier.frontierId, Exclusive, 1)
  }

  function Committing(m: Manifest, p: Id): Payload {
    ContributionCommitted(m.caseId, p, p, p, p, OtherDigest(p), SummaryDigest(p), Public)
  }

  function Publishing(m: Manifest, p: Id): Payload {
    HandoffPublished(m.caseId, p, p, p, p, p, Advance, p, OtherDigest(p), m.environmentDigest, [], [], [])
  }

  function Delegated(s: State, p: Id, key: Key): State {
    s.(sessions := s.sessions[p := Session(p, p, key, AllScopes, 1, false)], sessionByKey := s.sessionByKey[key := p])
  }

  function Claimed(s: State, p: Id, hash: EntryHash): State {
    s.(claims := s.claims[p := Claim(p, p, p, Exclusive, 1, hash, ActiveClaim)])
  }

  function Committed(s: State, p: Id, hash: EntryHash): State {
    s.(commitments := s.commitments[p :=
      Commitment(p, p, p, OtherDigest(p), SummaryDigest(p), Public, hash, None)])
  }

  function Published(s: State, p: Id, hash: EntryHash): State
    requires p in s.commitments && p in s.claims
  {
    s.(handoffs := s.handoffs[p := Handoff(p, p, p, p, Advance, p, OtherDigest(p), [], [], [], hash)],
       commitments := s.commitments[p := s.commitments[p].(revealedBy := Some(p))],
       claims := s.claims[p := s.claims[p].(status := CompletedClaim)])
  }

  lemma ControllerIsUnique(s: State, m: Manifest, p: Id)
    requires s.manifest == Some(m) && ValidParticipants(m) && p in m.participants
    ensures Controls(s, m.participants[p].controllerKey, p)
  {}

  lemma DelegationAccepted(s: State, m: Manifest, clerk: Key, done: set<Id>, p: Id, key: Key)
    requires Working(s, m, clerk, done) && ValidParticipants(m) && p in m.participants && p !in done
    requires key != clerk && key !in s.sessionByKey && !CaseActorKey(m, key)
    ensures StepDelegated(s, m.participants[p].controllerKey, 0, Delegation(m, p, key)) == Accept(Delegated(s, p, key))
  {
    hide CaseActorKey;
    ControllerIsUnique(s, m, p);
  }

  lemma MayAct(s: State, m: Manifest, clerk: Key, p: Id, scope: Scope)
    requires Opened(s, m, clerk) && SessionReady(s, p) && scope in AllScopes
    ensures ActsAs(s, s.sessions[p].sessionKey, 0, scope, p, p)
  {}

  lemma ClaimAccepted(s: State, m: Manifest, clerk: Key, p: Id, key: Key, hash: EntryHash)
    requires Opened(s, m, clerk) && NothingJudged(s, m) && SessionReady(s, p) && key == s.sessions[p].sessionKey
    requires 60 <= m.policy.leaseMaxSeconds
    requires p !in s.claims && forall c :: c in s.claims ==> s.claims[c].routeId == c
    ensures StepClaimed(s, key, 0, hash, Claiming(m, p)) == Accept(Claimed(s, p, hash))
  {
    MayAct(s, m, clerk, p, ClaimScope);
    hide ActsAs;
  }

  lemma CommitAccepted(s: State, m: Manifest, clerk: Key, p: Id, key: Key, hash: EntryHash)
    requires Opened(s, m, clerk) && SessionReady(s, p) && key == s.sessions[p].sessionKey && p !in s.commitments
    requires p in s.claims && s.claims[p].sessionId == p && Live(s.claims[p], 0)
    ensures StepCommitted(s, key, 0, hash, Committing(m, p)) == Accept(Committed(s, p, hash))
  {
    MayAct(s, m, clerk, p, HandoffScope);
    hide ActsAs;
  }

  lemma PublishAccepted(s: State, m: Manifest, clerk: Key, p: Id, key: Key, hash: EntryHash)
    requires Opened(s, m, clerk) && SessionReady(s, p) && key == s.sessions[p].sessionKey && p !in s.handoffs
    requires p in s.claims && s.claims[p].sessionId == p && Live(s.claims[p], 0)
    requires p in s.commitments && s.commitments[p].claimId == p && s.commitments[p].revealedBy.None?
    requires s.commitments[p].artifactDigest == OtherDigest(p) && s.commitments[p].summaryDigest == SummaryDigest(p)
    ensures StepPublished(s, key, 0, hash, Publishing(m, p)) == Accept(Published(s, p, hash))
  {
    MayAct(s, m, clerk, p, HandoffScope);
    hide ActsAs;
  }

  function RoundOf(s: State, p: Id, key: Key, one: EntryHash, two: EntryHash, three: EntryHash): State {
    Published(Committed(Claimed(Delegated(s, p, key), p, one), p, two), p, three)
  }

  lemma RoundReady(s: State, p: Id, key: Key, one: EntryHash, two: EntryHash, three: EntryHash, q: Id)
    requires key !in s.sessionByKey && (q == p || (SessionReady(s, q) && LoneHandoff(s, q)))
    ensures SessionReady(RoundOf(s, p, key, one, two, three), q)
    ensures LoneHandoff(RoundOf(s, p, key, one, two, three), q)
  {}

  lemma RoundCounts(s: State, m: Manifest, clerk: Key, done: set<Id>, p: Id, t: State)
    requires t.claims.Keys == s.claims.Keys + {p} && Working(s, m, clerk, done)
    requires forall c :: c in t.claims ==> t.claims[c].routeId == if c == p then p else s.claims[c].routeId
    requires t.sessions.Keys == s.sessions.Keys + {p} && t.commitments.Keys == s.commitments.Keys + {p}
    requires t.handoffs.Keys == s.handoffs.Keys + {p}
    requires Opened(t, m, clerk) && NothingJudged(t, m)
    requires forall q :: q in done + {p} ==> SessionReady(t, q) && LoneHandoff(t, q)
    ensures Working(t, m, clerk, done + {p})
  {
    hide SessionReady, LoneHandoff, Opened, NothingJudged;
  }

  lemma RoundFields(s: State, m: Manifest, clerk: Key, p: Id, key: Key, one: EntryHash, two: EntryHash,
                    three: EntryHash)
    requires Opened(s, m, clerk) && NothingJudged(s, m)
    ensures var t := RoundOf(s, p, key, one, two, three);
            && Opened(t, m, clerk) && NothingJudged(t, m)
            && t.claims.Keys == s.claims.Keys + {p} && t.sessions.Keys == s.sessions.Keys + {p}
            && t.commitments.Keys == s.commitments.Keys + {p} && t.handoffs.Keys == s.handoffs.Keys + {p}
            && forall c :: c in t.claims ==> t.claims[c].routeId == if c == p then p else s.claims[c].routeId
  {
    var u := Claimed(Delegated(s, p, key), p, one);
    assert u.claims.Keys == s.claims.Keys + {p} && u.sessions.Keys == s.sessions.Keys + {p};
    PublishFields(u, m, clerk, p, two, three);
  }

  lemma PublishFields(u: State, m: Manifest, clerk: Key, p: Id, two: EntryHash, three: EntryHash)
    requires Opened(u, m, clerk) && NothingJudged(u, m) && p in u.claims
    ensures var t := Published(Committed(u, p, two), p, three);
            && Opened(t, m, clerk) && NothingJudged(t, m)
            && t.claims.Keys == u.claims.Keys && t.sessions == u.sessions
            && t.commitments.Keys == u.commitments.Keys + {p} && t.handoffs.Keys == u.handoffs.Keys + {p}
            && forall c :: c in t.claims ==> t.claims[c].routeId == u.claims[c].routeId
  {}

  lemma RoundWorks(s: State, m: Manifest, clerk: Key, done: set<Id>, p: Id, key: Key,
                   one: EntryHash, two: EntryHash, three: EntryHash)
    requires Working(s, m, clerk, done) && key !in s.sessionByKey
    ensures Working(RoundOf(s, p, key, one, two, three), m, clerk, done + {p})
  {
    hide SessionReady, LoneHandoff, RoundOf, NothingJudged, Opened;
    forall q | q in done + {p}
      ensures SessionReady(RoundOf(s, p, key, one, two, three), q)
      ensures LoneHandoff(RoundOf(s, p, key, one, two, three), q)
    {
      RoundReady(s, p, key, one, two, three, q);
    }
    RoundFields(s, m, clerk, p, key, one, two, three);
    RoundCounts(s, m, clerk, done, p, RoundOf(s, p, key, one, two, three));
  }

  /** What may be added to a transcript that started at time zero. */
  ghost predicate ReachedAtStart(entries: seq<CommunityEntry>, s: State) {
    Replay(entries) == Accept(s) && entries != [] && OpensCommunity(entries[0].event).Some? && LastTime(entries) == 0
  }

  lemma Worked(entries: seq<CommunityEntry>, s: State, payload: Payload, signer: Key, t: State)
    returns (next: seq<CommunityEntry>)
    requires ReachedAtStart(entries, s) && WorkKind(payload)
    requires StepWork(s, signer, 0, Signed(entries, payload, signer).hash, payload) == Accept(t)
    ensures ReachedAtStart(next, t)
  {
    hide Replay, StepWork;
    ExtendWork(entries, s, payload, signer, t);
    next := entries + [Signed(entries, payload, signer)];
  }

  lemma DelegateNext(entries: seq<CommunityEntry>, s: State, m: Manifest, clerk: Key, done: set<Id>, p: Id, key: Key)
    returns (next: seq<CommunityEntry>)
    requires ReachedAtStart(entries, s) && Working(s, m, clerk, done) && ValidParticipants(m)
    requires p in m.participants && p !in done
    requires key != clerk && key !in s.sessionByKey && !CaseActorKey(m, key)
    ensures ReachedAtStart(next, Delegated(s, p, key))
  {
    DelegationAccepted(s, m, clerk, done, p, key);
    hide ReachedAtStart, ValidParticipants, CaseActorKey, Working, Delegated, StepDelegated;
    next := Worked(entries, s, Delegation(m, p, key), m.participants[p].controllerKey, Delegated(s, p, key));
  }

  lemma ClaimNext(entries: seq<CommunityEntry>, s: State, m: Manifest, clerk: Key, p: Id, key: Key)
    returns (next: seq<CommunityEntry>, hash: EntryHash)
    requires ReachedAtStart(entries, s)
    requires Opened(s, m, clerk) && NothingJudged(s, m) && SessionReady(s, p) && key == s.sessions[p].sessionKey
    requires 60 <= m.policy.leaseMaxSeconds
    requires p !in s.claims && forall c :: c in s.claims ==> s.claims[c].routeId == c
    ensures ReachedAtStart(next, Claimed(s, p, hash))
  {
    hide Replay, StepClaimed, Claimed;
    hash := Signed(entries, Claiming(m, p), key).hash;
    ClaimAccepted(s, m, clerk, p, key, hash);
    next := Worked(entries, s, Claiming(m, p), key, Claimed(s, p, hash));
  }

  lemma CommitNext(entries: seq<CommunityEntry>, s: State, m: Manifest, clerk: Key, p: Id, key: Key)
    returns (next: seq<CommunityEntry>, hash: EntryHash)
    requires ReachedAtStart(entries, s)
    requires Opened(s, m, clerk) && SessionReady(s, p) && key == s.sessions[p].sessionKey && p !in s.commitments
    requires p in s.claims && s.claims[p].sessionId == p && Live(s.claims[p], 0)
    ensures ReachedAtStart(next, Committed(s, p, hash))
  {
    hide Replay, StepCommitted, Committed;
    hash := Signed(entries, Committing(m, p), key).hash;
    CommitAccepted(s, m, clerk, p, key, hash);
    next := Worked(entries, s, Committing(m, p), key, Committed(s, p, hash));
  }

  lemma PublishNext(entries: seq<CommunityEntry>, s: State, m: Manifest, clerk: Key, p: Id, key: Key)
    returns (next: seq<CommunityEntry>, hash: EntryHash)
    requires ReachedAtStart(entries, s)
    requires Opened(s, m, clerk) && SessionReady(s, p) && key == s.sessions[p].sessionKey && p !in s.handoffs
    requires p in s.claims && s.claims[p].sessionId == p && Live(s.claims[p], 0)
    requires p in s.commitments && s.commitments[p].claimId == p && s.commitments[p].revealedBy.None?
    requires s.commitments[p].artifactDigest == OtherDigest(p) && s.commitments[p].summaryDigest == SummaryDigest(p)
    ensures ReachedAtStart(next, Published(s, p, hash))
  {
    hide Replay, StepPublished, Published;
    hash := Signed(entries, Publishing(m, p), key).hash;
    PublishAccepted(s, m, clerk, p, key, hash);
    next := Worked(entries, s, Publishing(m, p), key, Published(s, p, hash));
  }

  lemma DelegationReady(s: State, m: Manifest, clerk: Key, done: set<Id>, p: Id, key: Key)
    requires Working(s, m, clerk, done) && p !in done && ValidManifest(m)
    ensures var t := Delegated(s, p, key);
            && Opened(t, m, clerk) && NothingJudged(t, m) && SessionReady(t, p) && key == t.sessions[p].sessionKey
            && 60 <= m.policy.leaseMaxSeconds
            && p !in t.claims && forall c :: c in t.claims ==> t.claims[c].routeId == c
  {}

  lemma ClaimReady(s: State, m: Manifest, clerk: Key, done: set<Id>, p: Id, key: Key, hash: EntryHash)
    requires Working(s, m, clerk, done) && p !in done
    ensures var t := Claimed(Delegated(s, p, key), p, hash);
            && Opened(t, m, clerk) && SessionReady(t, p) && key == t.sessions[p].sessionKey
            && p !in t.commitments && p !in t.handoffs
            && p in t.claims && t.claims[p].sessionId == p && Live(t.claims[p], 0)
  {}

  lemma CommitReady(s: State, m: Manifest, clerk: Key, p: Id, hash: EntryHash)
    requires Opened(s, m, clerk) && SessionReady(s, p) && p !in s.handoffs
    requires p in s.claims && s.claims[p].sessionId == p && Live(s.claims[p], 0)
    ensures var t := Committed(s, p, hash);
            && Opened(t, m, clerk) && SessionReady(t, p) && t.sessions == s.sessions && p !in t.handoffs
            && p in t.claims && t.claims[p].sessionId == p && Live(t.claims[p], 0)
            && p in t.commitments && t.commitments[p].claimId == p && t.commitments[p].revealedBy.None?
            && t.commitments[p].artifactDigest == OtherDigest(p)
            && t.commitments[p].summaryDigest == SummaryDigest(p)
  {}

  /** Delegate, claim, commit, publish. */
  lemma Round(entries: seq<CommunityEntry>, s: State, m: Manifest, clerk: Key, done: set<Id>, p: Id)
    returns (next: seq<CommunityEntry>, t: State)
    requires ReachedAtStart(entries, s) && Working(s, m, clerk, done) && ValidManifest(m)
    requires p in m.participants && p !in done
    ensures ReachedAtStart(next, t) && Working(t, m, clerk, done + {p})
  {
    hide ReachedAtStart, Working, ValidParticipants, ValidReviewers, CaseActorKey, Delegated, Claimed, Committed;
    var key := FreshKey(s, m, clerk);
    var one, two, three: EntryHash;
    next := DelegateNext(entries, s, m, clerk, done, p, key);
    DelegationReady(s, m, clerk, done, p, key);
    next, one := ClaimNext(next, Delegated(s, p, key), m, clerk, p, key);
    ClaimReady(s, m, clerk, done, p, key, one);
    var claimed := Claimed(Delegated(s, p, key), p, one);
    next, two := CommitNext(next, claimed, m, clerk, p, key);
    CommitReady(claimed, m, clerk, p, two);
    next, three := PublishNext(next, Committed(claimed, p, two), m, clerk, p, key);
    t := RoundOf(s, p, key, one, two, three);
    RoundWorks(s, m, clerk, done, p, key, one, two, three);
  }

  /** Round after round, every participant contributes. */
  lemma {:induction false} EveryoneWorks(entries: seq<CommunityEntry>, s: State, m: Manifest, clerk: Key, done: set<Id>)
    returns (next: seq<CommunityEntry>, t: State)
    requires ReachedAtStart(entries, s) && Working(s, m, clerk, done) && ValidManifest(m)
    requires done <= m.participants.Keys
    ensures ReachedAtStart(next, t) && Working(t, m, clerk, m.participants.Keys)
    decreases m.participants.Keys - done
  {
    hide ReachedAtStart, Working, ValidManifest;
    if m.participants.Keys <= done {
      assert done == m.participants.Keys;
      return entries, s;
    }
    var p :| p in m.participants.Keys && p !in done;
    var more, u := Round(entries, s, m, clerk, done, p);
    var rest, left := m.participants.Keys - done, m.participants.Keys - (done + {p});
    assert p in rest && p !in left && left <= rest;
    next, t := EveryoneWorks(more, u, m, clerk, done + {p});
  }

  // ----- From the work to the review -----

  function Opening(m: Manifest, clerk: Key): seq<CommunityEntry> {
    [NextEntry([], SignedEvent(CommunityOpened(clerk, m), clerk), clerk, 0)]
  }

  function OpenedState(m: Manifest, clerk: Key): State {
    EmptyState.(manifest := Some(m), clerkKey := Some(clerk),
                frontiers := map[m.initialFrontier.frontierId := m.initialFrontier],
                currentFrontier := Some(m.initialFrontier.frontierId), phase := Active)
  }

  lemma OpeningWorks(m: Manifest, clerk: Key)
    requires ValidManifest(m) && !CaseActorKey(m, clerk)
    ensures ReachedAtStart(Opening(m, clerk), OpenedState(m, clerk))
    ensures Working(OpenedState(m, clerk), m, clerk, {})
  {
    hide ValidManifest, CaseActorKey, Step;
    VerifiedGenesis(CommunityRules, SignedEvent(CommunityOpened(clerk, m), clerk), clerk, 0);
    OpeningStep(m, clerk);
    RunOne(Opening(m, clerk));
  }

  lemma RunOne(entries: seq<CommunityEntry>)
    requires |entries| == 1
    ensures Run(entries) == Step(EmptyState, entries[0])
  {
    hide Step;
    assert entries[..0] == [];
    assert Run(entries[..0]) == Accept(EmptyState);
  }

  lemma OpeningStep(m: Manifest, clerk: Key)
    requires ValidManifest(m) && !CaseActorKey(m, clerk)
    ensures Step(EmptyState, Opening(m, clerk)[0]) == Accept(OpenedState(m, clerk))
  {
    hide ValidManifest, CaseActorKey, StepWork, StepReview;
  }

  /** What a participant has ready only reads sessions, handoffs and commitments. */
  lemma StaysReady(s: State, t: State, ps: set<Id>)
    requires t.sessions == s.sessions && t.sessionByKey == s.sessionByKey
    requires t.handoffs == s.handoffs && t.commitments == s.commitments
    ensures forall p :: p in ps && SessionReady(s, p) ==> SessionReady(t, p)
    ensures forall p :: p in ps && LoneHandoff(s, p) ==> LoneHandoff(t, p)
  {}

  /** Everyone has contributed and nothing has been judged yet. */
  ghost predicate AllContributed(s: State, m: Manifest, clerk: Key) {
    Working(s, m, clerk, m.participants.Keys) && ValidManifest(m)
  }

  function Accepting(m: Manifest): (p: Payload)
    ensures p.FrontierAccepted? && Elements(p.acceptedHandoffs) == m.participants.Keys
  {
    var first, ids := m.initialFrontier.frontierId, SortedTexts(m.participants.Keys);
    FrontierAccepted(m.caseId, first + "+", first, "", [], ids,
                     FrontierDigest(m.caseId, first + "+", Some(first), "", [], {} + Elements(ids)))
  }

  lemma Listed<T>(xs: seq<T>)
    ensures forall x :: x in xs <==> x in Elements(xs)
  {}

  lemma AdvanceAccepted(s: State, m: Manifest, clerk: Key)
    requires AllContributed(s, m, clerk)
    ensures MayAdvance(s, clerk, Accepting(m))
  {
    hide ValidManifest, SessionReady, LoneHandoff, MayAdvance, Accepting, MayAcceptHandoff, Elements;
    var ids := SortedTexts(m.participants.Keys);
    var p := SomeParticipant(m);
    Listed(ids);
    forall h | h in ids ensures MayAcceptHandoff(s, h, s.accepted + Elements(ids)) {
      LoneMayBeAccepted(s, h, s.accepted + Elements(ids));
    }
    AdvanceJudged(s, m, clerk);
  }

  lemma AdvanceJudged(s: State, m: Manifest, clerk: Key)
    requires Opened(s, m, clerk) && NothingJudged(s, m) && SortedTexts(m.participants.Keys) != []
    requires forall h :: h in SortedTexts(m.participants.Keys) ==>
               MayAcceptHandoff(s, h, s.accepted + Elements(SortedTexts(m.participants.Keys)))
    ensures MayAdvance(s, clerk, Accepting(m))
  {
    hide MayAcceptHandoff;
    var first := m.initialFrontier.frontierId;
    assert |first + "+"| != |first|;
  }

  lemma LoneMayBeAccepted(s: State, h: Id, cumulative: set<Id>)
    requires LoneHandoff(s, h)
    ensures MayAcceptHandoff(s, h, cumulative)
  {}

  lemma SomeParticipant(m: Manifest) returns (p: Id)
    requires ValidManifest(m)
    ensures p in m.participants
  {
    assert |m.participants| == |m.participants.Keys|;
    p :| p in m.participants;
  }

  /** Everyone's handoff is accepted, and the result may be proposed. */
  ghost predicate Proposable(s: State, m: Manifest, clerk: Key) {
    && Opened(s, m, clerk) && s.accepted == s.handoffs.Keys == m.participants.Keys
    && s.accesses == map[] && s.results == map[] && s.receipts == map[]
    && s.currentFrontier.Some? && s.currentFrontier.value in s.frontiers
    && (forall p :: p in m.participants ==> SessionReady(s, p))
    && (forall p :: p in m.participants ==> LoneHandoff(s, p))
  }

  lemma AdvanceNext(entries: seq<CommunityEntry>, s: State, m: Manifest, clerk: Key)
    returns (next: seq<CommunityEntry>, t: State)
    requires ReachedAtStart(entries, s) && AllContributed(s, m, clerk)
    ensures ReachedAtStart(next, t) && Proposable(t, m, clerk)
  {
    hide Replay, MayAdvance, ValidManifest, SessionReady, LoneHandoff;
    AdvanceAccepted(s, m, clerk);
    t := StepAdvanced(s, clerk, Accepting(m)).value;
    AdvanceDoes(s, m, clerk, t);
    hide StepAdvanced, AllContributed, Proposable, Accepting;
    next := Advancing(entries, s, m, clerk, t);
  }

  lemma Advancing(entries: seq<CommunityEntry>, s: State, m: Manifest, clerk: Key, t: State)
    returns (next: seq<CommunityEntry>)
    requires ReachedAtStart(entries, s) && StepAdvanced(s, clerk, Accepting(m)) == Accept(t)
    ensures ReachedAtStart(next, t)
  {
    hide Replay, StepAdvanced;
    next := Worked(entries, s, Accepting(m), clerk, t);
  }

  lemma AdvanceFields(s: State, m: Manifest, clerk: Key, t: State)
    requires StepAdvanced(s, clerk, Accepting(m)) == Accept(t) && s.accepted == {}
    ensures t.phase == s.phase && t.manifest == s.manifest && t.clerkKey == s.clerkKey
    ensures t.sessions == s.sessions && t.sessionByKey == s.sessionByKey
    ensures t.handoffs == s.handoffs && t.commitments == s.commitments
    ensures t.accesses == s.accesses && t.results == s.results && t.receipts == s.receipts
    ensures t.currentFrontier.Some? && t.currentFrontier.value in t.frontiers && t.accepted == m.participants.Keys
  {
    hide MayAdvance, Accepting;
  }

  lemma AdvanceDoes(s: State, m: Manifest, clerk: Key, t: State)
    requires AllContributed(s, m, clerk) && StepAdvanced(s, clerk, Accepting(m)) == Accept(t)
    ensures Proposable(t, m, clerk)
  {
    hide StepAdvanced, Accepting, ValidManifest, SessionReady, LoneHandoff;
    AdvanceFields(s, m, clerk, t);
    StaysReady(s, t, m.participants.Keys);
  }

  /** Handoffs that rest on nothing are their own closure. */
  lemma LoneClosure(s: State, m: Manifest, clerk: Key)
    requires Proposable(s, m, clerk)
    ensures Closure(s.handoffs, SortedTexts(m.participants.Keys)) == Accept(m.participants.Keys)
  {
    var ids, all := SortedTexts(m.participants.Keys), m.participants.Keys;
    forall x | x in all ensures !Unusable(s.handoffs, x) && Edges(s.handoffs[x]) == [] {
      assert LoneHandoff(s, x);
    }
    forall x | x in all ensures Reaches(s.handoffs, ids, x) {
      assert x in Elements(ids);
      RootReached(s.handoffs, ids, x);
    }
    ClosureIs(s.handoffs, ids, all);
  }

  function Proposing(m: Manifest, p: Id): Payload {
    var ids := SortedTexts(m.participants.Keys);
    ResultProposed(m.caseId, "result", p, p, OtherDigest("result"), m.environmentDigest, ids, ids, map[])
  }

  /** The proposed result claims exactly the participants' handoffs and nothing was left to answer for. */
  ghost predicate Judgeable(s: State, m: Manifest, clerk: Key) {
    && Opened(s, m, clerk) && s.receipts == map[] && "result" in s.results
    && s.results["result"].artifactDigest == OtherDigest("result")
    && s.results["result"].Complete() && s.results["result"].expected == m.participants.Keys
    && s.currentFrontier.Some? && s.currentFrontier.value in s.frontiers
    && (forall p :: p in m.participants ==> LoneHandoff(s, p))
  }

  lemma ProposalAccepted(s: State, m: Manifest, clerk: Key, p: Id)
    requires Proposable(s, m, clerk) && p in m.participants
    ensures MayPropose(s, s.sessions[p].sessionKey, 0, Proposing(m, p))
  {
    assert SessionReady(s, p);
    MayAct(s, m, clerk, p, ResultScope);
    hide ActsAs, LoneHandoff;
    assert p in Elements(SortedTexts(m.participants.Keys));
  }

  lemma RecordComplete(s: State, m: Manifest, p: Id, hash: EntryHash)
    requires s.accesses == map[]
    ensures var record := ProposedRecord(s, hash, Proposing(m, p), m.participants.Keys);
            record.Complete() && record.artifactDigest == OtherDigest("result")
                && record.expected == m.participants.Keys
  {
    assert Accessed(s, p) == {};
  }

  lemma RecordJudgeable(s: State, m: Manifest, clerk: Key, record: ResultRecord)
    requires Proposable(s, m, clerk)
    requires record.Complete() && record.artifactDigest == OtherDigest("result")
             && record.expected == m.participants.Keys
    ensures Judgeable(s.(results := s.results["result" := record]), m, clerk)
  {
    StaysReady(s, s.(results := s.results["result" := record]), m.participants.Keys);
    hide LoneHandoff, SessionReady;
  }

  lemma ProposalStep(s: State, m: Manifest, clerk: Key, p: Id, hash: EntryHash)
    requires Proposable(s, m, clerk) && p in m.participants
    ensures var record := ProposedRecord(s, hash, Proposing(m, p), m.participants.Keys);
            StepProposed(s, s.sessions[p].sessionKey, 0, hash, Proposing(m, p))
            == Accept(s.(results := s.results["result" := record]))
  {
    ProposalAccepted(s, m, clerk, p);
    LoneClosure(s, m, clerk);
    hide LoneHandoff, SessionReady, MayPropose, Closure, ProposedRecord;
  }

  lemma ProposeNext(entries: seq<CommunityEntry>, s: State, m: Manifest, clerk: Key, p: Id)
    returns (next: seq<CommunityEntry>, t: State)
    requires ReachedAtStart(entries, s) && Proposable(s, m, clerk) && p in m.participants
    ensures ReachedAtStart(next, t) && Judgeable(t, m, clerk)
  {
    assert SessionReady(s, p);
    hide Replay, SessionReady, LoneHandoff, StepProposed, ProposedRecord, Judgeable;
    var key := s.sessions[p].sessionKey;
    var hash := Signed(entries, Proposing(m, p), key).hash;
    var record := ProposedRecord(s, hash, Proposing(m, p), m.participants.Keys);
    RecordComplete(s, m, p, hash);
    RecordJudgeable(s, m, clerk, record);
    ProposalStep(s, m, clerk, p, hash);
    t := s.(results := s.results["result" := record]);
    hide Proposable, Proposing;
    next := Proposed(entries, s, m, p, key, t);
  }

  lemma Proposed(entries: seq<CommunityEntry>, s: State, m: Manifest, p: Id, key: Key, t: State)
    returns (next: seq<CommunityEntry>)
    requires ReachedAtStart(entries, s)
    requires StepProposed(s, key, 0, Signed(entries, Proposing(m, p), key).hash, Proposing(m, p)) == Accept(t)
    ensures ReachedAtStart(next, t)
  {
    hide Replay, StepProposed;
    next := Worked(entries, s, Proposing(m, p), key, t);
  }

  function Passing(m: Manifest): Payload {
    TechnicalReceiptRecorded(m.caseId, "result", OtherDigest("result"), m.environmentDigest, true)
  }

  /** The result passed its technical check and may be sealed. */
  ghost predicate Sealable(s: State, m: Manifest, clerk: Key) {
    && Opened(s, m, clerk) && "result" in s.receipts && s.receipts["result"].pass && "result" in s.results
    && s.results["result"].Complete() && s.results["result"].expected == m.participants.Keys
    && s.currentFrontier.Some? && s.currentFrontier.value in s.frontiers
    && (forall p :: p in m.participants ==> LoneHandoff(s, p))
  }

  lemma ReceiptNext(entries: seq<CommunityEntry>, s: State, m: Manifest, clerk: Key)
    returns (next: seq<CommunityEntry>, t: State)
    requires ReachedAtStart(entries, s) && Judgeable(s, m, clerk)
    ensures ReachedAtStart(next, t) && Sealable(t, m, clerk)
  {
    hide Replay;
    var hash := Signed(entries, Passing(m), m.verifierKey).hash;
    t := s.(receipts := s.receipts["result" := TechnicalReceipt(true, hash)]);
    ReceiptDoes(s, m, clerk, hash);
    hide StepReceipt, Judgeable, Sealable;
    next := Worked(entries, s, Passing(m), m.verifierKey, t);
  }

  lemma ReceiptDoes(s: State, m: Manifest, clerk: Key, hash: EntryHash)
    requires Judgeable(s, m, clerk)
    ensures var t := s.(receipts := s.receipts["result" := TechnicalReceipt(true, hash)]);
            StepReceipt(s, m.verifierKey, hash, Passing(m)) == Accept(t) && Sealable(t, m, clerk)
  {
    StaysReady(s, s.(receipts := s.receipts["result" := TechnicalReceipt(true, hash)]), m.participants.Keys);
    hide LoneHandoff, SessionReady;
  }

  function Sealing(m: Manifest, root: Digest): Payload {
    EvidenceSealed(m.caseId, "result", root, SortedTexts(m.participants.Keys))
  }

  function SealedState(s: State, root: Digest): State {
    s.(sealedResult := Some("result"), evidenceRoot := Some(root), phase := Reviewing)
  }

  lemma SealDoes(s: State, m: Manifest, clerk: Key) returns (root: Digest)
    requires Sealable(s, m, clerk)
    ensures StepSealed(s, clerk, Sealing(m, root)) == Accept(SealedState(s, root))
  {
    hide LoneHandoff;
    root := EvidenceDigest(EvidenceOf(s, "result").value);
  }

  lemma SealNext(entries: seq<CommunityEntry>, s: State, m: Manifest, clerk: Key)
    returns (next: seq<CommunityEntry>, root: Digest)
    requires ReachedAtStart(entries, s) && Sealable(s, m, clerk)
    ensures ReachedAtStart(next, SealedState(s, root))
  {
    hide Replay, StepSealed, Sealable;
    root := SealDoes(s, m, clerk);
    next := Worked(entries, s, Sealing(m, root), clerk, SealedState(s, root));
  }

  /** A review that can start: each participant's own handoff is part of the sealed result. */
  ghost predicate ReviewOpen(s: State, m: Manifest) {
    && s.phase == Reviewing && s.manifest == Some(m) && ReviewBlank(s)
    && forall p :: p in m.participants ==> Contributed(s, p, p)
  }

  lemma SealOpensReview(s: State, m: Manifest, clerk: Key, root: Digest)
    requires BallotsOk(s) && Sealable(s, m, clerk)
    ensures ReviewOpen(SealedState(s, root), m)
  {
    forall p | p in m.participants ensures Contributed(SealedState(s, root), p, p) {
      assert LoneHandoff(s, p);
    }
    hide LoneHandoff, Contributed, ValidBallot, BallotsBound;
  }

  lemma ReachedBallots(entries: seq<CommunityEntry>, s: State)
    requires ReachedAtStart(entries, s)
    ensures BallotsOk(s)
  {
    hide Run, BallotsOk;
    RunBallots(entries, s);
  }

  /**
   Every valid manifest, under any clerk whose key it leaves free, has a transcript that reaches the credit review with
   a handoff of every participant under the sealed result.
   */
  lemma ReviewReachable(m: Manifest, clerk: Key) returns (entries: seq<CommunityEntry>, s: State)
    requires ValidManifest(m) && !CaseActorKey(m, clerk)
    ensures Replay(entries) == Accept(s) && ReviewOpen(s, m)
  {
    var p := SomeParticipant(m);
    hide ValidManifest, CaseActorKey, Working, Proposable, Judgeable, Sealable, ReviewOpen, Replay;
    OpeningWorks(m, clerk);
    entries, s := EveryoneWorks(Opening(m, clerk), OpenedState(m, clerk), m, clerk, {});
    entries, s := AdvanceNext(entries, s, m, clerk);
    entries, s := ProposeNext(entries, s, m, clerk, p);
    entries, s := ReceiptNext(entries, s, m, clerk);
    var before, root := entries, m.environmentDigest;
    entries, root := SealNext(entries, s, m, clerk);
    ReachedBallots(before, s);
    SealOpensReview(s, m, clerk, root);
    s := SealedState(s, root);
  }
}
