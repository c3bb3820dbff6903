/** Who stands behind each recorded act: sessions, their participants, and keys that never change roles. */
module CommunityAuthority {
  import opened Basics
  import opened CommunityTypes
  import opened CommunitySteps
  import opened CommunityInvariants
  import opened CommunityProvenance
  import opened CommunityRuns

  /** A session delegated by a participant. */
  predicate Owned(sessions: map<Id, Session>, sessionId: Id, participantId: Id) {
    sessionId in sessions && sessions[sessionId].participantId == participantId
  }

  /** Session ids and session keys name each other, and no session holds a frozen actor's key. */
  ghost predicate SessionsOk(s: State) {
    && (s.phase == New ==> s.sessions == map[] && s.sessionByKey == map[])
    && (forall k :: k in s.sessionByKey ==>
          s.sessionByKey[k] in s.sessions && s.sessions[s.sessionByKey[k]].sessionKey == k)
    && forall id :: id in s.sessions ==> SessionOk(s.manifest, s.clerkKey, s.sessions[id], id, s.sessionByKey)
  }

  predicate SessionOk(manifest: Option<Manifest>, clerkKey: Option<Key>, session: Session, id: Id,
                      byKey: map<Key, Id>) {
    && session.sessionId == id && session.sessionKey in byKey && byKey[session.sessionKey] == id
    && manifest.Some? && session.participantId in manifest.value.participants
    && clerkKey != Some(session.sessionKey) && !CaseActorKey(manifest.value, session.sessionKey)
  }

  lemma SessionsKept(s: State, e: CommunityEntry, t: State)
    requires Step(s, e) == Accept(t) && SessionsOk(s)
    ensures SessionsOk(t)
  {
    hide Step, SessionsOk;
    var p := e.event.payload;
    StepFramed(s, e, t);
    StartsOnce(s, e, t);
    if p.SessionDelegated? {
      DelegationAccepted(s, e, t);
      DelegateKeepsSessions(s, e.event.actor, e.at, p, t);
    } else if p.SessionRevoked? {
      RevocationAccepted(s, e, t);
      RevokeKeepsSessions(s, e.event.actor, p, t);
    } else {
      SessionsUntouched(s, t);
    }
  }

  lemma DelegationAccepted(s: State, e: CommunityEntry, t: State)
    requires e.event.payload.SessionDelegated? && Step(s, e) == Accept(t)
    ensures StepDelegated(s, e.event.actor, e.at, e.event.payload) == Accept(t)
  {
    hide StepDelegated;
  }

  lemma RevocationAccepted(s: State, e: CommunityEntry, t: State)
    requires e.event.payload.SessionRevoked? && Step(s, e) == Accept(t)
    ensures StepRevoked(s, e.event.actor, e.event.payload) == Accept(t)
  {
    hide StepRevoked;
  }

  /** Sessions stay in order when neither they nor the frozen keys change, or when there are none yet. */
  lemma SessionsUntouched(s: State, t: State)
    requires SessionsOk(s) && t.phase != New && t.sessions == s.sessions && t.sessionByKey == s.sessionByKey
    requires s.phase == New || (t.manifest == s.manifest && t.clerkKey == s.clerkKey)
    ensures SessionsOk(t)
  {
    hide CaseActorKey;
    forall id | id in t.sessions ensures SessionOk(t.manifest, t.clerkKey, t.sessions[id], id, t.sessionByKey) {
      assert SessionOk(s.manifest, s.clerkKey, s.sessions[id], id, s.sessionByKey);
    }
  }

  /** Only the opening leaves the first phase, and no event returns to it. */
  lemma StartsOnce(s: State, e: CommunityEntry, t: State)
    requires Step(s, e) == Accept(t)
    ensures t.phase != New && (s.phase == New <==> e.event.payload.CommunityOpened?)
  {
    var p := e.event.payload;
    if WorkKind(p) {
      WorkFramed(s, e.event.actor, e.at, e.hash, p, t);
    } else if !p.CommunityOpened? {
      ReviewFramed(s, e.event.actor, p, t);
    }
  }

  lemma DelegateKeepsSessions(s: State, actor: Key, at: Time, p: Payload, t: State)
    requires p.SessionDelegated? && StepDelegated(s, actor, at, p) == Accept(t) && SessionsOk(s)
    ensures SessionsOk(t)
  {
    hide CaseActorKey;
    forall id | id in t.sessions ensures SessionOk(t.manifest, t.clerkKey, t.sessions[id], id, t.sessionByKey) {
      if id != p.sessionId {
        assert SessionOk(s.manifest, s.clerkKey, s.sessions[id], id, s.sessionByKey);
      }
    }
  }

  lemma RevokeKeepsSessions(s: State, actor: Key, p: Payload, t: State)
    requires p.SessionRevoked? && StepRevoked(s, actor, p) == Accept(t) && SessionsOk(s)
    ensures SessionsOk(t)
  {
    hide CaseActorKey, ReleaseClaims;
    forall id | id in t.sessions ensures SessionOk(t.manifest, t.clerkKey, t.sessions[id], id, t.sessionByKey) {
      assert SessionOk(s.manifest, s.clerkKey, s.sessions[id], id, s.sessionByKey);
    }
  }

  // ----- Acts and their participants -----

  /**
   A claim, commitment or handoff belongs to the participant of its session; what is committed on a claim, and what
   opens a commitment, comes from the same session; and a knowledge receipt names the author of what was received.
   */
  ghost predicate ActsOwned(sessions: map<Id, Session>, claims: map<Id, Claim>, commitments: map<Id, Commitment>,
                            handoffs: map<Id, Handoff>, accesses: map<Id, Access>)
  {
    && (forall c :: c in claims ==> Owned(sessions, claims[c].sessionId, claims[c].participantId))
    && (forall c :: c in commitments ==> CommitmentOwned(sessions, claims, commitments[c]))
    && (forall h :: h in handoffs ==> HandoffOwned(sessions, claims, handoffs[h]))
    && forall a :: a in accesses ==> AccessOwned(handoffs, accesses[a])
  }

  predicate CommitmentOwned(sessions: map<Id, Session>, claims: map<Id, Claim>, c: Commitment) {
    Owned(sessions, c.sessionId, c.participantId) && c.claimId in claims && claims[c.claimId].sessionId == c.sessionId
  }

  predicate HandoffOwned(sessions: map<Id, Session>, claims: map<Id, Claim>, h: Handoff) {
    Owned(sessions, h.sessionId, h.participantId) && h.claimId in claims && claims[h.claimId].sessionId == h.sessionId
  }

  predicate AccessOwned(handoffs: map<Id, Handoff>, a: Access) {
    && a.contributionId in handoffs && a.sender == handoffs[a.contributionId].participantId && a.sender != a.receiver
    && a.artifactDigest == handoffs[a.contributionId].artifactDigest
  }

  /** Sessions keep their participants and claims their sessions, whatever else changes about them. */
  lemma ActsSurvive(sessions: map<Id, Session>, claims: map<Id, Claim>, commitments: map<Id, Commitment>,
                    handoffs: map<Id, Handoff>, accesses: map<Id, Access>, sessions': map<Id, Session>,
                    claims': map<Id, Claim>)
    requires ActsOwned(sessions, claims, commitments, handoffs, accesses)
    requires forall i :: i in sessions ==> i in sessions' && sessions'[i].participantId == sessions[i].participantId
    requires forall c :: c in claims ==> c in claims' && claims'[c].sessionId == claims[c].sessionId
                                         && claims'[c].participantId == claims[c].participantId
    requires forall c ::
             c in claims' && c !in claims ==> Owned(sessions', claims'[c].sessionId, claims'[c].participantId)
    ensures ActsOwned(sessions', claims', commitments, handoffs, accesses)
  {}

  lemma ActsKept(s: State, e: CommunityEntry, t: State)
    requires Step(s, e) == Accept(t) && SessionsOk(s)
             && ActsOwned(s.sessions, s.claims, s.commitments, s.handoffs, s.accesses)
    ensures ActsOwned(t.sessions, t.claims, t.commitments, t.handoffs, t.accesses)
  {
    var p, actor := e.event.payload, e.event.actor;
    StepFramed(s, e, t);
    hide ActsOwned, SessionsOk;
    if p.SessionDelegated? {
      DelegateKeepsActs(s, actor, e.at, p, t);
    } else if p.SessionRevoked? {
      RevokeKeepsActs(s, actor, p, t);
    } else if p.RouteClaimed? {
      ClaimKeepsActs(s, actor, e.at, e.hash, p, t);
    } else if p.ContributionCommitted? {
      CommitKeepsActs(s, actor, e.at, e.hash, p, t);
    } else if p.HandoffPublished? {
      PublishKeepsActs(s, actor, e.at, e.hash, p, t);
    } else if p.KnowledgeAccessed? {
      AccessKeepsActs(s, actor, e.at, e.hash, p, t);
    }
  }

  lemma DelegateKeepsActs(s: State, actor: Key, at: Time, p: Payload, t: State)
    requires p.SessionDelegated? && StepDelegated(s, actor, at, p) == Accept(t)
    requires ActsOwned(s.sessions, s.claims, s.commitments, s.handoffs, s.accesses)
    ensures ActsOwned(t.sessions, t.claims, t.commitments, t.handoffs, t.accesses)
  {
    hide CaseActorKey, Controls;
    ActsSurvive(s.sessions, s.claims, s.commitments, s.handoffs, s.accesses, t.sessions, t.claims);
  }

  lemma RevokeKeepsActs(s: State, actor: Key, p: Payload, t: State)
    requires p.SessionRevoked? && StepRevoked(s, actor, p) == Accept(t)
    requires ActsOwned(s.sessions, s.claims, s.commitments, s.handoffs, s.accesses)
    ensures ActsOwned(t.sessions, t.claims, t.commitments, t.handoffs, t.accesses)
  {
    hide Controls;
    ActsSurvive(s.sessions, s.claims, s.commitments, s.handoffs, s.accesses, t.sessions, t.claims);
  }

  /** Acting as a session of a participant means holding that session. */
  lemma ActorOwns(s: State, actor: Key, at: Time, scope: Scope, participantId: Id, sessionId: Id)
    requires SessionsOk(s) && ActsAs(s, actor, at, scope, participantId, sessionId)
    ensures Owned(s.sessions, sessionId, participantId) && s.sessions[sessionId].sessionKey == actor
  {
    hide CaseActorKey;
  }

  lemma ClaimKeepsActs(s: State, actor: Key, at: Time, hash: EntryHash, p: Payload, t: State)
    requires p.RouteClaimed? && StepClaimed(s, actor, at, hash, p) == Accept(t)
    requires SessionsOk(s) && ActsOwned(s.sessions, s.claims, s.commitments, s.handoffs, s.accesses)
    ensures ActsOwned(t.sessions, t.claims, t.commitments, t.handoffs, t.accesses)
  {
    ActorOwns(s, actor, at, ClaimScope, p.participantId, p.sessionId);
    ActsSurvive(s.sessions, s.claims, s.commitments, s.handoffs, s.accesses, t.sessions, t.claims);
  }

  lemma CommitKeepsActs(s: State, actor: Key, at: Time, hash: EntryHash, p: Payload, t: State)
    requires p.ContributionCommitted? && StepCommitted(s, actor, at, hash, p) == Accept(t)
    requires SessionsOk(s) && ActsOwned(s.sessions, s.claims, s.commitments, s.handoffs, s.accesses)
    ensures ActsOwned(t.sessions, t.claims, t.commitments, t.handoffs, t.accesses)
  {
    ActorOwns(s, actor, at, HandoffScope, p.participantId, p.sessionId);
  }

  lemma PublishKeepsActs(s: State, actor: Key, at: Time, hash: EntryHash, p: Payload, t: State)
    requires p.HandoffPublished? && StepPublished(s, actor, at, hash, p) == Accept(t)
    requires SessionsOk(s) && ActsOwned(s.sessions, s.claims, s.commitments, s.handoffs, s.accesses)
    ensures ActsOwned(t.sessions, t.claims, t.commitments, t.handoffs, t.accesses)
  {
    ActorOwns(s, actor, at, HandoffScope, p.participantId, p.sessionId);
    ActsSurvive(s.sessions, s.claims, s.commitments, s.handoffs, s.accesses, t.sessions, t.claims);
    PublishedOwned(s, p, t);
  }

  lemma PublishedOwned(s: State, p: Payload, t: State)
    requires p.HandoffPublished? && p.handoffId !in s.handoffs && p.commitmentId in s.commitments
    requires ActsOwned(t.sessions, t.claims, s.commitments, s.handoffs, s.accesses)
    requires t.commitments
             == s.commitments[p.commitmentId := s.commitments[p.commitmentId].(revealedBy := Some(p.handoffId))]
    requires p.handoffId in t.handoffs && t.handoffs == s.handoffs[p.handoffId := t.handoffs[p.handoffId]]
    requires HandoffOwned(t.sessions, t.claims, t.handoffs[p.handoffId]) && t.accesses == s.accesses
    ensures ActsOwned(t.sessions, t.claims, t.commitments, t.handoffs, t.accesses)
  {
    forall a | a in t.accesses ensures AccessOwned(t.handoffs, t.accesses[a]) {
      assert AccessOwned(s.handoffs, s.accesses[a]);
    }
  }

  lemma AccessKeepsActs(s: State, actor: Key, at: Time, hash: EntryHash, p: Payload, t: State)
    requires p.KnowledgeAccessed? && StepAccessed(s, actor, at, hash, p) == Accept(t)
    requires ActsOwned(s.sessions, s.claims, s.commitments, s.handoffs, s.accesses)
    ensures ActsOwned(t.sessions, t.claims, t.commitments, t.handoffs, t.accesses)
  {}

  lemma {:induction false} RunActs(entries: seq<CommunityEntry>, s: State)
    requires Run(entries) == Accept(s)
    ensures SessionsOk(s) && ActsOwned(s.sessions, s.claims, s.commitments, s.handoffs, s.accesses)
  {
    if entries != [] {
      hide Step, SessionsOk, ActsOwned;
      var prev := RunLast(entries, s);
      RunActs(entries[..|entries| - 1], prev);
      SessionsKept(prev, entries[|entries| - 1], s);
      ActsKept(prev, entries[|entries| - 1], s);
    }
  }

  /**
   Attribution: in every replayed case, a handoff, the commitment it opens and the claim it completes all belong to one
   participant of the manifest, who delegated the session behind them under a key that no frozen actor and no other
   session holds.
   */
  lemma HandoffsAttributed(entries: seq<CommunityEntry>, s: State, h: Id)
    requires Replay(entries) == Accept(s) && h in s.handoffs
    ensures var handoff := s.handoffs[h];
            && handoff.sessionId in s.sessions && handoff.claimId in s.claims && handoff.commitmentId in s.commitments
            && var session := s.sessions[handoff.sessionId];
            && session.participantId == handoff.participantId
            && s.claims[handoff.claimId].participantId == handoff.participantId
            && s.commitments[handoff.commitmentId].participantId == handoff.participantId
            && s.commitments[handoff.commitmentId].sessionId == s.claims[handoff.claimId].sessionId == handoff.sessionId
            && s.manifest.Some? && handoff.participantId in s.manifest.value.participants
            && s.clerkKey != Some(session.sessionKey) && !CaseActorKey(s.manifest.value, session.sessionKey)
            && forall other ::
                other in s.sessions && s.sessions[other].sessionKey == session.sessionKey ==> other == handoff.sessionId
  {
    RunActs(entries, s);
    HandoffsClaims(entries, s, h);
    hide Replay, CaseActorKey;
    var handoff := s.handoffs[h];
    assert HandoffOwned(s.sessions, s.claims, handoff);
    assert CommitmentOwned(s.sessions, s.claims, s.commitments[handoff.commitmentId]);
    assert SessionOk(s.manifest, s.clerkKey, s.sessions[handoff.sessionId], handoff.sessionId, s.sessionByKey);
    forall other | other in s.sessions && s.sessions[other].sessionKey == s.sessions[handoff.sessionId].sessionKey
      ensures other == handoff.sessionId
    {
      assert SessionOk(s.manifest, s.clerkKey, s.sessions[other], other, s.sessionByKey);
    }
  }

  lemma HandoffsClaims(entries: seq<CommunityEntry>, s: State, h: Id)
    requires Replay(entries) == Accept(s) && h in s.handoffs
    ensures s.handoffs[h].commitmentId in s.commitments
    ensures s.commitments[s.handoffs[h].commitmentId].claimId == s.handoffs[h].claimId
  {
    RunProvenance(entries, s);
    assert HandoffBacked(h, s.handoffs, s.commitments, s.claims);
  }
}
