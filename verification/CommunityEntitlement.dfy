/**
 Who may write each entry of a case: clerk, verifier, controller, reviewer, or a live session with the right scope.
 */
module CommunityEntitlement {
  import opened Basics
  import opened CommunityTypes
  import opened Payout
  import opened CommunitySteps
  import opened CommunityInvariants
  import opened CommunityRuns
  import opened CommunityAuthority

  /** The scope that an act of a session needs. */
  function ScopeOf(p: Payload): Option<Scope> {
    match p
    case MessagePosted(_, _, _, _) => Some(MessageScope)
    case RouteClaimed(_, _, _, _, _, _, _, _) => Some(ClaimScope)
    case ContributionCommitted(_, _, _, _, _, _, _, _) => Some(HandoffScope)
    case HandoffPublished(_, _, _, _, _, _, _, _, _, _, _, _, _) => Some(HandoffScope)
    case KnowledgeAccessed(_, _, _, _, _, _, _) => Some(AccessScope)
    case ResultProposed(_, _, _, _, _, _, _, _, _) => Some(ResultScope)
    case _ => None
  }

  /** The session that an act names. */
  function SessionOf(p: Payload): Id
    requires ScopeOf(p).Some?
  {
    p.sessionId
  }

  /** An act signed with the key of a session that holds its scope, before that session's end. */
  predicate SessionEntitled(sessions: map<Id, Session>, actor: Key, at: Time, p: Payload)
    requires ScopeOf(p).Some?
  {
    && SessionOf(p) in sessions
    && var session := sessions[SessionOf(p)];
    && session.sessionKey == actor && ScopeOf(p).value in session.scopes && at < session.notAfter
  }

  predicate ControllerEntitled(m: Manifest, actor: Key, p: Payload)
    requires p.SessionDelegated? || p.SessionRevoked?
  {
    p.participantId in m.participants && m.participants[p.participantId].controllerKey == actor
  }

  predicate ReviewerEntitled(m: Manifest, actor: Key, p: Payload)
    requires p.BallotCommitted? || p.BallotRevealed?
  {
    p.reviewerId in m.reviewers && m.reviewers[p.reviewerId].reviewerKey == actor
  }

  /** The party entitled to an entry, given the frozen manifest, the clerk, and the sessions delegated. */
  predicate Entitled(m: Manifest, clerk: Option<Key>, sessions: map<Id, Session>, actor: Key, at: Time, p: Payload) {
    if ScopeOf(p).Some? then SessionEntitled(sessions, actor, at, p)
    else if p.SessionDelegated? || p.SessionRevoked? then ControllerEntitled(m, actor, p)
    else if p.BallotCommitted? || p.BallotRevealed? then ReviewerEntitled(m, actor, p)
    else if p.TechnicalReceiptRecorded? then actor == m.verifierKey
    else !p.UnsupportedKind? && clerk == Some(actor)
  }

  /** Whatever else happens to a session, its key, scopes and end stay. */
  predicate SessionsLast(a: map<Id, Session>, b: map<Id, Session>) {
    forall i :: i in a ==>
      && i in b && b[i].sessionKey == a[i].sessionKey && b[i].scopes == a[i].scopes && b[i].notAfter == a[i].notAfter
      && (a[i].revoked ==> b[i].revoked)
  }

  lemma SessionsLastStep(s: State, e: CommunityEntry, t: State)
    requires Step(s, e) == Accept(t)
    ensures SessionsLast(s.sessions, t.sessions) && RevokedBy(e.event.payload, t.sessions)
  {
    StepFramed(s, e, t);
    hide Step, SessionsLast;
    if e.event.payload.SessionDelegated? {
      DelegationAccepted(s, e, t);
      DelegatedLast(s, e.event.actor, e.at, e.event.payload, t);
    } else if e.event.payload.SessionRevoked? {
      RevocationAccepted(s, e, t);
      RevokedLast(s, e.event.actor, e.event.payload, t);
    } else {
      SameLast(s.sessions);
    }
  }

  /** A revocation leaves its session revoked. */
  predicate RevokedBy(p: Payload, sessions: map<Id, Session>) {
    p.SessionRevoked? ==> p.sessionId in sessions && sessions[p.sessionId].revoked
  }

  lemma SameLast(a: map<Id, Session>)
    ensures SessionsLast(a, a)
  {}

  lemma DelegatedLast(s: State, actor: Key, at: Time, p: Payload, t: State)
    requires p.SessionDelegated? && StepDelegated(s, actor, at, p) == Accept(t)
    ensures SessionsLast(s.sessions, t.sessions)
  {
    hide CaseActorKey, Controls;
  }

  lemma RevokedLast(s: State, actor: Key, p: Payload, t: State)
    requires p.SessionRevoked? && StepRevoked(s, actor, p) == Accept(t)
    ensures SessionsLast(s.sessions, t.sessions) && RevokedBy(p, t.sessions)
  {
    hide Controls, ReleaseClaims;
  }

  lemma MessageEntitled(s: State, actor: Key, at: Time, hash: EntryHash, p: Payload, t: State)
    requires p.MessagePosted? && StepMessage(s, actor, at, hash, p) == Accept(t) && SessionsOk(s)
    ensures SessionEntitled(s.sessions, actor, at, p) && !s.sessions[SessionOf(p)].revoked
  {
    hide CaseActorKey, NoDuplicates;
  }

  lemma ClaimEntitled(s: State, actor: Key, at: Time, hash: EntryHash, p: Payload, t: State)
    requires p.RouteClaimed? && StepClaimed(s, actor, at, hash, p) == Accept(t) && SessionsOk(s)
    ensures SessionEntitled(s.sessions, actor, at, p) && !s.sessions[SessionOf(p)].revoked
  {
    hide CaseActorKey, RouteFree;
  }

  lemma CommitEntitled(s: State, actor: Key, at: Time, hash: EntryHash, p: Payload, t: State)
    requires p.ContributionCommitted? && StepCommitted(s, actor, at, hash, p) == Accept(t) && SessionsOk(s)
    ensures SessionEntitled(s.sessions, actor, at, p) && !s.sessions[SessionOf(p)].revoked
  {
    hide CaseActorKey, Live;
  }

  lemma PublishEntitled(s: State, actor: Key, at: Time, hash: EntryHash, p: Payload, t: State)
    requires p.HandoffPublished? && StepPublished(s, actor, at, hash, p) == Accept(t) && SessionsOk(s)
    ensures SessionEntitled(s.sessions, actor, at, p) && !s.sessions[SessionOf(p)].revoked
  {
    hide CaseActorKey, UsableEdges, Live;
  }

  lemma AccessEntitled(s: State, actor: Key, at: Time, hash: EntryHash, p: Payload, t: State)
    requires p.KnowledgeAccessed? && StepAccessed(s, actor, at, hash, p) == Accept(t) && SessionsOk(s)
    ensures SessionEntitled(s.sessions, actor, at, p) && !s.sessions[SessionOf(p)].revoked
  {
    hide CaseActorKey;
  }

  lemma ProposalEntitled(s: State, actor: Key, at: Time, hash: EntryHash, p: Payload, t: State)
    requires p.ResultProposed? && StepProposed(s, actor, at, hash, p) == Accept(t) && SessionsOk(s)
    ensures SessionEntitled(s.sessions, actor, at, p) && !s.sessions[SessionOf(p)].revoked
  {
    hide CaseActorKey, ProposedRecord, Accessed, NoDuplicates;
  }

  lemma SessionWorkEntitled(s: State, actor: Key, at: Time, hash: EntryHash, p: Payload, t: State)
    requires StepWork(s, actor, at, hash, p) == Accept(t) && ScopeOf(p).Some? && SessionsOk(s)
    ensures SessionEntitled(s.sessions, actor, at, p) && !s.sessions[SessionOf(p)].revoked
  {
    hide SessionsOk, SessionEntitled, StepMessage, StepClaimed, StepCommitted, StepPublished, StepAccessed,
         StepProposed;
    if p.MessagePosted? {
      MessageEntitled(s, actor, at, hash, p, t);
    } else if p.RouteClaimed? {
      ClaimEntitled(s, actor, at, hash, p, t);
    } else if p.ContributionCommitted? {
      CommitEntitled(s, actor, at, hash, p, t);
    } else if p.HandoffPublished? {
      PublishEntitled(s, actor, at, hash, p, t);
    } else if p.KnowledgeAccessed? {
      AccessEntitled(s, actor, at, hash, p, t);
    } else {
      ProposalEntitled(s, actor, at, hash, p, t);
    }
  }

  lemma WorkEntitled(s: State, actor: Key, at: Time, hash: EntryHash, p: Payload, t: State)
    requires StepWork(s, actor, at, hash, p) == Accept(t) && ScopeOf(p).None?
    ensures s.manifest.Some? && Entitled(s.manifest.value, s.clerkKey, t.sessions, actor, at, p)
  {
    hide CaseActorKey, ReleaseClaims, MayAcceptHandoff, EvidenceOf;
  }

  lemma BallotEntitled(s: State, actor: Key, at: Time, p: Payload, t: State)
    requires p.BallotCommitted? || p.CommitsClosed? || p.BallotRevealed? || p.AllocationFinalized?
    requires StepReview(s, actor, p) == Accept(t)
    ensures s.manifest.Some? && Entitled(s.manifest.value, s.clerkKey, t.sessions, actor, at, p)
  {
    hide StepBallotCommitted, StepClosed, StepRevealed, StepFinalized;
    if p.BallotCommitted? {
      ReviewerCommits(s, actor, p);
    } else if p.BallotRevealed? {
      ReviewerReveals(s, actor, p);
    } else if p.CommitsClosed? {
      ClerkCloses(s, actor, p);
    } else {
      ClerkFinalizes(s, actor, p);
    }
  }

  lemma ReviewerCommits(s: State, actor: Key, p: Payload)
    requires p.BallotCommitted? && StepBallotCommitted(s, actor, p).Accept?
    ensures s.manifest.Some? && ReviewerEntitled(s.manifest.value, actor, p)
  {}

  lemma ReviewerReveals(s: State, actor: Key, p: Payload)
    requires p.BallotRevealed? && StepRevealed(s, actor, p).Accept?
    ensures s.manifest.Some? && ReviewerEntitled(s.manifest.value, actor, p)
  {}

  lemma ClerkCloses(s: State, actor: Key, p: Payload)
    requires p.CommitsClosed? && StepClosed(s, actor, p).Accept?
    ensures s.manifest.Some? && s.clerkKey == Some(actor)
  {}

  lemma ClerkFinalizes(s: State, actor: Key, p: Payload)
    requires p.AllocationFinalized? && StepFinalized(s, actor, p).Accept?
    ensures s.manifest.Some? && s.clerkKey == Some(actor)
  {}

  lemma PayoutEntitled(s: State, actor: Key, at: Time, p: Payload, t: State)
    requires p.PayoutPlanCreated? || p.PayoutLegSubmitted? || p.PayoutLegConfirmed?
    requires StepReview(s, actor, p) == Accept(t)
    ensures s.manifest.Some? && Entitled(s.manifest.value, s.clerkKey, t.sessions, actor, at, p)
  {
    hide PayoutLegs, CitesLeg, PositiveLegIds;
  }

  /** A step is taken by the party entitled to it; a session takes it only while not revoked. */
  lemma StepEntitled(s: State, e: CommunityEntry, t: State)
    requires Step(s, e) == Accept(t) && SessionsOk(s)
    ensures t.manifest.Some? && Entitled(t.manifest.value, t.clerkKey, t.sessions, e.event.actor, e.at, e.event.payload)
    ensures ScopeOf(e.event.payload).Some? ==>
              SessionOf(e.event.payload) in s.sessions && !s.sessions[SessionOf(e.event.payload)].revoked
  {
    hide SessionsOk, StepOpened, StepWork, StepReview;
    var p, actor := e.event.payload, e.event.actor;
    StepFramed(s, e, t);
    if p.CommunityOpened? {
      OpeningEntitled(s, e, t);
    } else if ScopeOf(p).Some? {
      SessionWorkEntitled(s, actor, e.at, e.hash, p, t);
      WorkFramed(s, actor, e.at, e.hash, p, t);
    } else if WorkKind(p) {
      WorkEntitled(s, actor, e.at, e.hash, p, t);
    } else if p.PayoutPlanCreated? || p.PayoutLegSubmitted? || p.PayoutLegConfirmed? {
      PayoutEntitled(s, actor, e.at, p, t);
    } else {
      OnlyBallots(s, actor, p, t);
      BallotEntitled(s, actor, e.at, p, t);
    }
  }

  lemma OnlyBallots(s: State, actor: Key, p: Payload, t: State)
    requires StepReview(s, actor, p) == Accept(t)
    ensures p.BallotCommitted? || p.CommitsClosed? || p.BallotRevealed? || p.AllocationFinalized?
            || p.PayoutPlanCreated? || p.PayoutLegSubmitted? || p.PayoutLegConfirmed?
  {
    hide StepBallotCommitted, StepClosed, StepRevealed, StepFinalized, StepPlanned, StepSubmitted, StepConfirmed;
  }

  lemma OpeningEntitled(s: State, e: CommunityEntry, t: State)
    requires e.event.payload.CommunityOpened? && StepOpened(s, e) == Accept(t)
    ensures t.manifest.Some? && Entitled(t.manifest.value, t.clerkKey, t.sessions, e.event.actor, e.at, e.event.payload)
  {
    hide ValidManifest, CaseActorKey;
  }

  lemma EntitledLater(m: Manifest, clerk: Option<Key>, a: map<Id, Session>, b: map<Id, Session>, actor: Key,
                      at: Time, p: Payload)
    requires Entitled(m, clerk, a, actor, at, p) && SessionsLast(a, b)
    ensures Entitled(m, clerk, b, actor, at, p)
  {}

  /**
   In every accepted transcript, each entry was signed by the party entitled to it: the clerk, the verifier, the
   participant's controller, the reviewer, or a delegated session with the scope for the act, before its end.
   */
  lemma {:induction false} EveryEntryEntitled(entries: seq<CommunityEntry>, s: State, i: nat)
    requires Run(entries) == Accept(s) && i < |entries|
    ensures s.manifest.Some?
            && Entitled(s.manifest.value, s.clerkKey, s.sessions, entries[i].event.actor, entries[i].at,
                        entries[i].event.payload)
  {
    hide Step, Entitled, SessionsLast, SessionsOk, ValidManifest, CaseActorKey;
    var n := |entries| - 1;
    var prev := RunLast(entries, s);
    RunActs(entries[..n], prev);
    StepEntitled(prev, entries[n], s);
    if i < n {
      EveryEntryEntitled(entries[..n], prev, i);
      SessionsLastStep(prev, entries[n], s);
      RunOpen(entries[..n], prev);
      OpenKept(prev, entries[n], s);
      EntitledLater(prev.manifest.value, prev.clerkKey, prev.sessions, s.sessions,
                    entries[i].event.actor, entries[i].at, entries[i].event.payload);
    }
  }

  lemma {:induction false} RevokedStays(entries: seq<CommunityEntry>, s: State, i: nat)
    requires Run(entries) == Accept(s) && i < |entries| && entries[i].event.payload.SessionRevoked?
    ensures RevokedBy(entries[i].event.payload, s.sessions)
  {
    hide Step;
    var n := |entries| - 1;
    var prev := RunLast(entries, s);
    SessionsLastStep(prev, entries[n], s);
    if i < n {
      RevokedStays(entries[..n], prev, i);
    }
  }

  /** A session never acts after its revocation. */
  lemma {:induction false} RevokedNeverActs(entries: seq<CommunityEntry>, s: State, i: nat, j: nat)
    requires Run(entries) == Accept(s) && i < j < |entries|
    requires entries[i].event.payload.SessionRevoked? && ScopeOf(entries[j].event.payload).Some?
    ensures SessionOf(entries[j].event.payload) != entries[i].event.payload.sessionId
  {
    hide Step, Entitled, SessionsOk;
    var n := |entries| - 1;
    var prev := RunLast(entries, s);
    if j < n {
      RevokedNeverActs(entries[..n], prev, i, j);
    } else {
      RunActs(entries[..n], prev);
      StepEntitled(prev, entries[n], s);
      RevokedStays(entries[..n], prev, i);
    }
  }
}
