/** What the state of a replayed case holds, read off its transcript item by item. */
module CommunityReading {
  import opened Basics
  import opened CommunityTypes
  import opened Causality
  import opened Aggregation
  import opened CommunitySteps
  import opened CommunityInvariants
  import opened CommunityAttribution
  import opened CommunityReview
  import opened CommunityRuns
  import opened CommunityAuthority
  import opened CommunityPayment
  import History = CommunityHistory
  import opened CommunityHistory
  import opened CommunityRecords

  lemma Look(es: Transcript, s: State, i: Item)
    requires Recorded(es, s)
    ensures Has(es, i) <==> Holds(s, i).Some?
    ensures Has(es, i) ==>
              var k := Position(es, i);
              i in Notes(es[..k], es[k]) && Holds(s, i) == Some(Notes(es[..k], es[k])[i])
  {
    hide Notes, Holds, Introduces;
    if Has(es, i) {
      assert KeptAt(es, s, Position(es, i), i);
    }
  }

  lemma ReadSession(es: Transcript, s: State, id: Id)
    requires Recorded(es, s)
    ensures Has(es, SessionItem(id)) <==> id in s.sessions
    ensures Has(es, RevokedItem(id)) <==> id in s.sessions && s.sessions[id].revoked
    ensures Has(es, SessionItem(id)) ==>
              var p := Said(es, SessionItem(id));
              s.sessions[id].(revoked := false) ==
              Session(id, p.participantId, p.sessionKey, p.scopes, p.notAfter, false)
  {
    hide Recorded;
    Look(es, s, SessionItem(id));
    Look(es, s, RevokedItem(id));
  }

  lemma ReadKey(es: Transcript, s: State, key: Key)
    requires Recorded(es, s)
    ensures Has(es, KeyItem(key)) <==> key in s.sessionByKey
  {
    hide Recorded;
    Look(es, s, KeyItem(key));
  }

  lemma ReadMessage(es: Transcript, s: State, id: Id)
    requires Recorded(es, s)
    ensures Has(es, MessageItem(id)) <==> id in s.messages
  {
    hide Recorded;
    Look(es, s, MessageItem(id));
  }

  lemma ReadClaim(es: Transcript, s: State, id: Id)
    requires Recorded(es, s)
    ensures Has(es, ClaimItem(id)) <==> id in s.claims
    ensures Has(es, CompletedItem(id)) <==> id in s.claims && s.claims[id].status == CompletedClaim
    ensures Has(es, ClaimItem(id)) ==>
              var p, c := Said(es, ClaimItem(id)), s.claims[id];
              && c.routeId == p.routeId && c.participantId == p.participantId && c.sessionId == p.sessionId
              && c.overlap == p.overlap && c.expiresAt == p.expiresAt
  {
    hide Recorded;
    Look(es, s, ClaimItem(id));
    Look(es, s, CompletedItem(id));
  }

  lemma ReadCommitment(es: Transcript, s: State, id: Id)
    requires Recorded(es, s)
    ensures Has(es, CommitmentItem(id)) <==> id in s.commitments
    ensures Has(es, OpenedItem(id)) <==> id in s.commitments && s.commitments[id].revealedBy.Some?
    ensures Has(es, CommitmentItem(id)) ==>
              var p, c := Said(es, CommitmentItem(id)), s.commitments[id];
              && c.claimId == p.claimId && c.artifactDigest == p.artifactDigest && c.summaryDigest == p.summaryDigest
              && c.visibility == p.visibility && c.entryHash == EntryFor(es, CommitmentItem(id)).hash
  {
    hide Recorded;
    Look(es, s, CommitmentItem(id));
    Look(es, s, OpenedItem(id));
  }

  lemma ReadHandoff(es: Transcript, s: State, id: Id)
    requires Recorded(es, s)
    ensures Has(es, HandoffItem(id)) <==> id in s.handoffs
    ensures Has(es, HandoffItem(id)) ==>
              var p, h := Said(es, HandoffItem(id)), s.handoffs[id];
              && h.commitmentId == p.commitmentId && h.participantId == p.participantId && h.outcome == p.outcome
              && h.artifactDigest == p.artifactDigest && h.dependsOn == p.dependsOn && h.uses == p.uses
              && h.entryHash == EntryFor(es, HandoffItem(id)).hash
    ensures Useful(es, id) <==> !Unusable(s.handoffs, id)
    ensures id in s.handoffs ==> RestsOn(es, id) == Edges(s.handoffs[id])
  {
    hide Recorded;
    Look(es, s, HandoffItem(id));
  }

  lemma ReadFrontier(es: Transcript, s: State, id: Id)
    requires Recorded(es, s)
    ensures Has(es, FrontierItem(id)) <==> id in s.frontiers
    ensures Has(es, FrontierItem(id)) ==> s.frontiers[id] == FrontierSaid(Said(es, FrontierItem(id)))
  {
    hide Recorded;
    Look(es, s, FrontierItem(id));
  }

  lemma ReadAccess(es: Transcript, s: State, id: Id)
    requires Recorded(es, s)
    ensures Has(es, AccessItem(id)) <==> id in s.accesses
    ensures Has(es, AccessItem(id)) ==> s.accesses[id].entryHash == EntryFor(es, AccessItem(id)).hash
  {
    hide Recorded;
    Look(es, s, AccessItem(id));
  }

  lemma ReadResult(es: Transcript, s: State, id: Id)
    requires Recorded(es, s)
    ensures Has(es, ResultItem(id)) <==> id in s.results
    ensures Has(es, ResultItem(id)) ==>
              var p, r := Said(es, ResultItem(id)), s.results[id];
              && r.participantId == p.participantId && r.artifactDigest == p.artifactDigest && r.direct == p.direct
              && r.claimed == Elements(p.claimed) && r.dispositions == p.dispositions
              && r.entryHash == EntryFor(es, ResultItem(id)).hash
              && r.unaccounted
                  == ReceivedBy(es[..Position(es, ResultItem(id))], p.participantId) - p.dispositions.Keys
  {
    hide Recorded;
    Look(es, s, ResultItem(id));
  }

  lemma ReadReceipt(es: Transcript, s: State, id: Id)
    requires Recorded(es, s)
    ensures Has(es, ReceiptItem(id)) <==> id in s.receipts
    ensures Has(es, ReceiptItem(id)) ==>
              s.receipts[id] == TechnicalReceipt(Said(es, ReceiptItem(id)).pass, EntryFor(es, ReceiptItem(id)).hash)
  {
    hide Recorded;
    Look(es, s, ReceiptItem(id));
  }

  lemma ReadCommit(es: Transcript, s: State, id: Id)
    requires Recorded(es, s)
    ensures Has(es, CommitItem(id)) <==> id in s.commits
    ensures Has(es, CommitItem(id)) ==> s.commits[id] == Said(es, CommitItem(id)).commitment
    ensures Has(es, BallotItem(id)) <==> id in s.ballots
    ensures Has(es, CloseItem) <==> s.commitsClosed
  {
    hide Recorded;
    Look(es, s, CommitItem(id));
    Look(es, s, BallotItem(id));
    Look(es, s, CloseItem);
  }

  lemma ReadLegs(es: Transcript, s: State, leg: LegId)
    requires Recorded(es, s)
    ensures Has(es, SubmissionItem(leg)) <==> leg in s.submitted
    ensures Has(es, SubmissionItem(leg)) ==> s.submitted[leg] == Said(es, SubmissionItem(leg)).reference
    ensures Has(es, ConfirmationItem(leg)) <==> leg in s.confirmed
  {
    hide Recorded;
    Look(es, s, SubmissionItem(leg));
    Look(es, s, ConfirmationItem(leg));
  }

  // ----- The stage of a case -----

  /** The phase tells which parts of a case exist. */
  predicate Staged(s: State) {
    && (s.phase == New <==> s.manifest.None?) && (s.manifest.Some? <==> s.clerkKey.Some?)
    && (s.phase == Active <==> s.manifest.Some? && s.sealedResult.None?)
    && (s.sealedResult.Some? <==> s.evidenceRoot.Some?)
    && (s.phase == Reviewing <==> s.sealedResult.Some? && s.allocation.None?)
    && (s.phase == Allocated <==> s.allocation.Some? && s.allocation.value.Decided() && s.plan.None?)
    && (s.phase == MockPaying <==> s.plan.Some? && s.confirmed != PositiveLegIds(s.plan.value))
  }

  lemma StageOf(s: State)
    requires OpenOk(s) && StartsOpen(s) && SealOk(s) && AllocationOk(s) && PayoutOk(s) && Owing(s)
    ensures Staged(s)
  {
    hide EvidenceOf, PlanOk, Aggregate, PositiveLegIds, ValidManifest, CaseActorKey;
  }

  lemma RunStaged(es: Transcript, s: State)
    requires Run(es) == Accept(s)
    ensures Staged(s)
  {
    hide Run, OpenOk, StartsOpen, SealOk, AllocationOk, PayoutOk, Owing;
    RunOpen(es, s);
    RunRecorded(es, s);
    RunSealed(es, s);
    RunAllocation(es, s);
    RunPayout(es, s);
    RunOwing(es, s);
    StageOf(s);
  }

  lemma ReadOpening(es: Transcript, s: State)
    requires Recorded(es, s) && Staged(s)
    ensures Has(es, OpeningItem) <==> s.manifest.Some?
    ensures Has(es, OpeningItem) ==> s.manifest == Some(Charter(es)) && s.clerkKey == Some(Clerk(es))
  {
    hide Recorded;
    Look(es, s, OpeningItem);
  }

  lemma ReadSeal(es: Transcript, s: State)
    requires Recorded(es, s) && Staged(s)
    ensures Has(es, SealItem) <==> s.sealedResult.Some?
    ensures Has(es, SealItem) ==>
              && s.sealedResult == Some(Said(es, SealItem).resultId)
              && s.evidenceRoot == Some(Said(es, SealItem).evidenceRoot)
  {
    hide Recorded;
    Look(es, s, SealItem);
  }

  lemma ReadFinal(es: Transcript, s: State)
    requires Recorded(es, s)
    ensures Has(es, FinalItem) <==> s.allocation.Some?
    ensures Has(es, FinalItem) ==> s.allocation == Some(Said(es, FinalItem).allocation)
  {
    hide Recorded;
    Look(es, s, FinalItem);
  }

  lemma ReadPlan(es: Transcript, s: State)
    requires Recorded(es, s)
    ensures Has(es, PlanItem) <==> s.plan.Some?
    ensures Has(es, PlanItem) ==> s.plan == Some(Said(es, PlanItem).plan)
  {
    hide Recorded;
    Look(es, s, PlanItem);
  }

  lemma ReadStage(es: Transcript, s: State)
    requires Recorded(es, s) && Staged(s)
    ensures Working(es) <==> s.phase == Active
    ensures UnderReview(es) <==> s.phase == Reviewing
  {
    hide Recorded, Has, PositiveLegIds;
    ReadOpening(es, s);
    ReadSeal(es, s);
    ReadFinal(es, s);
  }

  // ----- Claims -----

  predicate ClaimOk(claim: Claim, sessions: map<Id, Session>) {
    && claim.sessionId in sessions
    && (claim.status == ReleasedClaim <==> claim.status != CompletedClaim && sessions[claim.sessionId].revoked)
  }

  /** A claim that no handoff completed stands exactly until its session is revoked. */
  ghost predicate ClaimsOk(s: State) {
    forall c :: c in s.claims ==> ClaimOk(s.claims[c], s.sessions)
  }

  lemma DelegationKeepsClaims(s: State, e: CommunityEntry, t: State)
    requires e.event.payload.SessionDelegated? && Step(s, e) == Accept(t) && ClaimsOk(s)
    ensures ClaimsOk(t)
  {
    hide StepDelegated;
    DelegationEffect(s, e.event.actor, e.at, e.event.payload, t);
  }

  lemma RevocationKeepsClaims(s: State, e: CommunityEntry, t: State)
    requires e.event.payload.SessionRevoked? && Step(s, e) == Accept(t) && ClaimsOk(s)
    ensures ClaimsOk(t)
  {
    hide StepRevoked;
    RevocationEffect(s, e.event.actor, e.event.payload, t);
  }

  lemma ClaimKeepsClaims(s: State, e: CommunityEntry, t: State)
    requires e.event.payload.RouteClaimed? && Step(s, e) == Accept(t) && ClaimsOk(s) && SessionsOk(s)
    ensures ClaimsOk(t)
  {
    hide StepClaimed, SessionsOk;
    var p := e.event.payload;
    ClaimEffect(s, e.event.actor, e.at, e.hash, p, t);
    ClaimantActs(s, e.event.actor, e.at, e.hash, p, t);
  }

  lemma ClaimantActs(s: State, actor: Key, at: Time, hash: EntryHash, p: Payload, t: State)
    requires p.RouteClaimed? && StepClaimed(s, actor, at, hash, p) == Accept(t) && SessionsOk(s)
    ensures p.sessionId in s.sessions && !s.sessions[p.sessionId].revoked
  {
    hide RouteFree, CaseActorKey;
  }

  lemma PublishKeepsClaims(s: State, e: CommunityEntry, t: State)
    requires e.event.payload.HandoffPublished? && Step(s, e) == Accept(t) && ClaimsOk(s)
    ensures ClaimsOk(t)
  {
    hide StepPublished;
    PublishEffect(s, e.event.actor, e.at, e.hash, e.event.payload, t);
  }

  lemma ClaimsKept(s: State, e: CommunityEntry, t: State)
    requires Step(s, e) == Accept(t) && ClaimsOk(s) && SessionsOk(s)
    ensures ClaimsOk(t)
  {
    hide Step, SessionsOk;
    var p := e.event.payload;
    StepFramed(s, e, t);
    if p.SessionDelegated? {
      DelegationKeepsClaims(s, e, t);
    } else if p.SessionRevoked? {
      RevocationKeepsClaims(s, e, t);
    } else if p.RouteClaimed? {
      ClaimKeepsClaims(s, e, t);
    } else if p.HandoffPublished? {
      PublishKeepsClaims(s, e, t);
    }
  }

  lemma {:induction false} RunClaims(es: Transcript, s: State)
    requires Run(es) == Accept(s)
    ensures ClaimsOk(s)
  {
    hide Step, SessionsOk;
    if es != [] {
      var prev := RunLast(es, s);
      RunClaims(es[..|es| - 1], prev);
      RunActs(es[..|es| - 1], prev);
      ClaimsKept(prev, es[|es| - 1], s);
    }
  }

  lemma ReadStanding(es: Transcript, s: State, c: Id, at: Time)
    requires Recorded(es, s) && ClaimsOk(s)
    ensures History.Held(es, c, at) <==> c in s.claims && Live(s.claims[c], at)
  {
    hide Recorded;
    ReadClaim(es, s, c);
    if c in s.claims {
      assert ClaimOk(s.claims[c], s.sessions);
      ReadSession(es, s, s.claims[c].sessionId);
    }
  }

  // ----- Signers -----

  /** A live session is found by its key. */
  lemma SessionActing(s: State, actor: Key, at: Time, sessionId: Id, scope: Scope)
    requires SessionsOk(s)
    ensures var found := ActingSession(s, actor, at, scope);
            && (found.Some? && found.value.sessionId == sessionId <==>
                && s.phase == Active && sessionId in s.sessions && s.sessions[sessionId].sessionKey == actor
                && !s.sessions[sessionId].revoked && scope in s.sessions[sessionId].scopes
                && at < s.sessions[sessionId].notAfter)
            && (found.Some? && found.value.sessionId == sessionId ==> found.value == s.sessions[sessionId])
  {
    hide CaseActorKey;
    if sessionId in s.sessions {
      assert SessionOk(s.manifest, s.clerkKey, s.sessions[sessionId], sessionId, s.sessionByKey);
    }
  }

  /** A session acts exactly when the transcript says that it may. */
  lemma ReadActing(es: Transcript, s: State, e: CommunityEntry, sessionId: Id, scope: Scope)
    requires Recorded(es, s) && Staged(s) && SessionsOk(s)
    ensures var session := ActingSession(s, e.event.actor, e.at, scope);
            && (ActsIn(es, e, sessionId, scope) <==> session.Some? && session.value.sessionId == sessionId)
            && (ActsIn(es, e, sessionId, scope) ==>
                  session.value.participantId == Said(es, SessionItem(sessionId)).participantId)
  {
    ReadStage(es, s);
    ReadSession(es, s, sessionId);
    hide Recorded, Staged, Working;
    SessionActing(s, e.event.actor, e.at, sessionId, scope);
    hide SessionsOk, ActingSession;
  }

  lemma ReadActsFor(es: Transcript, s: State, e: CommunityEntry, sessionId: Id, participantId: Id, scope: Scope)
    requires Recorded(es, s) && Staged(s) && SessionsOk(s)
    ensures ActsFor(es, e, sessionId, participantId, scope) <==>
            ActsAs(s, e.event.actor, e.at, scope, participantId, sessionId)
  {
    ReadActing(es, s, e, sessionId, scope);
    hide Recorded, Staged, SessionsOk, ActingSession, ActsIn;
  }

  lemma ReadCase(es: Transcript, s: State, caseId: Id)
    requires Recorded(es, s) && Staged(s)
    ensures History.InCase(es, caseId) <==> CommunitySteps.InCase(s, caseId)
  {
    ReadOpening(es, s);
    hide Recorded, Staged;
  }

  lemma ReadClerk(es: Transcript, s: State, e: CommunityEntry)
    requires Recorded(es, s) && Staged(s)
    ensures ByClerk(es, e) <==> IsClerk(s, e.event.actor)
  {
    ReadOpening(es, s);
    hide Recorded, Staged;
  }

  lemma ReadController(es: Transcript, s: State, e: CommunityEntry, participantId: Id)
    requires Recorded(es, s) && Staged(s) && OpenOk(s)
    ensures ByController(es, e, participantId) <==> Controls(s, e.event.actor, participantId)
  {
    ReadOpening(es, s);
    hide Recorded, Staged, CaseActorKey;
  }

  lemma ReadReviewer(es: Transcript, s: State, e: CommunityEntry, reviewerId: Id)
    requires Recorded(es, s) && Staged(s) && OpenOk(s)
    ensures ByReviewer(es, e, reviewerId) <==> Reviews(s, e.event.actor, reviewerId)
  {
    ReadOpening(es, s);
    hide Recorded, Staged, CaseActorKey;
  }
}
