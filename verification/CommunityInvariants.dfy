/** What every accepted community event keeps, each part stated over the fields it concerns. */
module CommunityInvariants {
  import opened Basics
  import opened Ordering
  import opened CommunityTypes
  import opened Causality
  import opened Aggregation
  import opened Payout
  import opened CommunitySteps

  // ----- Which fields an event may touch -----

  /** Fields left alone by the kinds of event that do not own them. */
  ghost predicate Framed(s: State, p: Payload, t: State) {
    && (!p.CommunityOpened? ==> t.manifest == s.manifest && t.clerkKey == s.clerkKey)
    && (!p.SessionDelegated? && !p.SessionRevoked? ==> t.sessions == s.sessions && t.sessionByKey == s.sessionByKey)
    && (!p.RouteClaimed? && !p.HandoffPublished? && !p.SessionRevoked? ==> t.claims == s.claims)
    && (!p.ContributionCommitted? && !p.HandoffPublished? ==> t.commitments == s.commitments)
    && (!p.HandoffPublished? ==> t.handoffs == s.handoffs)
    && (!p.KnowledgeAccessed? ==> t.accesses == s.accesses)
    && (!p.FrontierAccepted? ==> t.accepted == s.accepted)
    && (!p.FrontierAccepted? && !p.CommunityOpened? ==>
        t.frontiers == s.frontiers && t.currentFrontier == s.currentFrontier)
    && (!p.ResultProposed? ==> t.results == s.results)
    && (!p.TechnicalReceiptRecorded? ==> t.receipts == s.receipts)
    && (!p.EvidenceSealed? ==> t.sealedResult == s.sealedResult && t.evidenceRoot == s.evidenceRoot)
    && (!p.BallotCommitted? ==> t.commits == s.commits)
    && (!p.CommitsClosed? ==> t.commitsClosed == s.commitsClosed)
    && (!p.BallotRevealed? ==> t.ballots == s.ballots && t.revealed == s.revealed)
    && (!p.AllocationFinalized? ==> t.allocation == s.allocation)
    && (!p.PayoutPlanCreated? ==> t.plan == s.plan)
    && (!p.PayoutLegSubmitted? ==> t.submitted == s.submitted)
    && (!p.PayoutLegConfirmed? ==> t.confirmed == s.confirmed)
  }

  lemma StepFramed(s: State, e: CommunityEntry, t: State)
    requires Step(s, e) == Accept(t)
    ensures Framed(s, e.event.payload, t)
  {
    hide StepWork, StepReview, ValidManifest, CaseActorKey;
    if WorkKind(e.event.payload) {
      WorkFramed(s, e.event.actor, e.at, e.hash, e.event.payload, t);
    } else if !e.event.payload.CommunityOpened? {
      ReviewFramed(s, e.event.actor, e.event.payload, t);
    }
  }

  /** The step accepted an event of active work: it needed the active phase, and only a seal left it. */
  ghost predicate WorkDone(s: State, p: Payload, t: State) {
    && WorkKind(p) && Framed(s, p, t)
    && s.phase == Active && s.manifest.Some?
    && t.phase == if p.EvidenceSealed? then Reviewing else Active
  }

  lemma WorkFramed(s: State, actor: Key, at: Time, hash: EntryHash, p: Payload, t: State)
    requires StepWork(s, actor, at, hash, p) == Accept(t)
    ensures WorkDone(s, p, t)
  {
    if p.SessionDelegated? || p.SessionRevoked? || p.MessagePosted? || p.RouteClaimed? {
      SessionWorkFramed(s, actor, at, hash, p, t);
    } else if p.ContributionCommitted? || p.HandoffPublished? || p.FrontierAccepted? || p.KnowledgeAccessed? {
      HandoffWorkFramed(s, actor, at, hash, p, t);
    } else {
      ResultWorkFramed(s, actor, at, hash, p, t);
    }
  }

  lemma DelegationFramed(s: State, actor: Key, at: Time, hash: EntryHash, p: Payload, t: State)
    requires p.SessionDelegated? && StepDelegated(s, actor, at, p) == Accept(t)
    ensures WorkDone(s, p, t)
  {
    hide CaseActorKey, Controls, NoDuplicates;
  }

  lemma RevocationFramed(s: State, actor: Key, at: Time, hash: EntryHash, p: Payload, t: State)
    requires p.SessionRevoked? && StepRevoked(s, actor, p) == Accept(t)
    ensures WorkDone(s, p, t)
  {
    hide Controls, ReleaseClaims;
  }

  lemma MessageFramed(s: State, actor: Key, at: Time, hash: EntryHash, p: Payload, t: State)
    requires p.MessagePosted? && StepMessage(s, actor, at, hash, p) == Accept(t)
    ensures WorkDone(s, p, t)
  {
    hide NoDuplicates;
  }

  lemma ClaimFramed(s: State, actor: Key, at: Time, hash: EntryHash, p: Payload, t: State)
    requires p.RouteClaimed? && StepClaimed(s, actor, at, hash, p) == Accept(t)
    ensures WorkDone(s, p, t)
  {
    hide RouteFree;
  }

  lemma CommitFramed(s: State, actor: Key, at: Time, hash: EntryHash, p: Payload, t: State)
    requires p.ContributionCommitted? && StepCommitted(s, actor, at, hash, p) == Accept(t)
    ensures WorkDone(s, p, t)
  {
    hide Live;
  }

  lemma PublishFramed(s: State, actor: Key, at: Time, hash: EntryHash, p: Payload, t: State)
    requires p.HandoffPublished? && StepPublished(s, actor, at, hash, p) == Accept(t)
    ensures WorkDone(s, p, t)
  {
    hide UsableEdges, Live;
  }

  lemma FrontierFramed(s: State, actor: Key, at: Time, hash: EntryHash, p: Payload, t: State)
    requires p.FrontierAccepted? && StepAdvanced(s, actor, p) == Accept(t)
    ensures WorkDone(s, p, t)
  {
    hide MayAcceptHandoff, NoDuplicates;
  }

  lemma AccessFramed(s: State, actor: Key, at: Time, hash: EntryHash, p: Payload, t: State)
    requires p.KnowledgeAccessed? && StepAccessed(s, actor, at, hash, p) == Accept(t)
    ensures WorkDone(s, p, t)
  {}

  lemma SessionWorkFramed(s: State, actor: Key, at: Time, hash: EntryHash, p: Payload, t: State)
    requires p.SessionDelegated? || p.SessionRevoked? || p.MessagePosted? || p.RouteClaimed?
    requires StepWork(s, actor, at, hash, p) == Accept(t)
    ensures WorkDone(s, p, t)
  {
    hide WorkDone, StepDelegated, StepRevoked, StepMessage, StepClaimed;
    if p.SessionDelegated? {
      DelegationFramed(s, actor, at, hash, p, t);
    } else if p.SessionRevoked? {
      RevocationFramed(s, actor, at, hash, p, t);
    } else if p.MessagePosted? {
      MessageFramed(s, actor, at, hash, p, t);
    } else {
      ClaimFramed(s, actor, at, hash, p, t);
    }
  }

  lemma HandoffWorkFramed(s: State, actor: Key, at: Time, hash: EntryHash, p: Payload, t: State)
    requires p.ContributionCommitted? || p.HandoffPublished? || p.FrontierAccepted? || p.KnowledgeAccessed?
    requires StepWork(s, actor, at, hash, p) == Accept(t)
    ensures WorkDone(s, p, t)
  {
    hide WorkDone, StepCommitted, StepPublished, StepAdvanced, StepAccessed;
    if p.ContributionCommitted? {
      CommitFramed(s, actor, at, hash, p, t);
    } else if p.HandoffPublished? {
      PublishFramed(s, actor, at, hash, p, t);
    } else if p.FrontierAccepted? {
      FrontierFramed(s, actor, at, hash, p, t);
    } else {
      AccessFramed(s, actor, at, hash, p, t);
    }
  }

  lemma ResultWorkFramed(s: State, actor: Key, at: Time, hash: EntryHash, p: Payload, t: State)
    requires p.ResultProposed? || p.TechnicalReceiptRecorded? || p.EvidenceSealed?
    requires StepWork(s, actor, at, hash, p) == Accept(t)
    ensures WorkDone(s, p, t)
  {
    hide Closure, ProposedRecord, EvidenceOf, Accessed, NoDuplicates;
  }

  lemma ReviewFramed(s: State, actor: Key, p: Payload, t: State)
    requires StepReview(s, actor, p) == Accept(t)
    ensures Framed(s, p, t)
    ensures s.manifest.Some? && (s.phase == Reviewing || s.phase == Allocated || s.phase == MockPaying)
    ensures t.phase != Active && t.phase != New
  {
    if p.PayoutPlanCreated? || p.PayoutLegSubmitted? || p.PayoutLegConfirmed? {
      PayoutWorkFramed(s, actor, p, t);
    } else {
      BallotWorkFramed(s, actor, p, t);
    }
  }

  lemma PayoutWorkFramed(s: State, actor: Key, p: Payload, t: State)
    requires p.PayoutPlanCreated? || p.PayoutLegSubmitted? || p.PayoutLegConfirmed?
    requires StepReview(s, actor, p) == Accept(t)
    ensures Framed(s, p, t)
    ensures s.manifest.Some? && (s.phase == Allocated || s.phase == MockPaying)
    ensures t.phase == MockPaying || t.phase == MockPaid
  {
    hide PayoutLegs, Amounts, CitesLeg, PositiveLegIds;
  }

  lemma BallotWorkFramed(s: State, actor: Key, p: Payload, t: State)
    requires !p.PayoutPlanCreated? && !p.PayoutLegSubmitted? && !p.PayoutLegConfirmed?
    requires StepReview(s, actor, p) == Accept(t)
    ensures Framed(s, p, t)
    ensures s.manifest.Some? && s.phase == Reviewing
    ensures t.phase != Active && t.phase != New
  {
    hide ValidBallot, Aggregate, Reviews, SortedTexts;
  }

  // ----- Route leases -----

  /** Two live claims on one route were both declared parallel, under a policy that allows it. */
  ghost predicate LeasesOk(claims: map<Id, Claim>, allowParallel: bool, now: Time) {
    forall a, b :: a in claims && b in claims && a != b && claims[a].routeId == claims[b].routeId
                   && Live(claims[a], now) && Live(claims[b], now) ==>
      allowParallel && claims[a].overlap == Parallel && claims[b].overlap == Parallel
  }

  lemma LeasesLater(claims: map<Id, Claim>, allowParallel: bool, now: Time, later: Time)
    requires LeasesOk(claims, allowParallel, now) && now <= later
    ensures LeasesOk(claims, allowParallel, later)
  {
    forall a, b | a in claims && b in claims && a != b && claims[a].routeId == claims[b].routeId
                  && Live(claims[a], later) && Live(claims[b], later)
      ensures allowParallel && claims[a].overlap == Parallel && claims[b].overlap == Parallel
    {
      assert Live(claims[a], now) && Live(claims[b], now);
    }
  }

  lemma ClaimKeepsLeases(s: State, actor: Key, now: Time, at: Time, hash: EntryHash, p: Payload, t: State)
    requires p.RouteClaimed? && StepClaimed(s, actor, at, hash, p) == Accept(t)
    requires s.manifest.Some? && LeasesOk(s.claims, s.manifest.value.policy.allowParallel, now) && now <= at
    ensures LeasesOk(t.claims, s.manifest.value.policy.allowParallel, at)
  {
    LeasesLater(s.claims, s.manifest.value.policy.allowParallel, now, at);
  }

  /** Completing or releasing claims only removes live ones. */
  lemma FewerLive(claims: map<Id, Claim>, fewer: map<Id, Claim>, allowParallel: bool, now: Time)
    requires LeasesOk(claims, allowParallel, now) && fewer.Keys == claims.Keys
    requires forall c :: c in claims ==> fewer[c] == claims[c] || fewer[c].status != ActiveClaim
    ensures LeasesOk(fewer, allowParallel, now)
  {
    forall a | a in fewer && Live(fewer[a], now) ensures fewer[a] == claims[a] {}
  }

  lemma ReleasesOnly(claims: map<Id, Claim>, sessionId: Id)
    ensures var released := ReleaseClaims(claims, sessionId);
            && released.Keys == claims.Keys
            && (forall c :: c in claims ==> released[c] == claims[c] || released[c].status == ReleasedClaim)
            && (forall c :: c in claims && claims[c].status != ActiveClaim ==> released[c] == claims[c])
  {}

  lemma LeasesKept(s: State, e: CommunityEntry, t: State, now: Time)
    requires Step(s, e) == Accept(t) && now <= e.at && s.phase != New
    requires s.manifest.Some? && LeasesOk(s.claims, s.manifest.value.policy.allowParallel, now)
    ensures t.manifest == s.manifest && LeasesOk(t.claims, s.manifest.value.policy.allowParallel, e.at)
  {
    hide LeasesOk, ReleaseClaims;
    var p, allow := e.event.payload, s.manifest.value.policy.allowParallel;
    StepFramed(s, e, t);
    LeasesLater(s.claims, allow, now, e.at);
    if p.RouteClaimed? {
      ClaimKeepsLeases(s, e.event.actor, now, e.at, e.hash, p, t);
    } else if p.HandoffPublished? {
      PublishKeepsLeases(s, e.event.actor, e.at, e.hash, p, t);
    } else if p.SessionRevoked? {
      ReleasesOnly(s.claims, p.sessionId);
      FewerLive(s.claims, ReleaseClaims(s.claims, p.sessionId), allow, e.at);
    }
  }

  lemma PublishKeepsLeases(s: State, actor: Key, at: Time, hash: EntryHash, p: Payload, t: State)
    requires p.HandoffPublished? && StepPublished(s, actor, at, hash, p) == Accept(t)
    requires s.manifest.Some? && LeasesOk(s.claims, s.manifest.value.policy.allowParallel, at)
    ensures LeasesOk(t.claims, s.manifest.value.policy.allowParallel, at)
  {
    FewerLive(s.claims, t.claims, s.manifest.value.policy.allowParallel, at);
  }
}
