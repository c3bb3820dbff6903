/** Commit-then-handoff provenance, the causal graph, and result attribution, as kept by every event. */
module CommunityProvenance {
  import opened Basics
  import opened CommunityTypes
  import opened Causality
  import opened CommunitySteps
  import opened CommunityInvariants

  // ----- The causal graph only points backwards -----

  function AllEdges(h: Handoff): seq<Id> {
    h.dependsOn + h.uses + h.refutes
  }

  /** Recorded in an entry below position n. */
  predicate Below(hash: EntryHash, n: int) {
    hash.Digest? && hash.seqNo < n
  }

  ghost predicate GraphOk(handoffs: Handoffs, n: int) {
    forall h :: h in handoffs ==>
      && Below(handoffs[h].entryHash, n)
      && forall d :: d in AllEdges(handoffs[h]) ==>
           !Unusable(handoffs, d) && Below(handoffs[d].entryHash, handoffs[h].entryHash.seqNo)
  }

  lemma GraphKept(s: State, e: CommunityEntry, t: State, n: int)
    requires Step(s, e) == Accept(t) && GraphOk(s.handoffs, n) && e.hash == e.Body() && e.seqNo == n
    ensures GraphOk(t.handoffs, n + 1)
  {
    StepFramed(s, e, t);
    if e.event.payload.HandoffPublished? {
      PublishKeepsGraph(s, e.event.actor, e.at, e.hash, e.event.payload, t, n);
    }
  }

  lemma PublishKeepsGraph(s: State, actor: Key, at: Time, hash: EntryHash, p: Payload, t: State, n: int)
    requires p.HandoffPublished? && StepPublished(s, actor, at, hash, p) == Accept(t)
    requires GraphOk(s.handoffs, n) && hash.Digest? && hash.seqNo == n
    ensures GraphOk(t.handoffs, n + 1)
  {
    assert AllEdges(t.handoffs[p.handoffId]) == p.dependsOn + p.uses + p.refutes;
  }

  /** Every proper causal path leads to an earlier entry, so no handoff rests on itself. */
  lemma {:induction false} PathDescends(handoffs: Handoffs, path: seq<Id>, n: int)
    requires GraphOk(handoffs, n) && Path(handoffs, path) && |path| > 1
    ensures path[0] in handoffs && path[|path| - 1] in handoffs
    ensures handoffs[path[|path| - 1]].entryHash.seqNo < handoffs[path[0]].entryHash.seqNo
  {
    var last := |path| - 1;
    assert path[last] in Edges(handoffs[path[last - 1]]);
    assert path[last] in AllEdges(handoffs[path[last - 1]]);
    if |path| > 2 {
      assert Path(handoffs, path[..last]);
      PathDescends(handoffs, path[..last], n);
    }
  }

  // ----- Accepted handoffs -----

  /** The accepted set is causally closed and inspectable. */
  ghost predicate AcceptedOk(handoffs: Handoffs, commitments: map<Id, Commitment>, accepted: set<Id>) {
    && Closed(handoffs, accepted)
    && forall h :: h in accepted ==>
         handoffs[h].commitmentId in commitments && commitments[handoffs[h].commitmentId].visibility != HashOnly
  }

  lemma AdvanceKeepsAccepted(s: State, actor: Key, p: Payload, t: State)
    requires p.FrontierAccepted? && StepAdvanced(s, actor, p) == Accept(t)
    requires AcceptedOk(s.handoffs, s.commitments, s.accepted)
    ensures AcceptedOk(t.handoffs, t.commitments, t.accepted)
  {
    forall h | h in t.accepted
      ensures !Unusable(t.handoffs, h) && (forall d :: d in Edges(t.handoffs[h]) ==> d in t.accepted)
      ensures t.handoffs[h].commitmentId in t.commitments
      ensures t.commitments[t.handoffs[h].commitmentId].visibility != HashOnly
    {
      if h !in s.accepted {
        assert h in p.acceptedHandoffs;
        assert MayAcceptHandoff(s, h, t.accepted);
      }
    }
  }

  lemma CommitKeepsAccepted(s: State, actor: Key, at: Time, hash: EntryHash, p: Payload, t: State)
    requires p.ContributionCommitted? && StepCommitted(s, actor, at, hash, p) == Accept(t)
    requires AcceptedOk(s.handoffs, s.commitments, s.accepted)
    ensures AcceptedOk(t.handoffs, t.commitments, t.accepted)
  {}

  lemma PublishKeepsAccepted(s: State, actor: Key, at: Time, hash: EntryHash, p: Payload, t: State)
    requires p.HandoffPublished? && StepPublished(s, actor, at, hash, p) == Accept(t)
    requires AcceptedOk(s.handoffs, s.commitments, s.accepted)
    ensures AcceptedOk(t.handoffs, t.commitments, t.accepted)
  {}

  lemma AcceptedKept(s: State, e: CommunityEntry, t: State)
    requires Step(s, e) == Accept(t) && AcceptedOk(s.handoffs, s.commitments, s.accepted)
    ensures AcceptedOk(t.handoffs, t.commitments, t.accepted)
    ensures s.accepted <= t.accepted
  {
    var p := e.event.payload;
    StepFramed(s, e, t);
    if p.FrontierAccepted? {
      AdvanceKeepsAccepted(s, e.event.actor, p, t);
      AcceptedGrows(s, e.event.actor, p, t);
    } else if p.ContributionCommitted? {
      CommitKeepsAccepted(s, e.event.actor, e.at, e.hash, p, t);
    } else if p.HandoffPublished? {
      PublishKeepsAccepted(s, e.event.actor, e.at, e.hash, p, t);
    }
  }

  lemma AcceptedGrows(s: State, actor: Key, p: Payload, t: State)
    requires p.FrontierAccepted? && StepAdvanced(s, actor, p) == Accept(t)
    ensures s.accepted <= t.accepted
  {}

  // ----- Commitments, handoffs and claims correspond -----

  /** The handoff opened exactly one earlier commitment and completed exactly its claim. */
  ghost predicate HandoffBacked(h: Id, handoffs: Handoffs, commitments: map<Id, Commitment>, claims: map<Id, Claim>)
    requires h in handoffs
  {
    var handoff := handoffs[h];
    && handoff.commitmentId in commitments
    && handoff.claimId in claims
    && var commitment, claim := commitments[handoff.commitmentId], claims[handoff.claimId];
    && commitment.revealedBy == Some(h)
    && commitment.claimId == handoff.claimId
    && commitment.artifactDigest == handoff.artifactDigest
    && commitment.summaryDigest == SummaryDigest(handoff.summary)
    && handoff.entryHash.Digest? && Below(commitment.entryHash, handoff.entryHash.seqNo)
    && claim.status == CompletedClaim
    && claim.sessionId == handoff.sessionId
  }

  ghost predicate CommitmentOk(c: Id, handoffs: Handoffs, commitments: map<Id, Commitment>, claims: map<Id, Claim>,
                               n: int)
    requires c in commitments
  {
    && Below(commitments[c].entryHash, n)
    && commitments[c].claimId in claims
    && (commitments[c].revealedBy.Some? ==>
          commitments[c].revealedBy.value in handoffs && handoffs[commitments[c].revealedBy.value].commitmentId == c)
  }

  ghost predicate ProvenanceOk(handoffs: Handoffs, commitments: map<Id, Commitment>, claims: map<Id, Claim>, n: int) {
    && (forall h :: h in handoffs ==> HandoffBacked(h, handoffs, commitments, claims))
    && (forall c :: c in commitments ==> CommitmentOk(c, handoffs, commitments, claims, n))
    && CompletionsOk(handoffs, claims)
  }

  /** A claim is completed exactly when one handoff cites it, and at most one ever does. */
  ghost predicate CompletionsOk(handoffs: Handoffs, claims: map<Id, Claim>) {
    && (forall c :: c in claims && claims[c].status == CompletedClaim ==>
          exists h :: h in handoffs && handoffs[h].claimId == c)
    && (forall h, k :: h in handoffs && k in handoffs && handoffs[h].claimId == handoffs[k].claimId ==> h == k)
  }

  /** Claims may be added, and live ones released, without touching provenance. */
  lemma ClaimsChange(handoffs: Handoffs, commitments: map<Id, Commitment>, claims: map<Id, Claim>,
                     later: map<Id, Claim>, n: int)
    requires ProvenanceOk(handoffs, commitments, claims, n)
    requires forall c :: c in claims ==> c in later && (claims[c].status == CompletedClaim ==> later[c] == claims[c])
    requires forall c ::
             c in later && later[c].status == CompletedClaim ==> c in claims && claims[c].status == CompletedClaim
    ensures ProvenanceOk(handoffs, commitments, later, n + 1)
  {
    forall h | h in handoffs ensures HandoffBacked(h, handoffs, commitments, later) {
      assert HandoffBacked(h, handoffs, commitments, claims);
    }
    forall c | c in commitments ensures CommitmentOk(c, handoffs, commitments, later, n + 1) {
      assert CommitmentOk(c, handoffs, commitments, claims, n);
    }
  }

  lemma CommitKeepsProvenance(s: State, actor: Key, at: Time, hash: EntryHash, p: Payload, t: State, n: int)
    requires p.ContributionCommitted? && StepCommitted(s, actor, at, hash, p) == Accept(t)
    requires ProvenanceOk(s.handoffs, s.commitments, s.claims, n) && hash.Digest? && hash.seqNo == n
    ensures ProvenanceOk(t.handoffs, t.commitments, t.claims, n + 1)
  {
    forall h | h in t.handoffs ensures HandoffBacked(h, t.handoffs, t.commitments, t.claims) {
      assert HandoffBacked(h, s.handoffs, s.commitments, s.claims);
    }
    forall c | c in t.commitments ensures CommitmentOk(c, t.handoffs, t.commitments, t.claims, n + 1) {
      if c in s.commitments {
        assert CommitmentOk(c, s.handoffs, s.commitments, s.claims, n);
      }
    }
  }

  /** No handoff cites the commitment or the claim that a new handoff is about to consume. */
  lemma Unconsumed(s: State, actor: Key, at: Time, p: Payload, n: int, h: Id)
    requires p.HandoffPublished? && MayPublish(s, actor, at, p)
    requires ProvenanceOk(s.handoffs, s.commitments, s.claims, n) && h in s.handoffs
    ensures s.handoffs[h].commitmentId != p.commitmentId && s.handoffs[h].claimId != p.claimId && h != p.handoffId
  {
    assert HandoffBacked(h, s.handoffs, s.commitments, s.claims);
  }

  lemma PublishKeepsBacking(s: State, actor: Key, at: Time, hash: EntryHash, p: Payload, t: State, n: int, h: Id)
    requires p.HandoffPublished? && StepPublished(s, actor, at, hash, p) == Accept(t)
    requires ProvenanceOk(s.handoffs, s.commitments, s.claims, n) && hash.Digest? && hash.seqNo == n
    requires h in t.handoffs
    ensures HandoffBacked(h, t.handoffs, t.commitments, t.claims)
  {
    if h == p.handoffId {
      assert CommitmentOk(p.commitmentId, s.handoffs, s.commitments, s.claims, n);
    } else {
      Unconsumed(s, actor, at, p, n, h);
      assert HandoffBacked(h, s.handoffs, s.commitments, s.claims);
    }
  }

  lemma PublishKeepsCommitments(s: State, actor: Key, at: Time, hash: EntryHash, p: Payload, t: State, n: int, c: Id)
    requires p.HandoffPublished? && StepPublished(s, actor, at, hash, p) == Accept(t)
    requires ProvenanceOk(s.handoffs, s.commitments, s.claims, n)
    requires c in t.commitments
    ensures CommitmentOk(c, t.handoffs, t.commitments, t.claims, n + 1)
  {
    assert CommitmentOk(c, s.handoffs, s.commitments, s.claims, n);
  }

  lemma PublishKeepsProvenance(s: State, actor: Key, at: Time, hash: EntryHash, p: Payload, t: State, n: int)
    requires p.HandoffPublished? && StepPublished(s, actor, at, hash, p) == Accept(t)
    requires ProvenanceOk(s.handoffs, s.commitments, s.claims, n) && hash.Digest? && hash.seqNo == n
    ensures ProvenanceOk(t.handoffs, t.commitments, t.claims, n + 1)
  {
    forall h | h in t.handoffs ensures HandoffBacked(h, t.handoffs, t.commitments, t.claims) {
      PublishKeepsBacking(s, actor, at, hash, p, t, n, h);
    }
    forall c | c in t.commitments ensures CommitmentOk(c, t.handoffs, t.commitments, t.claims, n + 1) {
      PublishKeepsCommitments(s, actor, at, hash, p, t, n, c);
    }
    PublishKeepsCompletions(s, actor, at, hash, p, t, n);
  }

  lemma PublishKeepsCompletions(s: State, actor: Key, at: Time, hash: EntryHash, p: Payload, t: State, n: int)
    requires p.HandoffPublished? && StepPublished(s, actor, at, hash, p) == Accept(t)
    requires ProvenanceOk(s.handoffs, s.commitments, s.claims, n)
    ensures CompletionsOk(t.handoffs, t.claims)
  {
    forall h | h in s.handoffs ensures s.handoffs[h].claimId != p.claimId && h != p.handoffId {
      Unconsumed(s, actor, at, p, n, h);
    }
    CompletionAdded(s.handoffs, s.claims, p.handoffId, t.handoffs[p.handoffId], p.claimId, t.claims[p.claimId]);
  }

  lemma CompletionAdded(handoffs: Handoffs, claims: map<Id, Claim>, h: Id, handoff: Handoff, c: Id, claim: Claim)
    requires CompletionsOk(handoffs, claims) && h !in handoffs && handoff.claimId == c
    requires forall k :: k in handoffs ==> handoffs[k].claimId != c
    ensures CompletionsOk(handoffs[h := handoff], claims[c := claim])
  {
    var handoffs', claims' := handoffs[h := handoff], claims[c := claim];
    forall d | d in claims' && claims'[d].status == CompletedClaim
      ensures exists k :: k in handoffs' && handoffs'[k].claimId == d
    {
      if d == c {
        assert handoffs'[h].claimId == d;
      } else {
        var k :| k in handoffs && handoffs[k].claimId == d;
        assert handoffs'[k].claimId == d;
      }
    }
  }

  lemma ProvenanceKept(s: State, e: CommunityEntry, t: State, n: int)
    requires Step(s, e) == Accept(t) && e.hash == e.Body() && e.seqNo == n
    requires ProvenanceOk(s.handoffs, s.commitments, s.claims, n)
    ensures ProvenanceOk(t.handoffs, t.commitments, t.claims, n + 1)
  {
    hide ProvenanceOk, ReleaseClaims, StepPublished, StepCommitted, StepClaimed, StepReview;
    var p := e.event.payload;
    StepFramed(s, e, t);
    if p.HandoffPublished? {
      PublishKeepsProvenance(s, e.event.actor, e.at, e.hash, p, t, n);
    } else if p.ContributionCommitted? {
      CommitKeepsProvenance(s, e.event.actor, e.at, e.hash, p, t, n);
    } else if p.RouteClaimed? {
      ClaimKeepsProvenance(s, e.event.actor, e.at, e.hash, p, t, n);
    } else if p.SessionRevoked? {
      ReleasesOnly(s.claims, p.sessionId);
      ClaimsChange(s.handoffs, s.commitments, s.claims, ReleaseClaims(s.claims, p.sessionId), n);
    } else {
      ClaimsChange(s.handoffs, s.commitments, s.claims, s.claims, n);
    }
  }

  lemma ClaimKeepsProvenance(s: State, actor: Key, at: Time, hash: EntryHash, p: Payload, t: State, n: int)
    requires p.RouteClaimed? && StepClaimed(s, actor, at, hash, p) == Accept(t)
    requires ProvenanceOk(s.handoffs, s.commitments, s.claims, n)
    ensures ProvenanceOk(t.handoffs, t.commitments, t.claims, n + 1)
  {
    ClaimsChange(s.handoffs, s.commitments, s.claims, t.claims, n);
  }
}
