/** Result attribution and the evidence seal, as kept by every event. */
module CommunityAttribution {
  import opened Basics
  import opened CommunityTypes
  import opened Causality
  import opened CommunitySteps
  import opened CommunityInvariants
  import opened CommunityProvenance

  // ----- Results record their exact causal closure -----

  /** The stored differences are what the claimed and expected dependencies and the dispositions say. */
  ghost predicate Reconciled(r: ResultRecord) {
    && r.omitted
        == (r.expected - r.claimed) + (set c | c in r.dispositions && r.dispositions[c] == Used && c !in r.claimed)
    && r.extraneous == r.claimed - r.expected
    && r.unattributed == set c | c in r.dispositions && r.dispositions[c] == NotUsed && c !in r.expected
  }

  ghost predicate ResultsOk(handoffs: Handoffs, accepted: set<Id>, results: map<Id, ResultRecord>) {
    forall r :: r in results ==>
      && Closure(handoffs, results[r].direct) == Accept(results[r].expected)
      && results[r].expected <= accepted
      && Reconciled(results[r])
  }

  lemma ResultsGrow(handoffs: Handoffs, later: Handoffs, accepted: set<Id>, wider: set<Id>,
                    results: map<Id, ResultRecord>)
    requires ResultsOk(handoffs, accepted, results) && accepted <= wider
    requires forall h :: h in handoffs ==> h in later && later[h] == handoffs[h]
    ensures ResultsOk(later, wider, results)
  {
    forall r | r in results ensures Closure(later, results[r].direct) == Accept(results[r].expected) {
      ClosureStable(handoffs, later, results[r].direct);
    }
  }

  lemma ProposeKeepsResults(s: State, actor: Key, at: Time, hash: EntryHash, p: Payload, t: State)
    requires p.ResultProposed? && StepProposed(s, actor, at, hash, p) == Accept(t)
    requires ResultsOk(s.handoffs, s.accepted, s.results)
    ensures ResultsOk(t.handoffs, t.accepted, t.results)
  {}

  lemma PublishGrows(s: State, actor: Key, at: Time, hash: EntryHash, p: Payload, t: State)
    requires p.HandoffPublished? && StepPublished(s, actor, at, hash, p) == Accept(t)
    ensures forall h :: h in s.handoffs ==> h in t.handoffs && t.handoffs[h] == s.handoffs[h]
  {}

  lemma ResultsKept(s: State, e: CommunityEntry, t: State)
    requires Step(s, e) == Accept(t) && AcceptedOk(s.handoffs, s.commitments, s.accepted)
    requires ResultsOk(s.handoffs, s.accepted, s.results)
    ensures ResultsOk(t.handoffs, t.accepted, t.results)
  {
    hide ResultsOk, AcceptedOk, StepReview, StepProposed, StepPublished, StepAdvanced;
    var p := e.event.payload;
    StepFramed(s, e, t);
    if p.ResultProposed? {
      ProposeKeepsResults(s, e.event.actor, e.at, e.hash, p, t);
    } else if p.HandoffPublished? {
      PublishGrows(s, e.event.actor, e.at, e.hash, p, t);
      ResultsGrow(s.handoffs, t.handoffs, s.accepted, s.accepted, s.results);
    } else if p.FrontierAccepted? {
      AcceptedGrows(s, e.event.actor, p, t);
      ResultsGrow(s.handoffs, s.handoffs, s.accepted, t.accepted, s.results);
    }
  }

  // ----- Every access before a proposal is answered for -----

  /** An access the result's proposer had signed for when it proposed. */
  predicate Received(a: Access, r: ResultRecord) {
    a.receiver == r.participantId && a.entryHash.Digest? && r.entryHash.Digest? && a.entryHash.seqNo < r.entryHash.seqNo
  }

  ghost predicate AccountedOk(accesses: map<Id, Access>, results: map<Id, ResultRecord>, n: int) {
    && (forall a :: a in accesses ==> Below(accesses[a].entryHash, n))
    && (forall r :: r in results ==> Below(results[r].entryHash, n))
    && (forall a, r :: a in accesses && r in results && Received(accesses[a], results[r]) ==>
          accesses[a].contributionId in results[r].dispositions.Keys + results[r].unaccounted)
    && (forall r, c :: r in results && c in results[r].dispositions.Keys + results[r].unaccounted ==>
          exists a :: a in accesses && Received(accesses[a], results[r]) && accesses[a].contributionId == c)
  }

  lemma AccessAdds(s: State, actor: Key, at: Time, hash: EntryHash, p: Payload, t: State)
    requires p.KnowledgeAccessed? && StepAccessed(s, actor, at, hash, p) == Accept(t)
    ensures p.accessId !in s.accesses && t.results == s.results
    ensures t.accesses ==
            s.accesses[p.accessId := Access(p.contributionId, p.artifactDigest, p.sender, p.receiver, hash)]
  {
    hide ActsAs;
  }

  lemma OneMoreAccess(accesses: map<Id, Access>, later: map<Id, Access>, results: map<Id, ResultRecord>, id: Id,
                      access: Access, n: int)
    requires AccountedOk(accesses, results, n) && id !in accesses && later == accesses[id := access]
    requires access.entryHash.Digest? && access.entryHash.seqNo == n
    ensures AccountedOk(later, results, n + 1)
  {
    forall r, c | r in results && c in results[r].dispositions.Keys + results[r].unaccounted
      ensures exists a :: a in later && Received(later[a], results[r]) && later[a].contributionId == c
    {
      var a :| a in accesses && Received(accesses[a], results[r]) && accesses[a].contributionId == c;
      assert later[a] == accesses[a];
    }
  }

  lemma AccessKeepsAccounted(s: State, actor: Key, at: Time, hash: EntryHash, p: Payload, t: State, n: int)
    requires p.KnowledgeAccessed? && StepAccessed(s, actor, at, hash, p) == Accept(t)
    requires AccountedOk(s.accesses, s.results, n) && hash.Digest? && hash.seqNo == n
    ensures AccountedOk(t.accesses, t.results, n + 1)
  {
    hide AccountedOk, StepAccessed;
    AccessAdds(s, actor, at, hash, p, t);
    OneMoreAccess(s.accesses, t.accesses, s.results, p.accessId,
                  Access(p.contributionId, p.artifactDigest, p.sender, p.receiver, hash), n);
  }

  lemma ProposedAccounts(s: State, actor: Key, at: Time, hash: EntryHash, p: Payload, t: State, n: int)
    requires p.ResultProposed? && StepProposed(s, actor, at, hash, p) == Accept(t)
    requires AccountedOk(s.accesses, s.results, n) && hash.Digest? && hash.seqNo == n
    ensures p.resultId in t.results && p.resultId !in s.results
            && t.results == s.results[p.resultId := t.results[p.resultId]]
    ensures t.accesses == s.accesses
    ensures t.results[p.resultId].entryHash == hash
    ensures t.results[p.resultId].participantId == p.participantId
    ensures t.results[p.resultId].dispositions.Keys + t.results[p.resultId].unaccounted == Accessed(s, p.participantId)
  {}

  lemma ProposeKeepsAccounted(s: State, actor: Key, at: Time, hash: EntryHash, p: Payload, t: State, n: int)
    requires p.ResultProposed? && StepProposed(s, actor, at, hash, p) == Accept(t)
    requires AccountedOk(s.accesses, s.results, n) && hash.Digest? && hash.seqNo == n
    ensures AccountedOk(t.accesses, t.results, n + 1)
  {
    ProposedAccounts(s, actor, at, hash, p, t, n);
    RecordAccounted(s, p.participantId, s.accesses, s.results, p.resultId, t.results[p.resultId], n);
  }

  lemma RecordAccounted(s: State, participantId: Id, accesses: map<Id, Access>, results: map<Id, ResultRecord>, id: Id,
                        r: ResultRecord, n: int)
    requires AccountedOk(accesses, results, n) && accesses == s.accesses && id !in results
    requires r.entryHash.Digest? && r.entryHash.seqNo == n && r.participantId == participantId
    requires r.dispositions.Keys + r.unaccounted == Accessed(s, participantId)
    ensures AccountedOk(accesses, results[id := r], n + 1)
  {
    forall c | c in Accessed(s, participantId)
      ensures exists a :: a in accesses && Received(accesses[a], r) && accesses[a].contributionId == c
    {
      var a :| a in s.accesses && s.accesses[a].receiver == participantId && s.accesses[a].contributionId == c;
      assert Received(accesses[a], r);
    }
  }

  lemma AccountedLater(accesses: map<Id, Access>, results: map<Id, ResultRecord>, n: int)
    requires AccountedOk(accesses, results, n)
    ensures AccountedOk(accesses, results, n + 1)
  {}

  lemma AccountedKept(s: State, e: CommunityEntry, t: State, n: int)
    requires Step(s, e) == Accept(t) && e.hash == e.Body() && e.seqNo == n
    requires AccountedOk(s.accesses, s.results, n)
    ensures AccountedOk(t.accesses, t.results, n + 1)
  {
    hide AccountedOk, StepReview, StepAccessed, StepProposed;
    var p := e.event.payload;
    StepFramed(s, e, t);
    if p.KnowledgeAccessed? {
      AccessKeepsAccounted(s, e.event.actor, e.at, e.hash, p, t, n);
    } else if p.ResultProposed? {
      ProposeKeepsAccounted(s, e.event.actor, e.at, e.hash, p, t, n);
    } else {
      AccountedLater(s.accesses, s.results, n);
    }
  }

  // ----- The seal -----

  /** After the seal, the sealed result passed, is fully attributed, and still has the stored root. */
  ghost predicate SealOk(s: State) {
    s.phase != New && s.phase != Active ==>
      && s.sealedResult.Some?
      && EvidenceOf(s, s.sealedResult.value).Some?
      && s.evidenceRoot == Some(EvidenceDigest(EvidenceOf(s, s.sealedResult.value).value))
      && s.receipts[s.sealedResult.value].pass
      && s.results[s.sealedResult.value].Complete()
  }

  /** The evidence a seal binds, which no later event can change. */
  ghost predicate SameEvidence(s: State, t: State) {
    && t.manifest == s.manifest && t.clerkKey == s.clerkKey
    && t.sessions == s.sessions && t.claims == s.claims && t.commitments == s.commitments
    && t.handoffs == s.handoffs && t.accesses == s.accesses && t.accepted == s.accepted
    && t.frontiers == s.frontiers && t.currentFrontier == s.currentFrontier
    && t.results == s.results && t.receipts == s.receipts
    && t.sealedResult == s.sealedResult && t.evidenceRoot == s.evidenceRoot
  }

  lemma SealFreezes(s: State, e: CommunityEntry, t: State)
    requires Step(s, e) == Accept(t) && s.phase != New && s.phase != Active
    ensures SameEvidence(s, t) && t.phase != New && t.phase != Active
  {
    var p := e.event.payload;
    if WorkKind(p) {
      WorkFramed(s, e.event.actor, e.at, e.hash, p, t);
    } else if !p.CommunityOpened? {
      ReviewFramed(s, e.event.actor, p, t);
    }
  }

  lemma SealEstablished(s: State, actor: Key, p: Payload, t: State)
    requires p.EvidenceSealed? && StepSealed(s, actor, p) == Accept(t)
    ensures SealOk(t)
  {
    assert EvidenceOf(t, p.resultId) == EvidenceOf(s, p.resultId);
  }

  lemma SameEvidenceSeal(s: State, t: State)
    requires SameEvidence(s, t) && SealOk(s) && s.phase != New && s.phase != Active
    ensures SealOk(t)
  {
    assert EvidenceOf(t, s.sealedResult.value) == EvidenceOf(s, s.sealedResult.value);
  }

  lemma SealKept(s: State, e: CommunityEntry, t: State)
    requires Step(s, e) == Accept(t) && SealOk(s)
    ensures SealOk(t)
  {
    var p := e.event.payload;
    if s.phase != New && s.phase != Active {
      SealFreezes(s, e, t);
      SameEvidenceSeal(s, t);
    } else if p.EvidenceSealed? {
      SealEstablished(s, e.event.actor, p, t);
    } else {
      StaysActive(s, e, t);
    }
  }

  lemma StaysActive(s: State, e: CommunityEntry, t: State)
    requires Step(s, e) == Accept(t) && !e.event.payload.EvidenceSealed?
    requires s.phase == New || s.phase == Active
    ensures t.phase == Active
  {
    var p := e.event.payload;
    if WorkKind(p) {
      WorkFramed(s, e.event.actor, e.at, e.hash, p, t);
    } else if !p.CommunityOpened? {
      ReviewFramed(s, e.event.actor, p, t);
    }
  }
}
