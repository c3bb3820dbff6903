/**
 Which entries a case accepts, told by its transcript alone: an entry is accepted exactly when it is lawful after the
 entries before it.
 */
module CommunityLaw {
  import opened Basics
  import opened Ordering
  import opened Chain
  import opened CommunityTypes
  import opened Causality
  import opened Credit
  import opened Aggregation
  import opened Payout
  import opened CommunitySteps
  import opened CommunityInvariants
  import opened CommunityAttribution
  import opened CommunityReview
  import opened CommunityRuns
  import opened CommunityAuthority
  import opened CommunityHistory
  import opened CommunityRecords
  import opened CommunityReading

  // ----- The opening -----

  lemma RolesAreApart(m: Manifest, clerk: Key)
    requires ValidParticipants(m) && ValidReviewers(m) && !CaseActorKey(m, clerk)
    ensures RolesApart(m, clerk)
  {}

  lemma ApartPair(m: Manifest, clerk: Key, j: Id, k: Id)
    requires RolesApart(m, clerk) && j in m.participants && k in m.participants && j != k
    ensures m.participants[j].controllerKey != m.participants[k].controllerKey
    ensures m.participants[j].controllerId != m.participants[k].controllerId
  {
    assert KeyOf(m, clerk, ControllerRole(j)) != KeyOf(m, clerk, ControllerRole(k));
    assert PersonOf(m, ControllerRole(j)) != PersonOf(m, ControllerRole(k));
  }

  lemma ApartPayees(m: Manifest, clerk: Key, j: Id, k: Id)
    requires RolesApart(m, clerk) && j in m.participants && k in m.participants && j != k
    ensures (m.participants[j].coldkey, m.participants[j].hotkey)
            != (m.participants[k].coldkey, m.participants[k].hotkey)
  {
    hide KeyOf, PersonOf;
    assert !SameDestination(m, j, k);
  }

  lemma ApartParticipants(m: Manifest, clerk: Key)
    requires RolesApart(m, clerk) && LimitsOk(m)
    ensures ValidParticipants(m)
  {
    forall k | k in m.participants ensures m.participants[k].controllerKey != m.verifierKey {
      assert KeyOf(m, clerk, ControllerRole(k)) != KeyOf(m, clerk, VerifierRole);
    }
    hide RolesApart;
    forall j, k | j in m.participants && k in m.participants && j != k
      ensures m.participants[j].controllerKey != m.participants[k].controllerKey
      ensures m.participants[j].controllerId != m.participants[k].controllerId
      ensures (m.participants[j].coldkey, m.participants[j].hotkey)
              != (m.participants[k].coldkey, m.participants[k].hotkey)
    {
      ApartPair(m, clerk, j, k);
      ApartPayees(m, clerk, j, k);
    }
  }

  lemma ApartReviewers(m: Manifest, clerk: Key)
    requires RolesApart(m, clerk) && LimitsOk(m)
    ensures ValidReviewers(m)
  {
    forall j, k | j in m.reviewers && k in m.reviewers && j != k
      ensures m.reviewers[j].reviewerKey != m.reviewers[k].reviewerKey
      ensures m.reviewers[j].controllerId != m.reviewers[k].controllerId
    {
      assert KeyOf(m, clerk, ReviewerRole(j)) != KeyOf(m, clerk, ReviewerRole(k));
      assert PersonOf(m, ReviewerRole(j)) != PersonOf(m, ReviewerRole(k));
    }
    forall k | k in m.reviewers ensures m.reviewers[k].reviewerKey != m.verifierKey {
      assert KeyOf(m, clerk, ReviewerRole(k)) != KeyOf(m, clerk, VerifierRole);
    }
    forall j, k | j in m.reviewers && k in m.participants
      ensures m.reviewers[j].reviewerKey != m.participants[k].controllerKey
      ensures m.reviewers[j].controllerId != m.participants[k].controllerId
    {
      assert KeyOf(m, clerk, ReviewerRole(j)) != KeyOf(m, clerk, ControllerRole(k));
      assert PersonOf(m, ReviewerRole(j)) != PersonOf(m, ControllerRole(k));
    }
  }

  lemma ClerkApart(m: Manifest, clerk: Key)
    requires RolesApart(m, clerk)
    ensures !CaseActorKey(m, clerk)
  {
    assert KeyOf(m, clerk, ClerkRole) != KeyOf(m, clerk, VerifierRole);
    forall p | p in m.participants ensures m.participants[p].controllerKey != clerk {
      assert KeyOf(m, clerk, ControllerRole(p)) != KeyOf(m, clerk, ClerkRole);
    }
    forall r | r in m.reviewers ensures m.reviewers[r].reviewerKey != clerk {
      assert KeyOf(m, clerk, ReviewerRole(r)) != KeyOf(m, clerk, ClerkRole);
    }
  }

  /** A manifest is valid under a clerk exactly when roles are apart, limits hold and the case starts blank. */
  lemma ManifestLaw(m: Manifest, clerk: Key)
    ensures ValidManifest(m) && !CaseActorKey(m, clerk) <==> RolesApart(m, clerk) && LimitsOk(m) && StartsBlank(m)
  {
    hide RolesApart, ValidParticipants, ValidReviewers, CaseActorKey;
    if ValidManifest(m) && !CaseActorKey(m, clerk) {
      RolesAreApart(m, clerk);
      assert LimitsOk(m) by { LimitsOf(m); }
    }
    if RolesApart(m, clerk) && LimitsOk(m) {
      ApartParticipants(m, clerk);
      ApartReviewers(m, clerk);
      ClerkApart(m, clerk);
    }
  }

  lemma LimitsOf(m: Manifest)
    requires ValidManifest(m)
    ensures LimitsOk(m)
  {}

  lemma OpeningLaw(es: Transcript, s: State, e: CommunityEntry)
    requires e.event.payload.CommunityOpened? && (s.phase == New <==> es == [])
    ensures StepOpened(s, e).Accept? <==> LawfulOpening(es, e)
  {
    ManifestLaw(e.event.payload.manifest, e.event.actor);
    hide ValidManifest, CaseActorKey, RolesApart, LimitsOk, StartsBlank;
  }

  // ----- Sessions and messages -----

  lemma SessionKeyLaw(m: Manifest, clerk: Key, key: Key)
    ensures key != clerk && !CaseActorKey(m, key) <==> forall role :: Plays(m, role) ==> KeyOf(m, clerk, role) != key
  {
    if forall role :: Plays(m, role) ==> KeyOf(m, clerk, role) != key {
      assert KeyOf(m, clerk, ClerkRole) != key && KeyOf(m, clerk, VerifierRole) != key;
      forall p | p in m.participants ensures m.participants[p].controllerKey != key {
        assert KeyOf(m, clerk, ControllerRole(p)) != key;
      }
      forall r | r in m.reviewers ensures m.reviewers[r].reviewerKey != key {
        assert KeyOf(m, clerk, ReviewerRole(r)) != key;
      }
    }
  }

  lemma DelegationLaw(es: Transcript, s: State, e: CommunityEntry)
    requires Recorded(es, s) && Staged(s) && OpenOk(s) && e.event.payload.SessionDelegated?
    ensures StepDelegated(s, e.event.actor, e.at, e.event.payload).Accept? <==> LawfulDelegation(es, e)
  {
    hide Recorded, Staged, OpenOk, Working, Has, NoDuplicates, ByController, Controls, CaseActorKey, KeyOf, Plays;
    var p := e.event.payload;
    ReadStage(es, s);
    ReadOpening(es, s);
    ReadCase(es, s, p.caseId);
    ReadController(es, s, e, p.participantId);
    ReadSession(es, s, p.sessionId);
    ReadKey(es, s, p.sessionKey);
    if s.manifest.Some? && Has(es, OpeningItem) {
      SessionKeyLaw(s.manifest.value, Clerk(es), p.sessionKey);
    }
  }

  lemma RevocationLaw(es: Transcript, s: State, e: CommunityEntry)
    requires Recorded(es, s) && Staged(s) && OpenOk(s) && e.event.payload.SessionRevoked?
    ensures StepRevoked(s, e.event.actor, e.event.payload).Accept? <==> LawfulRevocation(es, e)
  {
    hide Recorded, Staged, OpenOk, Working, Has, ByController, Controls, ReleaseClaims;
    var p := e.event.payload;
    ReadStage(es, s);
    ReadCase(es, s, p.caseId);
    ReadController(es, s, e, p.participantId);
    ReadSession(es, s, p.sessionId);
  }

  lemma MessageLaw(es: Transcript, s: State, e: CommunityEntry)
    requires Recorded(es, s) && Staged(s) && SessionsOk(s) && e.event.payload.MessagePosted?
    ensures StepMessage(s, e.event.actor, e.at, e.hash, e.event.payload).Accept? <==> LawfulMessage(es, e)
  {
    hide Recorded, Staged, SessionsOk, Has, ActsIn, ActingSession, NoDuplicates;
    var p := e.event.payload;
    ReadActing(es, s, e, p.sessionId, MessageScope);
    ReadCase(es, s, p.caseId);
    ReadMessage(es, s, p.messageId);
  }

  // ----- Routes, commitments, handoffs -----

  lemma RouteLaw(es: Transcript, s: State, at: Time, routeId: Id, overlap: Overlap)
    requires Recorded(es, s) && Staged(s) && ClaimsOk(s) && Has(es, OpeningItem) && s.manifest == Some(Charter(es))
    ensures RouteFree(s, at, routeId, overlap) <==> RouteOpen(es, at, routeId, overlap)
  {
    hide Recorded, Staged, ClaimsOk, Has, History.Held, Live;
    forall c ensures Has(es, ClaimItem(c)) <==> c in s.claims
      ensures History.Held(es, c, at) <==> c in s.claims && Live(s.claims[c], at)
      ensures c in s.claims ==> s.claims[c].routeId == Said(es, ClaimItem(c)).routeId
                                && s.claims[c].overlap == Said(es, ClaimItem(c)).overlap
    {
      ReadClaim(es, s, c);
      ReadStanding(es, s, c, at);
    }
  }

  lemma ClaimLaw(es: Transcript, s: State, e: CommunityEntry)
    requires Recorded(es, s) && AddsUp(es, s) && Staged(s) && SessionsOk(s) && ClaimsOk(s)
    requires e.event.payload.RouteClaimed?
    ensures StepClaimed(s, e.event.actor, e.at, e.hash, e.event.payload).Accept? <==> LawfulClaim(es, e)
  {
    hide Recorded, Staged, SessionsOk, ClaimsOk, Has, ActsFor, ActsAs, RouteFree, RouteOpen, Accessed, ReceivedBy;
    var p := e.event.payload;
    ReadActsFor(es, s, e, p.sessionId, p.participantId, ClaimScope);
    ReadCase(es, s, p.caseId);
    ReadOpening(es, s);
    ReadClaim(es, s, p.claimId);
    if Has(es, OpeningItem) {
      RouteLaw(es, s, e.at, p.routeId, p.overlap);
    }
  }

  lemma CommitmentLaw(es: Transcript, s: State, e: CommunityEntry)
    requires Recorded(es, s) && Staged(s) && SessionsOk(s) && ClaimsOk(s) && e.event.payload.ContributionCommitted?
    ensures StepCommitted(s, e.event.actor, e.at, e.hash, e.event.payload).Accept? <==> LawfulCommitment(es, e)
  {
    hide Recorded, Staged, SessionsOk, ClaimsOk, Has, ActsFor, ActsAs, Live;
    var p := e.event.payload;
    ReadActsFor(es, s, e, p.sessionId, p.participantId, HandoffScope);
    ReadCase(es, s, p.caseId);
    ReadCommitment(es, s, p.commitmentId);
    ReadClaim(es, s, p.claimId);
    ReadStanding(es, s, p.claimId, e.at);
  }

  lemma EdgesLaw(es: Transcript, s: State, p: Payload)
    requires Recorded(es, s) && p.HandoffPublished? && p.handoffId !in s.handoffs
    ensures UsableEdges(s, p) <==>
            && NoDuplicates(p.dependsOn + p.uses + p.refutes)
            && forall h :: h in p.dependsOn + p.uses + p.refutes ==> Useful(es, h)
  {
    hide Recorded, NoDuplicates, Useful;
    forall h ensures Useful(es, h) <==> !Unusable(s.handoffs, h) {
      ReadHandoff(es, s, h);
    }
  }

  lemma HandoffLaw(es: Transcript, s: State, e: CommunityEntry)
    requires Recorded(es, s) && Staged(s) && SessionsOk(s) && ClaimsOk(s) && e.event.payload.HandoffPublished?
    ensures StepPublished(s, e.event.actor, e.at, e.hash, e.event.payload).Accept? <==> LawfulHandoff(es, e)
  {
    hide Recorded, Staged, SessionsOk, ClaimsOk, Has, ActsFor, ActsAs, Live, UsableEdges, Useful, NoDuplicates,
         History.Held;
    var p := e.event.payload;
    ReadActsFor(es, s, e, p.sessionId, p.participantId, HandoffScope);
    ReadCase(es, s, p.caseId);
    ReadOpening(es, s);
    ReadHandoff(es, s, p.handoffId);
    ReadCommitment(es, s, p.commitmentId);
    ReadClaim(es, s, p.claimId);
    ReadStanding(es, s, p.claimId, e.at);
    if p.handoffId !in s.handoffs {
      EdgesLaw(es, s, p);
    }
  }

  // ----- Frontier and knowledge -----

  lemma InspectableLaw(es: Transcript, s: State, h: Id, cumulative: set<Id>)
    requires Recorded(es, s)
    ensures MayAcceptHandoff(s, h, cumulative) <==> Inspectable(es, h) && Elements(RestsOn(es, h)) <= cumulative
  {
    hide Recorded, Has;
    ReadHandoff(es, s, h);
    if h in s.handoffs {
      ReadCommitment(es, s, s.handoffs[h].commitmentId);
    }
  }

  lemma FrontierLaw(es: Transcript, s: State, e: CommunityEntry)
    requires Recorded(es, s) && AddsUp(es, s) && Staged(s) && e.event.payload.FrontierAccepted?
    ensures StepAdvanced(s, e.event.actor, e.event.payload).Accept? <==> LawfulFrontier(es, e)
  {
    hide Recorded, Staged, Has, Working, NoDuplicates, MayAcceptHandoff, RestsOn, Accessed, ReceivedBy;
    var p := e.event.payload;
    ReadStage(es, s);
    ReadClerk(es, s, e);
    ReadCase(es, s, p.caseId);
    ReadFrontier(es, s, p.frontierId);
    forall h | h in p.acceptedHandoffs
      ensures MayAcceptHandoff(s, h, s.accepted + Elements(p.acceptedHandoffs)) <==>
              Inspectable(es, h) && Elements(RestsOn(es, h)) <= AcceptedNow(es) + Elements(p.acceptedHandoffs)
    {
      InspectableLaw(es, s, h, s.accepted + Elements(p.acceptedHandoffs));
    }
  }

  lemma AccessLaw(es: Transcript, s: State, e: CommunityEntry)
    requires Recorded(es, s) && Staged(s) && SessionsOk(s) && e.event.payload.KnowledgeAccessed?
    ensures StepAccessed(s, e.event.actor, e.at, e.hash, e.event.payload).Accept? <==> LawfulAccess(es, e)
  {
    hide Recorded, Staged, SessionsOk, Has, ActsFor, ActsAs;
    var p := e.event.payload;
    ReadActsFor(es, s, e, p.sessionId, p.receiver, AccessScope);
    ReadCase(es, s, p.caseId);
    ReadAccess(es, s, p.accessId);
    ReadHandoff(es, s, p.contributionId);
  }

  // ----- Results, receipts, the seal -----

  lemma ResultLaw(es: Transcript, s: State, e: CommunityEntry)
    requires Recorded(es, s) && AddsUp(es, s) && Staged(s) && SessionsOk(s) && e.event.payload.ResultProposed?
    requires Closed(s.handoffs, s.accepted)
    ensures StepProposed(s, e.event.actor, e.at, e.hash, e.event.payload).Accept? <==> LawfulResult(es, e)
  {
    hide Recorded, Staged, SessionsOk, Has, ActsFor, ActsAs, NoDuplicates, Closure, Closed, Accessed, ReceivedBy;
    var p := e.event.payload;
    ReadActsFor(es, s, e, p.sessionId, p.participantId, ResultScope);
    ReadCase(es, s, p.caseId);
    ReadOpening(es, s);
    ReadResult(es, s, p.resultId);
    ClosureWithin(s.handoffs, p.direct, s.accepted);
  }

  lemma ReceiptLaw(es: Transcript, s: State, e: CommunityEntry)
    requires Recorded(es, s) && Staged(s) && e.event.payload.TechnicalReceiptRecorded?
    ensures StepReceipt(s, e.event.actor, e.hash, e.event.payload).Accept? <==> LawfulReceipt(es, e)
  {
    hide Recorded, Staged, Has, Working;
    var p := e.event.payload;
    ReadStage(es, s);
    ReadOpening(es, s);
    ReadCase(es, s, p.caseId);
    ReadResult(es, s, p.resultId);
    ReadReceipt(es, s, p.resultId);
  }

  lemma SupportLaw(es: Transcript, s: State, c: set<Id>, h: Id)
    requires Recorded(es, s)
    ensures Useful(es, h) && Elements(RestsOn(es, h)) <= c <==>
            !Unusable(s.handoffs, h) && forall y :: y in Edges(s.handoffs[h]) ==> y in c
  {
    hide Recorded, Has;
    ReadHandoff(es, s, h);
  }

  lemma SupportedLaw(es: Transcript, s: State, c: set<Id>)
    requires Recorded(es, s)
    ensures Supported(es, c) <==> Closed(s.handoffs, c)
  {
    forall h ensures Useful(es, h) && Elements(RestsOn(es, h)) <= c <==>
                     !Unusable(s.handoffs, h) && forall y :: y in Edges(s.handoffs[h]) ==> y in c
    {
      SupportLaw(es, s, c, h);
    }
    hide Recorded, Edges, Has, RestsOn;
  }

  /** What a result rests on, read from the transcript, is the closure that the state stores. */
  lemma LeastSupportLaw(es: Transcript, s: State, direct: seq<Id>, c: set<Id>)
    requires Recorded(es, s) && Closure(s.handoffs, direct).Accept?
    ensures LeastSupport(es, direct, c) <==> c == Closure(s.handoffs, direct).value
  {
    hide Recorded, Supported, Closed, Closure;
    ClosureIsLeast(s.handoffs, direct);
    forall other ensures Supported(es, other) <==> Closed(s.handoffs, other) {
      SupportedLaw(es, s, other);
    }
  }

  lemma NothingLeft<T>(a: set<T>, b: set<T>)
    ensures a - b == {} <==> a <= b
  {
    if a - b == {} {
      forall x | x in a ensures x in b {
        assert x !in a - b;
      }
    }
  }

  /** A reconciled result is complete when it claims what it rests on, uses nothing else, and leaves nothing open. */
  lemma CompleteLaw(r: ResultRecord)
    requires Reconciled(r)
    ensures r.Complete() <==>
            && r.claimed == r.expected && r.unaccounted == {}
            && forall c :: c in r.dispositions && r.dispositions[c] == Used ==> c in r.expected
  {
    var elsewhere := set c | c in r.dispositions && r.dispositions[c] == Used && c !in r.claimed;
    NothingLeft(r.expected, r.claimed);
    NothingLeft(r.claimed, r.expected);
    assert r.omitted == (r.expected - r.claimed) + elsewhere && elsewhere <= r.omitted;
    assert r.expected - r.claimed <= r.omitted;
    assert elsewhere == {} <==> forall c :: c in r.dispositions && r.dispositions[c] == Used ==> c in r.claimed by {
      if elsewhere == {} {
        forall c | c in r.dispositions && r.dispositions[c] == Used ensures c in r.claimed {
          assert c !in elsewhere;
        }
      }
    }
  }

  lemma AttributedLaw(es: Transcript, s: State, id: Id, c: set<Id>)
    requires Recorded(es, s) && ResultsOk(s.handoffs, s.accepted, s.results) && Has(es, ResultItem(id))
    ensures id in s.results
    ensures Attributed(es, id, c) <==> s.results[id].Complete() && c == s.results[id].expected
  {
    ReadResult(es, s, id);
    LeastSupportLaw(es, s, s.results[id].direct, c);
    CompleteLaw(s.results[id]);
    hide Recorded, Has, LeastSupport, Closure, Reconciled;
    var r, received := s.results[id], ReceivedBy(es[..Position(es, ResultItem(id))], s.results[id].participantId);
    NothingLeft(received, r.dispositions.Keys);
    hide ResultRecord.Complete;
  }

  lemma CommitmentHashesLaw(es: Transcript, s: State, hashes: map<Id, EntryHash>)
    requires Recorded(es, s)
    ensures Hashes(es, id => CommitmentItem(id), hashes) <==>
            hashes == map c | c in s.commitments :: s.commitments[c].entryHash
  {
    hide Recorded, Has;
    forall id ensures Has(es, CommitmentItem(id)) <==> id in s.commitments
      ensures id in s.commitments ==> s.commitments[id].entryHash == EntryFor(es, CommitmentItem(id)).hash
    {
      ReadCommitment(es, s, id);
    }
  }

  lemma HandoffHashesLaw(es: Transcript, s: State, hashes: map<Id, EntryHash>)
    requires Recorded(es, s)
    ensures Hashes(es, id => HandoffItem(id), hashes) <==>
            hashes == map h | h in s.handoffs :: s.handoffs[h].entryHash
  {
    hide Recorded, Has;
    forall id ensures Has(es, HandoffItem(id)) <==> id in s.handoffs
      ensures id in s.handoffs ==> s.handoffs[id].entryHash == EntryFor(es, HandoffItem(id)).hash
    {
      ReadHandoff(es, s, id);
    }
  }

  lemma AccessHashesLaw(es: Transcript, s: State, hashes: map<Id, EntryHash>)
    requires Recorded(es, s)
    ensures Hashes(es, id => AccessItem(id), hashes) <==>
            hashes == map a | a in s.accesses :: s.accesses[a].entryHash
  {
    hide Recorded, Has;
    forall id ensures Has(es, AccessItem(id)) <==> id in s.accesses
      ensures id in s.accesses ==> s.accesses[id].entryHash == EntryFor(es, AccessItem(id)).hash
    {
      ReadAccess(es, s, id);
    }
  }

  lemma BindsLaw(es: Transcript, s: State, ev: Evidence, id: Id)
    requires Recorded(es, s) && AddsUp(es, s) && Staged(s)
    requires Has(es, OpeningItem) && Has(es, ResultItem(id)) && Has(es, ReceiptItem(id))
    ensures Binds(es, ev, id) <==> EvidenceOf(s, id) == Some(ev)
  {
    hide Recorded, Staged, Has, Accessed, ReceivedBy, Hashes;
    ReadOpening(es, s);
    ReadResult(es, s, id);
    ReadReceipt(es, s, id);
    ReadFrontier(es, s, ev.frontier.frontierId);
    if s.currentFrontier.Some? {
      ReadFrontier(es, s, s.currentFrontier.value);
    }
    CommitmentHashesLaw(es, s, ev.commitments);
    HandoffHashesLaw(es, s, ev.handoffs);
    AccessHashesLaw(es, s, ev.accesses);
  }

  lemma ListedLaw(xs: seq<Id>, c: set<Id>)
    ensures xs == SortedTexts(c) <==> SortedBy(TextLe, xs) && Elements(xs) == c
  {
    TextOrder();
    if SortedBy(TextLe, xs) && Elements(xs) == c {
      SortedUnique(TextLe, xs, SortedTexts(c));
    }
  }

  lemma SealLaw(es: Transcript, s: State, e: CommunityEntry)
    requires Recorded(es, s) && AddsUp(es, s) && Staged(s) && ResultsOk(s.handoffs, s.accepted, s.results)
    requires e.event.payload.EvidenceSealed?
    ensures StepSealed(s, e.event.actor, e.event.payload).Accept? <==> LawfulSeal(es, e)
  {
    hide Recorded, AddsUp, Staged, Has, Working, ResultsOk, Binds, EvidenceOf, Attributed, SortedTexts, SortedBy;
    var p := e.event.payload;
    ReadStage(es, s);
    ReadOpening(es, s);
    ReadClerk(es, s, e);
    ReadCase(es, s, p.caseId);
    ReadResult(es, s, p.resultId);
    ReadReceipt(es, s, p.resultId);
    if Has(es, ResultItem(p.resultId)) && Has(es, ReceiptItem(p.resultId)) && Has(es, OpeningItem) {
      AttributedLaw(es, s, p.resultId, Elements(p.attributed));
      ListedLaw(p.attributed, s.results[p.resultId].expected);
      if p.evidenceRoot.EvidenceDigest? {
        BindsLaw(es, s, p.evidenceRoot.evidence, p.resultId);
      }
    }
  }

  // ----- What the seal lists -----

  ghost predicate SealListsAt(es: Transcript, s: State, k: nat) {
    IntroducedAt(es, k, SealItem) ==>
      var p := es[k].event.payload;
      p.resultId in s.results && Elements(p.attributed) == s.results[p.resultId].expected
  }

  /** The seal lists the causal closure of the sealed result. */
  ghost predicate SealLists(es: Transcript, s: State) {
    forall k: nat :: SealListsAt(es, s, k)
  }

  lemma SealTaken(s: State, e: CommunityEntry, t: State)
    requires e.event.payload.EvidenceSealed? && Step(s, e) == Accept(t)
    ensures var p := e.event.payload;
            p.resultId in t.results && p.attributed == SortedTexts(t.results[p.resultId].expected)
  {
    hide EvidenceOf, SortedTexts;
  }

  lemma ResultTaken(s: State, e: CommunityEntry, t: State)
    requires Step(s, e) == Accept(t)
    ensures forall r :: r in s.results ==> r in t.results && t.results[r] == s.results[r]
  {
    StepFramed(s, e, t);
    hide StepOpened, StepReview, StepProposed;
    if e.event.payload.ResultProposed? {
      ResultEffect(s, e.event.actor, e.at, e.hash, e.event.payload, t);
    }
  }

  lemma SealListsKept(es: Transcript, s: State, t: State)
    requires es != [] && Step(s, es[|es| - 1]) == Accept(t) && SealLists(es[..|es| - 1], s)
    ensures SealLists(es, t)
  {
    hide Step;
    var e := es[|es| - 1];
    ResultTaken(s, e, t);
    if e.event.payload.EvidenceSealed? {
      SealTaken(s, e, t);
    }
    forall k: nat ensures SealListsAt(es, t, k) {
      assert SealListsAt(es[..|es| - 1], s, k);
    }
  }

  lemma {:induction false} RunSealLists(es: Transcript, s: State)
    requires Run(es) == Accept(s)
    ensures SealLists(es, s)
  {
    hide Step, SealLists;
    if es == [] {
      NothingSealed(s);
    } else {
      var prev := RunLast(es, s);
      RunSealLists(es[..|es| - 1], prev);
      SealListsKept(es, prev, s);
    }
  }

  lemma NothingSealed(s: State)
    ensures SealLists([], s)
  {}

  // ----- The review -----

  lemma CommitLaw(es: Transcript, s: State, e: CommunityEntry)
    requires Recorded(es, s) && Staged(s) && OpenOk(s) && e.event.payload.BallotCommitted?
    ensures StepBallotCommitted(s, e.event.actor, e.event.payload).Accept? <==> LawfulCommit(es, e)
  {
    hide Recorded, Staged, OpenOk, Has, Reviews, ByReviewer;
    var p := e.event.payload;
    ReadStage(es, s);
    ReadSeal(es, s);
    ReadCase(es, s, p.caseId);
    ReadReviewer(es, s, e, p.reviewerId);
    ReadCommit(es, s, p.reviewerId);
  }

  lemma CloseLaw(es: Transcript, s: State, e: CommunityEntry)
    requires Recorded(es, s) && Staged(s) && OpenOk(s) && e.event.payload.CommitsClosed?
    ensures StepClosed(s, e.event.actor, e.event.payload).Accept? <==> LawfulClose(es, e)
  {
    hide Recorded, Staged, Has, CaseActorKey, ValidParticipants, ValidReviewers, SortedTexts, SortedBy;
    var p := e.event.payload;
    ReadStage(es, s);
    ReadOpening(es, s);
    ReadSeal(es, s);
    ReadClerk(es, s, e);
    ReadCase(es, s, p.caseId);
    ListedLaw(p.committed, s.commits.Keys);
    forall r ensures Has(es, CommitItem(r)) <==> r in s.commits
      ensures Has(es, CloseItem) <==> s.commitsClosed
    {
      ReadCommit(es, s, r);
    }
  }

  lemma ShareLaw(es: Transcript, s: State, ballot: Ballot, p: Id)
    requires Recorded(es, s) && Has(es, SealItem) && p in ballot.shares && p in ballot.evidenceRefs
    ensures ValidShare(s, ballot, Elements(Said(es, SealItem).attributed), p) <==> Argued(es, ballot, p)
  {
    hide Recorded, Has, NoDuplicates;
    forall h ensures Has(es, HandoffItem(h)) <==> h in s.handoffs
      ensures h in s.handoffs ==> s.handoffs[h].participantId == Said(es, HandoffItem(h)).participantId
    {
      ReadHandoff(es, s, h);
    }
  }

  lemma BallotLaw(es: Transcript, s: State, ballot: Ballot, r: Id)
    requires Recorded(es, s) && Staged(s) && SealLists(es, s) && Has(es, OpeningItem) && Has(es, SealItem)
    ensures ValidBallot(s, ballot, r) <==> LawfulBallot(es, ballot, r)
  {
    assert SealListsAt(es, s, Position(es, SealItem));
    ReadOpening(es, s);
    ReadSeal(es, s);
    hide Recorded, Staged, SealLists, Has, ValidShare, Argued, Total;
    forall p | p in ballot.shares && p in ballot.evidenceRefs
      ensures ValidShare(s, ballot, Elements(Said(es, SealItem).attributed), p) <==> Argued(es, ballot, p)
    {
      ShareLaw(es, s, ballot, p);
    }
  }

  lemma RevealLaw(es: Transcript, s: State, e: CommunityEntry)
    requires Recorded(es, s) && Staged(s) && OpenOk(s) && SealLists(es, s) && e.event.payload.BallotRevealed?
    ensures StepRevealed(s, e.event.actor, e.event.payload).Accept? <==> LawfulReveal(es, e)
  {
    hide Recorded, Staged, OpenOk, SealLists, Has, Reviews, ByReviewer, ValidBallot, LawfulBallot;
    var p := e.event.payload;
    ReadStage(es, s);
    ReadOpening(es, s);
    ReadSeal(es, s);
    ReadCase(es, s, p.caseId);
    ReadReviewer(es, s, e, p.reviewerId);
    ReadCommit(es, s, p.reviewerId);
    if Has(es, OpeningItem) && Has(es, SealItem) {
      BallotLaw(es, s, p.ballot, p.reviewerId);
    }
  }

  lemma FinalLaw(es: Transcript, s: State, e: CommunityEntry)
    requires Recorded(es, s) && AddsUp(es, s) && Staged(s) && BallotsBound(s.commits, s.ballots, s.revealed)
    requires e.event.payload.AllocationFinalized?
    ensures StepFinalized(s, e.event.actor, e.event.payload).Accept? <==> LawfulFinal(es, e)
  {
    hide Recorded, Has, Accessed, ReceivedBy, Aggregate, PositiveLegIds, Elements, NoDuplicates;
    ReadStage(es, s);
    ReadOpening(es, s);
    ReadSeal(es, s);
    ReadClerk(es, s, e);
    forall r ensures Has(es, CommitItem(r)) <==> r in s.commits
      ensures Has(es, BallotItem(r)) <==> r in s.ballots
    {
      ReadCommit(es, s, r);
    }
  }

  // ----- The payout -----

  lemma PaidOnlyWhenDecided(s: State)
    requires AllocationOk(s) && s.allocation.Some?
    ensures s.allocation.value.Decided() <==> s.allocation.value.bps.Some?
  {}

  lemma PlanLaw(es: Transcript, s: State, e: CommunityEntry)
    requires Recorded(es, s) && Staged(s) && OpenOk(s) && AllocationOk(s) && e.event.payload.PayoutPlanCreated?
    ensures StepPlanned(s, e.event.actor, e.event.payload).Accept? <==> LawfulPlan(es, e)
  {
    hide Recorded, AllocationOk, OpenOk, Has, PayoutLegs, Amounts, PositiveLegIds;
    var p := e.event.payload;
    ReadOpening(es, s);
    ReadFinal(es, s);
    ReadPlan(es, s);
    ReadClerk(es, s, e);
    ReadCase(es, s, p.caseId);
    if s.allocation.Some? {
      PaidOnlyWhenDecided(s);
    }
    if s.manifest.Some? && s.allocation.Some? && s.allocation.value.bps.Some? && 0 <= s.manifest.value.bountyRao {
      LegsSum(s.manifest.value, s.allocation.value.bps.value, p.plan.legs);
    }
  }

  lemma LegsSum(m: Manifest, bps: map<Id, int>, legs: seq<Leg>)
    requires 0 <= m.bountyRao
    ensures PayoutLegs(m, bps) == Accept(legs) ==> Sum(Amounts(legs)) == m.bountyRao
  {
    if PayoutLegs(m, bps).Accept? {
      LegsConserve(m, bps);
    }
  }

  /** Legs carry different identifiers, and none is negative. */
  lemma LegsDiffer(s: State)
    requires s.plan.Some? && PlanOk(s)
    ensures var legs := s.plan.value.legs;
            forall i :: 0 <= i < |legs| ==> legs[i].legId == LegNumber(i + 1) && 0 <= legs[i].amountRao
  {
    hide PayoutLegs;
    LegsFaithful(s.manifest.value, s.allocation.value.bps.value);
    forall i | 0 <= i < |s.plan.value.legs| ensures 0 <= s.plan.value.legs[i].amountRao {
      assert LegFollowsQuota(s.manifest.value, s.allocation.value.bps.value, s.plan.value.legs[i]);
    }
  }

  lemma NumberedLegs(s: State, i: nat)
    requires s.plan.Some? && PayoutOk(s) && i < |s.plan.value.legs|
    ensures CitesLeg(s, s.plan.value.planId, s.plan.value.legs[i].legId, i)
  {
    LegsDiffer(s);
  }

  /** Something is still owed exactly while some positive leg is not confirmed. */
  lemma OwedLaw(es: Transcript, s: State)
    requires Recorded(es, s) && PayoutOk(s) && Has(es, PlanItem) && s.plan == Some(Said(es, PlanItem).plan)
    ensures s.confirmed != PositiveLegIds(s.plan.value) <==>
            exists l :: l in Said(es, PlanItem).plan.legs && 0 < l.amountRao && !Has(es, ConfirmationItem(l.legId))
  {
    hide Recorded, Has, PlanOk;
    forall leg ensures Has(es, ConfirmationItem(leg)) <==> leg in s.confirmed {
      ReadLegs(es, s, leg);
    }
    assert s.confirmed <= PositiveLegIds(s.plan.value);
    if s.confirmed != PositiveLegIds(s.plan.value) {
      var leg :| leg in PositiveLegIds(s.plan.value) && leg !in s.confirmed;
      var i :| 0 <= i < |s.plan.value.legs| && s.plan.value.legs[i].amountRao > 0
               && s.plan.value.legs[i].legId == leg;
      assert s.plan.value.legs[i] in Said(es, PlanItem).plan.legs;
    }
  }

  /** A leg of the plan can be cited exactly while the case pays. */
  lemma CitedIsPayable(es: Transcript, s: State, planId: Id, legId: LegId, i: nat)
    requires Recorded(es, s) && Staged(s) && PayoutOk(s) && s.phase == MockPaying && CitesLeg(s, planId, legId, i)
    ensures Payable(es, planId, s.plan.value.legs[i]) && s.plan.value.legs[i].legId == legId
  {
    ReadPlan(es, s);
    OwedLaw(es, s);
    hide Recorded, Has, PayoutOk, PositiveLegIds;
  }

  lemma PayableIsOwed(es: Transcript, s: State, planId: Id, leg: Leg)
    requires Recorded(es, s) && Staged(s) && PayoutOk(s) && Payable(es, planId, leg)
    ensures s.phase == MockPaying && s.plan.Some? && s.plan.value.planId == planId && leg in s.plan.value.legs
  {
    ReadPlan(es, s);
    OwedLaw(es, s);
    hide Recorded, Has, PayoutOk, PositiveLegIds;
  }

  lemma PayableIsCited(es: Transcript, s: State, planId: Id, leg: Leg) returns (i: nat)
    requires Recorded(es, s) && Staged(s) && PayoutOk(s) && Payable(es, planId, leg)
    ensures s.phase == MockPaying && s.plan.Some? && i < |s.plan.value.legs| && s.plan.value.legs[i] == leg
    ensures CitesLeg(s, planId, leg.legId, i)
  {
    PayableIsOwed(es, s, planId, leg);
    hide Recorded, Staged, PayoutOk, Payable, CitesLeg;
    i :| 0 <= i < |s.plan.value.legs| && s.plan.value.legs[i] == leg;
    NumberedLegs(s, i);
  }

  lemma NoNegativeLeg(s: State, i: nat)
    requires s.plan.Some? && PayoutOk(s) && i < |s.plan.value.legs|
    ensures 0 <= s.plan.value.legs[i].amountRao
  {
    LegsDiffer(s);
  }

  lemma SubmissionLaw(es: Transcript, s: State, e: CommunityEntry)
    requires Recorded(es, s) && Staged(s) && PayoutOk(s) && e.event.payload.PayoutLegSubmitted?
    ensures StepSubmitted(s, e.event.actor, e.event.payload).Accept? <==> LawfulSubmission(es, e)
  {
    hide Recorded, Staged, Has, PayoutOk, CitesLeg, Payable;
    var p := e.event.payload;
    ReadClerk(es, s, e);
    ReadCase(es, s, p.caseId);
    ReadLegs(es, s, p.legId);
    if LawfulSubmission(es, e) {
      var leg :| Payable(es, p.planId, leg) && leg.legId == p.legId && 0 < leg.amountRao;
      var i := PayableIsCited(es, s, p.planId, leg);
    }
    if MaySubmit(s, e.event.actor, p) {
      var i :| 0 <= i < |s.plan.value.legs| && CitesLeg(s, p.planId, p.legId, i) && s.plan.value.legs[i].amountRao != 0;
      CitedIsPayable(es, s, p.planId, p.legId, i);
      NoNegativeLeg(s, i);
    }
  }

  lemma ConfirmationLaw(es: Transcript, s: State, e: CommunityEntry)
    requires Recorded(es, s) && Staged(s) && PayoutOk(s) && e.event.payload.PayoutLegConfirmed?
    ensures StepConfirmed(s, e.event.actor, e.event.payload).Accept? <==> LawfulConfirmation(es, e)
  {
    hide Recorded, Staged, Has, PayoutOk, CitesLeg, Payable, PositiveLegIds;
    var p := e.event.payload;
    ReadClerk(es, s, e);
    ReadCase(es, s, p.caseId);
    ReadLegs(es, s, p.legId);
    if LawfulConfirmation(es, e) {
      var leg :| Payable(es, p.planId, leg) && leg.legId == p.legId;
      var i := PayableIsCited(es, s, p.planId, leg);
    }
    if MayConfirm(s, e.event.actor, p) {
      var i :| 0 <= i < |s.plan.value.legs| && CitesLeg(s, p.planId, p.legId, i);
      CitedIsPayable(es, s, p.planId, p.legId, i);
    }
  }

  // ----- Every entry -----

  /** What every state of a run satisfies, as far as the next entry needs it. */
  ghost predicate Readable(es: Transcript, s: State) {
    && Recorded(es, s) && AddsUp(es, s) && Staged(s) && OpenOk(s) && (s.phase == New <==> es == [])
    && SessionsOk(s) && ClaimsOk(s) && Closed(s.handoffs, s.accepted)
    && ResultsOk(s.handoffs, s.accepted, s.results) && SealLists(es, s)
    && BallotsBound(s.commits, s.ballots, s.revealed) && AllocationOk(s) && PayoutOk(s)
  }

  lemma AcceptedIsClosed(es: Transcript, s: State)
    requires Run(es) == Accept(s)
    ensures Closed(s.handoffs, s.accepted)
  {
    hide Run;
    RunAccepted(es, s);
  }

  lemma BallotsAreBound(es: Transcript, s: State)
    requires Run(es) == Accept(s)
    ensures BallotsBound(s.commits, s.ballots, s.revealed)
  {
    hide Run, BallotsBound, ValidBallot;
    RunBallots(es, s);
  }

  lemma RunReadable(es: Transcript, s: State)
    requires Run(es) == Accept(s)
    ensures Readable(es, s)
  {
    hide Run, Recorded, AddsUp, Staged, OpenOk, SessionsOk, ClaimsOk, Closed, ResultsOk, SealLists, BallotsBound,
         AllocationOk, PayoutOk;
    RunRecorded(es, s);
    RunStaged(es, s);
    RunOpen(es, s);
    RunActs(es, s);
    RunClaims(es, s);
    AcceptedIsClosed(es, s);
    RunResults(es, s);
    RunSealLists(es, s);
    BallotsAreBound(es, s);
    RunAllocation(es, s);
    RunPayout(es, s);
  }

  lemma SessionWorkLaw(es: Transcript, s: State, e: CommunityEntry)
    requires Readable(es, s)
    requires var p := e.event.payload;
             p.SessionDelegated? || p.SessionRevoked? || p.MessagePosted? || p.RouteClaimed? || p.ContributionCommitted?
    ensures StepWork(s, e.event.actor, e.at, e.hash, e.event.payload).Accept? <==> Lawful(es, e)
  {
    hide Recorded, AddsUp, Staged, OpenOk, SessionsOk, ClaimsOk, Closed, ResultsOk, SealLists, BallotsBound,
         AllocationOk, PayoutOk, StepDelegated, StepRevoked, StepMessage, StepClaimed, StepCommitted,
         LawfulDelegation, LawfulRevocation, LawfulMessage, LawfulClaim, LawfulCommitment;
    var p := e.event.payload;
    if p.SessionDelegated? {
      DelegationLaw(es, s, e);
    } else if p.SessionRevoked? {
      RevocationLaw(es, s, e);
    } else if p.MessagePosted? {
      MessageLaw(es, s, e);
    } else if p.RouteClaimed? {
      ClaimLaw(es, s, e);
    } else {
      CommitmentLaw(es, s, e);
    }
  }

  lemma HandoffWorkLaw(es: Transcript, s: State, e: CommunityEntry)
    requires Readable(es, s)
    requires var p := e.event.payload;
             p.HandoffPublished? || p.FrontierAccepted? || p.KnowledgeAccessed? || p.ResultProposed?
             || p.TechnicalReceiptRecorded? || p.EvidenceSealed?
    ensures StepWork(s, e.event.actor, e.at, e.hash, e.event.payload).Accept? <==> Lawful(es, e)
  {
    hide Recorded, AddsUp, Staged, OpenOk, SessionsOk, ClaimsOk, Closed, ResultsOk, SealLists, BallotsBound,
         AllocationOk, PayoutOk, StepPublished, StepAdvanced, StepAccessed, StepProposed, StepReceipt, StepSealed,
         LawfulHandoff, LawfulFrontier, LawfulAccess, LawfulResult, LawfulReceipt, LawfulSeal;
    var p := e.event.payload;
    if p.HandoffPublished? {
      HandoffLaw(es, s, e);
    } else if p.FrontierAccepted? {
      FrontierLaw(es, s, e);
    } else if p.KnowledgeAccessed? {
      AccessLaw(es, s, e);
    } else if p.ResultProposed? {
      ResultLaw(es, s, e);
    } else if p.TechnicalReceiptRecorded? {
      ReceiptLaw(es, s, e);
    } else {
      SealLaw(es, s, e);
    }
  }

  lemma ReviewLaw(es: Transcript, s: State, e: CommunityEntry)
    requires Readable(es, s) && !e.event.payload.CommunityOpened? && !WorkKind(e.event.payload)
    ensures StepReview(s, e.event.actor, e.event.payload).Accept? <==> Lawful(es, e)
  {
    hide Recorded, AddsUp, Staged, OpenOk, SessionsOk, ClaimsOk, Closed, ResultsOk, SealLists, BallotsBound,
         AllocationOk, PayoutOk, StepBallotCommitted, StepClosed, StepRevealed, StepFinalized, StepPlanned,
         StepSubmitted, StepConfirmed, LawfulCommit, LawfulClose, LawfulReveal, LawfulFinal, LawfulPlan,
         LawfulSubmission, LawfulConfirmation;
    var p := e.event.payload;
    if p.BallotCommitted? {
      CommitLaw(es, s, e);
    } else if p.CommitsClosed? {
      CloseLaw(es, s, e);
    } else if p.BallotRevealed? {
      RevealLaw(es, s, e);
    } else if p.AllocationFinalized? {
      FinalLaw(es, s, e);
    } else if p.PayoutPlanCreated? {
      PlanLaw(es, s, e);
    } else if p.PayoutLegSubmitted? {
      SubmissionLaw(es, s, e);
    } else if p.PayoutLegConfirmed? {
      ConfirmationLaw(es, s, e);
    }
  }

  /** After any accepted transcript, an entry is accepted exactly when it is lawful after that transcript. */
  lemma StepLaw(es: Transcript, s: State, e: CommunityEntry)
    requires Run(es) == Accept(s)
    ensures Step(s, e).Accept? <==> Lawful(es, e)
  {
    RunReadable(es, s);
    hide Run, Readable, StepOpened, StepWork, StepReview, LawfulOpening;
    var p := e.event.payload;
    if p.CommunityOpened? {
      assert s.phase == New <==> es == [] by { RunOpen(es, s); }
      OpeningLaw(es, s, e);
    } else if !WorkKind(p) {
      ReviewLaw(es, s, e);
    } else if p.SessionDelegated? || p.SessionRevoked? || p.MessagePosted? || p.RouteClaimed?
              || p.ContributionCommitted? {
      SessionWorkLaw(es, s, e);
    } else {
      HandoffWorkLaw(es, s, e);
    }
  }

  /** Every entry is lawful after those before it. */
  ghost predicate AllLawful(es: Transcript) {
    forall i :: 0 <= i < |es| ==> LawfulAt(es, i)
  }

  ghost predicate LawfulAt(es: Transcript, i: nat)
    requires i < |es|
  {
    Lawful(es[..i], es[i])
  }

  lemma AllLawfulLast(es: Transcript)
    requires es != []
    ensures AllLawful(es) <==> AllLawful(es[..|es| - 1]) && Lawful(es[..|es| - 1], es[|es| - 1])
  {
    hide Lawful;
    var init := es[..|es| - 1];
    forall i | 0 <= i < |init| ensures LawfulAt(es, i) <==> LawfulAt(init, i) {
      assert init[..i] == es[..i];
    }
    if AllLawful(es) {
      assert LawfulAt(es, |es| - 1);
    }
    if AllLawful(init) && Lawful(init, es[|es| - 1]) {
      forall i | 0 <= i < |es| ensures LawfulAt(es, i) {
        if i < |init| {
          assert LawfulAt(init, i);
        }
      }
    }
  }

  lemma {:induction false} RunLaw(es: Transcript)
    ensures Run(es).Accept? <==> AllLawful(es)
  {
    hide Step, Lawful, AllLawful;
    if es == [] {
      NothingUnlawful();
    } else {
      var init := es[..|es| - 1];
      RunLaw(init);
      AllLawfulLast(es);
      if Run(init).Accept? {
        StepLaw(init, Run(init).value, es[|es| - 1]);
      }
    }
  }

  lemma NothingUnlawful()
    ensures AllLawful([])
  {}

  /**
   A ledger replays exactly when its chain verifies and each entry is lawful after the entries before it; the state it
   replays to then holds, item by item, what those entries said.
   */
  lemma ReplayLaw(es: Transcript)
    ensures Replay(es).Accept? <==> Verified(CommunityRules, es) && AllLawful(es)
    ensures Replay(es).Accept? ==> Recorded(es, Replay(es).value) && AddsUp(es, Replay(es).value)
  {
    hide Run, Verified, AllLawful, Recorded, AddsUp;
    RunLaw(es);
    if Replay(es).Accept? {
      RunRecorded(es, Run(es).value);
    }
  }
}
