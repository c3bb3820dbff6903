/**
 Which logs the registry accepts, told by the log alone, and what its records hold of them: an event is accepted exactly
 when it is lawful after the entries before it.
 */
module RegistryLaw {
  import opened Basics
  import opened RegistryReplay
  import opened RegistryHistory

  // ----- What an event says of an item, and what the records hold of it -----

  datatype Note =
    | ProposalNote(commitment: string) | OwnerNote(caseId: Id)
    | ProvisionNote(origin: Location, clerkKey: Key, marker: string) | LiveNote(clerkUrl: string)
    | MigrationNote(migration: Migration) | Marked

  function Notes(e: RegistryEvent): map<Item, Note> {
    match e
    case RegistryOpened(_) => map[]
    case ProposalRecorded(c, k) => map[ProposalItem(c) := ProposalNote(k), CommitmentItem(k) := OwnerNote(c)]
    case Admitted(c) => map[AdmissionItem(c) := Marked]
    case ProvisioningStarted(c) => map[StartItem(c) := Marked]
    case RepositoryProvisioned(c, location, clerkKey, marker) =>
      map[ProvisionItem(c) := ProvisionNote(location, clerkKey, marker)] + Owned(c, location)
    case WentLive(c, clerkUrl, _, _) => map[LiveItem(c) := LiveNote(clerkUrl)]
    case RepositoryMigrated(c, m) => map[MigrationItem(c) := MigrationNote(m)] + Owned(c, m.destination)
    case ProvisionFailed(_, _) => map[]
    case ProvisioningRetried(_, _) => map[]
    case UnknownEvent(_) => map[]
  }

  function Owned(c: Id, location: Location): map<Item, Note> {
    if location.nodeId.Some?
    then map[RepositoryItem(location.repoId) := OwnerNote(c), NodeItem(location.nodeId.value) := OwnerNote(c)]
    else map[RepositoryItem(location.repoId) := OwnerNote(c)]
  }

  lemma NotesCover(e: RegistryEvent, i: Item)
    ensures i in Notes(e) <==> Introduces(e, i)
  {}

  function Mark(c: bool): Option<Note> {
    if c then Some(Marked) else None
  }

  function Holds(g: Registered, i: Item): Option<Note> {
    match i
    case ProposalItem(c) => if c in g.records then Some(ProposalNote(g.records[c].commitment)) else None
    case CommitmentItem(k) => if k in g.commitments then Some(OwnerNote(g.commitments[k])) else None
    case AdmissionItem(c) => Mark(c in g.records && g.records[c].status != Proposed)
    case StartItem(c) =>
      Mark(c in g.records && g.records[c].status != Proposed && g.records[c].status != AdmittedCase)
    case ProvisionItem(c) =>
      if c in g.records && g.records[c].origin.Some? && g.records[c].clerkKey.Some? && g.records[c].marker.Some?
      then Some(ProvisionNote(g.records[c].origin.value, g.records[c].clerkKey.value, g.records[c].marker.value))
      else None
    case LiveItem(c) =>
      if c in g.records && g.records[c].status == Live && g.records[c].clerkUrl.Some?
      then Some(LiveNote(g.records[c].clerkUrl.value)) else None
    case MigrationItem(c) =>
      if c in g.records && g.records[c].migration.Some?
      then Some(MigrationNote(g.records[c].migration.value)) else None
    case RepositoryItem(r) => if r in g.repositories then Some(OwnerNote(g.repositories[r])) else None
    case NodeItem(n) => if n in g.nodes then Some(OwnerNote(g.nodes[n])) else None
  }

  predicate Takes(g: Registered, notes: map<Item, Note>, h: Registered, i: Item) {
    if i in notes then Holds(g, i).None? && Holds(h, i) == Some(notes[i]) else Holds(h, i) == Holds(g, i)
  }

  /** What comes together in a record. */
  predicate Shaped(r: Record) {
    && (r.location.Some? <==> r.origin.Some?) && (r.origin.Some? <==> r.clerkKey.Some?)
    && (r.origin.Some? <==> r.marker.Some?) && (r.status == Live <==> r.clerkUrl.Some?)
    && (r.status == Live ==> r.origin.Some?)
    && (r.migration.None? ==> r.location == r.origin)
    && (r.migration.Some? ==> r.status == Live && r.location == Some(r.migration.value.destination))
    && (r.status == Proposed || r.status == AdmittedCase ==> r.origin.None? && r.retries == 0)
  }

  ghost predicate AllShaped(g: Registered) {
    forall c :: c in g.records ==> Shaped(g.records[c])
  }

  lemma ProposalTakes(g: Registered, e: RegistryEvent, at: Time, h: Registered, i: Item)
    requires e.ProposalRecorded? && StepProposal(g, e, at) == Accept(h)
    ensures Takes(g, Notes(e), h, i) && (AllShaped(g) ==> AllShaped(h))
  {}

  lemma AdmissionTakes(g: Registered, e: RegistryEvent, at: Time, h: Registered, i: Item)
    requires e.Admitted? && StepStatus(g, e.caseId, Proposed, AdmittedCase, at) == Accept(h) && AllShaped(g)
    ensures Takes(g, Notes(e), h, i) && AllShaped(h)
  {}

  lemma StartTakes(g: Registered, e: RegistryEvent, at: Time, h: Registered, i: Item)
    requires e.ProvisioningStarted? && AllShaped(g)
    requires StepStatus(g, e.caseId, AdmittedCase, Provisioning, at) == Accept(h)
    ensures Takes(g, Notes(e), h, i) && AllShaped(h)
  {}

  lemma FailureTakes(g: Registered, e: RegistryEvent, at: Time, h: Registered, i: Item)
    requires e.ProvisionFailed? && AllShaped(g)
    requires StepStatus(g, e.caseId, Provisioning, ProvisionFailedCase, at) == Accept(h)
    ensures Takes(g, Notes(e), h, i) && AllShaped(h)
  {}

  lemma ProvisionTakes(g: Registered, e: RegistryEvent, at: Time, h: Registered, i: Item)
    requires e.RepositoryProvisioned? && StepProvisioned(g, e, at) == Accept(h) && AllShaped(g)
    ensures Takes(g, Notes(e), h, i) && AllShaped(h)
  {}

  lemma LiveTakes(g: Registered, e: RegistryEvent, at: Time, h: Registered, i: Item)
    requires e.WentLive? && StepLive(g, e, at) == Accept(h) && AllShaped(g)
    ensures Takes(g, Notes(e), h, i) && AllShaped(h)
  {}

  lemma MigrationTakes(g: Registered, e: RegistryEvent, at: Time, h: Registered, i: Item)
    requires e.RepositoryMigrated? && StepMigrated(g, e, at) == Accept(h) && AllShaped(g)
    ensures Takes(g, Notes(e), h, i) && AllShaped(h)
  {}

  lemma RetryTakes(g: Registered, e: RegistryEvent, at: Time, h: Registered, i: Item, maxRetries: int)
    requires e.ProvisioningRetried? && StepRetried(g, e, at, maxRetries) == Accept(h) && AllShaped(g)
    ensures Takes(g, Notes(e), h, i) && AllShaped(h)
  {}

  /** Every accepted event puts exactly its own items on record, none of which was there, and changes no other. */
  lemma StepTakes(g: Registered, e: RegistryEvent, at: Time, h: Registered, i: Item, maxRetries: int)
    requires RegistryStep(g, e, at, maxRetries) == Accept(h) && AllShaped(g)
    ensures Takes(g, Notes(e), h, i) && AllShaped(h)
  {
    hide Takes, AllShaped, StepProposal, StepStatus, StepProvisioned, StepLive, StepMigrated, StepRetried;
    match e
    case RegistryOpened(_) =>
    case ProposalRecorded(_, _) => ProposalTakes(g, e, at, h, i);
    case Admitted(_) => AdmissionTakes(g, e, at, h, i);
    case ProvisioningStarted(_) => StartTakes(g, e, at, h, i);
    case RepositoryProvisioned(_, _, _, _) => ProvisionTakes(g, e, at, h, i);
    case WentLive(_, _, _, _) => LiveTakes(g, e, at, h, i);
    case RepositoryMigrated(_, _) => MigrationTakes(g, e, at, h, i);
    case ProvisionFailed(_, _) => FailureTakes(g, e, at, h, i);
    case ProvisioningRetried(_, _) => RetryTakes(g, e, at, h, i, maxRetries);
    case UnknownEvent(_) =>
  }

  // ----- What entries add up to -----

  /** A case's counters, anchor and clock. */
  ghost predicate CountedFor(log: History, g: Registered, c: Id) {
    if c in g.records then
      var r := g.records[c];
      && r.retries == RetriesOf(log, c)
      && FailuresOf(log, c) == RetriesOf(log, c) + (if r.status == ProvisionFailedCase then 1 else 0)
      && AnchorOf(log, c) == (r.head, r.count) && r.updatedAt == LastHeard(log, c)
    else RetriesOf(log, c) == 0 && FailuresOf(log, c) == 0 && AnchorOf(log, c) == (None, 0)
  }

  ghost predicate Counted(log: History, g: Registered) {
    |g.records| == ProposalsIn(log) && forall c :: CountedFor(log, g, c)
  }

  lemma ProposalCounts(log: History, g: Registered, h: Registered, c: Id)
    requires 1 < |log| && CountedFor(log[..|log| - 1], g, c) && log[|log| - 1].event.ProposalRecorded?
    requires StepProposal(g, log[|log| - 1].event, log[|log| - 1].at) == Accept(h)
    ensures CountedFor(log, h, c) && |h.records| == |g.records| + 1
  {}

  lemma StatusCounts(log: History, g: Registered, h: Registered, c: Id, maxRetries: int)
    requires 1 < |log| && CountedFor(log[..|log| - 1], g, c)
    requires var e := log[|log| - 1].event;
             && (e.Admitted? || e.ProvisioningStarted? || e.ProvisionFailed?)
             && RegistryStep(g, e, log[|log| - 1].at, maxRetries) == Accept(h)
    ensures CountedFor(log, h, c) && |h.records| == |g.records|
  {
    assert h.records.Keys == g.records.Keys;
  }

  lemma ProvisionCounts(log: History, g: Registered, h: Registered, c: Id)
    requires 1 < |log| && CountedFor(log[..|log| - 1], g, c) && log[|log| - 1].event.RepositoryProvisioned?
    requires StepProvisioned(g, log[|log| - 1].event, log[|log| - 1].at) == Accept(h)
    ensures CountedFor(log, h, c) && |h.records| == |g.records|
  {
    assert h.records.Keys == g.records.Keys;
  }

  lemma LiveCounts(log: History, g: Registered, h: Registered, c: Id)
    requires 1 < |log| && CountedFor(log[..|log| - 1], g, c) && log[|log| - 1].event.WentLive?
    requires StepLive(g, log[|log| - 1].event, log[|log| - 1].at) == Accept(h)
    ensures CountedFor(log, h, c) && |h.records| == |g.records|
  {
    assert h.records.Keys == g.records.Keys;
  }

  lemma MigrationCounts(log: History, g: Registered, h: Registered, c: Id)
    requires 1 < |log| && CountedFor(log[..|log| - 1], g, c) && log[|log| - 1].event.RepositoryMigrated?
    requires StepMigrated(g, log[|log| - 1].event, log[|log| - 1].at) == Accept(h)
    ensures CountedFor(log, h, c) && |h.records| == |g.records|
  {
    assert h.records.Keys == g.records.Keys;
  }

  lemma RetryCounts(log: History, g: Registered, h: Registered, c: Id, maxRetries: int)
    requires 1 < |log| && CountedFor(log[..|log| - 1], g, c) && log[|log| - 1].event.ProvisioningRetried?
    requires StepRetried(g, log[|log| - 1].event, log[|log| - 1].at, maxRetries) == Accept(h)
    ensures CountedFor(log, h, c) && |h.records| == |g.records|
  {
    assert h.records.Keys == g.records.Keys;
  }

  lemma StepCounts(log: History, g: Registered, h: Registered, c: Id, maxRetries: int)
    requires 1 < |log| && CountedFor(log[..|log| - 1], g, c)
    requires RegistryStep(g, log[|log| - 1].event, log[|log| - 1].at, maxRetries) == Accept(h)
    ensures CountedFor(log, h, c)
    ensures |h.records| == |g.records| + if log[|log| - 1].event.ProposalRecorded? then 1 else 0
  {
    hide CountedFor, StepProposal, StepStatus, StepProvisioned, StepLive, StepMigrated, StepRetried;
    match log[|log| - 1].event
    case RegistryOpened(_) =>
    case ProposalRecorded(_, _) => ProposalCounts(log, g, h, c);
    case Admitted(_) => StatusCounts(log, g, h, c, maxRetries);
    case ProvisioningStarted(_) => StatusCounts(log, g, h, c, maxRetries);
    case RepositoryProvisioned(_, _, _, _) => ProvisionCounts(log, g, h, c);
    case WentLive(_, _, _, _) => LiveCounts(log, g, h, c);
    case RepositoryMigrated(_, _) => MigrationCounts(log, g, h, c);
    case ProvisionFailed(_, _) => StatusCounts(log, g, h, c, maxRetries);
    case ProvisioningRetried(_, _) => RetryCounts(log, g, h, c, maxRetries);
    case UnknownEvent(_) =>
  }

  // ----- Whole logs -----

  ghost predicate KeptAt(log: History, g: Registered, k: nat, i: Item) {
    IntroducedAt(log, k, i) ==> i in Notes(log[k].event) && Holds(g, i) == Some(Notes(log[k].event)[i])
  }

  /** The records hold what the log puts on record, each item as its event said it, and nothing else. */
  ghost predicate Recorded(log: History, g: Registered) {
    && (forall i :: Holds(g, i).Some? ==> Has(log, i))
    && (forall k: nat, i :: KeptAt(log, g, k, i))
  }

  lemma KeptNext(log: History, g: Registered, h: Registered, k: nat, i: Item)
    requires 1 < |log| && Takes(g, Notes(log[|log| - 1].event), h, i) && KeptAt(log[..|log| - 1], g, k, i)
    ensures KeptAt(log, h, k, i)
  {
    hide Notes, Holds, Introduces;
    if IntroducedAt(log, k, i) {
      NotesCover(log[|log| - 1].event, i);
      if k < |log| - 1 {
        assert IntroducedAt(log[..|log| - 1], k, i);
      }
    }
  }

  lemma HeldWasIntroduced(log: History, g: Registered, h: Registered, i: Item)
    requires 1 < |log| && Takes(g, Notes(log[|log| - 1].event), h, i)
    requires Holds(g, i).Some? ==> Has(log[..|log| - 1], i)
    ensures Holds(h, i).Some? ==> Has(log, i)
  {
    hide Notes, Holds, Introduces;
    NotesCover(log[|log| - 1].event, i);
    if Introduces(log[|log| - 1].event, i) {
      assert IntroducedAt(log, |log| - 1, i);
    } else if Has(log[..|log| - 1], i) {
      var k: nat :| IntroducedAt(log[..|log| - 1], k, i);
      assert IntroducedAt(log, k, i);
    }
  }

  /** The records are those of the log. */
  ghost predicate Mirrors(log: History, g: Registered) {
    Recorded(log, g) && Counted(log, g) && AllShaped(g)
  }

  lemma MirrorsNext(log: History, g: Registered, h: Registered, maxRetries: int)
    requires 1 < |log| && Mirrors(log[..|log| - 1], g)
    requires RegistryStep(g, log[|log| - 1].event, log[|log| - 1].at, maxRetries) == Accept(h)
    ensures Mirrors(log, h)
  {
    hide RegistryStep, KeptAt, Takes, Has, Holds, CountedFor, AllShaped;
    var e := log[|log| - 1];
    forall i ensures Takes(g, Notes(e.event), h, i) && AllShaped(h) {
      StepTakes(g, e.event, e.at, h, i, maxRetries);
    }
    assert AllShaped(h) by { StepTakes(g, e.event, e.at, h, ProposalItem(""), maxRetries); }
    forall i ensures Holds(h, i).Some? ==> Has(log, i) {
      HeldWasIntroduced(log, g, h, i);
    }
    forall k: nat, i ensures KeptAt(log, h, k, i) {
      KeptNext(log, g, h, k, i);
    }
    forall c ensures CountedFor(log, h, c) {
      StepCounts(log, g, h, c, maxRetries);
    }
    StepCounts(log, g, h, "", maxRetries);
  }

  lemma NothingMirrored(log: History)
    requires |log| <= 1
    ensures Mirrors(log, NothingRegistered)
  {}

  /** Every replayed registry is the mirror of its log. */
  lemma {:induction false} ReplayedMirrors(log: History, g: Registered, maxRetries: int)
    requires Replayed(log, maxRetries) == Accept(g)
    ensures Mirrors(log, g)
  {
    hide RegistryStep, Mirrors;
    if |log| <= 1 {
      NothingMirrored(log);
    } else {
      var init := log[..|log| - 1];
      ReplayedMirrors(init, Replayed(init, maxRetries).value, maxRetries);
      MirrorsNext(log, Replayed(init, maxRetries).value, g, maxRetries);
    }
  }

  // ----- Looking things up -----

  lemma Look(log: History, g: Registered, i: Item)
    requires Recorded(log, g)
    ensures Has(log, i) <==> Holds(g, i).Some?
    ensures Has(log, i) ==> i in Notes(Said(log, i)) && Holds(g, i) == Some(Notes(Said(log, i))[i])
  {
    hide Notes, Holds, Introduces;
    if Has(log, i) {
      var k: nat :| IntroducedAt(log, k, i) && log[k].event == Said(log, i);
      assert KeptAt(log, g, k, i);
    }
  }

  lemma ReadCase(log: History, g: Registered, c: Id)
    requires Mirrors(log, g)
    ensures Has(log, ProposalItem(c)) <==> c in g.records
    ensures Has(log, AdmissionItem(c)) <==> c in g.records && g.records[c].status != Proposed
    ensures Has(log, StartItem(c)) <==>
            c in g.records && g.records[c].status != Proposed && g.records[c].status != AdmittedCase
  {
    hide Recorded, Counted, AllShaped;
    Look(log, g, ProposalItem(c));
    Look(log, g, AdmissionItem(c));
    Look(log, g, StartItem(c));
  }

  lemma ReadRepository(log: History, g: Registered, c: Id)
    requires Mirrors(log, g)
    ensures Has(log, ProvisionItem(c)) <==> c in g.records && g.records[c].origin.Some?
    ensures Has(log, ProvisionItem(c)) ==>
              var e := Said(log, ProvisionItem(c));
              g.records[c].origin == Some(e.location) && g.records[c].marker == Some(e.marker)
    ensures Has(log, LiveItem(c)) <==> InStatus(g, c, Live)
    ensures Has(log, MigrationItem(c)) <==> c in g.records && g.records[c].migration.Some?
  {
    assert c in g.records ==> Shaped(g.records[c]);
    hide Recorded, Counted, AllShaped;
    Look(log, g, ProvisionItem(c));
    Look(log, g, LiveItem(c));
    Look(log, g, MigrationItem(c));
  }

  lemma ReadTaken(log: History, g: Registered, location: Location)
    requires Mirrors(log, g)
    ensures Taken(log, location) <==> location.repoId in g.repositories || !Unbound(g.nodes, location.nodeId)
  {
    hide Recorded, Counted, AllShaped;
    Look(log, g, RepositoryItem(location.repoId));
    if location.nodeId.Some? {
      Look(log, g, NodeItem(location.nodeId.value));
    }
  }

  lemma ReadProgress(log: History, g: Registered, c: Id)
    requires Mirrors(log, g)
    ensures InProgress(log, c) <==> InStatus(g, c, Provisioning)
    ensures Failed(log, c) <==> InStatus(g, c, ProvisionFailedCase)
    ensures c in g.records ==> RetriesOf(log, c) == g.records[c].retries
    ensures c in g.records ==> AnchorOf(log, c) == (g.records[c].head, g.records[c].count)
  {
    ReadCase(log, g, c);
    ReadRepository(log, g, c);
    assert CountedFor(log, g, c);
    hide Recorded, Counted, AllShaped, Mirrors, Has;
  }

  // ----- Every event -----

  lemma ProposalLaw(log: History, g: Registered, e: RegistryEvent, at: Time)
    requires Mirrors(log, g) && e.ProposalRecorded?
    ensures StepProposal(g, e, at).Accept? <==>
            && !Has(log, ProposalItem(e.caseId)) && !Has(log, CommitmentItem(e.commitment))
            && ProposalsIn(log) < 10_000
  {
    ReadCase(log, g, e.caseId);
    Look(log, g, CommitmentItem(e.commitment));
    hide Recorded, AllShaped, Has, CountedFor;
  }

  lemma ProvisionLaw(log: History, g: Registered, e: RegistryEvent, at: Time)
    requires Mirrors(log, g) && e.RepositoryProvisioned?
    ensures StepProvisioned(g, e, at).Accept? <==> LawfulProvision(log, e)
  {
    ReadProgress(log, g, e.caseId);
    ReadRepository(log, g, e.caseId);
    ReadTaken(log, g, e.location);
    assert e.caseId in g.records ==> Shaped(g.records[e.caseId]);
    hide Mirrors, Has, InProgress, Taken;
  }

  lemma LiveLaw(log: History, g: Registered, e: RegistryEvent, at: Time)
    requires Mirrors(log, g) && e.WentLive?
    ensures StepLive(g, e, at).Accept? <==>
            InProgress(log, e.caseId) && Has(log, ProvisionItem(e.caseId)) && Anchor(e.head, e.count)
  {
    ReadProgress(log, g, e.caseId);
    ReadRepository(log, g, e.caseId);
    assert e.caseId in g.records ==> Shaped(g.records[e.caseId]);
    hide Mirrors, Has, InProgress;
  }

  lemma MigrationLaw(log: History, g: Registered, e: RegistryEvent, at: Time)
    requires Mirrors(log, g) && e.RepositoryMigrated?
    ensures StepMigrated(g, e, at).Accept? <==> LawfulMigration(log, e)
  {
    ReadProgress(log, g, e.caseId);
    ReadRepository(log, g, e.caseId);
    ReadTaken(log, g, e.migration.destination);
    assert e.caseId in g.records ==> Shaped(g.records[e.caseId]);
    hide Mirrors, Has, InProgress, Taken, AnchorOf;
  }

  /** After any accepted log, an event is accepted exactly when it is lawful after that log. */
  lemma StepLaw(log: History, g: Registered, e: RegistryEvent, at: Time, maxRetries: int)
    requires Mirrors(log, g)
    ensures RegistryStep(g, e, at, maxRetries).Accept? <==> Lawful(log, e, maxRetries)
  {
    hide Mirrors, Has, InProgress, Failed, StepProposal, StepProvisioned, StepLive, StepMigrated, LawfulProvision,
         LawfulMigration;
    match e
    case RegistryOpened(_) =>
    case ProposalRecorded(_, _) => ProposalLaw(log, g, e, at);
    case Admitted(c) => ReadCase(log, g, c);
    case ProvisioningStarted(c) => ReadCase(log, g, c);
    case RepositoryProvisioned(_, _, _, _) => ProvisionLaw(log, g, e, at);
    case WentLive(_, _, _, _) => LiveLaw(log, g, e, at);
    case RepositoryMigrated(_, _) => MigrationLaw(log, g, e, at);
    case ProvisionFailed(c, _) => ReadProgress(log, g, c);
    case ProvisioningRetried(c, _) => ReadProgress(log, g, c);
    case UnknownEvent(_) =>
  }

  ghost predicate LawfulAt(log: History, i: nat, maxRetries: int)
    requires i < |log|
  {
    Lawful(log[..i], log[i].event, maxRetries)
  }

  /** Every entry after the opening is lawful after those before it. */
  ghost predicate AllLawful(log: History, maxRetries: int) {
    forall i :: 0 < i < |log| ==> LawfulAt(log, i, maxRetries)
  }

  lemma AllLawfulLast(log: History, maxRetries: int)
    requires 1 < |log|
    ensures AllLawful(log, maxRetries) <==>
            && AllLawful(log[..|log| - 1], maxRetries)
            && Lawful(log[..|log| - 1], log[|log| - 1].event, maxRetries)
  {
    hide Lawful;
    var init := log[..|log| - 1];
    forall i | 0 < i < |init| ensures LawfulAt(log, i, maxRetries) <==> LawfulAt(init, i, maxRetries) {
      assert init[..i] == log[..i];
    }
    if AllLawful(log, maxRetries) {
      assert LawfulAt(log, |log| - 1, maxRetries);
    }
    if AllLawful(init, maxRetries) && Lawful(init, log[|log| - 1].event, maxRetries) {
      forall i | 0 < i < |log| ensures LawfulAt(log, i, maxRetries) {
        if i < |init| {
          assert LawfulAt(init, i, maxRetries);
        }
      }
    }
  }

  /**
   A log replays exactly when each of its events is lawful after the entries before it; the records it replays to then
   hold, item by item, what those events said, and count what they add up to.
   */
  lemma {:induction false} ReplayLaw(log: History, maxRetries: int)
    ensures Replayed(log, maxRetries).Accept? <==> AllLawful(log, maxRetries)
    ensures Replayed(log, maxRetries).Accept? ==> Mirrors(log, Replayed(log, maxRetries).value)
  {
    hide RegistryStep, Lawful, Mirrors;
    if |log| > 1 {
      var init := log[..|log| - 1];
      ReplayLaw(init, maxRetries);
      AllLawfulLast(log, maxRetries);
      hide AllLawful;
      if Replayed(init, maxRetries).Accept? {
        StepLaw(init, Replayed(init, maxRetries).value, log[|log| - 1].event, log[|log| - 1].at, maxRetries);
      }
    }
    if Replayed(log, maxRetries).Accept? {
      ReplayedMirrors(log, Replayed(log, maxRetries).value, maxRetries);
    }
  }
}
