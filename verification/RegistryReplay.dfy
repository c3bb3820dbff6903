/** The problem registry's records, rebuilt from its log, and the identities they keep apart. */
module RegistryReplay {
  import opened Basics
  import opened Chain

  // ----- Events -----

  /** A GitHub repository number, or the digest of a staging-local repository. */
  datatype RepoId = GitHub(number: int) | Local(digest: string)

  /** A repository under an identity, at a commit. */
  datatype Location = Location(url: string, commit: string, repoId: RepoId, nodeId: Option<string>)

  /**
   A move of one case, bound to its marker, its exact source, the marker's blob, and a manifest of every mirrored
   ref.
   */
  datatype Migration = Migration(
    marker: string, source: Location, destination: Location, markerBlob: string,
    refCount: int, refMain: string, manifestDigest: string,
    head: Option<string>, count: int)

  datatype RegistryEvent =
    | RegistryOpened(clerkKey: Key)
    | ProposalRecorded(caseId: Id, commitment: string)
    | Admitted(caseId: Id)
    | ProvisioningStarted(caseId: Id)
    | RepositoryProvisioned(caseId: Id, location: Location, clerkKey: Key, marker: string)
    | WentLive(caseId: Id, clerkUrl: string, head: Option<string>, count: int)
    | RepositoryMigrated(caseId: Id, migration: Migration)
    | ProvisionFailed(caseId: Id, error: string)
    | ProvisioningRetried(caseId: Id, retry: int)
    | UnknownEvent(kind: string)

  const MaxCases: nat := 10_000

  /** Numbered repositories are positive and carry a node; local ones never do. */
  predicate ValidIdentity(repoId: RepoId, nodeId: Option<string>) {
    match repoId
    case GitHub(number) => number > 0 && nodeId.Some?
    case Local(_) => nodeId.None?
  }

  /** An empty case has no head; any other has one. */
  predicate ValidEvidence(head: Option<string>, count: int) {
    0 <= count <= 10_000_000 && (count == 0 <==> head.None?)
  }

  // ----- Records -----

  datatype Status = Proposed | AdmittedCase | Provisioning | Live | ProvisionFailedCase

  datatype Record = Record(
    commitment: string, status: Status, retries: int, clerkUrl: Option<string>, clerkKey: Option<Key>,
    marker: Option<string>, location: Option<Location>, origin: Option<Location>, migration: Option<Migration>,
    head: Option<string>, count: int, updatedAt: Time)

  /** Records with the maps that keep commitments, repositories and nodes to one case each. */
  datatype Registered = Registered(
    records: map<Id, Record>, commitments: map<string, Id>, repositories: map<RepoId, Id>, nodes: map<string, Id>)

  const NothingRegistered: Registered := Registered(map[], map[], map[], map[])

  function Bind<K>(bindings: map<K, Id>, key: Option<K>, caseId: Id): map<K, Id> {
    if key.Some? then bindings[key.value := caseId] else bindings
  }

  predicate Unbound<K(==)>(bindings: map<K, Id>, key: Option<K>) {
    key.Some? ==> key.value !in bindings
  }

  predicate InStatus(g: Registered, caseId: Id, status: Status) {
    caseId in g.records && g.records[caseId].status == status
  }

  // ----- One transition each -----

  function StepProposal(g: Registered, e: RegistryEvent, at: Time): Result<Registered>
    requires e.ProposalRecorded?
  {
    if e.caseId !in g.records && e.commitment !in g.commitments && |g.records| < MaxCases then
      var record := Record(e.commitment, Proposed, 0, None, None, None, None, None, None, None, 0, at);
      Accept(g.(records := g.records[e.caseId := record], commitments := g.commitments[e.commitment := e.caseId]))
    else Reject
  }

  /** Move one case to another status. */
  function StepStatus(g: Registered, caseId: Id, from: Status, to: Status, at: Time): Result<Registered> {
    if InStatus(g, caseId, from)
    then Accept(g.(records := g.records[caseId := g.records[caseId].(status := to, updatedAt := at)]))
    else Reject
  }

  function StepProvisioned(g: Registered, e: RegistryEvent, at: Time): Result<Registered>
    requires e.RepositoryProvisioned?
  {
    if && InStatus(g, e.caseId, Provisioning)
       && g.records[e.caseId].location.None?
       && ValidIdentity(e.location.repoId, e.location.nodeId)
       && e.location.repoId !in g.repositories
       && Unbound(g.nodes, e.location.nodeId)
    then
      var record := g.records[e.caseId].(
        clerkKey := Some(e.clerkKey), marker := Some(e.marker), location := Some(e.location),
        origin := Some(e.location), updatedAt := at);
      Accept(g.(records := g.records[e.caseId := record],
                repositories := g.repositories[e.location.repoId := e.caseId],
                nodes := Bind(g.nodes, e.location.nodeId, e.caseId)))
    else Reject
  }

  function StepLive(g: Registered, e: RegistryEvent, at: Time): Result<Registered>
    requires e.WentLive?
  {
    if && InStatus(g, e.caseId, Provisioning)
       && g.records[e.caseId].location.Some? && g.records[e.caseId].clerkKey.Some?
       && ValidEvidence(e.head, e.count)
    then
      var record := g.records[e.caseId].(
        clerkUrl := Some(e.clerkUrl), head := e.head, count := e.count, status := Live, updatedAt := at);
      Accept(g.(records := g.records[e.caseId := record]))
    else Reject
  }

  /** A numbered repository whose main ref is the named commit, under a bounded manifest. */
  predicate ValidDestination(m: Migration) {
    && m.destination.repoId.GitHub? && ValidIdentity(m.destination.repoId, m.destination.nodeId)
    && 1 <= m.refCount <= 256
    && m.refMain == m.destination.commit
  }

  /** One move per case, from its exact staging-local repository to an unbound GitHub one, never behind its anchor. */
  predicate MayMigrate(g: Registered, caseId: Id, m: Migration) {
    && InStatus(g, caseId, Live)
    && var record := g.records[caseId];
    && record.migration.None?
    && record.marker == Some(m.marker)
    && record.location == Some(m.source)
    && m.source.repoId.Local? && m.source.nodeId.None?
    && ValidDestination(m)
    && ValidEvidence(m.head, m.count)
    && AnchorCurrent(record, m.head, m.count)
    && m.destination.repoId !in g.repositories
    && Unbound(g.nodes, m.destination.nodeId)
  }

  /** A case anchor at or above the recorded one, and equal to it at the same count. */
  predicate AnchorCurrent(record: Record, head: Option<string>, count: int) {
    record.count <= count && (count == record.count ==> head == record.head)
  }

  function StepMigrated(g: Registered, e: RegistryEvent, at: Time): Result<Registered>
    requires e.RepositoryMigrated?
  {
    var m := e.migration;
    if MayMigrate(g, e.caseId, m) then
      var record := g.records[e.caseId].(
        location := Some(m.destination), migration := Some(m), head := m.head, count := m.count, updatedAt := at);
      Accept(g.(records := g.records[e.caseId := record],
                repositories := g.repositories[m.destination.repoId := e.caseId],
                nodes := Bind(g.nodes, m.destination.nodeId, e.caseId)))
    else Reject
  }

  function StepRetried(g: Registered, e: RegistryEvent, at: Time, maxRetries: int): Result<Registered>
    requires e.ProvisioningRetried?
  {
    if && InStatus(g, e.caseId, ProvisionFailedCase)
       && e.retry == g.records[e.caseId].retries + 1 && e.retry <= maxRetries
    then
      var record := g.records[e.caseId].(retries := e.retry, status := Provisioning, updatedAt := at);
      Accept(g.(records := g.records[e.caseId := record]))
    else Reject
  }

  function RegistryStep(g: Registered, e: RegistryEvent, at: Time, maxRetries: int): Result<Registered> {
    match e
    case RegistryOpened(_) => Reject
    case ProposalRecorded(_, _) => StepProposal(g, e, at)
    case Admitted(caseId) => StepStatus(g, caseId, Proposed, AdmittedCase, at)
    case ProvisioningStarted(caseId) => StepStatus(g, caseId, AdmittedCase, Provisioning, at)
    case RepositoryProvisioned(_, _, _, _) => StepProvisioned(g, e, at)
    case WentLive(_, _, _, _) => StepLive(g, e, at)
    case RepositoryMigrated(_, _) => StepMigrated(g, e, at)
    case ProvisionFailed(caseId, _) => StepStatus(g, caseId, Provisioning, ProvisionFailedCase, at)
    case ProvisioningRetried(_, _) => StepRetried(g, e, at, maxRetries)
    case UnknownEvent(_) => Reject
  }

  /** What a registry clerk signs for one entry. */
  datatype Receipt = Receipt(seqNo: int, prev: Option<Hash<RegistryEvent>>, hash: Hash<RegistryEvent>)

  type RegistryEntry = Entry<RegistryEvent, Receipt>

  /** Fold the entries after the opening one. */
  function Replayed(entries: seq<RegistryEntry>, maxRetries: int): Result<Registered> {
    if |entries| <= 1 then Accept(NothingRegistered)
    else
      match Replayed(entries[..|entries| - 1], maxRetries)
      case Reject => Reject
      case Accept(g) => RegistryStep(g, entries[|entries| - 1].event, entries[|entries| - 1].at, maxRetries)
  }

  /** Walk the log once, updating the records and the three binding maps. */
  method Replay(entries: seq<RegistryEntry>, maxRetries: int) returns (result: Result<Registered>)
    ensures result == Replayed(entries, maxRetries)
  {
    hide RegistryStep;
    var current := NothingRegistered;
    var n := if |entries| == 0 then 0 else 1;
    assert entries[..n] == entries || n == 1;
    while n < |entries|
      invariant n <= |entries| && (|entries| > 0 ==> n >= 1)
      invariant Replayed(entries[..n], maxRetries) == Accept(current)
    {
      assert entries[..n + 1][..n] == entries[..n];
      var next := RegistryStep(current, entries[n].event, entries[n].at, maxRetries);
      if next.Reject? {
        RejectedForever(entries, n + 1, maxRetries);
        return Reject;
      }
      current := next.value;
      n := n + 1;
    }
    assert entries[..n] == entries;
    return Accept(current);
  }

  lemma {:induction false} RejectedForever(entries: seq<RegistryEntry>, n: nat, maxRetries: int)
    requires n <= |entries| && Replayed(entries[..n], maxRetries).Reject?
    ensures Replayed(entries, maxRetries).Reject?
  {
    if n == |entries| {
      assert entries[..n] == entries;
    } else {
      assert entries[..|entries| - 1][..n] == entries[..n];
      RejectedForever(entries[..|entries| - 1], n, maxRetries);
    }
  }

  // ----- Identities -----

  /** A location's repository and node are bound to its case. */
  predicate BoundTo(g: Registered, location: Option<Location>, caseId: Id) {
    location.Some? ==>
      && location.value.repoId in g.repositories && g.repositories[location.value.repoId] == caseId
      && (location.value.nodeId.Some? ==>
            location.value.nodeId.value in g.nodes && g.nodes[location.value.nodeId.value] == caseId)
  }

  ghost predicate RecordOk(g: Registered, caseId: Id, maxRetries: int)
    requires caseId in g.records
  {
    var record := g.records[caseId];
    && record.commitment in g.commitments && g.commitments[record.commitment] == caseId
    && BoundTo(g, record.location, caseId)
    && BoundTo(g, record.origin, caseId)
    && (record.location.Some? <==> record.origin.Some?)
    && (record.migration.None? ==> record.location == record.origin)
    && (record.migration.Some? ==>
          && record.status == Live
          && record.location == Some(record.migration.value.destination)
          && record.origin == Some(record.migration.value.source)
          && record.marker == Some(record.migration.value.marker)
          && record.migration.value.source.repoId.Local?
          && ValidDestination(record.migration.value))
    && 0 <= record.retries && (record.retries <= maxRetries || record.retries == 0)
    && ValidEvidence(record.head, record.count)
    && (record.status == Live ==> record.location.Some? && record.clerkKey.Some?)
    && (record.status != Live ==> record.count == 0)
  }

  ghost predicate RegisteredOk(g: Registered, maxRetries: int) {
    forall c :: c in g.records ==> RecordOk(g, c, maxRetries)
  }

  /** What may never change for a case: its commitment, its marker identity, and the direction of its counters. */
  ghost predicate Progressed(before: Record, after: Record) {
    && after.commitment == before.commitment
    && (before.origin.Some? ==>
        after.origin == before.origin && after.marker == before.marker && after.clerkKey == before.clerkKey)
    && before.count <= after.count && (before.count == after.count && before.count > 0 ==> after.head == before.head)
    && before.retries <= after.retries
    && (before.migration.Some? ==> after.migration == before.migration && after.location == before.location)
  }

  ghost predicate AllProgressed(g: Registered, h: Registered) {
    forall c :: c in g.records ==> c in h.records && Progressed(g.records[c], h.records[c])
  }

  lemma ProposalKeeps(g: Registered, e: RegistryEvent, at: Time, h: Registered, maxRetries: int)
    requires e.ProposalRecorded? && StepProposal(g, e, at) == Accept(h) && RegisteredOk(g, maxRetries)
    ensures RegisteredOk(h, maxRetries) && AllProgressed(g, h)
  {
    forall c | c in h.records ensures RecordOk(h, c, maxRetries) {
      if c in g.records { assert RecordOk(g, c, maxRetries); }
    }
  }

  lemma StatusKeeps(g: Registered, caseId: Id, from: Status, to: Status, at: Time, h: Registered, maxRetries: int)
    requires StepStatus(g, caseId, from, to, at) == Accept(h) && RegisteredOk(g, maxRetries)
    requires from != Live && to != Live
    ensures RegisteredOk(h, maxRetries) && AllProgressed(g, h)
  {
    forall c | c in h.records ensures RecordOk(h, c, maxRetries) {
      assert RecordOk(g, c, maxRetries);
    }
  }

  lemma ProvisionedKeeps(g: Registered, e: RegistryEvent, at: Time, h: Registered, maxRetries: int)
    requires e.RepositoryProvisioned? && StepProvisioned(g, e, at) == Accept(h) && RegisteredOk(g, maxRetries)
    ensures RegisteredOk(h, maxRetries) && AllProgressed(g, h)
  {
    forall c | c in h.records ensures RecordOk(h, c, maxRetries) {
      assert RecordOk(g, c, maxRetries);
    }
    assert RecordOk(g, e.caseId, maxRetries);
  }

  lemma LiveKeeps(g: Registered, e: RegistryEvent, at: Time, h: Registered, maxRetries: int)
    requires e.WentLive? && StepLive(g, e, at) == Accept(h) && RegisteredOk(g, maxRetries)
    ensures RegisteredOk(h, maxRetries) && AllProgressed(g, h)
  {
    forall c | c in h.records ensures RecordOk(h, c, maxRetries) {
      assert RecordOk(g, c, maxRetries);
    }
    assert RecordOk(g, e.caseId, maxRetries);
  }

  lemma MigratedKeeps(g: Registered, e: RegistryEvent, at: Time, h: Registered, maxRetries: int)
    requires e.RepositoryMigrated? && StepMigrated(g, e, at) == Accept(h) && RegisteredOk(g, maxRetries)
    ensures RegisteredOk(h, maxRetries) && AllProgressed(g, h)
  {
    forall c | c in h.records ensures RecordOk(h, c, maxRetries) {
      assert RecordOk(g, c, maxRetries);
    }
    assert RecordOk(g, e.caseId, maxRetries);
  }

  lemma RetriedKeeps(g: Registered, e: RegistryEvent, at: Time, h: Registered, maxRetries: int)
    requires e.ProvisioningRetried? && StepRetried(g, e, at, maxRetries) == Accept(h) && RegisteredOk(g, maxRetries)
    ensures RegisteredOk(h, maxRetries) && AllProgressed(g, h)
  {
    forall c | c in h.records ensures RecordOk(h, c, maxRetries) {
      assert RecordOk(g, c, maxRetries);
    }
    assert RecordOk(g, e.caseId, maxRetries);
  }

  lemma StepKeeps(g: Registered, e: RegistryEvent, at: Time, h: Registered, maxRetries: int)
    requires RegistryStep(g, e, at, maxRetries) == Accept(h) && RegisteredOk(g, maxRetries)
    ensures RegisteredOk(h, maxRetries) && AllProgressed(g, h)
  {
    match e
    case ProposalRecorded(_, _) => ProposalKeeps(g, e, at, h, maxRetries);
    case Admitted(caseId) => StatusKeeps(g, caseId, Proposed, AdmittedCase, at, h, maxRetries);
    case ProvisioningStarted(caseId) => StatusKeeps(g, caseId, AdmittedCase, Provisioning, at, h, maxRetries);
    case RepositoryProvisioned(_, _, _, _) => ProvisionedKeeps(g, e, at, h, maxRetries);
    case WentLive(_, _, _, _) => LiveKeeps(g, e, at, h, maxRetries);
    case RepositoryMigrated(_, _) => MigratedKeeps(g, e, at, h, maxRetries);
    case ProvisionFailed(caseId, _) => StatusKeeps(g, caseId, Provisioning, ProvisionFailedCase, at, h, maxRetries);
    case ProvisioningRetried(_, _) => RetriedKeeps(g, e, at, h, maxRetries);
    case RegistryOpened(_) =>
    case UnknownEvent(_) =>
  }

  lemma {:induction false} ReplayedOk(entries: seq<RegistryEntry>, maxRetries: int, g: Registered)
    requires Replayed(entries, maxRetries) == Accept(g)
    ensures RegisteredOk(g, maxRetries)
  {
    if |entries| > 1 {
      var init, last := entries[..|entries| - 1], entries[|entries| - 1];
      ReplayedOk(init, maxRetries, Replayed(init, maxRetries).value);
      StepKeeps(Replayed(init, maxRetries).value, last.event, last.at, g, maxRetries);
    }
  }

  predicate Apart(x: Option<Location>, y: Option<Location>) {
    x.Some? && y.Some? ==>
      && x.value.repoId != y.value.repoId
      && (x.value.nodeId.Some? ==> x.value.nodeId != y.value.nodeId)
  }

  /**
   No two cases of any replayed registry share a task commitment, a repository or a node, whether current or from
   before a migration; a migrated case moved from a local to a GitHub repository; retries stay within their bound.
   */
  lemma IdentitiesStayApart(entries: seq<RegistryEntry>, maxRetries: int, g: Registered, c: Id, d: Id)
    requires Replayed(entries, maxRetries) == Accept(g) && c in g.records && d in g.records && c != d
    ensures g.records[c].commitment != g.records[d].commitment
    ensures Apart(g.records[c].location, g.records[d].location) && Apart(g.records[c].location, g.records[d].origin)
    ensures Apart(g.records[c].origin, g.records[d].location) && Apart(g.records[c].origin, g.records[d].origin)
    ensures 0 <= g.records[c].retries && (g.records[c].retries == 0 || g.records[c].retries <= maxRetries)
  {
    ReplayedOk(entries, maxRetries, g);
    assert RecordOk(g, c, maxRetries) && RecordOk(g, d, maxRetries);
  }

  lemma ProgressTransitive(a: Registered, b: Registered, c: Registered)
    requires AllProgressed(a, b) && AllProgressed(b, c)
    ensures AllProgressed(a, c)
  {
    forall k | k in a.records ensures k in c.records && Progressed(a.records[k], c.records[k]) {
      assert Progressed(a.records[k], b.records[k]);
      assert Progressed(b.records[k], c.records[k]);
    }
  }

  /** Across any growth of the log, every case keeps its commitment and marker, and its counters only rise. */
  lemma {:induction false} LogGrowthProgresses(entries: seq<RegistryEntry>, n: nat, maxRetries: int,
                                               g: Registered, h: Registered)
    requires n <= |entries| && Replayed(entries[..n], maxRetries) == Accept(g)
             && Replayed(entries, maxRetries) == Accept(h)
    ensures AllProgressed(g, h)
  {
    if n == |entries| || |entries| <= 1 {
      assert n == |entries| ==> entries[..n] == entries;
    } else {
      var init, last := entries[..|entries| - 1], entries[|entries| - 1];
      assert init[..n] == entries[..n];
      var mid := Replayed(init, maxRetries).value;
      LogGrowthProgresses(init, n, maxRetries, g, mid);
      ReplayedOk(init, maxRetries, mid);
      StepKeeps(mid, last.event, last.at, h, maxRetries);
      ProgressTransitive(g, mid, h);
    }
  }

  /** A log accepted under one retry bound replays identically under a larger one. */
  lemma {:induction false} LargerBound(entries: seq<RegistryEntry>, small: int, large: int)
    requires small <= large && Replayed(entries, small).Accept?
    ensures Replayed(entries, large) == Replayed(entries, small)
  {
    if |entries| > 1 {
      LargerBound(entries[..|entries| - 1], small, large);
    }
  }
}
