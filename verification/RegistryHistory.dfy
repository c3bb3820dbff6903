/**
 The registry read from its log alone: what each entry puts on record, and which event may come next. Nothing here
 keeps a record; everything is looked up in the entries so far.
 */
module RegistryHistory {
  import opened Basics
  import opened RegistryReplay

  type History = seq<RegistryEntry>

  // ----- What entries put on record -----

  datatype Item =
    | ProposalItem(caseId: Id) | CommitmentItem(commitment: string) | AdmissionItem(caseId: Id) | StartItem(caseId: Id)
    | ProvisionItem(caseId: Id) | LiveItem(caseId: Id) | MigrationItem(caseId: Id)
    | RepositoryItem(repoId: RepoId) | NodeItem(nodeId: string)

  predicate Introduces(e: RegistryEvent, i: Item) {
    match i
    case ProposalItem(c) => e.ProposalRecorded? && e.caseId == c
    case CommitmentItem(k) => e.ProposalRecorded? && e.commitment == k
    case AdmissionItem(c) => e.Admitted? && e.caseId == c
    case StartItem(c) => e.ProvisioningStarted? && e.caseId == c
    case ProvisionItem(c) => e.RepositoryProvisioned? && e.caseId == c
    case LiveItem(c) => e.WentLive? && e.caseId == c
    case MigrationItem(c) => e.RepositoryMigrated? && e.caseId == c
    case RepositoryItem(r) => NewLocation(e).Some? && NewLocation(e).value.repoId == r
    case NodeItem(n) => NewLocation(e).Some? && NewLocation(e).value.nodeId == Some(n)
  }

  /** Where the event puts a case's repository. */
  function NewLocation(e: RegistryEvent): Option<Location> {
    if e.RepositoryProvisioned? then Some(e.location)
    else if e.RepositoryMigrated? then Some(e.migration.destination)
    else None
  }

  /** The opening entry is not part of any case. */
  ghost predicate IntroducedAt(log: History, k: nat, i: Item) {
    0 < k < |log| && Introduces(log[k].event, i)
  }

  ghost predicate Has(log: History, i: Item) {
    exists k: nat :: IntroducedAt(log, k, i)
  }

  ghost function Said(log: History, i: Item): (e: RegistryEvent)
    requires Has(log, i)
    ensures Introduces(e, i)
  {
    var k: nat :| IntroducedAt(log, k, i);
    log[k].event
  }

  // ----- What several entries add up to -----

  function ProposalsIn(log: History): nat {
    if |log| <= 1 then 0
    else ProposalsIn(log[..|log| - 1]) + if log[|log| - 1].event.ProposalRecorded? then 1 else 0
  }

  function FailuresOf(log: History, c: Id): nat {
    if |log| <= 1 then 0
    else
      var e := log[|log| - 1].event;
      FailuresOf(log[..|log| - 1], c) + if e.ProvisionFailed? && e.caseId == c then 1 else 0
  }

  function RetriesOf(log: History, c: Id): nat {
    if |log| <= 1 then 0
    else
      var e := log[|log| - 1].event;
      RetriesOf(log[..|log| - 1], c) + if e.ProvisioningRetried? && e.caseId == c then 1 else 0
  }

  /** The case anchor that the registry vouches for: the one stated last. */
  function AnchorOf(log: History, c: Id): (Option<string>, int) {
    if |log| <= 1 then (None, 0)
    else
      var e := log[|log| - 1].event;
      if e.WentLive? && e.caseId == c then (e.head, e.count)
      else if e.RepositoryMigrated? && e.caseId == c then (e.migration.head, e.migration.count)
      else AnchorOf(log[..|log| - 1], c)
  }

  predicate Concerns(e: RegistryEvent, c: Id) {
    !e.RegistryOpened? && !e.UnknownEvent? && e.caseId == c
  }

  /** When the case was last heard of. */
  function LastHeard(log: History, c: Id): Time {
    if |log| <= 1 then 0
    else if Concerns(log[|log| - 1].event, c) then log[|log| - 1].at
    else LastHeard(log[..|log| - 1], c)
  }

  // ----- Which event may come next -----

  /** Started and not live; each failure so far was answered by a retry. */
  ghost predicate InProgress(log: History, c: Id) {
    Has(log, StartItem(c)) && !Has(log, LiveItem(c)) && FailuresOf(log, c) == RetriesOf(log, c)
  }

  /** The last attempt failed and was not retried. */
  ghost predicate Failed(log: History, c: Id) {
    Has(log, StartItem(c)) && !Has(log, LiveItem(c)) && FailuresOf(log, c) == RetriesOf(log, c) + 1
  }

  /** The repository or its node was given to a case before. */
  ghost predicate Taken(log: History, location: Location) {
    || Has(log, RepositoryItem(location.repoId))
    || (location.nodeId.Some? && Has(log, NodeItem(location.nodeId.value)))
  }

  /** An anchor with a head exactly when it has events. */
  predicate Anchor(head: Option<string>, count: int) {
    0 <= count <= 10_000_000 && (head.None? <==> count == 0)
  }

  ghost predicate LawfulProvision(log: History, e: RegistryEvent)
    requires e.RepositoryProvisioned?
  {
    var l := e.location;
    && InProgress(log, e.caseId) && !Has(log, ProvisionItem(e.caseId)) && !Taken(log, l)
    && (if l.repoId.GitHub? then 0 < l.repoId.number && l.nodeId.Some? else l.nodeId.None?)
  }

  /** A live case that never moved, as it was provisioned, to a GitHub repository, with an anchor not behind its own. */
  ghost predicate Movable(log: History, e: RegistryEvent)
    requires e.RepositoryMigrated?
  {
    var c, m, d := e.caseId, e.migration, e.migration.destination;
    && Has(log, LiveItem(c)) && !Has(log, MigrationItem(c))
    && Has(log, ProvisionItem(c)) && Said(log, ProvisionItem(c)).marker == m.marker
    && Said(log, ProvisionItem(c)).location == m.source && m.source.repoId.Local? && m.source.nodeId.None?
    && d.repoId.GitHub? && 0 < d.repoId.number && d.nodeId.Some?
    && 1 <= m.refCount <= 256 && m.refMain == d.commit
    && Anchor(m.head, m.count) && AnchorOf(log, c).1 <= m.count
    && (AnchorOf(log, c).1 == m.count ==> AnchorOf(log, c).0 == m.head)
  }

  ghost predicate LawfulMigration(log: History, e: RegistryEvent)
    requires e.RepositoryMigrated?
  {
    Movable(log, e) && !Taken(log, e.migration.destination)
  }

  /** Whether an event may follow a log, decided by reading the log. */
  ghost predicate Lawful(log: History, e: RegistryEvent, maxRetries: int) {
    match e
    case RegistryOpened(_) => false
    case ProposalRecorded(c, k) =>
      !Has(log, ProposalItem(c)) && !Has(log, CommitmentItem(k)) && ProposalsIn(log) < 10_000
    case Admitted(c) => Has(log, ProposalItem(c)) && !Has(log, AdmissionItem(c))
    case ProvisioningStarted(c) => Has(log, AdmissionItem(c)) && !Has(log, StartItem(c))
    case RepositoryProvisioned(_, _, _, _) => LawfulProvision(log, e)
    case WentLive(c, _, head, count) => InProgress(log, c) && Has(log, ProvisionItem(c)) && Anchor(head, count)
    case RepositoryMigrated(_, _) => LawfulMigration(log, e)
    case ProvisionFailed(c, _) => InProgress(log, c)
    case ProvisioningRetried(c, n) => Failed(log, c) && n == RetriesOf(log, c) + 1 && n <= maxRetries
    case UnknownEvent(_) => false
  }
}
