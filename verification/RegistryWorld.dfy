/** Many registry instances interleaving over one file, with and without outside interference. */
module RegistryWorld {
  import opened Basics
  import opened Chain
  import opened RegistryReplay
  import opened RegistryLog
  import opened RegistryHistory
  import opened RegistryLaw

  datatype Process = Process(entries: Log, maxRetries: int, clerk: Option<Key>)

  datatype World = World(file: Log, processes: map<Id, Process>)

  /** One locked operation of one instance, or an outsider replacing the file. */
  datatype Action =
    | RefreshBy(pid: Id)
    | AppendBy(pid: Id, event: RegistryEvent, at: Time, check: Precheck, disk: Disk)
    | ReplaceFile(log: Log)

  ghost function Refreshed(mine: Log, latest: Log, maxRetries: int): Log {
    if VerifiedLog(latest, maxRetries) && Extends(mine, latest) then latest else mine
  }

  ghost function Next(w: World, a: Action): World {
    match a
    case RefreshBy(pid) =>
      if pid !in w.processes then w
      else
        var p := w.processes[pid];
        w.(processes := w.processes[pid := p.(entries := Refreshed(p.entries, w.file, p.maxRetries))])
    case AppendBy(pid, event, at, check, disk) =>
      if pid !in w.processes then w
      else
        var p := w.processes[pid];
        var effect := AppendEffect(p.entries, w.file, p.clerk, p.maxRetries, event, at, check, disk);
        World(effect.2, w.processes[pid := p.(entries := effect.1)])
    case ReplaceFile(log) => w.(file := log)
  }

  ghost function RunWorld(w: World, actions: seq<Action>): World {
    if actions == [] then w else Next(RunWorld(w, actions[..|actions| - 1]), actions[|actions| - 1])
  }

  ghost predicate ProcessOk(p: Process) {
    && 0 <= p.maxRetries <= LargestBound
    && VerifiedLog(p.entries, p.maxRetries)
    && (p.clerk.Some? ==> p.clerk == ClerkOf(p.entries))
  }

  ghost predicate ProcessesOk(w: World) {
    forall pid :: pid in w.processes ==> ProcessOk(w.processes[pid])
  }

  /** The file verifies, and every instance holds a prefix of it. */
  ghost predicate Shared(w: World) {
    && VerifiedLog(w.file, LargestBound)
    && ProcessesOk(w)
    && forall pid :: pid in w.processes ==> w.processes[pid].entries <= w.file
  }

  lemma AppendKeeps(p: Process, file: Log, event: RegistryEvent, at: Time, check: Precheck, disk: Disk)
    requires ProcessOk(p)
    ensures var effect := AppendEffect(p.entries, file, p.clerk, p.maxRetries, event, at, check, disk);
            && ProcessOk(p.(entries := effect.1))
            && |p.entries| <= |effect.1| && SameBodies(effect.1[..|p.entries|], p.entries)
            && (effect.2 == file || (file < effect.2 && VerifiedLog(effect.2, p.maxRetries)))
            && (p.entries <= file ==> p.entries <= effect.1 <= effect.2)
  {
    assert p.entries[..|p.entries|] == p.entries;
    if VerifiedLog(file, p.maxRetries) && Extends(p.entries, file) {
      ExtensionKeepsPrefix(p.entries, file);
    }
  }

  lemma RefreshKeeps(p: Process, file: Log)
    requires ProcessOk(p)
    ensures var after := Refreshed(p.entries, file, p.maxRetries);
            && ProcessOk(p.(entries := after))
            && |p.entries| <= |after| && SameBodies(after[..|p.entries|], p.entries)
            && (p.entries <= file ==> p.entries <= after <= file)
  {
    assert p.entries[..|p.entries|] == p.entries;
    if VerifiedLog(file, p.maxRetries) && Extends(p.entries, file) {
      ExtensionKeepsPrefix(p.entries, file);
    }
  }

  /** Every instance's observation is carried over, body for body. */
  ghost predicate ObservationsKept(v: World, w: World) {
    && v.processes.Keys == w.processes.Keys
    && forall pid :: pid in v.processes ==>
         && |v.processes[pid].entries| <= |w.processes[pid].entries|
         && SameBodies(w.processes[pid].entries[..|v.processes[pid].entries|], v.processes[pid].entries)
  }

  /** Replacing one instance's entries by a longer observation keeps every observation. */
  lemma OneProcessMoves(v: World, w: World, pid: Id, entries: Log)
    requires ProcessesOk(v) && pid in v.processes
    requires w.processes == v.processes[pid := v.processes[pid].(entries := entries)]
    requires ProcessOk(w.processes[pid])
    requires |v.processes[pid].entries| <= |entries|
             && SameBodies(entries[..|v.processes[pid].entries|], v.processes[pid].entries)
    ensures ProcessesOk(w) && ObservationsKept(v, w)
  {
    hide VerifiedLog;
    forall other | other in v.processes
      ensures v.processes[other].entries[..|v.processes[other].entries|] == v.processes[other].entries
    {}
  }

  lemma NextKeepsObservations(w: World, a: Action)
    requires ProcessesOk(w)
    ensures ProcessesOk(Next(w, a)) && ObservationsKept(w, Next(w, a))
  {
    hide AppendEffect, Refreshed, VerifiedLog, SameBodies, ProcessesOk, ObservationsKept;
    match a {
      case RefreshBy(pid) =>
        if pid in w.processes {
          RefreshMoves(w, pid);
        } else {
          NothingMoves(w, Next(w, a));
        }
      case AppendBy(pid, event, at, check, disk) =>
        if pid in w.processes {
          AppendMoves(w, a);
        } else {
          NothingMoves(w, Next(w, a));
        }
      case ReplaceFile(_) =>
        NothingMoves(w, Next(w, a));
    }
  }

  lemma NothingMoves(v: World, w: World)
    requires ProcessesOk(v) && w.processes == v.processes
    ensures ProcessesOk(w) && ObservationsKept(v, w)
  {
    hide VerifiedLog;
    forall pid | pid in v.processes
        ensures v.processes[pid].entries[..|v.processes[pid].entries|] == v.processes[pid].entries {}
  }

  lemma RefreshMoves(w: World, pid: Id)
    requires ProcessesOk(w) && pid in w.processes
    ensures ProcessesOk(Next(w, RefreshBy(pid))) && ObservationsKept(w, Next(w, RefreshBy(pid)))
  {
    hide Refreshed, VerifiedLog, SameBodies, ObservationsKept;
    var p := w.processes[pid];
    RefreshKeeps(p, w.file);
    OneProcessMoves(w, Next(w, RefreshBy(pid)), pid, Refreshed(p.entries, w.file, p.maxRetries));
  }

  lemma AppendMoves(w: World, a: Action)
    requires a.AppendBy? && ProcessesOk(w) && a.pid in w.processes
    ensures ProcessesOk(Next(w, a)) && ObservationsKept(w, Next(w, a))
  {
    hide AppendEffect, VerifiedLog, SameBodies, ObservationsKept;
    var p := w.processes[a.pid];
    AppendKeeps(p, w.file, a.event, a.at, a.check, a.disk);
    OneProcessMoves(w, Next(w, a), a.pid,
                    AppendEffect(p.entries, w.file, p.clerk, p.maxRetries, a.event, a.at, a.check, a.disk).1);
  }

  lemma NextKeepsShared(w: World, a: Action)
    requires Shared(w) && !a.ReplaceFile?
    ensures Shared(Next(w, a)) && w.file <= Next(w, a).file
  {
    match a {
      case RefreshBy(pid) =>
        if pid in w.processes { RefreshKeeps(w.processes[pid], w.file); }
      case AppendBy(pid, event, at, check, disk) =>
        if pid in w.processes {
          var p := w.processes[pid];
          AppendKeeps(p, w.file, event, at, check, disk);
          var file := AppendEffect(p.entries, w.file, p.clerk, p.maxRetries, event, at, check, disk).2;
          if file != w.file {
            LargerBound(file, p.maxRetries, LargestBound);
          }
        }
    }
  }

  lemma SameBodiesTransitive(a: Log, b: Log, c: Log)
    requires |a| <= |b| <= |c| && SameBodies(b[..|a|], a) && SameBodies(c[..|b|], b)
    ensures SameBodies(c[..|a|], a)
  {
    forall i | 0 <= i < |a| ensures c[..|a|][i].Body() == a[i].Body() && c[..|a|][i].hash == a[i].hash {
      assert b[..|a|][i].Body() == a[i].Body() && b[..|a|][i].hash == a[i].hash;
      assert c[..|b|][i].Body() == b[i].Body() && c[..|b|][i].hash == b[i].hash;
    }
  }

  lemma ObservationsTransitive(u: World, v: World, w: World)
    requires ObservationsKept(u, v) && ObservationsKept(v, w)
    ensures ObservationsKept(u, w)
  {
    forall pid | pid in u.processes
      ensures |u.processes[pid].entries| <= |w.processes[pid].entries|
      ensures SameBodies(w.processes[pid].entries[..|u.processes[pid].entries|], u.processes[pid].entries)
    {
      SameBodiesTransitive(u.processes[pid].entries, v.processes[pid].entries, w.processes[pid].entries);
    }
  }

  /**
   Even if outsiders replace the file at will, no instance ever accepts a log that rewrites an entry it has
   already observed.
   */
  lemma {:induction false} ObservedNeverRewritten(w: World, actions: seq<Action>)
    requires ProcessesOk(w)
    ensures ProcessesOk(RunWorld(w, actions)) && ObservationsKept(w, RunWorld(w, actions))
  {
    if actions == [] {
      forall pid | pid in w.processes
          ensures w.processes[pid].entries[..|w.processes[pid].entries|] == w.processes[pid].entries {}
    } else {
      var before := actions[..|actions| - 1];
      ObservedNeverRewritten(w, before);
      NextKeepsObservations(RunWorld(w, before), actions[|actions| - 1]);
      ObservationsTransitive(w, RunWorld(w, before), RunWorld(w, actions));
    }
  }

  /**
   When only instances write, whatever their interleaving, failures and half-reported writes, the file always
   verifies, only grows, and every instance holds a prefix of it.
   */
  lemma {:induction false} SharingIsSafe(w: World, actions: seq<Action>)
    requires Shared(w) && forall a :: a in actions ==> !a.ReplaceFile?
    ensures Shared(RunWorld(w, actions)) && w.file <= RunWorld(w, actions).file
  {
    if actions != [] {
      var before := actions[..|actions| - 1];
      SplitLast(actions);
      SharingIsSafe(w, before);
      NextKeepsShared(RunWorld(w, before), actions[|actions| - 1]);
    }
  }

  // ----- Optimistic appends -----

  /** Action i is an append that names an expected head, and it changes the file. */
  ghost predicate WritesOn(w: World, actions: seq<Action>, i: nat, head: HeadHash) {
    && i < |actions| && actions[i].AppendBy? && actions[i].check.expectedHead == Some(head)
    && RunWorld(w, actions[..i + 1]).file != RunWorld(w, actions[..i]).file
  }

  /** An append that names a head changes the file only if that was the head just before it. */
  lemma ExpectedHeadHonoured(w: World, actions: seq<Action>, i: nat, head: HeadHash)
    requires ProcessesOk(w) && WritesOn(w, actions, i, head)
    ensures HeadOf(RunWorld(w, actions[..i]).file) == Some(head)
    ensures RunWorld(w, actions[..i]).file < RunWorld(w, actions[..i + 1]).file
  {
    var before, a := RunWorld(w, actions[..i]), actions[i];
    assert actions[..i + 1][..i] == actions[..i];
    ObservedNeverRewritten(w, actions[..i]);
    hide RunWorld, VerifiedLog, AppendEffect;
    var p := before.processes[a.pid];
    AppendWrites(p.entries, before.file, p.clerk, p.maxRetries, a.event, a.at, a.check, a.disk);
    AppendKeeps(p, before.file, a.event, a.at, a.check, a.disk);
  }

  lemma {:induction false} RunWorldGrows(w: World, actions: seq<Action>, i: nat, j: nat)
    requires Shared(w) && (forall a :: a in actions ==> !a.ReplaceFile?) && i <= j <= |actions|
    ensures RunWorld(w, actions[..i]).file <= RunWorld(w, actions[..j]).file
    ensures Shared(RunWorld(w, actions[..j]))
  {
    SharingIsSafe(w, actions[..j]);
    if i < j {
      RunWorldGrows(w, actions, i, j - 1);
      assert actions[..j][..j - 1] == actions[..j - 1];
      hide Shared;
      NextKeepsShared(RunWorld(w, actions[..j - 1]), actions[j - 1]);
    }
  }

  /** Of all appends that name one head, whoever makes them, at most one ever changes the file. */
  lemma OneWritePerHead(w: World, actions: seq<Action>, i: nat, j: nat, head: HeadHash)
    requires Shared(w) && forall a :: a in actions ==> !a.ReplaceFile?
    requires WritesOn(w, actions, i, head) && WritesOn(w, actions, j, head)
    ensures i == j
  {
    ExpectedHeadHonoured(w, actions, i, head);
    ExpectedHeadHonoured(w, actions, j, head);
    hide RunWorld, WritesOn;
    if i < j {
      LaterHeadDiffers(w, actions, i, j, head);
    } else if j < i {
      LaterHeadDiffers(w, actions, j, i, head);
    }
  }

  lemma LaterHeadDiffers(w: World, actions: seq<Action>, i: nat, j: nat, head: HeadHash)
    requires Shared(w) && (forall a :: a in actions ==> !a.ReplaceFile?) && i < j < |actions|
    requires WritesOn(w, actions, i, head)
    ensures HeadOf(RunWorld(w, actions[..j]).file) != Some(head)
  {
    ExpectedHeadHonoured(w, actions, i, head);
    RunWorldGrows(w, actions, i + 1, j);
    var before, now := RunWorld(w, actions[..i]).file, RunWorld(w, actions[..j]).file;
    hide RunWorld;
    if HeadOf(now) == Some(head) {
      assert now[|before| - 1] == before[|before| - 1];
      HashesDistinct(now, |before| - 1, |now| - 1);
    }
  }

  // ----- Moving a case's repository -----

  /** The destination half of a migration: everything but the source and the case anchor. */
  datatype Destination = Destination(
    location: Location, markerBlob: string, refCount: int, refMain: string, manifestDigest: string)

  function DestinationOf(m: Migration): Destination {
    Destination(m.destination, m.markerBlob, m.refCount, m.refMain, m.manifestDigest)
  }

  /** Is this move already recorded, absent, or in conflict with one that is? */
  function MoveRecorded(caseId: Id, to: Destination): Registered -> Result<bool> {
    (g: Registered) =>
      if caseId !in g.records then Reject
      else if g.records[caseId].migration.None? then Accept(false)
      else if DestinationOf(g.records[caseId].migration.value) == to then Accept(true)
      else Reject
  }

  function MoveOf(record: Record, to: Destination, head: Option<string>, count: int): Migration
    requires record.marker.Some? && record.location.Some?
  {
    Migration(record.marker.value, record.location.value, to.location, to.markerBlob,
              to.refCount, to.refMain, to.manifestDigest, head, count)
  }

  /** The migration to append for a request, from the records this instance has observed. */
  function PlannedMove(g: Registered, caseId: Id, to: Destination, head: Option<string>,
                       count: int): Option<Migration> {
    if && InStatus(g, caseId, Live)
       && g.records[caseId].location.Some? && g.records[caseId].marker.Some?
       && ValidDestination(MoveOf(g.records[caseId], to, head, count))
       && ValidEvidence(head, count) && AnchorCurrent(g.records[caseId], head, count)
    then
      var record := g.records[caseId];
      if record.migration.Some? then
        if DestinationOf(record.migration.value) == to then record.migration else None
      else if record.location.value.repoId.Local? && record.location.value.nodeId.None? then
        Some(MoveOf(record, to, head, count))
      else None
    else None
  }

  /** A request to move one case's repository. */
  datatype Move = Move(caseId: Id, expectedHead: HeadHash, to: Destination, head: Option<string>, count: int)

  /** The outcome, the instance's entries and the file after one request to move. */
  ghost function MigrateEffect(mine: Log, latest: Log, clerk: Option<Key>, maxRetries: int, move: Move, at: Time,
                               disk: Disk)
    : (Outcome, Log, Log)
    requires VerifiedLog(mine, maxRetries)
  {
    var plan := PlannedMove(Replayed(mine, maxRetries).value, move.caseId, move.to, move.head, move.count);
    if plan.None? then (Refused, mine, latest)
    else AppendEffect(mine, latest, clerk, maxRetries, RepositoryMigrated(move.caseId, plan.value), at,
                      Precheck(Some(move.expectedHead), Some(MoveRecorded(move.caseId, move.to))), disk)
  }

  /** migrate_repository: plan from the observed records, then append unless the latest log already has it. */
  method MigrateRepository(r: Registry, move: Move, at: Time, disk: Disk) returns (outcome: Outcome)
    requires r.Valid()
    modifies r`entries, r.file
    ensures r.Valid()
    ensures (outcome, r.entries, r.file.log) ==
            MigrateEffect(old(r.entries), old(r.file.log), r.clerk, r.maxRetries, move, at, disk)
    ensures r.file.log != old(r.file.log) ==> HeadOf(old(r.file.log)) == Some(move.expectedHead)
  {
    var observed := Replay(r.entries, r.maxRetries);
    var plan := PlannedMove(observed.value, move.caseId, move.to, move.head, move.count);
    if plan.None? {
      return Refused;
    }
    outcome := r.Append(RepositoryMigrated(move.caseId, plan.value), at,
                        Precheck(Some(move.expectedHead), Some(MoveRecorded(move.caseId, move.to))), disk);
  }

  /** This verified log records this move of the case. */
  ghost predicate RecordsMove(log: Log, maxRetries: int, caseId: Id, m: Migration) {
    && VerifiedLog(log, maxRetries)
    && caseId in Replayed(log, maxRetries).value.records
    && Replayed(log, maxRetries).value.records[caseId].migration == Some(m)
  }

  /** A recorded move stays on record on every later log. */
  lemma MoveStays(log: Log, later: Log, maxRetries: int, caseId: Id, m: Migration)
    requires RecordsMove(log, maxRetries, caseId, m) && VerifiedLog(later, maxRetries) && log <= later
    ensures RecordsMove(later, maxRetries, caseId, m)
  {
    var g, h := Replayed(log, maxRetries).value, Replayed(later, maxRetries).value;
    assert later[..|log|] == log;
    hide SignedChain, RegistryStep;
    LogGrowthProgresses(later, |log|, maxRetries, g, h);
    assert Progressed(g.records[caseId], h.records[caseId]);
  }

  /** An instance that has observed the move plans to repeat it exactly when the cited case anchor is current. */
  lemma RepeatIsPlanned(log: Log, maxRetries: int, caseId: Id, m: Migration, head: Option<string>, count: int)
    requires RecordsMove(log, maxRetries, caseId, m)
    ensures var g := Replayed(log, maxRetries).value;
            PlannedMove(g, caseId, DestinationOf(m), head, count).Some? <==>
            ValidEvidence(head, count) && AnchorCurrent(g.records[caseId], head, count)
  {
    var g := Replayed(log, maxRetries).value;
    ReplayedOk(log, maxRetries, g);
    assert RecordOk(g, caseId, maxRetries);
  }

  /**
   Once a log records a move, asking for it again on any later log never writes: the call succeeds as already recorded
   when the instance can plan it from what it has observed, which for one that has seen the move means that the cited
   case anchor is valid and current; otherwise it is refused.
   */
  lemma RepeatedMoveIsIdle(moved: Log, latest: Log, mine: Log, clerk: Key, maxRetries: int, m: Migration, move: Move,
                           at: Time, disk: Disk)
    requires RecordsMove(moved, maxRetries, move.caseId, m) && move.to == DestinationOf(m)
    requires VerifiedLog(latest, maxRetries) && moved <= latest && ClerkOf(latest) == Some(clerk)
    requires VerifiedLog(mine, maxRetries) && mine <= latest
    ensures var effect := MigrateEffect(mine, latest, Some(clerk), maxRetries, move, at, disk);
            var g := Replayed(mine, maxRetries).value;
            && effect.2 == latest
            && effect.0 == (if PlannedMove(g, move.caseId, move.to, move.head, move.count).Some?
                            then AlreadyRecorded else Refused)
            && (moved <= mine ==>
                  && move.caseId in g.records
                  && (effect.0 == AlreadyRecorded <==>
                      && ValidEvidence(move.head, move.count)
                      && AnchorCurrent(g.records[move.caseId], move.head, move.count)))
  {
    MoveStays(moved, latest, maxRetries, move.caseId, m);
    PrefixExtends(mine, latest);
    if moved <= mine {
      MoveStays(moved, mine, maxRetries, move.caseId, m);
      RepeatIsPlanned(mine, maxRetries, move.caseId, m, move.head, move.count);
    }
    hide SignedChain, Replayed, PlannedMove, Extends;
  }

  lemma PrefixExtends(mine: Log, latest: Log)
    requires SignedChain(mine) && mine <= latest
    ensures Extends(mine, latest)
  {
    assert latest[|mine| - 1] == mine[|mine| - 1];
  }

  /** A request that appends leaves a log that records its move. */
  lemma AppendedMoveIsRecorded(mine: Log, latest: Log, clerk: Option<Key>, maxRetries: int, move: Move, at: Time,
                               disk: Disk)
    requires VerifiedLog(mine, maxRetries)
    requires MigrateEffect(mine, latest, clerk, maxRetries, move, at, disk).0 == Appended
    ensures exists m :: && DestinationOf(m) == move.to
                        && RecordsMove(MigrateEffect(mine, latest, clerk, maxRetries, move, at, disk).2,
                                       maxRetries, move.caseId, m)
  {
    var plan := PlannedMove(Replayed(mine, maxRetries).value, move.caseId, move.to, move.head, move.count);
    assert DestinationOf(plan.value) == move.to;
    hide PlannedMove, SignedChain;
    NewMoveIsRecorded(latest, clerk.value, maxRetries, move.caseId, plan.value, at);
  }

  lemma NewMoveIsRecorded(latest: Log, clerk: Key, maxRetries: int, caseId: Id, m: Migration, at: Time)
    requires var longer := latest + [SignedNext(latest, RepositoryMigrated(caseId, m), clerk, at)];
             VerifiedLog(latest, maxRetries) && VerifiedLog(longer, maxRetries)
    ensures RecordsMove(latest + [SignedNext(latest, RepositoryMigrated(caseId, m), clerk, at)], maxRetries, caseId, m)
  {
    var entry := SignedNext(latest, RepositoryMigrated(caseId, m), clerk, at);
    var longer := latest + [entry];
    assert longer[..|longer| - 1] == latest;
    var before := Replayed(latest, maxRetries).value;
    assert Replayed(longer, maxRetries) == RegistryStep(before, entry.event, entry.at, maxRetries);
  }

  // ----- When a move is written, told by the logs -----

  /** Replay reads events and times only. */
  lemma {:induction false} SameReplay(a: Log, b: Log, maxRetries: int)
    requires SameBodies(a, b)
    ensures Replayed(a, maxRetries) == Replayed(b, maxRetries)
  {
    if |a| > 1 {
      hide RegistryStep;
      var n := |a| - 1;
      assert SameBodies(a[..n], b[..n]) by {
        forall i | 0 <= i < n ensures a[..n][i].Body() == b[..n][i].Body() && a[..n][i].hash == b[..n][i].hash {
          assert a[i].Body() == b[i].Body() && a[i].hash == b[i].hash;
        }
      }
      SameReplay(a[..n], b[..n], maxRetries);
      assert a[n].Body() == b[n].Body();
    }
  }

  /** The move a request asks for, from the entry that provisioned the case. */
  ghost function AskedMove(log: Log, move: Move): RegistryEvent
    requires Has(log, ProvisionItem(move.caseId))
  {
    var e, to := Said(log, ProvisionItem(move.caseId)), move.to;
    RepositoryMigrated(move.caseId, Migration(e.marker, e.location, to.location, to.markerBlob, to.refCount, to.refMain,
                                              to.manifestDigest, move.head, move.count))
  }

  lemma PlanMeans(log: Log, maxRetries: int, move: Move, g: Registered)
    requires Replayed(log, maxRetries) == Accept(g)
    ensures var plan := PlannedMove(g, move.caseId, move.to, move.head, move.count);
            && (plan.Some? && g.records[move.caseId].migration.None? <==>
                Has(log, ProvisionItem(move.caseId)) && Movable(log, AskedMove(log, move)))
            && (plan.Some? && g.records[move.caseId].migration.None? ==>
                  RepositoryMigrated(move.caseId, plan.value) == AskedMove(log, move))
  {
    hide Replayed;
    ReplayedMirrors(log, g, maxRetries);
    ReadRepository(log, g, move.caseId);
    ReadProgress(log, g, move.caseId);
    assert move.caseId in g.records ==> Shaped(g.records[move.caseId]);
    hide Mirrors, Has, AnchorOf;
  }

  /** A case that moved in what an instance has observed has moved in every log it would adopt. */
  lemma MovedStaysMoved(mine: Log, latest: Log, maxRetries: int, c: Id, g: Registered, h: Registered)
    requires Replayed(mine, maxRetries) == Accept(g) && Replayed(latest, maxRetries) == Accept(h)
    requires |mine| <= |latest| && SameBodies(latest[..|mine|], mine)
    requires c in g.records && g.records[c].migration.Some?
    ensures c in h.records && h.records[c].migration.Some?
  {
    hide Replayed;
    SameReplay(latest[..|mine|], mine, maxRetries);
    LogGrowthProgresses(latest, |mine|, maxRetries, g, h);
    assert Progressed(g.records[c], h.records[c]);
  }

  lemma StepOf(latest: Log, maxRetries: int, e: RegistryEvent, at: Time)
    requires Replayed(latest, maxRetries).Accept?
    ensures RegistryStep(Replayed(latest, maxRetries).value, e, at, maxRetries).Accept? <==>
            Lawful(latest, e, maxRetries)
  {
    hide Replayed, RegistryStep, Lawful;
    ReplayedMirrors(latest, Replayed(latest, maxRetries).value, maxRetries);
    StepLaw(latest, Replayed(latest, maxRetries).value, e, at, maxRetries);
  }

  /** A migration that the records accept meets no earlier one. */
  lemma LawfulIsFirst(latest: Log, maxRetries: int, move: Move, e: RegistryEvent, at: Time)
    requires Replayed(latest, maxRetries).Accept? && e.RepositoryMigrated? && e.caseId == move.caseId
    requires RegistryStep(Replayed(latest, maxRetries).value, e, at, maxRetries).Accept?
    ensures var g := Replayed(latest, maxRetries).value;
            && move.caseId in g.records && g.records[move.caseId].migration.None?
            && MoveRecorded(move.caseId, move.to)(g) == Accept(false)
  {
    hide Replayed;
  }

  /**
   A request to move appends exactly when its instance observes a case that can move and never did, the log under the
   lock is adopted, ends on the expected head no later than now, and may lawfully be followed by that very move, and the
   write is confirmed; the move names the marker and the repository of the case's own provisioning entry.
   */
  lemma MoveExactly(mine: Log, latest: Log, clerk: Option<Key>, maxRetries: int, move: Move, at: Time, disk: Disk)
    requires VerifiedLog(mine, maxRetries)
    ensures var (outcome, _, file) := MigrateEffect(mine, latest, clerk, maxRetries, move, at, disk);
            var writes :=
              && Has(mine, ProvisionItem(move.caseId)) && Movable(mine, AskedMove(mine, move))
              && Adoptable(mine, latest, clerk, maxRetries)
              && latest[|latest| - 1].hash == move.expectedHead && latest[|latest| - 1].at <= at
              && Lawful(latest, AskedMove(mine, move), maxRetries);
            && (outcome == Appended <==> writes && disk == Durable)
            && file == (if writes && disk != NotReplaced
                        then latest + [SignedNext(latest, AskedMove(mine, move), clerk.value, at)] else latest)
  {
    var g := Replayed(mine, maxRetries).value;
    var plan := PlannedMove(g, move.caseId, move.to, move.head, move.count);
    PlanMeans(mine, maxRetries, move, g);
    assert plan.Some? ==> move.caseId in g.records;
    if plan.Some? {
      PlannedExactly(mine, latest, clerk, maxRetries, move, at, disk, plan.value);
    }
    hide PlannedMove, AppendEffect, Movable, Has, AskedMove, Adoptable, Lawful, VerifiedLog, Replayed;
  }

  lemma PlannedExactly(mine: Log, latest: Log, clerk: Option<Key>, maxRetries: int, move: Move, at: Time, disk: Disk,
                       m: Migration)
    requires VerifiedLog(mine, maxRetries)
    requires PlannedMove(Replayed(mine, maxRetries).value, move.caseId, move.to, move.head, move.count) == Some(m)
    ensures var e := RepositoryMigrated(move.caseId, m);
            var (outcome, _, file) := MigrateEffect(mine, latest, clerk, maxRetries, move, at, disk);
            var writes :=
              && Adoptable(mine, latest, clerk, maxRetries)
              && latest[|latest| - 1].hash == move.expectedHead && latest[|latest| - 1].at <= at
              && Lawful(latest, e, maxRetries);
            && (outcome == Appended <==> writes && disk == Durable)
            && file == (if writes && disk != NotReplaced then latest + [SignedNext(latest, e, clerk.value, at)]
                        else latest)
            && (writes && move.caseId in Replayed(mine, maxRetries).value.records ==>
                  Replayed(mine, maxRetries).value.records[move.caseId].migration.None?)
  {
    var e := RepositoryMigrated(move.caseId, m);
    var check := Precheck(Some(move.expectedHead), Some(MoveRecorded(move.caseId, move.to)));
    AppendExactly(mine, latest, clerk, maxRetries, e, at, check, disk);
    hide AppendEffect, SignedChain, SameBodies, PlannedMove, Replayed, Lawful, Writable;
    if Adoptable(mine, latest, clerk, maxRetries) {
      WritableMove(latest, maxRetries, move, e, at);
      if Writable(latest, maxRetries, e, at, check) {
        WritableIsFirst(mine, latest, maxRetries, move, e, at);
      }
    }
  }

  lemma WritableMove(latest: Log, maxRetries: int, move: Move, e: RegistryEvent, at: Time)
    requires VerifiedLog(latest, maxRetries) && e.RepositoryMigrated? && e.caseId == move.caseId
    ensures Writable(latest, maxRetries, e, at,
                     Precheck(Some(move.expectedHead), Some(MoveRecorded(move.caseId, move.to)))) <==>
            && latest[|latest| - 1].hash == move.expectedHead && latest[|latest| - 1].at <= at
            && Lawful(latest, e, maxRetries)
  {
    StepOf(latest, maxRetries, e, at);
    if Lawful(latest, e, maxRetries) {
      LawfulIsFirst(latest, maxRetries, move, e, at);
    }
    hide SignedChain, RegistryStep, Replayed, Lawful, MoveRecorded;
  }

  lemma WritableIsFirst(mine: Log, latest: Log, maxRetries: int, move: Move, e: RegistryEvent, at: Time)
    requires VerifiedLog(mine, maxRetries) && VerifiedLog(latest, maxRetries)
    requires |mine| <= |latest| && SameBodies(latest[..|mine|], mine)
    requires e.RepositoryMigrated? && e.caseId == move.caseId
    requires RegistryStep(Replayed(latest, maxRetries).value, e, at, maxRetries).Accept?
    ensures move.caseId in Replayed(mine, maxRetries).value.records ==>
              Replayed(mine, maxRetries).value.records[move.caseId].migration.None?
  {
    hide SignedChain, Replayed, SameBodies, RegistryStep;
    LawfulIsFirst(latest, maxRetries, move, e, at);
    FirstForMine(mine, latest, maxRetries, move.caseId);
  }

  lemma FirstForMine(mine: Log, latest: Log, maxRetries: int, c: Id)
    requires Replayed(mine, maxRetries).Accept? && Replayed(latest, maxRetries).Accept?
    requires |mine| <= |latest| && SameBodies(latest[..|mine|], mine)
    requires c in Replayed(latest, maxRetries).value.records
    requires Replayed(latest, maxRetries).value.records[c].migration.None?
    ensures c in Replayed(mine, maxRetries).value.records ==>
              Replayed(mine, maxRetries).value.records[c].migration.None?
  {
    hide Replayed, SameBodies;
    var g := Replayed(mine, maxRetries).value;
    if c in g.records && g.records[c].migration.Some? {
      MovedStaysMoved(mine, latest, maxRetries, c, g, Replayed(latest, maxRetries).value);
    }
  }
}
