/** Several registry instances appending to, and refreshing from, one durable file. */
module RegistryLog {
  import opened Basics
  import opened Chain
  import opened RegistryReplay

  type Log = seq<RegistryEntry>
  type HeadHash = Hash<RegistryEvent>

  function ClerkOf(log: Log): Option<Key> {
    if log != [] && log[0].event.RegistryOpened? then Some(log[0].event.clerkKey) else None
  }

  /** A linked chain of clerk-signed entries with monotone times. */
  ghost predicate SignedChain(log: Log) {
    && log != [] && ClerkOf(log).Some?
    && Linked(log) && TimesMonotone(log)
    && forall i ::
        0 <= i < |log| ==> log[i].receipt == Signature(ClerkOf(log).value, Receipt(i, log[i].prev, log[i].hash))
  }

  /** What Registry.verify accepts under a retry bound. */
  ghost predicate VerifiedLog(log: Log, maxRetries: int) {
    SignedChain(log) && Replayed(log, maxRetries).Accept?
  }

  const LargestBound: int := 32

  /** Walk the chain, carrying the previous hash and time, then replay it. */
  method VerifyLog(log: Log, maxRetries: int) returns (ok: bool)
    ensures ok <==> VerifiedLog(log, maxRetries)
  {
    if ClerkOf(log).None? {
      return false;
    }
    var clerk := ClerkOf(log).value;
    var previousHash: Option<HeadHash> := None;
    for n := 0 to |log|
      invariant previousHash == HeadOf(log[..n])
      invariant Linked(log[..n])
      invariant forall i, j :: 0 <= i < j < n ==> log[i].at <= log[j].at
      invariant forall i :: 0 <= i < n ==> log[i].receipt == Signature(clerk, Receipt(i, log[i].prev, log[i].hash))
    {
      var entry := log[n];
      assert log[..n + 1] == log[..n] + [entry];
      assert Linked(log) ==> LinkedAt(log, n);
      if || entry.seqNo != n
         || (n > 0 && entry.at < log[n - 1].at)
         || entry.prev != previousHash
         || entry.hash != Digest(entry.seqNo, entry.at, entry.prev, entry.event)
         || entry.receipt != Signature(clerk, Receipt(n, entry.prev, entry.hash))
      {
        return false;
      }
      LinkedAppend(log[..n], entry);
      previousHash := Some(entry.hash);
    }
    assert log[..|log|] == log;
    var replayed := Replay(log, maxRetries);
    return replayed.Accept?;
  }

  /** What a reader that holds only the founding key checks of one entry against the one before it. */
  predicate InTurn(log: Log, i: nat)
    requires i < |log| && log[0].event.RegistryOpened?
  {
    var e := log[i];
    && e.seqNo == i
    && (if i == 0 then e.prev.None? else e.prev == Some(log[i - 1].hash) && log[i - 1].at <= e.at)
    && e.hash == Digest(e.seqNo, e.at, e.prev, e.event)
    && e.receipt == Signature(log[0].event.clerkKey, Receipt(i, e.prev, e.hash))
  }

  ghost predicate AllInTurn(log: Log) {
    log != [] && log[0].event.RegistryOpened? && forall i :: 0 <= i < |log| ==> InTurn(log, i)
  }

  lemma {:induction false} TimesInTurn(log: Log, i: nat, j: nat)
    requires AllInTurn(log) && i <= j < |log|
    ensures log[i].at <= log[j].at
  {
    if i < j {
      TimesInTurn(log, i, j - 1);
      assert InTurn(log, j);
    }
  }

  lemma LinkedInTurn(log: Log, i: nat)
    requires log != [] && log[0].event.RegistryOpened? && i < |log|
    ensures InTurn(log, i) ==> LinkedAt(log, i)
    ensures && LinkedAt(log, i) && (i > 0 ==> log[i - 1].at <= log[i].at)
            && log[i].receipt == Signature(log[0].event.clerkKey, Receipt(i, log[i].prev, log[i].hash)) ==>
              InTurn(log, i)
  {
    assert HeadOf(log[..i]) == if i == 0 then None else Some(log[i - 1].hash) by {
      if i > 0 {
        assert log[..i][|log[..i]| - 1] == log[i - 1];
      }
    }
  }

  /** A signed chain is exactly a log whose every entry passes its check against the one before. */
  lemma SignedChainInTurn(log: Log)
    ensures SignedChain(log) <==> AllInTurn(log)
  {
    if SignedChain(log) {
      forall i | 0 <= i < |log| ensures InTurn(log, i) {
        assert LinkedAt(log, i);
        LinkedInTurn(log, i);
      }
    }
    if AllInTurn(log) {
      forall i, j | 0 <= i < j < |log| ensures log[i].at <= log[j].at {
        TimesInTurn(log, i, j);
      }
      forall i | 0 <= i < |log|
        ensures LinkedAt(log, i)
        ensures log[i].receipt == Signature(log[0].event.clerkKey, Receipt(i, log[i].prev, log[i].hash))
      {
        assert InTurn(log, i);
        LinkedInTurn(log, i);
      }
    }
  }

  // ----- One hash stands for the whole observed prefix -----

  /** _require_extension: same clerk, not shorter, and the same hash at the observed length. */
  predicate Extends(mine: Log, latest: Log) {
    && ClerkOf(latest) == ClerkOf(mine)
    && mine != [] && |mine| <= |latest|
    && latest[|mine| - 1].hash == mine[|mine| - 1].hash
  }

  /** Between verified logs, that comparison decides equality of every observed body. */
  lemma ExtensionKeepsPrefix(mine: Log, latest: Log)
    requires SignedChain(mine) && SignedChain(latest)
    ensures Extends(mine, latest) <==> |mine| <= |latest| && SameBodies(latest[..|mine|], mine)
  {
    if Extends(mine, latest) {
      HashFixesPrefix(latest, mine, |mine|);
      assert mine[..|mine|] == mine;
    }
    if |mine| <= |latest| && SameBodies(latest[..|mine|], mine) {
      assert latest[..|mine|][|mine| - 1].hash == mine[|mine| - 1].hash;
      assert latest[..|mine|][0].Body() == mine[0].Body();
    }
  }

  // ----- Appending -----

  /** How the replacement of the file ends: unchanged, replaced but reported failed, or replaced. */
  datatype Disk = NotReplaced | ReplacedUnconfirmed | Durable

  datatype Outcome = Appended | AlreadyRecorded | Refused

  /** What a transition asks of the latest log before writing: an expected head, and a check for a repeat. */
  datatype Precheck = Precheck(expectedHead: Option<HeadHash>, repeat: Option<Registered -> Result<bool>>)

  function SignedNext(log: Log, event: RegistryEvent, clerk: Key, at: Time): RegistryEntry {
    var hash := Digest(|log|, at, HeadOf(log), event);
    Entry(|log|, at, HeadOf(log), event, hash, Signature(clerk, Receipt(|log|, HeadOf(log), hash)))
  }

  lemma SignedNextChain(log: Log, event: RegistryEvent, at: Time)
    requires SignedChain(log) && log[|log| - 1].at <= at
    ensures SignedChain(log + [SignedNext(log, event, ClerkOf(log).value, at)])
  {
    LinkedAppend(log, SignedNext(log, event, ClerkOf(log).value, at));
  }

  /** What the caller's check says about the latest records. */
  ghost function RepeatCheck(check: Precheck, latest: Log, maxRetries: int): Result<bool> {
    if check.repeat.None? then Accept(false)
    else
      match Replayed(latest, maxRetries)
      case Reject => Reject
      case Accept(g) => check.repeat.value(g)
  }

  /** The outcome, the instance's entries and the file after one locked append. */
  ghost function AppendEffect(mine: Log, latest: Log, clerk: Option<Key>, maxRetries: int, event: RegistryEvent,
                              at: Time, check: Precheck, disk: Disk): (Outcome, Log, Log)
  {
    if clerk.None? || !VerifiedLog(latest, maxRetries) || ClerkOf(latest) != clerk || !Extends(mine, latest)
    then (Refused, mine, latest)
    else if RepeatCheck(check, latest, maxRetries).Reject? then (Refused, latest, latest)
    else if RepeatCheck(check, latest, maxRetries).value then (AlreadyRecorded, latest, latest)
    else if check.expectedHead.Some? && HeadOf(latest) != check.expectedHead then (Refused, latest, latest)
    else if at < latest[|latest| - 1].at then (Refused, latest, latest)
    else
      var longer := latest + [SignedNext(latest, event, clerk.value, at)];
      if !VerifiedLog(longer, maxRetries) || disk == NotReplaced then (Refused, latest, latest)
      else if disk == ReplacedUnconfirmed then (Refused, latest, longer)
      else (Appended, longer, longer)
  }

  /** The log as this instance finds it under the lock: verified, its own clerk's, and an extension of what it knows. */
  ghost predicate Adoptable(mine: Log, latest: Log, clerk: Option<Key>, maxRetries: int) {
    && clerk.Some? && VerifiedLog(latest, maxRetries) && ClerkOf(latest) == clerk
    && |mine| <= |latest| && SameBodies(latest[..|mine|], mine)
  }

  /** Nothing stands between this event and the file: no repeat, the head the caller expects, and its turn in time. */
  ghost predicate Writable(latest: Log, maxRetries: int, event: RegistryEvent, at: Time, check: Precheck)
    requires VerifiedLog(latest, maxRetries)
  {
    && (check.repeat.Some? ==> check.repeat.value(Replayed(latest, maxRetries).value) == Accept(false))
    && (check.expectedHead.Some? ==> check.expectedHead.value == latest[|latest| - 1].hash)
    && latest[|latest| - 1].at <= at
    && RegistryStep(Replayed(latest, maxRetries).value, event, at, maxRetries).Accept?
  }

  /** A signed next entry verifies exactly when the records accept its event. */
  lemma NextVerifies(latest: Log, event: RegistryEvent, at: Time, maxRetries: int)
    requires VerifiedLog(latest, maxRetries) && latest[|latest| - 1].at <= at
    ensures VerifiedLog(latest + [SignedNext(latest, event, ClerkOf(latest).value, at)], maxRetries) <==>
            RegistryStep(Replayed(latest, maxRetries).value, event, at, maxRetries).Accept?
  {
    var longer := latest + [SignedNext(latest, event, ClerkOf(latest).value, at)];
    SignedNextChain(latest, event, at);
    assert longer[..|longer| - 1] == latest;
    hide RegistryStep, SignedChain;
  }

  lemma AppendAdopted(mine: Log, latest: Log, clerk: Key, maxRetries: int, event: RegistryEvent, at: Time,
                      check: Precheck, disk: Disk)
    requires VerifiedLog(latest, maxRetries) && ClerkOf(latest) == Some(clerk) && Extends(mine, latest)
    ensures var (outcome, entries, file) :=
              AppendEffect(mine, latest, Some(clerk), maxRetries, event, at, check, disk);
            var writes := Writable(latest, maxRetries, event, at, check);
            && (outcome == Appended <==> writes && disk == Durable)
            && (outcome == AlreadyRecorded <==>
                  check.repeat.Some? && check.repeat.value(Replayed(latest, maxRetries).value) == Accept(true))
            && file == (if writes && disk != NotReplaced
                        then latest + [SignedNext(latest, event, clerk, at)] else latest)
            && entries == (if outcome == Appended then file else latest)
  {
    assert HeadOf(latest) == Some(latest[|latest| - 1].hash);
    if latest[|latest| - 1].at <= at {
      NextVerifies(latest, event, at, maxRetries);
    }
    hide SignedChain, Replayed, RegistryStep, Extends, HeadOf, SignedNext;
  }

  /** When an append writes, reports success, or reports a repeat, and that anything else changes nothing on disk. */
  lemma AppendExactly(mine: Log, latest: Log, clerk: Option<Key>, maxRetries: int, event: RegistryEvent, at: Time,
                      check: Precheck, disk: Disk)
    requires SignedChain(mine)
    ensures var (outcome, entries, file) :=
              AppendEffect(mine, latest, clerk, maxRetries, event, at, check, disk);
            var adopts := Adoptable(mine, latest, clerk, maxRetries);
            var writes := adopts && Writable(latest, maxRetries, event, at, check);
            && (outcome == Appended <==> writes && disk == Durable)
            && (outcome == AlreadyRecorded <==>
                  && adopts && check.repeat.Some?
                  && check.repeat.value(Replayed(latest, maxRetries).value) == Accept(true))
            && file == (if writes && disk != NotReplaced
                        then latest + [SignedNext(latest, event, clerk.value, at)] else latest)
            && entries == (if outcome == Appended then file else if adopts then latest else mine)
  {
    if VerifiedLog(latest, maxRetries) {
      ExtensionKeepsPrefix(mine, latest);
    }
    hide SignedChain, Replayed, RegistryStep, SameBodies, Writable;
    if Adoptable(mine, latest, clerk, maxRetries) {
      AppendAdopted(mine, latest, clerk.value, maxRetries, event, at, check, disk);
      hide AppendEffect;
    }
  }

  /** An append first adopts the latest log, or refuses. */
  lemma AdoptFirst(mine: Log, latest: Log, clerk: Option<Key>, maxRetries: int, event: RegistryEvent, at: Time,
                   check: Precheck, disk: Disk)
    ensures AppendEffect(mine, latest, clerk, maxRetries, event, at, check, disk) ==
            if clerk.Some? && VerifiedLog(latest, maxRetries) && ClerkOf(latest) == clerk && Extends(mine, latest)
            then AppendEffect(latest, latest, clerk, maxRetries, event, at, check, disk)
            else (Refused, mine, latest)
  {
    hide SignedChain, Replayed;
  }

  lemma AppendWrites(mine: Log, latest: Log, clerk: Option<Key>, maxRetries: int, event: RegistryEvent, at: Time,
                     check: Precheck, disk: Disk)
    requires SignedChain(mine)
    ensures var (outcome, _, file) := AppendEffect(mine, latest, clerk, maxRetries, event, at, check, disk);
            && (outcome == Appended <==>
                  && Adoptable(mine, latest, clerk, maxRetries)
                  && Writable(latest, maxRetries, event, at, check) && disk == Durable)
            && (file != latest && check.expectedHead.Some? ==> HeadOf(latest) == check.expectedHead)
  {
    AppendExactly(mine, latest, clerk, maxRetries, event, at, check, disk);
    hide AppendEffect, SignedChain, Replayed, RegistryStep, SameBodies;
  }

  /** The durable file all instances share. */
  class RegistryFile {
    var log: Log

    constructor (log: Log)
      ensures this.log == log
    {
      this.log := log;
    }
  }

  class Registry {
    const file: RegistryFile
    const maxRetries: int
    const clerk: Option<Key>
    var entries: Log

    ghost predicate Valid()
      reads this
    {
      && 0 <= maxRetries <= LargestBound
      && VerifiedLog(entries, maxRetries)
      && (clerk.Some? ==> clerk == ClerkOf(entries))
    }

    /** Observe a file whose log verifies. */
    constructor (file: RegistryFile, clerk: Option<Key>, maxRetries: int)
      requires 0 <= maxRetries <= LargestBound && VerifiedLog(file.log, maxRetries)
      requires clerk.Some? ==> clerk == ClerkOf(file.log)
      ensures Valid() && this.file == file && this.maxRetries == maxRetries && this.clerk == clerk
      ensures entries == file.log
    {
      this.file, this.clerk, this.maxRetries, this.entries := file, clerk, maxRetries, file.log;
    }

    /** Load the latest log if it verifies and extends the observed one; otherwise keep the observed one. */
    method Refresh() returns (ok: bool)
      requires Valid()
      modifies this`entries
      ensures Valid()
      ensures ok <==> VerifiedLog(file.log, maxRetries) && Extends(old(entries), file.log)
      ensures entries == if ok then file.log else old(entries)
      ensures |old(entries)| <= |entries| && SameBodies(entries[..|old(entries)|], old(entries))
    {
      var latest := file.log;
      ok := VerifyLog(latest, maxRetries);
      if ok {
        ExtensionKeepsPrefix(entries, latest);
        ok := Extends(entries, latest);
      }
      if ok {
        entries := latest;
      } else {
        assert entries[..|entries|] == entries;
      }
    }

    /** Under the write lock: adopt the latest log, append one signed entry, verify, and replace the file. */
    method Append(event: RegistryEvent, at: Time, check: Precheck, disk: Disk) returns (outcome: Outcome)
      requires Valid()
      modifies this`entries, file
      ensures Valid()
      ensures (outcome, entries, file.log) ==
              AppendEffect(old(entries), old(file.log), clerk, maxRetries, event, at, check, disk)
      ensures |old(entries)| <= |entries| && SameBodies(entries[..|old(entries)|], old(entries))
      ensures file.log == old(file.log)
              || file.log == old(file.log) + [SignedNext(old(file.log), event, clerk.value, at)]
      ensures outcome == Appended <==>
                && Adoptable(old(entries), old(file.log), clerk, maxRetries)
                && Writable(old(file.log), maxRetries, event, at, check) && disk == Durable
      ensures file.log != old(file.log) && check.expectedHead.Some? ==> HeadOf(old(file.log)) == check.expectedHead
    {
      AppendWrites(entries, file.log, clerk, maxRetries, event, at, check, disk);
      AdoptFirst(entries, file.log, clerk, maxRetries, event, at, check, disk);
      hide Writable, Adoptable, AppendEffect, SignedChain, Replayed;
      assert entries[..|entries|] == entries;
      if clerk.None? {
        return Refused;
      }
      var latest := file.log;
      var verified := VerifyLog(latest, maxRetries);
      if !verified || ClerkOf(latest) != clerk || !Extends(entries, latest) {
        return Refused;
      }
      ExtensionKeepsPrefix(entries, latest);
      entries := latest;
      outcome := AppendHere(event, at, check, disk);
    }

    /** Append to the latest log, just adopted, unless the caller's checks or the clock stand against it. */
    method AppendHere(event: RegistryEvent, at: Time, check: Precheck, disk: Disk) returns (outcome: Outcome)
      requires Valid() && clerk.Some? && entries == file.log
      modifies this`entries, file
      ensures Valid() && old(entries) <= entries
      ensures (outcome, entries, file.log) ==
              AppendEffect(old(file.log), old(file.log), clerk, maxRetries, event, at, check, disk)
      ensures file.log == old(file.log)
              || file.log == old(file.log) + [SignedNext(old(file.log), event, clerk.value, at)]
    {
      hide SignedChain, Replayed, RegistryStep;
      var latest := entries;
      if check.repeat.Some? {
        var registered := Replay(latest, maxRetries);
        var repeated := check.repeat.value(registered.value);
        if repeated.Reject? {
          return Refused;
        }
        if repeated.value {
          return AlreadyRecorded;
        }
      }
      if check.expectedHead.Some? && HeadOf(latest) != check.expectedHead {
        return Refused;
      }
      if at < latest[|latest| - 1].at {
        return Refused;
      }
      outcome := WriteNext(latest, event, at, disk);
    }

    /** Append in memory, verify, persist; take the entry back if either fails. */
    method WriteNext(latest: Log, event: RegistryEvent, at: Time, disk: Disk) returns (outcome: Outcome)
      requires Valid() && clerk.Some? && latest == entries == file.log && latest[|latest| - 1].at <= at
      modifies this`entries, file
      ensures Valid()
      ensures var longer := latest + [SignedNext(latest, event, clerk.value, at)];
              && (outcome == Appended <==> VerifiedLog(longer, maxRetries) && disk == Durable)
              && outcome != AlreadyRecorded
              && entries == (if outcome == Appended then longer else latest)
              && file.log == (if VerifiedLog(longer, maxRetries) && disk != NotReplaced then longer else latest)
    {
      entries := latest + [SignedNext(latest, event, clerk.value, at)];
      var verified := VerifyLog(entries, maxRetries);
      if !verified || disk == NotReplaced {
        entries := entries[..|entries| - 1];
        return Refused;
      }
      file.log := entries;
      if disk == ReplacedUnconfirmed {
        entries := entries[..|entries| - 1];
        return Refused;
      }
      return Appended;
    }
  }
}
