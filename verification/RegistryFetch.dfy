/** Fetching a registry index: proofs in chunks, one retry, and races with other clients of the trust store. */
module RegistryFetch {
  import opened Basics
  import opened Chain
  import opened RegistryReplay
  import opened RegistryLog
  import opened RegistryTrust

  datatype SnapshotBody = SnapshotBody(clerk: Key, head: HeadHash, count: int, problems: string)

  datatype Snapshot = Snapshot(body: SnapshotBody, signature: Signature<SnapshotBody>)

  /** A snapshot of a log in range, signed by the clerk it names. */
  predicate Signed(s: Snapshot) {
    1 <= s.body.count <= MaxEntries && s.signature == Signature(s.body.clerk, s.body)
  }

  /** verify_registry_snapshot: any pin matches, and the snapshot is signed. */
  predicate SnapshotOk(s: Snapshot, pin: Option<Key>) {
    (pin.Some? ==> s.body.clerk == pin.value) && Signed(s)
  }

  /** What a server answers for a range; None stands for a failed or late request. */
  type Server = (int, int) -> Option<ChainProof>

  function Chunks(serve: Server, current: int, goal: int): Option<seq<ChainProof>>
    decreases if current < goal then goal - current else 0
  {
    if current >= goal then Some([])
    else
      var target := Least(current + MaxProofLinks, goal);
      match (serve(current, target), Chunks(serve, target, goal))
      case (Some(proof), Some(rest)) => Some([proof] + rest)
      case _ => None
  }

  method FetchChunks(serve: Server, from: int, goal: int) returns (proofs: Option<seq<ChainProof>>)
    ensures proofs == Chunks(serve, from, goal)
  {
    var current, fetched := from, [];
    assert Chunks(serve, from, goal).Some? ==> [] + Chunks(serve, from, goal).value == Chunks(serve, from, goal).value;
    while current < goal
      invariant Chunks(serve, from, goal) ==
                match Chunks(serve, current, goal) { case None => None case Some(rest) => Some(fetched + rest) }
      decreases if current < goal then goal - current else 0
    {
      var target := Least(current + MaxProofLinks, goal);
      var proof := serve(current, target);
      if proof.None? {
        return None;
      }
      if Chunks(serve, target, goal).Some? {
        assert fetched + ([proof.value] + Chunks(serve, target, goal).value)
            == (fetched + [proof.value]) + Chunks(serve, target, goal).value;
      }
      current, fetched := target, fetched + [proof.value];
    }
    assert fetched + [] == fetched;
    return Some(fetched);
  }

  datatype Fetched = ExplicitPin | Judged(verdict: Verdict) | Failed

  function AnchorOf(origins: Origins, o: string): Option<Anchor> {
    if o in origins then Some(origins[o]) else None
  }

  function ProofsFor(anchor: Option<Anchor>, s: SnapshotBody, serve: Server): Option<seq<ChainProof>> {
    if anchor.Some? && anchor.value.key == s.clerk && anchor.value.count < s.count
    then Chunks(serve, anchor.value.count, s.count)
    else Some([])
  }

  /** The anchor a snapshot proposes. */
  function Proposed(s: SnapshotBody): Anchor {
    Anchor(s.clerk, s.count, s.head)
  }

  /** One attempt: read the anchor, fetch proofs from there, let other clients finish their calls, then judge. */
  function Attempt(origins: Origins, o: string, s: SnapshotBody, serve: Server, others: seq<Call>): (Fetched, Origins) {
    if |origins| > MaxOrigins || ProofsFor(AnchorOf(origins, o), s, serve).None? then (Failed, origins)
    else
      var call := Call(o, Proposed(s), ProofsFor(AnchorOf(origins, o), s, serve).value);
      var raced := RecordedAll(origins, others);
      (Judged(Judge(raced, call)), Recorded(raced, call))
  }

  /** A second attempt follows only a proof that no longer fits the anchor. */
  function FetchEffect(origins: Origins, o: string, s: Snapshot, pin: Option<Key>, serve: (Server, Server),
                       others: (seq<Call>, seq<Call>))
    : (Fetched, Origins)
  {
    if !SnapshotOk(s, pin) then (Failed, origins)
    else if pin.Some? then (ExplicitPin, origins)
    else
      var first := Attempt(origins, o, s.body, serve.0, others.0);
      if first.0 == Judged(ProofFailed(WrongRange)) then Attempt(first.1, o, s.body, serve.1, others.1) else first
  }

  /** What each ending says about the snapshot and the store. */
  lemma FetchMeans(origins: Origins, o: string, s: Snapshot, pin: Option<Key>, serve: (Server, Server),
                   others: (seq<Call>, seq<Call>))
    ensures var (fetched, after) := FetchEffect(origins, o, s, pin, serve, others);
            && (fetched == ExplicitPin <==> pin == Some(s.body.clerk) && Signed(s))
            && (pin.Some? ==> after == origins && (fetched == ExplicitPin || fetched == Failed))
            && (!Signed(s) ==> fetched == Failed && after == origins)
            && (fetched.Judged? && fetched.verdict.Trusts() ==> o in after && after[o] == Proposed(s.body))
  {
    hide RecordedAll, ProofsFor, Follow;
  }

  /** fetch_registry_index. Other clients' calls land between reading the anchor and judging the snapshot. */
  method FetchIndex(store: TrustStore, o: string, s: Snapshot, pin: Option<Key>, serve: (Server, Server),
                    others: (seq<Call>, seq<Call>))
    returns (fetched: Fetched)
    modifies store
    ensures (fetched, store.origins) == FetchEffect(old(store.origins), o, s, pin, serve, others)
    ensures fetched == ExplicitPin <==>
              && pin == Some(s.body.clerk) && 1 <= s.body.count <= MaxEntries
              && s.signature == Signature(s.body.clerk, s.body)
    ensures pin.Some? && fetched != ExplicitPin ==> fetched == Failed
    ensures pin.Some? || !Signed(s) ==> store.origins == old(store.origins)
    ensures fetched.Judged? && fetched.verdict.Trusts() ==>
              && pin.None? && 1 <= s.body.count <= MaxEntries && s.signature == Signature(s.body.clerk, s.body)
              && o in store.origins && store.origins[o] == Anchor(s.body.clerk, s.body.count, s.body.head)
  {
    FetchMeans(store.origins, o, s, pin, serve, others);
    if !SnapshotOk(s, pin) {
      return Failed;
    }
    if pin.Some? {
      return ExplicitPin;
    }
    for attempt := 0 to 2
      invariant attempt == 0 ==> store.origins == old(store.origins)
      invariant attempt > 0 ==>
        Attempt(old(store.origins), o, s.body, serve.0, others.0) == (Judged(ProofFailed(WrongRange)), store.origins)
      invariant attempt < 2
    {
      var server := if attempt == 0 then serve.0 else serve.1;
      var anchor := store.Read(o);
      if anchor.Reject? {
        return Failed;
      }
      var proofs: Option<seq<ChainProof>> := Some([]);
      if anchor.value.Some? && anchor.value.value.key == s.body.clerk && anchor.value.value.count < s.body.count {
        proofs := FetchChunks(server, anchor.value.value.count, s.body.count);
        if proofs.None? {
          return Failed;
        }
      }
      store.TrustAll(if attempt == 0 then others.0 else others.1);
      var verdict := store.Trust(Call(o, Proposed(s.body), proofs.value));
      if attempt == 1 || verdict != ProofFailed(WrongRange) {
        return Judged(verdict);
      }
    }
    assert false;
  }

  // ----- Completeness -----

  /** Serves what a registry holding this log would build. */
  ghost predicate Honest(serve: Server, log: Log) {
    && ClerkOf(log).Some?
    && forall i, j ::
        BuildProof(log, ClerkOf(log).value, i, j).Some? ==> serve(i, j) == BuildProof(log, ClerkOf(log).value, i, j)
  }

  /** Chunked proofs cover any distance along an honest log. */
  lemma {:induction false} HonestChunksReach(log: Log, serve: Server, current: int, goal: int)
    requires SignedChain(log) && Honest(serve, log)
    requires 1 <= current <= goal <= |log| && goal <= MaxEntries
    ensures var proofs := Chunks(serve, current, goal);
            && proofs.Some? && (current < goal ==> proofs.value != [] && proofs.value[0].body.fromCount == current)
            && Follow(proofs.value, ClerkOf(log).value, current, log[current - 1].hash, goal)
                == Reached(goal, log[goal - 1].hash)
    decreases goal - current
  {
    if current < goal {
      var target := Least(current + MaxProofLinks, goal);
      HonestChunksReach(log, serve, target, goal);
      var proof := BuildProof(log, ClerkOf(log).value, current, target);
      assert serve(current, target) == proof;
      HonestProofProven(log, current, target);
      assert ([proof.value] + Chunks(serve, target, goal).value)[1..] == Chunks(serve, target, goal).value;
    }
  }

  /** A snapshot of some prefix of the log. */
  predicate SnapshotOf(log: Log, s: SnapshotBody) {
    Some(s.clerk) == ClerkOf(log) && OnLog(log, s.count, s.head)
  }

  /** An origin is untrusted as yet, or anchored on the log under its key. */
  predicate Anchored(log: Log, origins: Origins, o: string) {
    o in origins ==> Some(origins[o].key) == ClerkOf(log) && OnLog(log, origins[o].count, origins[o].head)
  }

  /** Other clients present only snapshots of the log for this origin, with whatever proofs. */
  ghost predicate FairRivals(log: Log, o: string, others: seq<Call>) {
    forall i :: 0 <= i < |others| && others[i].origin == o ==>
      Some(others[i].proposed.key) == ClerkOf(log) && OnLog(log, others[i].proposed.count, others[i].proposed.head)
  }

  lemma {:induction false} RivalsKeepAnchored(log: Log, origins: Origins, o: string, others: seq<Call>)
    requires Anchored(log, origins, o) && FairRivals(log, o, others)
    ensures Anchored(log, RecordedAll(origins, others), o)
  {
    if others != [] {
      RivalsKeepAnchored(log, origins, o, others[..|others| - 1]);
    }
  }

  function CountOf(origins: Origins, o: string): Option<int> {
    if o in origins then Some(origins[o].count) else None
  }

  /** No one moved the anchor on the way, or someone moved it to exactly this snapshot. */
  predicate Lands(before: Option<int>, now: Option<int>, n: int) {
    now.None? || now.value == n || (now == before && now.value < n)
  }

  /** Someone moved the anchor forward, but short of this snapshot. */
  predicate Overtaken(before: Option<int>, now: Option<int>, n: int) {
    before.Some? && now.Some? && before.value < now.value < n
  }

  /** Proofs fetched from another position do not fit the anchor. */
  lemma StaleProofs(proofs: seq<ChainProof>, key: Key, anchor: Anchor, goal: int)
    requires proofs != [] && proofs[0].body.fromCount != anchor.count
    ensures Follow(proofs, key, anchor.count, anchor.head, goal) == Stopped(WrongRange)
  {}

  lemma NoProofs(key: Key, anchor: Anchor, goal: int)
    ensures Follow([], key, anchor.count, anchor.head, goal) == Reached(anchor.count, anchor.head)
  {}

  /** What decides one attempt on an honest log: only how far rivals moved the anchor while proofs were fetched. */
  lemma AttemptDecided(log: Log, origins: Origins, o: string, s: SnapshotBody, serve: Server, others: seq<Call>)
    requires SignedChain(log) && Honest(serve, log) && SnapshotOf(log, s) && s.count <= MaxEntries
    requires Anchored(log, origins, o) && FairRivals(log, o, others)
    requires |origins| <= MaxOrigins && |RecordedAll(origins, others)| <= MaxOrigins
    ensures var raced := RecordedAll(origins, others);
            var (fetched, after) := Attempt(origins, o, s, serve, others);
            && Anchored(log, after, o)
            && (fetched.Judged? && fetched.verdict.Trusts() <==> Lands(CountOf(origins, o), CountOf(raced, o), s.count))
            && (fetched == Judged(ProofFailed(WrongRange))
                <==> Overtaken(CountOf(origins, o), CountOf(raced, o), s.count))
            && after == (if fetched.Judged? && fetched.verdict.Trusts() then raced[o := Proposed(s)] else raced)
  {
    hide SignedChain, Honest, FairRivals, RecordedAll, Chunks, Follow, CheckProof;
    RivalsKeepAnchored(log, origins, o, others);
    AnchorsNeverRollBack(origins, others);
    var raced := RecordedAll(origins, others);
    if o in origins && origins[o].count < s.count {
      HonestChunksReach(log, serve, origins[o].count, s.count);
      if raced[o].count != origins[o].count {
        StaleProofs(ProofsFor(Some(origins[o]), s, serve).value, s.clerk, raced[o], s.count);
      }
    } else if o in raced {
      NoProofs(s.clerk, raced[o], s.count);
    }
  }

  /**
   Fetching succeeds from any trusted position on an honest log of up to MaxEntries entries, however many chunks
   lie between. The exact outcome under honest rivals: it succeeds if the anchor stood still or was moved to this
   very snapshot, in the first attempt or, when the first was overtaken, in the second.
   */
  lemma FetchDecided(log: Log, origins: Origins, o: string, s: Snapshot, serve: (Server, Server),
                     others: (seq<Call>, seq<Call>))
    requires SignedChain(log) && Honest(serve.0, log) && Honest(serve.1, log)
    requires SnapshotOf(log, s.body) && s.signature == Signature(s.body.clerk, s.body)
    requires Anchored(log, origins, o) && FairRivals(log, o, others.0) && FairRivals(log, o, others.1)
    requires var raced := RecordedAll(origins, others.0);
             |origins| <= MaxOrigins && |raced| <= MaxOrigins && |RecordedAll(raced, others.1)| <= MaxOrigins
    ensures var raced := RecordedAll(origins, others.0);
            var racedAgain := RecordedAll(raced, others.1);
            var n := s.body.count;
            var (fetched, after) := FetchEffect(origins, o, s, None, serve, others);
            && (fetched.Judged? && fetched.verdict.Trusts()
                <==> && n <= MaxEntries
                     && (|| Lands(CountOf(origins, o), CountOf(raced, o), n)
                         || (&& Overtaken(CountOf(origins, o), CountOf(raced, o), n)
                             && Lands(CountOf(raced, o), CountOf(racedAgain, o), n))))
            && (fetched.Judged? && fetched.verdict.Trusts() ==> o in after && after[o] == Proposed(s.body))
  {
    if s.body.count <= MaxEntries {
      AttemptDecided(log, origins, o, s.body, serve.0, others.0);
      var (first, after) := Attempt(origins, o, s.body, serve.0, others.0);
      if first == Judged(ProofFailed(WrongRange)) {
        AttemptDecided(log, after, o, s.body, serve.1, others.1);
      }
    }
  }

  /** Alone, a client on an honest log always advances to any snapshot at or past its anchor. */
  lemma AloneAlwaysAdvances(log: Log, origins: Origins, o: string, s: Snapshot, serve: (Server, Server))
    requires SignedChain(log) && Honest(serve.0, log) && Honest(serve.1, log)
    requires SnapshotOf(log, s.body) && s.body.count <= MaxEntries && s.signature == Signature(s.body.clerk, s.body)
    requires Anchored(log, origins, o) && |origins| <= MaxOrigins
    requires o in origins ==> origins[o].count <= s.body.count
    ensures FetchEffect(origins, o, s, None, serve, ([], [])).1 == origins[o := Proposed(s.body)]
    ensures FetchEffect(origins, o, s, None, serve, ([], [])).0 ==
            Judged(if o !in origins then FirstUse else if origins[o].count == s.body.count then Pinned else Advanced)
  {
    AttemptDecided(log, origins, o, s.body, serve.0, []);
  }

  // ----- Two honest clients can fail each other -----

  /** A snapshot the clerk signs. */
  function SignedSnapshot(body: SnapshotBody): Snapshot {
    Snapshot(body, Signature(body.clerk, body))
  }

  /** The call a client makes that found no anchor: it has fetched nothing. */
  function FirstCall(o: string, s: SnapshotBody): Call {
    Call(o, Proposed(s), ProofsFor(None, s, (_, _) => None).value)
  }

  /**
   Two clients of one honest log that both find no anchor: whichever call lands second fails without a second attempt,
   the one with the newer snapshot as incomplete, the one with the older as rolled back.
   */
  lemma FirstUseRaceFails(log: Log, o: string, older: SnapshotBody, newer: SnapshotBody, serve: (Server, Server),
                          later: seq<Call>)
    requires SnapshotOf(log, older) && SnapshotOf(log, newer) && older.count < newer.count <= MaxEntries
    ensures FetchEffect(map[], o, SignedSnapshot(newer), None, serve, ([FirstCall(o, older)], later))
            == (Judged(Incomplete), map[o := Proposed(older)])
    ensures FetchEffect(map[], o, SignedSnapshot(older), None, serve, ([FirstCall(o, newer)], later))
            == (Judged(RolledBack), map[o := Proposed(newer)])
  {
    OnlyCall(o, older);
    OnlyCall(o, newer);
    NoProofs(newer.clerk, Proposed(older), newer.count);
  }

  lemma OnlyCall(o: string, s: SnapshotBody)
    requires 1 <= s.count <= MaxEntries
    ensures RecordedAll(map[], [FirstCall(o, s)]) == map[o := Proposed(s)]
  {
    var calls := [FirstCall(o, s)];
    assert calls[..0] == [];
    assert RecordedAll(map[], calls[..0]) == map[];
  }

  const SampleLog: Log :=
    [SignedNext([], RegistryOpened("k"), "k", 0),
     SignedNext([SignedNext([], RegistryOpened("k"), "k", 0)], ProposalRecorded("case", "task"), "k", 1)]

  lemma SampleLogIsSigned()
    ensures SignedChain(SampleLog) && ClerkOf(SampleLog) == Some("k")
  {
    var genesis := [SignedNext([], RegistryOpened("k"), "k", 0)];
    LinkedAppend<RegistryEvent, Receipt>([], genesis[0]);
    assert [] + genesis == genesis;
    SignedNextChain(genesis, ProposalRecorded("case", "task"), 1);
    assert SampleLog == genesis + [SignedNext(genesis, ProposalRecorded("case", "task"), "k", 1)];
  }

  /** Serves exactly what a registry holding the sample log builds. */
  function SampleServer(): (serve: Server) {
    (i, j) => BuildProof(SampleLog, "k", i, j)
  }

  function SampleSnapshot(count: int): SnapshotBody
    requires 1 <= count <= 2
  {
    SnapshotBody("k", SampleLog[count - 1].hash, count, "")
  }

  /** A concrete log of two entries on which two honest clients fail each other. */
  lemma TwoClientsFailEachOther(o: string, later: seq<Call>)
    ensures FetchEffect(map[], o, SignedSnapshot(SampleSnapshot(2)), None, (SampleServer(), SampleServer()),
                        ([FirstCall(o, SampleSnapshot(1))], later)).0 == Judged(Incomplete)
    ensures FetchEffect(map[], o, SignedSnapshot(SampleSnapshot(1)), None, (SampleServer(), SampleServer()),
                        ([FirstCall(o, SampleSnapshot(2))], later)).0 == Judged(RolledBack)
  {
    SampleLogIsSigned();
    hide SignedChain, FetchEffect, BuildProof;
    FirstUseRaceFails(SampleLog, o, SampleSnapshot(1), SampleSnapshot(2), (SampleServer(), SampleServer()), later);
  }
}
