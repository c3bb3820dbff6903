/** The first-use trust store of a registry client, advanced only across signed chain proofs. */
module RegistryTrust {
  import opened Basics
  import opened Chain
  import opened RegistryReplay
  import opened RegistryLog

  const MaxProofLinks: int := 256
  const MaxEntries: int := 1_000_000
  const MaxOrigins: int := 4_096

  function Least(a: int, b: int): int {
    if a < b then a else b
  }

  // ----- Chain proofs -----

  datatype Link = Link(seqNo: int, prev: Option<HeadHash>, hash: HeadHash, receipt: Signature<Receipt>)

  datatype ProofBody = ProofBody(clerk: Key, fromCount: int, fromHead: HeadHash, toCount: int, toHead: HeadHash,
                                 links: seq<Link>)

  datatype ChainProof = ChainProof(body: ProofBody, signature: Signature<ProofBody>)

  /** A proof that is not for the range asked about is told apart, because it alone is worth another try. */
  datatype Proven = Proven(head: HeadHash) | WrongRange | BadProof

  predicate InRange(b: ProofBody, key: Key, fromCount: int, fromHead: HeadHash, toCount: int) {
    && b.clerk == key && b.fromCount == fromCount && b.fromHead == fromHead && b.toCount == toCount
    && 1 <= fromCount <= toCount <= MaxEntries
    && |b.links| == toCount - fromCount <= MaxProofLinks
  }

  /** The hash reached by following some links from a head. */
  function EndOf(head: HeadHash, links: seq<Link>): HeadHash {
    if links == [] then head else links[|links| - 1].hash
  }

  /** Link i continues the chain at its place, and the clerk signed it there. */
  predicate LinkOk(links: seq<Link>, i: nat, key: Key, fromCount: int, head: HeadHash)
    requires i < |links|
  {
    var prev := Some(EndOf(head, links[..i]));
    && links[i].seqNo == fromCount + i && links[i].prev == prev
    && links[i].receipt == Signature(key, Receipt(fromCount + i, prev, links[i].hash))
  }

  predicate Contiguous(links: seq<Link>, key: Key, fromCount: int, head: HeadHash) {
    forall i :: 0 <= i < |links| ==> LinkOk(links, i, key, fromCount, head)
  }

  function CheckProof(p: ChainProof, key: Key, fromCount: int, fromHead: HeadHash, toCount: int): Proven {
    if !InRange(p.body, key, fromCount, fromHead, toCount) then WrongRange
    else if p.signature != Signature(key, p.body) || !Contiguous(p.body.links, key, fromCount, fromHead) then BadProof
    else if p.body.toHead != EndOf(fromHead, p.body.links) then BadProof
    else Proven(p.body.toHead)
  }

  /** verify_registry_chain_proof: follow the links, carrying the previous hash. */
  method VerifyProof(p: ChainProof, key: Key, fromCount: int, fromHead: HeadHash, toCount: int) returns (result: Proven)
    ensures result == CheckProof(p, key, fromCount, fromHead, toCount)
  {
    if !InRange(p.body, key, fromCount, fromHead, toCount) {
      return WrongRange;
    }
    if p.signature != Signature(key, p.body) {
      return BadProof;
    }
    var links := p.body.links;
    var previousHash := fromHead;
    for i := 0 to |links|
      invariant previousHash == EndOf(fromHead, links[..i])
      invariant forall k :: 0 <= k < i ==> LinkOk(links, k, key, fromCount, fromHead)
    {
      var link := links[i];
      if || link.seqNo != fromCount + i
         || link.prev != Some(previousHash)
         || link.receipt != Signature(key, Receipt(fromCount + i, Some(previousHash), link.hash))
      {
        assert !LinkOk(links, i, key, fromCount, fromHead);
        return BadProof;
      }
      previousHash := link.hash;
    }
    assert links[..|links|] == links;
    return if p.body.toHead != previousHash then BadProof else Proven(p.body.toHead);
  }

  /** What an accepted proof has shown: a signed, unbroken run of receipts from one head to the other. */
  lemma ProvenExactly(p: ChainProof, key: Key, fromCount: int, fromHead: HeadHash, toCount: int)
    ensures var b, n := p.body, |p.body.links|;
            CheckProof(p, key, fromCount, fromHead, toCount).Proven? <==>
            && b.clerk == key && b.fromCount == fromCount && b.fromHead == fromHead && b.toCount == toCount
            && 1 <= fromCount && toCount <= MaxEntries && toCount - fromCount == n <= MaxProofLinks
            && p.signature == Signature(key, b)
            && (forall i :: 0 <= i < n ==> CarriesOn(b, key, i))
            && b.toHead == (if n == 0 then fromHead else b.links[n - 1].hash)
    ensures CheckProof(p, key, fromCount, fromHead, toCount).Proven? ==>
              CheckProof(p, key, fromCount, fromHead, toCount) == Proven(p.body.toHead)
  {
    if p.body.fromCount == fromCount && p.body.fromHead == fromHead {
      forall i | 0 <= i < |p.body.links|
        ensures LinkOk(p.body.links, i, key, fromCount, fromHead) <==> CarriesOn(p.body, key, i)
      {
        assert EndOf(fromHead, p.body.links[..i]) == if i == 0 then fromHead else p.body.links[i - 1].hash;
      }
    }
  }

  /** The clerk signed this link in the place after the one before it. */
  predicate CarriesOn(b: ProofBody, key: Key, i: nat)
    requires i < |b.links|
  {
    var prev := if i == 0 then b.fromHead else b.links[i - 1].hash;
    && b.links[i].seqNo == b.fromCount + i && b.links[i].prev == Some(prev)
    && b.links[i].receipt == Signature(key, Receipt(b.fromCount + i, Some(prev), b.links[i].hash))
  }

  function LinkOf(entry: RegistryEntry): Link {
    Link(entry.seqNo, entry.prev, entry.hash, entry.receipt)
  }

  /** The proof a registry signs from its own log, if the range is one it serves. */
  function BuildProof(log: Log, key: Key, fromCount: int, toCount: int): Option<ChainProof> {
    if 1 <= fromCount <= toCount <= |log| && toCount <= MaxEntries && toCount - fromCount <= MaxProofLinks then
      var links := seq(toCount - fromCount, i requires 0 <= i < toCount - fromCount => LinkOf(log[fromCount + i]));
      var fromHead := log[fromCount - 1].hash;
      var body := ProofBody(key, fromCount, fromHead, toCount, EndOf(fromHead, links), links);
      Some(ChainProof(body, Signature(key, body)))
    else None
  }

  /** A count and head that lie on a log. */
  predicate OnLog(log: Log, count: int, head: HeadHash) {
    1 <= count <= |log| && head == log[count - 1].hash
  }

  lemma HonestLinks(log: Log, fromCount: int, toCount: int)
    requires SignedChain(log) && 1 <= fromCount <= toCount <= |log|
    ensures var links := seq(toCount - fromCount,
                             i requires 0 <= i < toCount - fromCount => LinkOf(log[fromCount + i]));
            && Contiguous(links, ClerkOf(log).value, fromCount, log[fromCount - 1].hash)
            && EndOf(log[fromCount - 1].hash, links) == log[toCount - 1].hash
  {
    var links := seq(toCount - fromCount, i requires 0 <= i < toCount - fromCount => LinkOf(log[fromCount + i]));
    var head := log[fromCount - 1].hash;
    forall i | 0 <= i < |links| ensures LinkOk(links, i, ClerkOf(log).value, fromCount, head) {
      assert LinkedAt(log, fromCount + i);
      assert links[i] == LinkOf(log[fromCount + i]);
      if i > 0 {
        assert links[..i][i - 1] == LinkOf(log[fromCount + i - 1]);
      }
    }
    if links != [] {
      assert links[|links| - 1] == LinkOf(log[toCount - 1]);
    }
  }

  /** A proof built from a signed chain is accepted for exactly its own range, and ends on the chain. */
  lemma HonestProofProven(log: Log, fromCount: int, toCount: int)
    requires SignedChain(log) && BuildProof(log, ClerkOf(log).value, fromCount, toCount).Some?
    ensures var proof := BuildProof(log, ClerkOf(log).value, fromCount, toCount).value;
            CheckProof(proof, ClerkOf(log).value, fromCount, log[fromCount - 1].hash, toCount)
                == Proven(log[toCount - 1].hash)
  {
    HonestLinks(log, fromCount, toCount);
  }

  /** The key signed receipts for no links but those of one log. */
  ghost predicate SignsOnly(log: Log, key: Key, p: ChainProof) {
    forall i :: 0 <= i < |p.body.links| && p.body.links[i].receipt.key == key ==>
      var r := p.body.links[i].receipt.message;
      0 <= r.seqNo < |log| && r == Receipt(r.seqNo, log[r.seqNo].prev, log[r.seqNo].hash)
  }

  /** An accepted proof that goes anywhere starts and ends on the log its receipts were signed for. */
  lemma ProvenIsOnLog(log: Log, p: ChainProof, key: Key, fromCount: int, fromHead: HeadHash, toCount: int)
    requires Linked(log) && SignsOnly(log, key, p) && fromCount < toCount
    requires CheckProof(p, key, fromCount, fromHead, toCount).Proven?
    ensures OnLog(log, fromCount, fromHead)
    ensures OnLog(log, toCount, CheckProof(p, key, fromCount, fromHead, toCount).head)
  {
    var links := p.body.links;
    var last := |links| - 1;
    assert LinkOk(links, 0, key, fromCount, fromHead) && LinkOk(links, last, key, fromCount, fromHead);
    assert LinkedAt(log, fromCount);
  }

  // ----- Following several proofs -----

  datatype Walk = Reached(count: int, head: HeadHash) | Stopped(why: Proven)

  /** Follow proofs one after another; each must cover the next chunk on the way to the goal. */
  function Follow(proofs: seq<ChainProof>, key: Key, count: int, head: HeadHash, goal: int): Walk {
    if proofs == [] then Reached(count, head)
    else
      var toCount := Least(count + MaxProofLinks, goal);
      match CheckProof(proofs[0], key, count, head, toCount)
      case Proven(reached) => Follow(proofs[1..], key, toCount, reached, goal)
      case failure => Stopped(failure)
  }

  ghost predicate AllSignOnly(log: Log, key: Key, proofs: seq<ChainProof>) {
    forall i :: 0 <= i < |proofs| ==> SignsOnly(log, key, proofs[i])
  }

  /** Following proofs to a higher count shows that both ends lie on the signed log. */
  lemma {:induction false} FollowingIsOnLog(log: Log, proofs: seq<ChainProof>, key: Key, count: int,
                                            head: HeadHash, goal: int)
    requires Linked(log) && AllSignOnly(log, key, proofs) && count < goal
    requires Follow(proofs, key, count, head, goal).Reached? && Follow(proofs, key, count, head, goal).count == goal
    ensures OnLog(log, count, head)
    ensures OnLog(log, goal, Follow(proofs, key, count, head, goal).head)
  {
    var toCount := Least(count + MaxProofLinks, goal);
    ProvenIsOnLog(log, proofs[0], key, count, head, toCount);
    var reached := CheckProof(proofs[0], key, count, head, toCount).head;
    if toCount < goal {
      FollowingIsOnLog(log, proofs[1..], key, toCount, reached, goal);
    } else {
      FollowingNowhere(proofs[1..], key, goal, reached);
    }
  }

  /** Proofs beyond the goal are empty ranges and move nothing. */
  lemma {:induction false} FollowingNowhere(proofs: seq<ChainProof>, key: Key, goal: int, head: HeadHash)
    ensures var walk := Follow(proofs, key, goal, head, goal); walk.Stopped? || walk == Reached(goal, head)
  {
    if proofs != [] && CheckProof(proofs[0], key, goal, head, goal).Proven? {
      FollowingNowhere(proofs[1..], key, goal, head);
    }
  }

  // ----- The store -----

  datatype Anchor = Anchor(key: Key, count: int, head: HeadHash)

  type Origins = map<string, Anchor>

  datatype Verdict =
    | FirstUse | Pinned | Advanced
    | InvalidSnapshot | Unreadable | KeyChanged | RolledBack | Forked | ProofFailed(why: Proven) | Incomplete
  {
    predicate Trusts() {
      FirstUse? || Pinned? || Advanced?
    }
  }

  /** One locked call: an origin, the snapshot it presents, and the proofs fetched for it. */
  datatype Call = Call(origin: string, proposed: Anchor, proofs: seq<ChainProof>)

  function Judge(origins: Origins, c: Call): Verdict {
    if !(1 <= c.proposed.count <= MaxEntries) then InvalidSnapshot
    else if |origins| > MaxOrigins then Unreadable
    else if c.origin !in origins then FirstUse
    else
      var previous := origins[c.origin];
      if previous.key != c.proposed.key then KeyChanged
      else if c.proposed.count < previous.count then RolledBack
      else if c.proposed.count == previous.count then (if c.proposed.head == previous.head then Pinned else Forked)
      else
        match Follow(c.proofs, c.proposed.key, previous.count, previous.head, c.proposed.count)
        case Stopped(why) => ProofFailed(why)
        case Reached(count, head) =>
          if count == c.proposed.count && head == c.proposed.head then Advanced else Incomplete
  }

  function Recorded(origins: Origins, c: Call): Origins {
    if Judge(origins, c).FirstUse? || Judge(origins, c).Advanced? then origins[c.origin := c.proposed] else origins
  }

  function RecordedAll(origins: Origins, calls: seq<Call>): Origins {
    if calls == [] then origins else Recorded(RecordedAll(origins, calls[..|calls| - 1]), calls[|calls| - 1])
  }

  /** Without proofs a snapshot is trusted only as a first use or as the very anchor; any other reason is the first. */
  lemma VerdictMeans(origins: Origins, c: Call)
    ensures Judge(origins, c).Trusts() ==> Recorded(origins, c) == origins[c.origin := c.proposed]
    ensures !Judge(origins, c).Trusts() ==> Recorded(origins, c) == origins
    ensures var v, readable := Judge(origins, c), |origins| <= MaxOrigins;
            && (v == InvalidSnapshot <==> c.proposed.count < 1 || MaxEntries < c.proposed.count)
            && (v == Unreadable <==> v != InvalidSnapshot && !readable)
            && (v == FirstUse <==> v != InvalidSnapshot && readable && c.origin !in origins)
            && (v == Pinned <==>
                  v != InvalidSnapshot && readable && c.origin in origins && c.proposed == origins[c.origin])
            && (c.origin in origins && readable && v != InvalidSnapshot ==>
                  var a, b := origins[c.origin], c.proposed;
                  && (v == KeyChanged <==> a.key != b.key)
                  && (v == RolledBack <==> a.key == b.key && b.count < a.count)
                  && (v == Forked <==> a.key == b.key && a.count == b.count && a.head != b.head)
                  && (v == Advanced <==>
                        && a.key == b.key && a.count < b.count
                        && Follow(c.proofs, a.key, a.count, a.head, b.count) == Reached(b.count, b.head)))
  {
    hide Follow;
  }

  class TrustStore {
    var origins: Origins

    constructor (origins: Origins)
      ensures this.origins == origins
    {
      this.origins := origins;
    }

    /** read_registry_trust: the anchor of one origin, or a failure if the store cannot be read. */
    method Read(origin: string) returns (anchor: Result<Option<Anchor>>)
      ensures anchor.Reject? <==> |origins| > MaxOrigins
      ensures anchor.Accept? ==> anchor.value == if origin in origins then Some(origins[origin]) else None
    {
      if |origins| > MaxOrigins {
        return Reject;
      }
      return Accept(if origin in origins then Some(origins[origin]) else None);
    }

    /** trust_registry_snapshot: pin an origin, or advance it across proofs, chunk by chunk. */
    method Trust(c: Call) returns (verdict: Verdict)
      modifies this
      ensures verdict == Judge(old(origins), c)
      ensures origins == Recorded(old(origins), c)
      ensures if verdict.Trusts() then origins == old(origins)[c.origin := c.proposed] else origins == old(origins)
    {
      VerdictMeans(origins, c);
      var proposed := c.proposed;
      if !(1 <= proposed.count <= MaxEntries) {
        return InvalidSnapshot;
      }
      if |origins| > MaxOrigins {
        return Unreadable;
      }
      if c.origin !in origins {
        origins := origins[c.origin := proposed];
        return FirstUse;
      }
      var previous := origins[c.origin];
      if previous.key != proposed.key {
        return KeyChanged;
      }
      if proposed.count < previous.count {
        return RolledBack;
      }
      if proposed.count == previous.count {
        return if proposed.head != previous.head then Forked else Pinned;
      }
      var currentCount, currentHead := previous.count, previous.head;
      for i := 0 to |c.proofs|
        invariant origins == old(origins)
        invariant Follow(c.proofs, proposed.key, previous.count, previous.head, proposed.count)
               == Follow(c.proofs[i..], proposed.key, currentCount, currentHead, proposed.count)
      {
        var expectedTo := Least(currentCount + MaxProofLinks, proposed.count);
        var proven := VerifyProof(c.proofs[i], proposed.key, currentCount, currentHead, expectedTo);
        assert c.proofs[i..][1..] == c.proofs[i + 1..];
        if !proven.Proven? {
          return ProofFailed(proven);
        }
        currentCount, currentHead := expectedTo, proven.head;
      }
      if currentCount != proposed.count || currentHead != proposed.head {
        return Incomplete;
      }
      origins := origins[c.origin := proposed];
      return Advanced;
    }

    /** Calls that other clients of the same store complete, one lock at a time. */
    method TrustAll(calls: seq<Call>)
      modifies this
      ensures origins == RecordedAll(old(origins), calls)
    {
      for i := 0 to |calls|
        invariant origins == RecordedAll(old(origins), calls[..i])
      {
        assert calls[..i + 1][..i] == calls[..i];
        var _ := Trust(calls[i]);
      }
      assert calls[..|calls|] == calls;
    }
  }

  // ----- Soundness -----

  /** Anchors keep their key, never move back, and never change head without moving forward. */
  predicate AnchorsForward(a: Origins, b: Origins) {
    forall o :: o in a ==>
      && o in b && b[o].key == a[o].key && a[o].count <= b[o].count
      && (a[o].count == b[o].count ==> a[o] == b[o])
  }

  lemma {:induction false} AnchorsNeverRollBack(origins: Origins, calls: seq<Call>)
    ensures AnchorsForward(origins, RecordedAll(origins, calls))
  {
    if calls != [] {
      AnchorsNeverRollBack(origins, calls[..|calls| - 1]);
    }
  }

  /** Every proof that the calls carry for one key holds only receipts for entries of one log. */
  ghost predicate CallsSignOnly(log: Log, key: Key, calls: seq<Call>) {
    forall i :: 0 <= i < |calls| ==> AllSignOnly(log, key, calls[i].proofs)
  }

  /**
   Whatever snapshots and proofs servers present, if the pinned key signs receipts only for one linked log, an
   origin's anchor moves only when both its old and its new position lie on that log.
   */
  lemma {:induction false} AdvancesStayOnLog(log: Log, origins: Origins, calls: seq<Call>, o: string)
    requires Linked(log) && o in origins && CallsSignOnly(log, origins[o].key, calls)
    ensures var after := RecordedAll(origins, calls);
            && o in after && after[o].key == origins[o].key
            && (after[o] == origins[o]
                || (&& origins[o].count < after[o].count
                    && OnLog(log, origins[o].count, origins[o].head)
                    && OnLog(log, after[o].count, after[o].head)))
  {
    AnchorsNeverRollBack(origins, calls);
    if calls != [] {
      var c := calls[|calls| - 1];
      AdvancesStayOnLog(log, origins, calls[..|calls| - 1], o);
      var before := RecordedAll(origins, calls[..|calls| - 1]);
      if c.origin == o && Judge(before, c).Advanced? {
        FollowingIsOnLog(log, c.proofs, before[o].key, before[o].count, before[o].head, c.proposed.count);
      }
    }
  }

  /**
   So the trusted history is never replaced: any linked chain that carries the anchor an origin has reached also
   carries the anchor it started from.
   */
  lemma ReachedAnchorCarriesOldOne(log: Log, other: Log, origins: Origins, calls: seq<Call>, o: string)
    requires Linked(log) && Linked(other) && o in origins && CallsSignOnly(log, origins[o].key, calls)
    requires var after := RecordedAll(origins, calls); o in after && OnLog(other, after[o].count, after[o].head)
    requires RecordedAll(origins, calls)[o] != origins[o]
    ensures OnLog(other, origins[o].count, origins[o].head)
  {
    AdvancesStayOnLog(log, origins, calls, o);
    var after := RecordedAll(origins, calls)[o];
    HashFixesPrefix(other, log, after.count);
    var n := origins[o].count - 1;
    assert other[..after.count][n].hash == log[..after.count][n].hash;
  }

  // ----- The limit on origins -----

  /** The origins that calls with a recordable snapshot name. */
  function Named(calls: seq<Call>): set<string> {
    if calls == [] then {}
    else Named(calls[..|calls| - 1]) + NamedBy(calls[|calls| - 1])
  }

  function NamedBy(c: Call): set<string> {
    if 1 <= c.proposed.count <= MaxEntries then {c.origin} else {}
  }

  /** A store over the limit refuses every call and never changes again. */
  lemma {:induction false} OverfullIsUnreadable(origins: Origins, calls: seq<Call>, c: Call)
    requires |origins| > MaxOrigins
    ensures RecordedAll(origins, calls) == origins
    ensures Judge(origins, c) == if 1 <= c.proposed.count <= MaxEntries then Unreadable else InvalidSnapshot
  {
    if calls != [] {
      OverfullIsUnreadable(origins, calls[..|calls| - 1], c);
    }
  }

  /**
   The limit is checked when the store is read, not when an origin is added: one call leaves a usable store unusable
   exactly when the store is full, the origin is new, and the snapshot can be recorded. Every call after it fails.
   */
  lemma FullStoreLocksUp(origins: Origins, c: Call, later: Call)
    requires |origins| <= MaxOrigins
    ensures |Recorded(origins, c)| > MaxOrigins <==>
            |origins| == MaxOrigins && c.origin !in origins && 1 <= c.proposed.count <= MaxEntries
    ensures |Recorded(origins, c)| > MaxOrigins ==>
              && Judge(origins, c) == FirstUse
              && !Judge(Recorded(origins, c), later).Trusts()
              && Recorded(Recorded(origins, c), later) == Recorded(origins, c)
  {
    KeysAfter(origins, c);
  }

  lemma KeysAfter(origins: Origins, c: Call)
    requires |origins| <= MaxOrigins
    ensures Recorded(origins, c).Keys == origins.Keys + NamedBy(c)
    ensures |Recorded(origins, c)| == |origins| + (if NamedBy(c) <= origins.Keys then 0 else 1)
    ensures |Recorded(origins, c)| == |origins.Keys + NamedBy(c)|
  {
    hide Follow;
    var after := Recorded(origins, c);
    if NamedBy(c) <= origins.Keys {
      assert after.Keys == origins.Keys == origins.Keys + NamedBy(c);
    } else {
      assert after == origins[c.origin := c.proposed];
      assert after.Keys == origins.Keys + {c.origin};
    }
    assert |after.Keys| == |after| && |origins.Keys| == |origins|;
  }

  /** After any calls, the store is still usable exactly when the origins in it and those named fit the limit. */
  lemma {:induction false} StoreUsableExactly(origins: Origins, calls: seq<Call>)
    requires |origins| <= MaxOrigins
    ensures |RecordedAll(origins, calls)| <= MaxOrigins <==> |origins.Keys + Named(calls)| <= MaxOrigins
    ensures |RecordedAll(origins, calls)| <= MaxOrigins ==>
            RecordedAll(origins, calls).Keys == origins.Keys + Named(calls)
  {
    hide Recorded, NamedBy;
    if calls == [] {
      assert |origins.Keys| == |origins|;
      assert origins.Keys + Named(calls) == origins.Keys;
    } else {
      var before, named := RecordedAll(origins, calls[..|calls| - 1]), origins.Keys + Named(calls[..|calls| - 1]);
      StoreUsableExactly(origins, calls[..|calls| - 1]);
      UsableStep(before, named, calls[|calls| - 1]);
      assert origins.Keys + Named(calls) == named + NamedBy(calls[|calls| - 1]);
      hide RecordedAll, Named;
    }
  }

  lemma UsableStep(before: Origins, named: set<string>, c: Call)
    requires |before| <= MaxOrigins <==> |named| <= MaxOrigins
    requires |before| <= MaxOrigins ==> before.Keys == named
    ensures |Recorded(before, c)| <= MaxOrigins <==> |named + NamedBy(c)| <= MaxOrigins
    ensures |Recorded(before, c)| <= MaxOrigins ==> Recorded(before, c).Keys == named + NamedBy(c)
  {
    hide Recorded, NamedBy;
    if |before| <= MaxOrigins {
      KeysAfter(before, c);
    } else {
      OverfullIsUnreadable(before, [c], c);
      RecordedOne(before, c);
      SubsetSize(named, named + NamedBy(c));
    }
  }

  lemma RecordedOne(origins: Origins, c: Call)
    ensures RecordedAll(origins, [c]) == Recorded(origins, c)
  {
    hide Recorded;
    assert [c][..0] == [];
  }
}
