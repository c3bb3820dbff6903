/** Persistent and in-memory high-water marks of case logs, under any interleaving of workers and restarts. */
module CaseAnchors {
  import opened Basics
  import opened CaseProofs

  /** What a case keeps for life. */
  datatype CaseIdentity = CaseIdentity(caseId: Id, problemId: Id, commitment: string, clerkKey: Key)

  /** A registry record with its activation anchor. */
  datatype CaseRecord = CaseRecord(identity: CaseIdentity, count: int, head: Option<EventHash>)

  datatype Stored = Stored(identity: CaseIdentity, count: int, head: Option<EventHash>)

  type Anchors = map<Id, Stored>

  const MaxCount: int := 10_000_000
  const MaxStored: int := 10_000

  /** An empty log has no head; any other has one. */
  predicate ValidAnchor(count: int, head: Option<EventHash>) {
    0 <= count <= MaxCount && (count == 0 <==> head.None?)
  }

  // ----- The store -----

  /** The persisted anchor, unless the registry's activation anchor is ahead of it. */
  function PersistedFor(anchors: Anchors, r: CaseRecord): Result<(int, Option<EventHash>)> {
    if !ValidAnchor(r.count, r.head) || |anchors| > MaxStored then Reject
    else if r.identity.caseId !in anchors then Accept((r.count, r.head))
    else
      var stored := anchors[r.identity.caseId];
      if stored.identity != r.identity then Reject
      else if stored.count < r.count then Accept((r.count, r.head))
      else if stored.count == r.count && stored.head != r.head then Reject
      else Accept((stored.count, stored.head))
  }

  /** Whether an advance is refused, and the anchors after it. */
  function Advanced(anchors: Anchors, r: CaseRecord, count: int, head: Option<EventHash>): (bool, Anchors) {
    if !ValidAnchor(r.count, r.head) || !ValidAnchor(count, head) || |anchors| > MaxStored then (false, anchors)
    else if count < r.count || (count == r.count && head != r.head) then (false, anchors)
    else if r.identity.caseId !in anchors then (true, anchors[r.identity.caseId := Stored(r.identity, count, head)])
    else
      var stored := anchors[r.identity.caseId];
      if stored.identity != r.identity || count < stored.count || (count == stored.count && head != stored.head)
      then (false, anchors)
      else (true, anchors[r.identity.caseId := Stored(r.identity, count, head)])
  }

  class CaseAnchorStore {
    var anchors: Anchors

    constructor ()
      ensures anchors == map[]
    {
      anchors := map[];
    }

    method AnchorFor(r: CaseRecord) returns (anchor: Result<(int, Option<EventHash>)>)
      ensures anchor == PersistedFor(anchors, r)
      ensures anchor.Accept? <==>
              && 0 <= r.count <= 10_000_000 && (r.head.None? <==> r.count == 0) && |anchors| <= 10_000
              && (r.identity.caseId in anchors ==>
                    var kept := anchors[r.identity.caseId];
                    kept.identity == r.identity && (kept.count == r.count ==> kept.head == r.head))
      ensures anchor.Accept? ==>
                || (anchor.value == (r.count, r.head)
                    && (r.identity.caseId in anchors ==> anchors[r.identity.caseId].count <= r.count))
                || (r.identity.caseId in anchors && r.count <= anchors[r.identity.caseId].count
                    && anchor.value == (anchors[r.identity.caseId].count, anchors[r.identity.caseId].head))
    {
      if !ValidAnchor(r.count, r.head) || |anchors| > MaxStored {
        return Reject;
      }
      if r.identity.caseId !in anchors {
        return Accept((r.count, r.head));
      }
      var stored := anchors[r.identity.caseId];
      if stored.identity != r.identity {
        return Reject;
      }
      if stored.count < r.count {
        return Accept((r.count, r.head));
      }
      if stored.count == r.count && stored.head != r.head {
        return Reject;
      }
      return Accept((stored.count, stored.head));
    }

    /** Persist a verified anchor; a rollback, a fork or a changed identity is refused and changes nothing. */
    method Advance(r: CaseRecord, count: int, head: Option<EventHash>) returns (ok: bool)
      modifies this
      ensures (ok, anchors) == Advanced(old(anchors), r, count, head)
      ensures ok <==>
              && 0 <= r.count <= count <= 10_000_000 && |old(anchors)| <= 10_000
              && (r.head.None? <==> r.count == 0) && (head.None? <==> count == 0)
              && (r.count == count ==> r.head == head)
              && (r.identity.caseId in old(anchors) ==>
                    var kept := old(anchors)[r.identity.caseId];
                    && kept.identity == r.identity && kept.count <= count
                    && (kept.count == count ==> kept.head == head))
      ensures ok ==> anchors == old(anchors)[r.identity.caseId := Stored(r.identity, count, head)]
      ensures !ok ==> anchors == old(anchors)
    {
      if !ValidAnchor(r.count, r.head) || !ValidAnchor(count, head) {
        return false;
      }
      if count < r.count || (count == r.count && head != r.head) {
        return false;
      }
      if |anchors| > MaxStored {
        return false;
      }
      if r.identity.caseId in anchors {
        var stored := anchors[r.identity.caseId];
        if stored.identity != r.identity || count < stored.count {
          return false;
        }
        if count == stored.count {
          assert head == stored.head ==> anchors == anchors[r.identity.caseId := Stored(r.identity, count, head)];
          return head == stored.head;
        }
      }
      anchors := anchors[r.identity.caseId := Stored(r.identity, count, head)];
      return true;
    }
  }

  /** A successful advance is what the next read returns. */
  lemma AdvanceThenRead(anchors: Anchors, r: CaseRecord, count: int, head: Option<EventHash>)
    requires Advanced(anchors, r, count, head).0
    ensures |Advanced(anchors, r, count, head).1| <= MaxStored ==>
              PersistedFor(Advanced(anchors, r, count, head).1, r) == Accept((count, head))
  {}

  /** A case keeps its identity and never moves back, and its head changes only by moving forward. */
  predicate AnchorsForward(a: Anchors, b: Anchors) {
    forall c :: c in a ==>
      && c in b && b[c].identity == a[c].identity && a[c].count <= b[c].count
      && (a[c].count == b[c].count ==> a[c] == b[c])
  }

  // ----- One process over the store -----

  /** The in-memory mark of a case. */
  datatype Mark = Mark(commitment: string, clerkKey: Key, count: int, head: Option<EventHash>)

  /** What a worker has persisted and not yet remembered: the two writes are under different locks. */
  datatype Pending = Pending(identity: CaseIdentity, count: int, head: Option<EventHash>)

  /** The durable anchors, one process's marks, and its workers between their two writes. */
  datatype Marks = Marks(stored: Anchors, memory: map<Id, Mark>, pending: multiset<Pending>)

  function MarkOf(identity: CaseIdentity, count: int, head: Option<EventHash>): Mark {
    Mark(identity.commitment, identity.clerkKey, count, head)
  }

  function Remembered(memory: map<Id, Mark>, p: Pending): map<Id, Mark> {
    if p.identity.caseId !in memory || p.count > memory[p.identity.caseId].count
    then memory[p.identity.caseId := MarkOf(p.identity, p.count, p.head)]
    else memory
  }

  /** A step of another worker of this process, of a worker of another process on the same store, or a restart. */
  datatype Rival =
    | Persist(r: CaseRecord, count: int, head: Option<EventHash>)
    | Remember(p: Pending)
    | OtherProcess(r: CaseRecord, count: int, head: Option<EventHash>)
    | Restart

  function Raced(m: Marks, a: Rival): Marks {
    match a
    case Persist(r, count, head) =>
      var (ok, stored) := Advanced(m.stored, r, count, head);
      if ok then m.(stored := stored, pending := m.pending + multiset{Pending(r.identity, count, head)}) else m
    case Remember(p) =>
      if p in m.pending then m.(memory := Remembered(m.memory, p), pending := m.pending - multiset{p}) else m
    case OtherProcess(r, count, head) => m.(stored := Advanced(m.stored, r, count, head).1)
    case Restart => m.(memory := map[], pending := multiset{})
  }

  function RacedAll(m: Marks, rivals: seq<Rival>): Marks {
    if rivals == [] then m else Raced(RacedAll(m, rivals[..|rivals| - 1]), rivals[|rivals| - 1])
  }

  /** Persist first; remember, after whatever happens between the two locks, only what was persisted. */
  function Checkpointed(m: Marks, r: CaseRecord, count: int, head: Option<EventHash>,
                        between: seq<Rival>): (bool, Marks) {
    var (ok, stored) := Advanced(m.stored, r, count, head);
    if ok then
      var after := RacedAll(m.(stored := stored), between);
      (true, after.(memory := Remembered(after.memory, Pending(r.identity, count, head))))
    else (false, m)
  }

  /** The store holds this anchor of a case, or a later one of the same identity. */
  predicate Reached(stored: Anchors, p: Pending) {
    && p.identity.caseId in stored
    && stored[p.identity.caseId].identity == p.identity
    && p.count <= stored[p.identity.caseId].count
    && (p.count == stored[p.identity.caseId].count ==> p.head == stored[p.identity.caseId].head)
  }

  /** The store holds what is remembered of case c, or something later of the same identity. */
  predicate Backed(stored: Anchors, c: Id, mark: Mark) {
    && c in stored && stored[c].identity.caseId == c
    && mark.commitment == stored[c].identity.commitment && mark.clerkKey == stored[c].identity.clerkKey
    && mark.count <= stored[c].count
    && (mark.count == stored[c].count ==> mark.head == stored[c].head)
  }

  /**
   What the process remembers of a case, or is about to, is never ahead of the store and agrees with it at its count.
   */
  ghost predicate Consistent(m: Marks) {
    && (forall c :: c in m.memory ==> Backed(m.stored, c, m.memory[c]))
    && (forall p :: p in m.pending ==> Reached(m.stored, p))
  }

  lemma ReachedLater(a: Anchors, b: Anchors, p: Pending)
    requires AnchorsForward(a, b) && Reached(a, p)
    ensures Reached(b, p)
  {}

  lemma StoreMovesOn(m: Marks, later: Anchors)
    requires AnchorsForward(m.stored, later) && Consistent(m)
    ensures Consistent(m.(stored := later))
  {
    forall c | c in m.memory ensures Backed(later, c, m.memory[c]) {
      assert Backed(m.stored, c, m.memory[c]);
    }
    forall p | p in m.pending ensures Reached(later, p) {
      ReachedLater(m.stored, later, p);
    }
  }

  lemma AdvanceForward(anchors: Anchors, r: CaseRecord, count: int, head: Option<EventHash>)
    ensures AnchorsForward(anchors, Advanced(anchors, r, count, head).1)
    ensures Advanced(anchors, r, count, head).0 ==>
              Reached(Advanced(anchors, r, count, head).1, Pending(r.identity, count, head))
  {}

  lemma RememberKeeps(m: Marks, p: Pending)
    requires Consistent(m) && Reached(m.stored, p)
    ensures Consistent(m.(memory := Remembered(m.memory, p)))
  {}

  /**
   Under any interleaving of the two writes of refresh workers, other processes and restarts, no persisted anchor ever
   moves back, forks or changes hands, and a process never remembers more than is persisted.
   */
  lemma {:induction false} MarksForward(m: Marks, rivals: seq<Rival>)
    ensures AnchorsForward(m.stored, RacedAll(m, rivals).stored)
    ensures Consistent(m) ==> Consistent(RacedAll(m, rivals))
  {
    hide Consistent, Raced;
    if rivals != [] {
      var before := RacedAll(m, rivals[..|rivals| - 1]);
      MarksForward(m, rivals[..|rivals| - 1]);
      RaceForward(before, rivals[|rivals| - 1]);
      ForwardTransitive(m.stored, before.stored, RacedAll(m, rivals).stored);
    }
  }

  lemma RaceForward(m: Marks, a: Rival)
    ensures AnchorsForward(m.stored, Raced(m, a).stored)
    ensures Consistent(m) ==> Consistent(Raced(m, a))
  {
    match a {
      case Persist(r, count, head) => PersistForward(m, r, count, head);
      case Remember(p) =>
        if Consistent(m) && p in m.pending {
          RememberKeeps(m, p);
        }
      case OtherProcess(r, count, head) =>
        AdvanceForward(m.stored, r, count, head);
        if Consistent(m) {
          StoreMovesOn(m, Advanced(m.stored, r, count, head).1);
        }
      case Restart =>
    }
  }

  lemma PersistForward(m: Marks, r: CaseRecord, count: int, head: Option<EventHash>)
    ensures AnchorsForward(m.stored, Raced(m, Persist(r, count, head)).stored)
    ensures Consistent(m) ==> Consistent(Raced(m, Persist(r, count, head)))
  {
    var stored := Advanced(m.stored, r, count, head).1;
    AdvanceForward(m.stored, r, count, head);
    if Consistent(m) {
      StoreMovesOn(m, stored);
    }
    hide Advanced, Backed, AnchorsForward;
  }

  lemma ForwardTransitive(a: Anchors, b: Anchors, c: Anchors)
    requires AnchorsForward(a, b) && AnchorsForward(b, c)
    ensures AnchorsForward(a, c)
  {}

  /** A checkpoint keeps all that, whatever happens between its two writes. */
  lemma CheckpointKeeps(m: Marks, r: CaseRecord, count: int, head: Option<EventHash>, between: seq<Rival>)
    ensures AnchorsForward(m.stored, Checkpointed(m, r, count, head, between).1.stored)
    ensures Consistent(m) ==> Consistent(Checkpointed(m, r, count, head, between).1)
  {
    hide Advanced, RacedAll, Remembered, Consistent, Reached;
    var (ok, stored) := Advanced(m.stored, r, count, head);
    AdvanceForward(m.stored, r, count, head);
    if ok {
      var persisted := m.(stored := stored);
      var after := RacedAll(persisted, between);
      MarksForward(persisted, between);
      ReachedLater(stored, after.stored, Pending(r.identity, count, head));
      ForwardTransitive(m.stored, stored, after.stored);
      if Consistent(m) {
        StoreMovesOn(m, stored);
        RememberKeeps(after, Pending(r.identity, count, head));
      }
    }
  }

  // ----- Where a refresh starts -----

  /** The record a fetch starts from: the later of the persisted and remembered anchors, if it fits the record. */
  function StartFrom(m: Marks, r: CaseRecord): Result<CaseRecord> {
    match PersistedFor(m.stored, r)
    case Reject => Reject
    case Accept(persisted) =>
      var c := r.identity.caseId;
      if c in m.memory && persisted.0 == m.memory[c].count && persisted.1 != m.memory[c].head then Reject
      else
        var anchor := if c !in m.memory || persisted.0 > m.memory[c].count
            then MarkOf(r.identity, persisted.0, persisted.1) else m.memory[c];
        var sameIdentity := anchor.commitment == r.identity.commitment && anchor.clerkKey == r.identity.clerkKey;
        var compatible := anchor.count > r.count || (anchor.count == r.count && anchor.head == r.head);
        Accept(if sameIdentity && compatible then r.(count := anchor.count, head := anchor.head) else r)
  }

  /**
   As long as the store itself is not lost, the process's memory never conflicts with it, even when the store has moved
   on since the memory was copied: a refresh starts every fetch exactly at the persisted anchor, or at the registry's
   own when that is ahead.
   */
  lemma RefreshStartsAtPersisted(m: Marks, rivals: seq<Rival>, r: CaseRecord)
    requires Consistent(m)
    ensures var seen := m.(stored := RacedAll(m, rivals).stored);
            && (StartFrom(seen, r).Accept? <==> PersistedFor(seen.stored, r).Accept?)
            && (StartFrom(seen, r).Accept? ==>
                  var start := StartFrom(seen, r).value;
                  && start.identity == r.identity && PersistedFor(seen.stored, r) == Accept((start.count, start.head))
                  && r.count <= start.count && (r.count == start.count ==> r.head == start.head))
  {
    MarksForward(m, rivals);
    StoreMovesOn(m, RacedAll(m, rivals).stored);
    hide RacedAll, AnchorsForward;
    StartsWhereBacked(m.(stored := RacedAll(m, rivals).stored), r);
  }

  lemma StartsWhereBacked(m: Marks, r: CaseRecord)
    requires Consistent(m)
    ensures StartFrom(m, r).Accept? <==> PersistedFor(m.stored, r).Accept?
    ensures StartFrom(m, r).Accept? ==>
              var start := StartFrom(m, r).value;
              && start.identity == r.identity && PersistedFor(m.stored, r) == Accept((start.count, start.head))
              && r.count <= start.count && (r.count == start.count ==> r.head == start.head)
  {
    if r.identity.caseId in m.memory {
      assert Backed(m.stored, r.identity.caseId, m.memory[r.identity.caseId]);
    }
  }
}
