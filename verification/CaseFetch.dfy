/** Fetching one case's state: following chunked proofs to its snapshot, with a checkpoint after every chunk. */
module CaseFetch {
  import opened Basics
  import opened CaseProofs
  import opened CaseAnchors

  /** A signed snapshot of a case log; the state it covers is a digest here. */
  datatype CaseSnapshot = CaseSnapshot(problemId: Id, clerk: Key, at: Time, count: int, head: Option<EventHash>,
                                       stateDigest: string)

  datatype SignedSnapshot = SignedSnapshot(body: CaseSnapshot, signature: Signature<CaseSnapshot>)

  /** In microseconds. */
  const MaxSnapshotAge: Time := 300_000_000
  const MaxFutureSkew: Time := 60_000_000

  /** The answer for a range; None stands for a failed or late request. */
  type CaseServer = (int, int) -> Option<CaseProof>

  type Anchor = (int, Option<EventHash>)

  /** A fresh snapshot by the case's clerk, no older than the starting anchor and no fork of it. */
  predicate SnapshotFits(s: SignedSnapshot, start: CaseRecord, now: Time) {
    && s.body.problemId == start.identity.problemId && s.body.clerk == start.identity.clerkKey && s.body.count >= 0
    && s.signature == Signature(start.identity.clerkKey, s.body)
    && start.count >= 0
    && now - MaxSnapshotAge <= s.body.at <= now + MaxFutureSkew
    && start.count <= s.body.count
    && (s.body.count == start.count ==> s.body.head == start.head)
  }

  /**
   The case's own clerk signed it for this problem, at most five minutes ago and at most one minute ahead of the
   reader's clock, and it continues the anchor: the same log if it is no longer, and never a shorter one.
   */
  predicate Acceptable(s: SignedSnapshot, start: CaseRecord, now: Time) {
    var b := s.body;
    && s.signature == Signature(b.clerk, b)
    && (b.clerk, b.problemId) == (start.identity.clerkKey, start.identity.problemId)
    && -300_000_000 <= b.at - now <= 60_000_000
    && (if b.count == start.count then 0 <= b.count && b.head == start.head else 0 <= start.count < b.count)
  }

  lemma FitsExactly(s: SignedSnapshot, start: CaseRecord, now: Time)
    ensures SnapshotFits(s, start, now) <==> Acceptable(s, start, now)
  {}

  function Target(current: int, goal: int): int {
    if current + MaxLinks < goal then current + MaxLinks else goal
  }

  /** A chunk is verified and checkpointed, or the fetch ends there. */
  datatype Chunk = Kept(marks: Marks, head: Option<EventHash>) | Ended(marks: Marks, head: Option<EventHash>)

  /** What rivals do while a chunk is fetched, and between the two writes of its checkpoint. */
  datatype Races = Races(before: seq<Rival>, between: seq<Rival>)

  /** Fetch one chunk, verify it, let rivals act, and checkpoint. */
  function OneChunk(m: Marks, r: CaseRecord, serve: CaseServer, races: Races, current: int,
                    head: Option<EventHash>, goal: int): Chunk {
    var target := Target(current, goal);
    match serve(current, target)
    case None => Ended(m, head)
    case Some(proof) =>
      match CheckProof(proof, r.identity.problemId, r.identity.clerkKey, current, head, target)
      case Reject => Ended(m, head)
      case Accept(reached) =>
        var (ok, marks) := Checkpointed(RacedAll(m, races.before), r, target, reached, races.between);
        if ok then Kept(marks, reached) else Ended(marks, reached)
  }

  /** The outcome of following proofs: whether the goal was reached, the marks left, and the checkpoints made. */
  datatype Pulled = Pulled(done: bool, marks: Marks, head: Option<EventHash>, checkpoints: seq<Anchor>)

  /** Chunk by chunk to the goal, each checkpointed before the next. */
  function Pull(m: Marks, r: CaseRecord, serve: CaseServer, rivals: nat -> Races, k: nat,
                current: int, head: Option<EventHash>, goal: int): Pulled
    decreases if current < goal then goal - current else 0
  {
    if current >= goal then Pulled(true, m, head, [])
    else
      match OneChunk(m, r, serve, rivals(k), current, head, goal)
      case Ended(marks, reached) => Pulled(false, marks, reached, [])
      case Kept(marks, reached) =>
        var rest := Pull(marks, r, serve, rivals, k + 1, Target(current, goal), reached, goal);
        rest.(checkpoints := [(Target(current, goal), reached)] + rest.checkpoints)
  }

  class LiveProjector {
    const store: CaseAnchorStore
    var memory: map<Id, Mark>
    /** What other workers of this process have persisted and not yet remembered. */
    var pending: multiset<Pending>

    constructor (store: CaseAnchorStore)
      ensures this.store == store && memory == map[] && pending == multiset{}
    {
      this.store, this.memory, this.pending := store, map[], multiset{};
    }

    function View(): Marks
      reads this, store
    {
      Marks(store.anchors, memory, pending)
    }

    /** The second write of a checkpoint, if it is news. */
    method Remember(p: Pending)
      modifies this`memory
      ensures memory == Remembered(old(memory), p)
      ensures var c, mark := p.identity.caseId, Mark(p.identity.commitment, p.identity.clerkKey, p.count, p.head);
              if c in old(memory) && p.count <= old(memory)[c].count then memory == old(memory)
              else memory == old(memory)[c := mark]
    {
      if p.identity.caseId !in memory || p.count > memory[p.identity.caseId].count {
        memory := memory[p.identity.caseId := MarkOf(p.identity, p.count, p.head)];
      }
    }

    /** _checkpoint: persist, let rivals in between the two locks, then remember. */
    method Checkpoint(r: CaseRecord, count: int, head: Option<EventHash>, between: seq<Rival>) returns (ok: bool)
      modifies this, store
      ensures (ok, View()) == Checkpointed(old(View()), r, count, head, between)
      ensures ok ==> r.identity.caseId in memory && count <= memory[r.identity.caseId].count
      ensures ok ==> Reached(store.anchors, Pending(r.identity, count, head))
      ensures !ok ==> View() == old(View())
    {
      ok := store.Advance(r, count, head);
      if ok {
        AdvanceForward(old(store.anchors), r, count, head);
        MarksForward(View(), between);
        ReachedLater(store.anchors, RacedAll(View(), between).stored, Pending(r.identity, count, head));
        Race(between);
        Remember(Pending(r.identity, count, head));
      }
    }

    /** One step of another worker, another process, or a restart. */
    method RaceOnce(a: Rival)
      modifies this`memory, this`pending, store
      ensures View() == Raced(old(View()), a)
    {
      match a {
        case Persist(r, count, head) =>
          var ok := store.Advance(r, count, head);
          if ok {
            pending := pending + multiset{Pending(r.identity, count, head)};
          }
        case Remember(p) =>
          if p in pending {
            Remember(p);
            pending := pending - multiset{p};
          }
        case OtherProcess(r, count, head) => var _ := store.Advance(r, count, head);
        case Restart => memory, pending := map[], multiset{};
      }
    }

    /** Other workers, other processes and restarts, one at a time. */
    method Race(rivals: seq<Rival>)
      modifies this`memory, this`pending, store
      ensures View() == RacedAll(old(View()), rivals)
    {
      hide Raced;
      for i := 0 to |rivals|
        invariant View() == RacedAll(old(View()), rivals[..i])
      {
        assert rivals[..i + 1][..i] == rivals[..i];
        RaceOnce(rivals[i]);
      }
      assert rivals[..|rivals|] == rivals;
    }

    /**
     fetch_case_state, from a starting anchor to the signed snapshot. Rivals act before and within every checkpoint.
     */
    method FetchCaseState(r: CaseRecord, start: CaseRecord, s: SignedSnapshot, now: Time, serve: CaseServer,
                          rivals: nat -> Races)
      returns (ok: bool, checkpoints: seq<Anchor>)
      requires start.identity == r.identity
      modifies this, store
      ensures !Acceptable(s, start, now) ==> !ok && View() == old(View()) && checkpoints == []
      ensures Acceptable(s, start, now) ==>
                var pulled := Pull(old(View()), r, serve, rivals, 0, start.count, start.head, s.body.count);
                View() == pulled.marks && checkpoints == pulled.checkpoints
                    && (ok <==> pulled.done && pulled.head == s.body.head)
      ensures Chained(checkpoints, r.identity, serve, (start.count, start.head), s.body.count)
      ensures ok ==> LastOf(checkpoints, (start.count, start.head)) == (s.body.count, s.body.head)
    {
      FitsExactly(s, start, now);
      NothingChained(r.identity, serve, (start.count, start.head), s.body.count);
      if !SnapshotFits(s, start, now) {
        return false, [];
      }
      PullChains(View(), r, serve, rivals, 0, start.count, start.head, s.body.count);
      var reached: Option<EventHash>;
      ok, reached, checkpoints := FollowProofs(r, start, serve, rivals, s.body.count);
      ok := ok && reached == s.body.head;
    }

    /** Ask for the next chunk, verify it and checkpoint it, until the goal. */
    method FollowProofs(r: CaseRecord, start: CaseRecord, serve: CaseServer, rivals: nat -> Races, goal: int)
      returns (done: bool, currentHead: Option<EventHash>, checkpoints: seq<Anchor>)
      modifies this, store
      ensures var pulled := Pull(old(View()), r, serve, rivals, 0, start.count, start.head, goal);
              View() == pulled.marks && checkpoints == pulled.checkpoints && done == pulled.done
                  && (done ==> currentHead == pulled.head)
    {
      checkpoints := [];
      var currentCount, k := start.count, 0;
      currentHead := start.head;
      while currentCount < goal
        invariant 0 <= k
        invariant Pull(old(View()), r, serve, rivals, 0, start.count, start.head, goal) ==
                  After(checkpoints, Pull(View(), r, serve, rivals, k, currentCount, currentHead, goal))
        decreases if currentCount < goal then goal - currentCount else 0
      {
        var target := Target(currentCount, goal);
        var proof := serve(currentCount, target);
        if proof.None? {
          return false, currentHead, checkpoints;
        }
        var verified := VerifyProof(proof.value, r.identity.problemId, r.identity.clerkKey, currentCount, currentHead,
                                    target);
        if verified.Reject? {
          return false, currentHead, checkpoints;
        }
        Race(rivals(k).before);
        var kept := Checkpoint(r, target, verified.value, rivals(k).between);
        if !kept {
          return false, currentHead, checkpoints;
        }
        AfterNext(checkpoints, (target, verified.value),
                  Pull(View(), r, serve, rivals, k + 1, target, verified.value, goal));
        currentCount, currentHead, k := target, verified.value, k + 1;
        checkpoints := checkpoints + [(currentCount, currentHead)];
      }
      return true, currentHead, checkpoints;
    }
  }

  function After(made: seq<Anchor>, rest: Pulled): Pulled {
    rest.(checkpoints := made + rest.checkpoints)
  }

  lemma AfterNext(made: seq<Anchor>, next: Anchor, rest: Pulled)
    ensures After(made, rest.(checkpoints := [next] + rest.checkpoints)) == After(made + [next], rest)
  {
    assert made + ([next] + rest.checkpoints) == (made + [next]) + rest.checkpoints;
  }

  // ----- What a fetch proves -----

  /** One full chunk on the way to a goal, established by an accepted proof. */
  predicate ChunkProven(identity: CaseIdentity, serve: CaseServer, from: Anchor, to: Anchor, goal: int) {
    && from.0 < to.0 <= goal && to.0 - from.0 <= 256 && (to.0 == goal || to.0 - from.0 == 256)
    && serve(from.0, to.0).Some?
    && CheckProof(serve(from.0, to.0).value, identity.problemId, identity.clerkKey, from.0, from.1, to.0)
        == Accept(to.1)
  }

  /** The anchor before checkpoint i. */
  function Before(checkpoints: seq<Anchor>, start: Anchor, i: nat): Anchor
    requires i < |checkpoints|
  {
    if i == 0 then start else checkpoints[i - 1]
  }

  /** Checkpoints march from an anchor to a goal, each proven from the one before. */
  ghost predicate Chained(checkpoints: seq<Anchor>, identity: CaseIdentity, serve: CaseServer, start: Anchor,
                          goal: int) {
    forall i :: 0 <= i < |checkpoints| ==>
      ChunkProven(identity, serve, Before(checkpoints, start, i), checkpoints[i], goal)
  }

  lemma ChainedCons(first: Anchor, rest: seq<Anchor>, identity: CaseIdentity, serve: CaseServer, start: Anchor,
                    goal: int)
    requires ChunkProven(identity, serve, start, first, goal) && Chained(rest, identity, serve, first, goal)
    ensures Chained([first] + rest, identity, serve, start, goal)
  {
    hide ChunkProven;
    var all := [first] + rest;
    forall i | 0 <= i < |all| ensures ChunkProven(identity, serve, Before(all, start, i), all[i], goal) {
      if i > 0 {
        assert all[i] == rest[i - 1];
        assert ChunkProven(identity, serve, Before(rest, first, i - 1), rest[i - 1], goal);
      }
    }
  }

  /** Where the checkpoints end. */
  function LastOf(checkpoints: seq<Anchor>, start: Anchor): Anchor {
    if checkpoints == [] then start else checkpoints[|checkpoints| - 1]
  }

  /** A chunk that is kept is proven, moves no persisted anchor back or aside, and keeps memory behind the store. */
  lemma ChunkKeeps(m: Marks, r: CaseRecord, serve: CaseServer, races: Races, current: int,
                   head: Option<EventHash>, goal: int)
    requires current < goal
    ensures var chunk := OneChunk(m, r, serve, races, current, head, goal);
            && (chunk.Kept? ==>
                ChunkProven(r.identity, serve, (current, head), (Target(current, goal), chunk.head), goal))
            && AnchorsForward(m.stored, chunk.marks.stored) && (Consistent(m) ==> Consistent(chunk.marks))
  {
    MarksForward(m, []);
    NoRivals(m);
    hide AnchorsForward, Consistent, CheckProof, Checkpointed, RacedAll;
    var target := Target(current, goal);
    if serve(current, target).Some? {
      var check := CheckProof(serve(current, target).value, r.identity.problemId, r.identity.clerkKey, current, head,
                              target);
      if check.Accept? {
        var raced := RacedAll(m, races.before);
        MarksForward(m, races.before);
        CheckpointKeeps(raced, r, target, check.value, races.between);
        ForwardTransitive(m.stored, raced.stored, Checkpointed(raced, r, target, check.value, races.between).1.stored);
      }
    }
  }

  /** Whatever rivals do, the checkpoints are one verified chain, and a completed fetch reaches the goal with it. */
  lemma {:induction false} PullChains(m: Marks, r: CaseRecord, serve: CaseServer, rivals: nat -> Races, k: nat,
                                      current: int, head: Option<EventHash>, goal: int)
    requires current <= goal
    ensures var pulled := Pull(m, r, serve, rivals, k, current, head, goal);
            && Chained(pulled.checkpoints, r.identity, serve, (current, head), goal)
            && (pulled.done ==> LastOf(pulled.checkpoints, (current, head)) == (goal, pulled.head))
    decreases goal - current
  {
    NothingChained(r.identity, serve, (current, head), goal);
    hide OneChunk, Chained, ChunkProven;
    if current < goal {
      ChunkKeeps(m, r, serve, rivals(k), current, head, goal);
      var chunk := OneChunk(m, r, serve, rivals(k), current, head, goal);
      if chunk.Kept? {
        var target := Target(current, goal);
        PullChains(chunk.marks, r, serve, rivals, k + 1, target, chunk.head, goal);
        ChainedCons((target, chunk.head),
                    Pull(chunk.marks, r, serve, rivals, k + 1, target, chunk.head, goal).checkpoints,
                    r.identity, serve, (current, head), goal);
      }
    }
  }

  lemma NothingChained(identity: CaseIdentity, serve: CaseServer, start: Anchor, goal: int)
    ensures Chained([], identity, serve, start, goal)
  {}

  /** No fetch ever moves a persisted anchor back or aside, and memory stays behind the store. */
  lemma {:induction false} PullForward(m: Marks, r: CaseRecord, serve: CaseServer, rivals: nat -> Races, k: nat,
                                       current: int, head: Option<EventHash>, goal: int)
    ensures var after := Pull(m, r, serve, rivals, k, current, head, goal).marks;
            AnchorsForward(m.stored, after.stored) && (Consistent(m) ==> Consistent(after))
    decreases if current < goal then goal - current else 0
  {
    MarksForward(m, []);
    NoRivals(m);
    hide AnchorsForward, Consistent, OneChunk;
    if current < goal {
      ChunkKeeps(m, r, serve, rivals(k), current, head, goal);
      var chunk := OneChunk(m, r, serve, rivals(k), current, head, goal);
      if chunk.Kept? {
        PullForward(chunk.marks, r, serve, rivals, k + 1, Target(current, goal), chunk.head, goal);
        ForwardTransitive(m.stored, chunk.marks.stored, Pull(m, r, serve, rivals, k, current, head, goal).marks.stored);
      }
    }
  }

  lemma NoRivals(m: Marks)
    ensures RacedAll(m, []) == m
  {}

  lemma ChunkPersists(m: Marks, r: CaseRecord, serve: CaseServer, races: Races, current: int, head: Option<EventHash>,
                      goal: int)
    ensures var chunk := OneChunk(m, r, serve, races, current, head, goal);
            chunk.Kept? ==> Reached(chunk.marks.stored, Pending(r.identity, Target(current, goal), chunk.head))
  {
    hide CheckProof, Reached, AnchorsForward, Advanced, RacedAll;
    var target := Target(current, goal);
    if serve(current, target).Some? {
      var check := CheckProof(serve(current, target).value, r.identity.problemId, r.identity.clerkKey, current, head,
                              target);
      if check.Accept? {
        var raced := RacedAll(m, races.before);
        var persisted := raced.(stored := Advanced(raced.stored, r, target, check.value).1);
        AdvanceForward(raced.stored, r, target, check.value);
        MarksForward(persisted, races.between);
        if Advanced(raced.stored, r, target, check.value).0 {
          ReachedLater(persisted.stored, RacedAll(persisted, races.between).stored,
                       Pending(r.identity, target, check.value));
        }
      }
    }
  }

  /** Every checkpoint that a fetch makes is in the durable store when it ends, or a later one of the same case is. */
  lemma {:induction false} PullPersists(m: Marks, r: CaseRecord, serve: CaseServer, rivals: nat -> Races, k: nat,
                                        current: int, head: Option<EventHash>, goal: int, i: nat)
    requires i < |Pull(m, r, serve, rivals, k, current, head, goal).checkpoints|
    ensures var pulled := Pull(m, r, serve, rivals, k, current, head, goal);
            Reached(pulled.marks.stored, Pending(r.identity, pulled.checkpoints[i].0, pulled.checkpoints[i].1))
    decreases if current < goal then goal - current else 0
  {
    hide OneChunk, Reached, AnchorsForward, Consistent;
    var chunk := OneChunk(m, r, serve, rivals(k), current, head, goal);
    var target := Target(current, goal);
    if i > 0 {
      PullPersists(chunk.marks, r, serve, rivals, k + 1, target, chunk.head, goal, i - 1);
    } else {
      ChunkPersists(m, r, serve, rivals(k), current, head, goal);
      PullForward(chunk.marks, r, serve, rivals, k + 1, target, chunk.head, goal);
      ReachedLater(chunk.marks.stored, Pull(m, r, serve, rivals, k, current, head, goal).marks.stored,
                   Pending(r.identity, target, chunk.head));
    }
  }

  /** If the clerk signs only what it builds from one log, the starting anchor and every checkpoint lie on that log. */
  lemma CheckpointsOnLog(log: seq<CaseEvent>, checkpoints: seq<Anchor>, identity: CaseIdentity, serve: CaseServer,
                         start: Anchor, goal: int, i: nat)
    requires CaseLog(log) && Chained(checkpoints, identity, serve, start, goal) && i < |checkpoints|
    requires forall a, b ::
             serve(a, b).Some? ==> SignsOnly(log, identity.problemId, identity.clerkKey, serve(a, b).value)
    ensures OnLog(log, start.0, start.1) && OnLog(log, checkpoints[i].0, checkpoints[i].1)
  {
    hide CaseLog;
    ProvenOnLog(log, identity, serve, Before(checkpoints, start, 0), checkpoints[0], goal);
    ProvenOnLog(log, identity, serve, Before(checkpoints, start, i), checkpoints[i], goal);
  }

  lemma ProvenOnLog(log: seq<CaseEvent>, identity: CaseIdentity, serve: CaseServer, from: Anchor, to: Anchor, goal: int)
    requires CaseLog(log) && ChunkProven(identity, serve, from, to, goal)
    requires forall a, b ::
             serve(a, b).Some? ==> SignsOnly(log, identity.problemId, identity.clerkKey, serve(a, b).value)
    ensures OnLog(log, from.0, from.1) && OnLog(log, to.0, to.1)
  {
    hide CaseLog, Contiguous, OnLog, SignsOnly;
    SignedEndsOnLog(log, identity.problemId, identity.clerkKey, serve(from.0, to.0).value);
  }

  // ----- Completeness -----

  /** Answers with what a clerk holding this log would build. */
  ghost predicate Honest(serve: CaseServer, log: seq<CaseEvent>, identity: CaseIdentity) {
    forall i, j :: Served(identity.problemId, identity.clerkKey, log, i, j).Some? ==>
      serve(i, j) == Served(identity.problemId, identity.clerkKey, log, i, j)
  }

  /** A log leaves no position without a valid anchor. */
  lemma LogAnchor(log: seq<CaseEvent>, count: int)
    requires 0 <= count <= |log| && count <= MaxCount
    ensures ValidAnchor(count, HeadAt(log, count))
  {}

  /** A record of this case whose anchor is on the log. */
  ghost predicate FitsLog(log: seq<CaseEvent>, identity: CaseIdentity, r: CaseRecord) {
    r.identity == identity && OnLog(log, r.count, r.head)
  }

  /** A worker anywhere that only persists, for this case, positions of the log, and touches only known cases. */
  ghost predicate HonestRival(log: seq<CaseEvent>, identity: CaseIdentity, known: set<Id>, a: Rival) {
    a.Persist? || a.OtherProcess? ==>
      && a.r.identity.caseId in known
      && (a.r.identity.caseId == identity.caseId ==> FitsLog(log, identity, a.r) && OnLog(log, a.count, a.head))
  }

  ghost predicate HonestRivals(log: seq<CaseEvent>, identity: CaseIdentity, known: set<Id>, rivals: seq<Rival>) {
    forall i :: 0 <= i < |rivals| ==> HonestRival(log, identity, known, rivals[i])
  }

  /** How far a rival takes the case: the count it asks the store to keep, unless that is behind its own record. */
  function TopOf(caseId: Id, a: Rival): int {
    if (a.Persist? || a.OtherProcess?) && a.r.identity.caseId == caseId && a.r.count <= a.count then a.count else -1
  }

  function Max(a: int, b: int): int {
    if a < b then b else a
  }

  function TopOfAll(caseId: Id, rivals: seq<Rival>): int {
    if rivals == [] then -1
    else Max(TopOfAll(caseId, rivals[..|rivals| - 1]), TopOf(caseId, rivals[|rivals| - 1]))
  }

  /** The count the store holds for a case. */
  function StoredCount(anchors: Anchors, caseId: Id): int {
    if caseId in anchors then anchors[caseId].count else -1
  }

  /** The store knows no more than these cases, few enough, and holds a position of the log for this one, if any. */
  ghost predicate StoreOnLog(log: seq<CaseEvent>, identity: CaseIdentity, known: set<Id>, anchors: Anchors) {
    && |log| <= MaxCount && identity.caseId in known && |known| <= MaxStored && anchors.Keys <= known
    && (identity.caseId in anchors ==>
          var stored := anchors[identity.caseId];
          stored.identity == identity && OnLog(log, stored.count, stored.head))
  }

  /** An advance to a position of the log succeeds exactly when the store is not past it, and then holds it. */
  lemma AdvanceOnLog(log: seq<CaseEvent>, known: set<Id>, anchors: Anchors, r: CaseRecord, count: int,
                     head: Option<EventHash>)
    requires StoreOnLog(log, r.identity, known, anchors) && OnLog(log, r.count, r.head) && OnLog(log, count, head)
    ensures var (ok, after) := Advanced(anchors, r, count, head);
            && StoreOnLog(log, r.identity, known, after)
            && (ok <==> r.count <= count && StoredCount(anchors, r.identity.caseId) <= count)
            && StoredCount(after, r.identity.caseId) ==
               Max(StoredCount(anchors, r.identity.caseId), if r.count <= count then count else -1)
  {
    hide HeadAt;
    LogAnchor(log, count);
    LogAnchor(log, r.count);
    SubsetSize(anchors.Keys, known);
    assert |anchors.Keys| == |anchors|;
  }

  lemma AdvanceElsewhere(log: seq<CaseEvent>, identity: CaseIdentity, known: set<Id>, anchors: Anchors, r: CaseRecord,
                         count: int, head: Option<EventHash>)
    requires StoreOnLog(log, identity, known, anchors) && r.identity.caseId in known
    requires r.identity.caseId != identity.caseId
    ensures var after := Advanced(anchors, r, count, head).1;
            && StoreOnLog(log, identity, known, after)
            && StoredCount(after, identity.caseId) == StoredCount(anchors, identity.caseId)
  {}

  lemma AdvanceByRival(log: seq<CaseEvent>, identity: CaseIdentity, known: set<Id>, anchors: Anchors, a: Rival)
    requires StoreOnLog(log, identity, known, anchors) && (a.Persist? || a.OtherProcess?)
    requires HonestRival(log, identity, known, a)
    ensures var after := Advanced(anchors, a.r, a.count, a.head).1;
            && StoreOnLog(log, identity, known, after)
            && StoredCount(after, identity.caseId)
                == Max(StoredCount(anchors, identity.caseId), TopOf(identity.caseId, a))
  {
    hide StoreOnLog, Advanced, OnLog;
    if a.r.identity.caseId == identity.caseId {
      AdvanceOnLog(log, known, anchors, a.r, a.count, a.head);
    } else {
      CountAtLeast(log, identity, known, anchors);
      AdvanceElsewhere(log, identity, known, anchors, a.r, a.count, a.head);
    }
  }

  lemma CountAtLeast(log: seq<CaseEvent>, identity: CaseIdentity, known: set<Id>, anchors: Anchors)
    requires StoreOnLog(log, identity, known, anchors)
    ensures -1 <= StoredCount(anchors, identity.caseId)
  {}

  lemma RivalOnLog(log: seq<CaseEvent>, identity: CaseIdentity, known: set<Id>, m: Marks, a: Rival)
    requires StoreOnLog(log, identity, known, m.stored) && HonestRival(log, identity, known, a)
    ensures StoreOnLog(log, identity, known, Raced(m, a).stored)
    ensures StoredCount(Raced(m, a).stored, identity.caseId) ==
            Max(StoredCount(m.stored, identity.caseId), TopOf(identity.caseId, a))
  {
    CountAtLeast(log, identity, known, m.stored);
    if a.Persist? || a.OtherProcess? {
      AdvanceByRival(log, identity, known, m.stored, a);
      FailedAdvance(m.stored, a.r, a.count, a.head);
    }
    hide StoreOnLog, Advanced, HonestRival, StoredCount;
  }

  lemma FailedAdvance(anchors: Anchors, r: CaseRecord, count: int, head: Option<EventHash>)
    ensures !Advanced(anchors, r, count, head).0 ==> Advanced(anchors, r, count, head).1 == anchors
  {}

  /** Honest rivals take the stored count exactly to the highest of what they ask for. */
  lemma {:induction false} RivalsOnLog(log: seq<CaseEvent>, identity: CaseIdentity, known: set<Id>, m: Marks,
                                       rivals: seq<Rival>)
    requires StoreOnLog(log, identity, known, m.stored) && HonestRivals(log, identity, known, rivals)
    ensures var after := RacedAll(m, rivals).stored;
            && StoreOnLog(log, identity, known, after)
            && StoredCount(after, identity.caseId)
                == Max(StoredCount(m.stored, identity.caseId), TopOfAll(identity.caseId, rivals))
  {
    hide StoreOnLog, HonestRival, Raced, TopOf;
    CountAtLeast(log, identity, known, m.stored);
    if rivals != [] {
      var before := rivals[..|rivals| - 1];
      RivalsOnLog(log, identity, known, m, before);
      RivalOnLog(log, identity, known, RacedAll(m, before), rivals[|rivals| - 1]);
    }
  }

  /**
   No rival takes the case past a chunk's target before that chunk is persisted: neither before its checkpoint, nor
   (top) between the two writes of the checkpoint before it.
   */
  ghost predicate Unbeaten(caseId: Id, rivals: nat -> Races, top: int, k: nat, current: int, goal: int)
    decreases if current < goal then goal - current else 0
  {
    current < goal ==>
      && top <= Target(current, goal) && TopOfAll(caseId, rivals(k).before) <= Target(current, goal)
      && Unbeaten(caseId, rivals, TopOfAll(caseId, rivals(k).between), k + 1, Target(current, goal), goal)
  }

  /** One chunk of an honest log is kept exactly when the store is not past its target. */
  lemma HonestChunk(log: seq<CaseEvent>, known: set<Id>, m: Marks, r: CaseRecord, serve: CaseServer, races: Races,
                    current: int, goal: int)
    requires CaseLog(log) && Honest(serve, log, r.identity) && StoreOnLog(log, r.identity, known, m.stored)
    requires HonestRivals(log, r.identity, known, races.before) && HonestRivals(log, r.identity, known, races.between)
    requires 0 <= current < goal <= |log| && OnLog(log, r.count, r.head) && r.count <= current
    ensures var chunk := OneChunk(m, r, serve, races, current, HeadAt(log, current), goal);
            var target, c := Target(current, goal), r.identity.caseId;
            && (chunk.Kept? <==> StoredCount(m.stored, c) <= target && TopOfAll(c, races.before) <= target)
            && (chunk.Kept? ==>
                  && chunk.head == HeadAt(log, target) && StoreOnLog(log, r.identity, known, chunk.marks.stored)
                  && StoredCount(chunk.marks.stored, c) == Max(target, TopOfAll(c, races.between)))
  {
    hide CaseLog, HeadAt, CheckProof, Honest, HonestRivals, StoreOnLog, RacedAll, Advanced, TopOfAll, StoredCount;
    var target := Target(current, goal);
    var before := RacedAll(m, races.before);
    HonestAnswer(log, r.identity, serve, current, target);
    RivalsOnLog(log, r.identity, known, m, races.before);
    AdvanceOnLog(log, known, before.stored, r, target, HeadAt(log, target));
    var (ok, stored) := Advanced(before.stored, r, target, HeadAt(log, target));
    RivalsOnLog(log, r.identity, known, before.(stored := stored), races.between);
  }

  lemma HonestAnswer(log: seq<CaseEvent>, identity: CaseIdentity, serve: CaseServer, current: int, target: int)
    requires CaseLog(log) && Honest(serve, log, identity)
    requires 0 <= current <= target <= |log| && target - current <= MaxLinks
    ensures serve(current, target).Some?
    ensures CheckProof(serve(current, target).value, identity.problemId, identity.clerkKey, current,
                       HeadAt(log, current), target) == Accept(HeadAt(log, target))
  {
    hide CaseLog, HeadAt, CheckProof, Served;
    ServedIsAccepted(identity.problemId, identity.clerkKey, log, current, target);
    assert serve(current, target) == Served(identity.problemId, identity.clerkKey, log, current, target);
  }

  /**
   With an honest clerk, and rivals that persist only positions of its log, a fetch from a trusted position completes
   exactly when it is not beaten, and then ends on the log's head at the goal.
   */
  lemma {:induction false} HonestFetchDecided(log: seq<CaseEvent>, known: set<Id>, m: Marks, r: CaseRecord,
                                              serve: CaseServer, rivals: nat -> Races, k: nat, current: int, goal: int)
    requires CaseLog(log) && Honest(serve, log, r.identity) && StoreOnLog(log, r.identity, known, m.stored)
    requires forall i: nat :: HonestRivals(log, r.identity, known, rivals(i).before)
    requires forall i: nat :: HonestRivals(log, r.identity, known, rivals(i).between)
    requires 0 <= current <= goal <= |log| && OnLog(log, r.count, r.head) && r.count <= current
    ensures var pulled := Pull(m, r, serve, rivals, k, current, HeadAt(log, current), goal);
            && (pulled.done
                <==> Unbeaten(r.identity.caseId, rivals, StoredCount(m.stored, r.identity.caseId), k, current, goal))
            && (pulled.done ==> pulled.head == HeadAt(log, goal))
    decreases goal - current
  {
    hide CaseLog, HeadAt, Honest, HonestRivals, StoreOnLog, OneChunk, OnLog, StoredCount, TopOfAll;
    if current < goal {
      var target, c := Target(current, goal), r.identity.caseId;
      HonestChunk(log, known, m, r, serve, rivals(k), current, goal);
      var chunk := OneChunk(m, r, serve, rivals(k), current, HeadAt(log, current), goal);
      if chunk.Kept? {
        HonestFetchDecided(log, known, chunk.marks, r, serve, rivals, k + 1, target, goal);
        BeatenBySome(c, rivals, target, TopOfAll(c, rivals(k).between), k + 1, target, goal);
      }
    }
  }

  /** What the fetch itself has just persisted never beats it. */
  lemma BeatenBySome(caseId: Id, rivals: nat -> Races, own: int, top: int, k: nat, current: int, goal: int)
    requires own <= current
    ensures Unbeaten(caseId, rivals, Max(own, top), k, current, goal)
            <==> Unbeaten(caseId, rivals, top, k, current, goal)
  {}

  lemma {:induction false} AloneIsUnbeaten(caseId: Id, rivals: nat -> Races, top: int, k: nat, current: int, goal: int)
    requires top <= current && -1 <= current && forall i: nat :: rivals(i) == Races([], [])
    ensures Unbeaten(caseId, rivals, top, k, current, goal)
    decreases if current < goal then goal - current else 0
  {
    if current < goal {
      AloneIsUnbeaten(caseId, rivals, -1, k + 1, Target(current, goal), goal);
    }
  }

  /** With an honest clerk and no rivals, a fetch completes from any trusted position, however long the log. */
  lemma HonestFetchCompletes(log: seq<CaseEvent>, known: set<Id>, m: Marks, r: CaseRecord, serve: CaseServer,
                             rivals: nat -> Races, k: nat, current: int, goal: int)
    requires CaseLog(log) && Honest(serve, log, r.identity) && forall i: nat :: rivals(i) == Races([], [])
    requires StoreOnLog(log, r.identity, known, m.stored) && StoredCount(m.stored, r.identity.caseId) <= current
    requires 0 <= current <= goal <= |log| && OnLog(log, r.count, r.head) && r.count <= current
    ensures var pulled := Pull(m, r, serve, rivals, k, current, HeadAt(log, current), goal);
            pulled.done && pulled.head == HeadAt(log, goal)
  {
    hide CaseLog, HeadAt, Honest, StoreOnLog, OnLog, StoredCount, Pull;
    HonestFetchDecided(log, known, m, r, serve, rivals, k, current, goal);
    AloneIsUnbeaten(r.identity.caseId, rivals, StoredCount(m.stored, r.identity.caseId), k, current, goal);
  }
}
