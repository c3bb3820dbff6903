/** One refresh of the live projection: bounded fan-out over the worker pool, and an entry for every record. */
module LiveRefresh {
  import opened Basics
  import opened FetchSlots

  /** Why an entry shows only what the registry knows. */
  datatype Note = Unverifiable | TimedOut | CapacityExhausted | DeadlineReached | LimitReached

  datatype Shown<+R> = Live(record: R) | Stale(record: R, note: Note)

  /** What the rest of the world does around one step of the refresh, and whether the deadline has passed. */
  datatype Turn = Turn(events: seq<PoolEvent>, late: bool)

  /** The executor, closing, and earlier refreshes; never this refresh's own submissions. */
  predicate Outside(e: PoolEvent) {
    e.Start? || e.Finish? || e.Close? || e.Cancel?
  }

  class Projector<R(==)> {
    const maxWorkers: nat
    const world: nat -> Turn
    var pool: Pool
    var turn: nat

    ghost predicate Valid()
      reads this
    {
      && Conserved(pool, maxWorkers) && pool.held == 0
      && forall k: nat, i :: 0 <= i < |world(k).events| ==> Outside(world(k).events[i])
    }

    constructor (maxWorkers: nat, world: nat -> Turn)
      requires maxWorkers > 0 && forall k: nat, i :: 0 <= i < |world(k).events| ==> Outside(world(k).events[i])
      ensures Valid() && this.maxWorkers == maxWorkers && this.world == world
    {
      this.maxWorkers, this.world := maxWorkers, world;
      pool, turn := Pool(maxWorkers, 0, map[], 0, false), 0;
      new;
      assert Holders(pool.tasks) == {};
    }

    /** Everything else happens. */
    method Meanwhile()
      requires Valid()
      modifies this
      ensures Valid() && TasksKept(old(pool), pool)
    {
      PermitsConserved(pool, maxWorkers, world(turn).events);
      ReleasedForGood(pool, maxWorkers, world(turn).events);
      OutsideHoldsNone(pool, world(turn).events);
      pool := AfterAll(pool, world(turn).events);
      turn := turn + 1;
    }

    /** Submit one fetch if a permit is free; a closed executor gives the permit back and raises. */
    method SubmitOne() returns (ticket: Result<Option<nat>>)
      requires Valid()
      modifies this
      ensures Valid() && TasksKept(old(pool), pool)
      ensures ticket.Accept? && ticket.value.Some? ==>
              ticket.value.value in pool.tasks && ticket.value.value !in old(pool.tasks)
      ensures ticket == Accept(None) ==> pool.permits == 0
      ensures ticket.Reject? ==> pool.closed
    {
      hide TasksKept, Holders;
      Meanwhile();
      if pool.permits == 0 {
        return Accept(None);
      }
      var t := pool.next;
      ghost var before := pool;
      StepConserves(pool, maxWorkers, Acquire);
      StepConserves(After(pool, Acquire), maxWorkers, Submit);
      pool := After(After(pool, Acquire), Submit);
      if t !in pool.tasks {
        return Reject;
      }
      SubmitKeeps(before);
      TasksKeptTransitive(old(pool), before, pool);
      ghost var submitted := pool;
      Meanwhile();
      TasksKeptTransitive(old(pool), submitted, pool);
      KeptKeys(submitted, pool);
      ghost var unwatched := pool;
      StepConserves(pool, maxWorkers, Watch(t));
      StepKeepsTasks(pool, maxWorkers, Watch(t));
      pool := After(pool, Watch(t));
      TasksKeptTransitive(old(pool), unwatched, pool);
      KeptKeys(unwatched, pool);
      return Accept(Some(t));
    }

    /** Fill free slots with the next records. */
    method FillSlots(count: nat, futures0: map<nat, nat>, next0: nat, ghost owners0: Owners, ghost before0: set<nat>)
      returns (ok: bool, futures: map<nat, nat>, next: nat, blocked: bool, ghost owners: Owners)
      requires Valid() && Tracked(futures0, next0) && next0 <= count && futures0.Keys <= pool.tasks.Keys
      requires Owned(owners0, futures0, next0, pool.tasks.Keys, before0)
      modifies this
      ensures Valid() && TasksKept(old(pool), pool)
      ensures Tracked(futures, next) && next0 <= next <= count && futures.Keys <= pool.tasks.Keys
      ensures Joined(futures0, futures, next0, next) && |futures| == |futures0| + (next - next0)
      ensures Owned(owners, futures, next, pool.tasks.Keys, before0) && OwnersKept(owners0, owners)
      ensures NewFrom(owners, next0, old(pool.tasks.Keys))
      ensures if !ok then pool.closed
              else if blocked then pool.permits == 0 else next == count || maxWorkers <= |futures|
    {
      hide TasksKept, Conserved, Outside, Tracked, Joined, Owned, OwnersKept, NewFrom;
      futures, next, blocked, owners := futures0, next0, false, owners0;
      NewNone(owners, futures, next, pool.tasks.Keys, before0);
      KeptSelf(pool);
      OwnersSelf(owners0);
      JoinedSelf(futures0, next0);
      while next < count && |futures| < maxWorkers
        invariant Valid() && TasksKept(old(pool), pool)
        invariant Tracked(futures, next) && next0 <= next <= count && futures.Keys <= pool.tasks.Keys
        invariant Joined(futures0, futures, next0, next) && |futures| == |futures0| + (next - next0)
        invariant Owned(owners, futures, next, pool.tasks.Keys, before0) && OwnersKept(owners0, owners)
        invariant NewFrom(owners, next0, old(pool.tasks.Keys))
      {
        ghost var before := pool;
        var ticket := SubmitOne();
        TasksKeptTransitive(old(pool), before, pool);
        KeptKeys(before, pool);
        OwnedLater(owners, futures, next, before.tasks.Keys, pool.tasks.Keys, before0);
        if ticket.Reject? {
          return false, futures, next, blocked, owners;
        }
        if ticket.value.None? {
          return true, futures, next, true, owners;
        }
        JoinedNext(futures0, futures, next0, next, ticket.value.value);
        OwnedNext(owners, futures, next, before.tasks.Keys, pool.tasks.Keys, before0, ticket.value.value);
        OwnersMore(owners0, owners, next, ticket.value.value);
        KeptKeys(old(pool), before);
        NewMore(owners, next0, old(pool.tasks.Keys), before.tasks.Keys, next, ticket.value.value);
        owners := owners[next := ticket.value.value];
        futures, next := futures[ticket.value.value := next], next + 1;
      }
      return true, futures, next, blocked, owners;
    }

    /**
     _refresh: fan out over the pool, collect what completes before the deadline, and give every record exactly one
     entry, in registry order. None means that the executor was closed under it.

     A submitted record's entry is live exactly when its own fetch finished in success and its state can be projected;
     it is timed out only if that fetch had not ended when the refresh last looked (`polled`), or was submitted since
     and the deadline is past. A record is never submitted only for want of a permit when slots were last filled
     (`filled`), or because as many fetches as there are workers were left to time out.
     */
    method Refresh(records: seq<R>, limit: nat, projectable: R -> bool)
      returns (shown: Option<seq<Shown<R>>>, ghost owners: Owners, ghost polled: Pool, ghost filled: Pool)
      requires Valid()
      modifies this
      ensures Valid() && TasksKept(old(pool), pool) && TasksKept(polled, pool) && TasksKept(filled, pool)
      ensures shown.None? ==> pool.closed
      ensures shown.Some? ==>
                TellsAll(shown.value, records, limit, owners, pool.tasks, old(pool.tasks.Keys), projectable, polled,
                         filled, world(turn).late, maxWorkers)
      ensures forall i, j :: i in owners && j in owners && i != j ==> owners[i] != owners[j]
      ensures forall i: nat, j :: i < j && j in owners ==> i in owners && j < limit
    {
      hide Tracked, Filled, Joined, TasksKept, Conserved, Outside, Shows, Beyond, Owned, OwnersKept, Earned;
      hide Reports, TimesOut, Waiting, TimedOutOf, Told, TellsAll;
      KeptSelf(pool);
      polled := pool;
      TrackedNone();
      ghost var known := pool.tasks.Keys;
      OwnedNone(known);
      var size := if limit < |records| then limit else |records|;
      var selected := records[..size];
      var projected: seq<Option<Shown<R>>> := seq(size, _ => None);
      var ok, futures, next, blocked;
      ok, futures, next, blocked, owners := FillSlots(size, map[], 0, map[], known);
      filled := pool;
      KeptSelf(pool);
      OwnersApart(owners, futures, next, pool.tasks.Keys, known);
      if !ok {
        return None, owners, polled, filled;
      }
      FilledFirst(projected, selected, futures, next);
      EarnedNone(projected, selected, owners, pool.tasks, projectable);
      WaitingNew(owners, futures, next, pool.tasks.Keys, known, polled);
      while futures != map[]
        invariant Valid() && TasksKept(old(pool), pool) && TasksKept(polled, pool) && TasksKept(filled, pool)
        invariant Tracked(futures, next) && next <= size && futures.Keys <= pool.tasks.Keys
        invariant Filled(projected, selected, futures, next)
        invariant Owned(owners, futures, next, pool.tasks.Keys, known)
        invariant Earned(projected, selected, owners, pool.tasks, projectable)
        invariant Waiting(futures, polled)
        invariant if blocked then filled.permits == 0 else next == size || maxWorkers <= |futures|
        decreases 2 * (size - next) + |futures|
      {
        if world(turn).late {
          break;
        }
        ghost var before := pool;
        Meanwhile();
        TasksKeptTransitive(old(pool), before, pool);
        TasksKeptTransitive(filled, before, pool);
        KeptKeys(before, pool);
        OwnedLater(owners, futures, next, before.tasks.Keys, pool.tasks.Keys, known);
        EarnedLater(projected, selected, owners, owners, before, pool, projectable);
        var left, collected := Collect(projected, selected, futures, next, projectable, owners, known);
        polled := pool;
        KeptSelf(pool);
        if left == futures {
          break;
        }
        var was := next;
        ghost var claimed := owners;
        before := pool;
        futures, projected := left, collected;
        ok, futures, next, blocked, owners := FillSlots(size, left, was, claimed, known);
        TasksKeptTransitive(old(pool), before, pool);
        filled := pool;
        KeptSelf(pool);
        OwnersApart(owners, futures, next, pool.tasks.Keys, known);
        if !ok {
          return None, owners, polled, filled;
        }
        FilledMore(projected, selected, left, futures, was, next);
        EarnedLater(projected, selected, claimed, owners, before, pool, projectable);
        WaitingMore(claimed, left, was, owners, futures, next, before, known, pool.tasks.Keys);
      }
      ghost var before := pool;
      ghost var late := futures;
      projected := GiveUp(projected, selected, futures, next, owners, projectable, polled, world(turn).late, known);
      TasksKeptTransitive(old(pool), before, pool);
      TasksKeptTransitive(polled, before, pool);
      TasksKeptTransitive(filled, before, pool);
      KeptKeys(before, pool);
      OwnedLater(owners, futures, next, before.tasks.Keys, pool.tasks.Keys, known);
      OwnersApart(owners, futures, next, pool.tasks.Keys, known);
      var note := if blocked then CapacityExhausted else DeadlineReached;
      LateCounted(projected, records, size, late, next, note);
      AllTold(projected, records, size, limit, owners, pool.tasks, known, projectable, polled, filled,
              world(turn).late, next, note, maxWorkers);
      return Some(Shows(projected, selected, note) + Beyond(records, size)), owners, polled, filled;
    }

    /** Take every completed future out, and show its record. */
    method Collect(projected0: seq<Option<Shown<R>>>, selected: seq<R>, futures0: map<nat, nat>, next: nat,
                   projectable: R -> bool, ghost owners: Owners, ghost known: set<nat>)
      returns (futures: map<nat, nat>, projected: seq<Option<Shown<R>>>)
      requires Tracked(futures0, next) && futures0.Keys <= pool.tasks.Keys
      requires Owned(owners, futures0, next, pool.tasks.Keys, known)
      requires Filled(projected0, selected, futures0, next) && next <= |selected|
      requires Earned(projected0, selected, owners, pool.tasks, projectable)
      ensures Owned(owners, futures, next, pool.tasks.Keys, known)
      ensures Earned(projected, selected, owners, pool.tasks, projectable)
      ensures Tracked(futures, next) && futures.Keys <= futures0.Keys
      ensures Filled(projected, selected, futures, next) && Waiting(futures, pool)
      ensures futures != futures0 ==> |futures| < |futures0|
    {
      hide Earned, Owned;
      futures, projected := futures0, projected0;
      var done := set f | f in futures0 && Ended(pool.tasks[f]);
      while done != {}
        invariant done <= futures.Keys <= futures0.Keys
        invariant forall f :: f in futures && Ended(pool.tasks[f]) ==> f in done
        invariant forall f :: f in done ==> Ended(pool.tasks[f])
        invariant Tracked(futures, next) && Filled(projected, selected, futures, next)
        invariant futures == futures0 || |futures| < |futures0|
        invariant Owned(owners, futures, next, pool.tasks.Keys, known)
        invariant Earned(projected, selected, owners, pool.tasks, projectable)
        decreases |done|
      {
        var f :| f in done;
        var index := futures[f];
        var entry := if pool.tasks[f].status == Finished(true) && projectable(selected[index])
                     then Live(selected[index]) else Stale(selected[index], Unverifiable);
        Collected(projected, selected, futures, next, f, entry);
        OwnerOf(owners, futures, next, pool.tasks.Keys, known, f);
        EarnedOne(projected, selected, owners, pool.tasks, projectable, index, entry);
        futures, projected, done := futures - {f}, projected[index := Some(entry)], done - {f};
      }
    }

    /** Cancel what has not started, and show the rest as timed out; running fetches keep their permits. */
    method GiveUp(projected0: seq<Option<Shown<R>>>, selected: seq<R>, futures0: map<nat, nat>, next: nat,
                  ghost owners: Owners, ghost projectable: R -> bool, ghost polled: Pool, ghost overdue: bool,
                  ghost known: set<nat>)
      returns (projected: seq<Option<Shown<R>>>)
      requires Valid() && Tracked(futures0, next) && Filled(projected0, selected, futures0, next) && next <= |selected|
      requires Earned(projected0, selected, owners, pool.tasks, projectable) && Waiting(futures0, polled)
      requires Owned(owners, futures0, next, pool.tasks.Keys, known)
      requires overdue || futures0.Keys <= polled.tasks.Keys
      modifies this
      ensures Valid() && TasksKept(old(pool), pool) && turn == old(turn)
      ensures Told(projected, selected, owners, pool.tasks, projectable, polled, overdue)
      ensures Filled(projected, selected, map[], next) && Late(projected, selected, futures0, map[])
    {
      hide Earned, Filled, TasksKept, OwnersKept, Outside, Conserved, Told, Owned, Late, Waiting, Ended;
      OwnersSelf(owners);
      var futures := futures0;
      projected := projected0;
      KeptSelf(pool);
      ToldEarned(projected, selected, owners, pool.tasks, projectable, polled, overdue);
      LateNone(projected, selected, futures0);
      while futures != map[]
        invariant Valid() && TasksKept(old(pool), pool) && turn == old(turn)
        invariant futures.Keys <= futures0.Keys
        invariant Tracked(futures, next) && Filled(projected, selected, futures, next)
        invariant Told(projected, selected, owners, pool.tasks, projectable, polled, overdue)
        invariant Owned(owners, futures, next, pool.tasks.Keys, known)
        invariant Waiting(futures, polled) && Late(projected, selected, futures0, futures)
        decreases |futures|
      {
        var f :| f in futures;
        var index := futures[f];
        ghost var before := pool;
        StepConserves(pool, maxWorkers, Cancel(f));
        StepKeepsTasks(pool, maxWorkers, Cancel(f));
        pool := After(pool, Cancel(f));
        TasksKeptTransitive(old(pool), before, pool);
        LetGo(projected, selected, futures0, futures, next, owners, before, pool, projectable, polled, overdue, known,
              f);
        futures, projected := futures - {f}, projected[index := Some(Stale(selected[index], TimedOut))];
      }
    }
  }

  /** The records shown as timed out, by position. */
  function TimedOutOf<R(==)>(shown: seq<Shown<R>>): set<nat> {
    set i | 0 <= i < |shown| && shown[i] == Stale(shown[i].record, TimedOut)
  }

  /** An entry for every selected record; those never submitted share one note. */
  function Shows<R>(projected: seq<Option<Shown<R>>>, selected: seq<R>, note: Note): seq<Shown<R>>
    requires |projected| == |selected|
  {
    seq(|selected|, i requires 0 <= i < |selected| =>
      if projected[i].Some? then projected[i].value else Stale(selected[i], note))
  }

  /** Records beyond the limit are not fetched at all. */
  function Beyond<R>(records: seq<R>, size: nat): seq<Shown<R>>
    requires size <= |records|
  {
    seq(|records| - size, i requires 0 <= i < |records| - size => Stale(records[size + i], LimitReached))
  }

  lemma EveryRecordShown<R>(projected: seq<Option<Shown<R>>>, records: seq<R>, size: nat, next: nat, note: Note)
    requires size <= |records| && Filled(projected, records[..size], map[], next) && note != LimitReached
    ensures |projected| == size
    ensures var shown := Shows(projected, records[..size], note) + Beyond(records, size);
            && |shown| == |records|
            && forall i :: 0 <= i < |records| ==>
                 shown[i].record == records[i] && (size <= i <==> shown[i] == Stale(records[i], LimitReached))
  {}

  // ----- Which fetch stands behind an entry -----

  /** The task submitted for each record, by the record's position. */
  type Owners = map<nat, nat>

  /** Every record submitted so far has its own new task, and the pending futures are such tasks. */
  ghost predicate Owned(owners: Owners, futures: map<nat, nat>, next: nat, tasks: set<nat>, known: set<nat>) {
    && (forall i: nat :: i in owners <==> i < next)
    && (forall i :: i in owners ==> owners[i] in tasks && owners[i] !in known)
    && (forall i, j :: i in owners && j in owners && i != j ==> owners[i] != owners[j])
    && (forall f :: f in futures ==> futures[f] in owners && owners[futures[f]] == f)
    && known <= tasks
  }

  ghost predicate OwnersKept(a: Owners, b: Owners) {
    forall i :: i in a ==> i in b && b[i] == a[i]
  }

  /** From some position on, the tasks of the records are new. */
  ghost predicate NewFrom(owners: Owners, from: nat, tasks: set<nat>) {
    forall i :: i in owners && from <= i ==> owners[i] !in tasks
  }

  /** What a collected entry says of its own ended fetch. */
  predicate Reports<R(==)>(entry: Shown<R>, record: R, task: Task, projectable: R -> bool) {
    && Ended(task)
    && entry == if task.status == Finished(true) && projectable(record) then Live(record)
                else Stale(record, Unverifiable)
  }

  /** A record given up on: its fetch had not ended when last looked at, and was looked at unless time was up. */
  predicate TimesOut<R(==)>(entry: Shown<R>, record: R, owner: nat, polled: Pool, overdue: bool) {
    entry == Stale(record, TimedOut) && if owner in polled.tasks then !Ended(polled.tasks[owner]) else overdue
  }

  /** Every entry so far reports its own task. */
  ghost predicate Earned<R>(projected: seq<Option<Shown<R>>>, selected: seq<R>, owners: Owners, tasks: map<nat, Task>,
                            projectable: R -> bool)
  {
    && |projected| == |selected|
    && forall i :: 0 <= i < |projected| && projected[i].Some? ==>
         && i in owners && owners[i] in tasks
         && Reports(projected[i].value, selected[i], tasks[owners[i]], projectable)
  }

  /** Every entry reports its own task, or gave up on it. */
  ghost predicate Told<R>(projected: seq<Option<Shown<R>>>, selected: seq<R>, owners: Owners, tasks: map<nat, Task>,
                          projectable: R -> bool, polled: Pool, overdue: bool)
  {
    && |projected| == |selected|
    && forall i :: 0 <= i < |projected| && projected[i].Some? ==>
         && i in owners && owners[i] in tasks
         && (|| Reports(projected[i].value, selected[i], tasks[owners[i]], projectable)
             || TimesOut(projected[i].value, selected[i], owners[i], polled, overdue))
  }

  /** No pending fetch had ended. */
  ghost predicate Waiting(futures: map<nat, nat>, polled: Pool) {
    forall f :: f in futures && f in polled.tasks ==> !Ended(polled.tasks[f])
  }

  /** The futures given up on so far are shown as timed out. */
  ghost predicate Late<R>(projected: seq<Option<Shown<R>>>, selected: seq<R>, all: map<nat, nat>, left: map<nat, nat>) {
    && |projected| == |selected| && left.Keys <= all.Keys && (forall f :: f in left ==> left[f] == all[f])
    && forall f :: f in all && f !in left ==>
         all[f] < |selected| && projected[all[f]] == Some(Stale(selected[all[f]], TimedOut))
  }

  lemma OwnedNone(known: set<nat>)
    ensures Owned(map[], map[], 0, known, known)
  {}

  lemma OwnersSelf(owners: Owners)
    ensures OwnersKept(owners, owners)
  {}

  lemma OwnersMore(a: Owners, b: Owners, next: nat, t: nat)
    requires OwnersKept(a, b) && next !in b
    ensures OwnersKept(a, b[next := t])
  {}

  lemma OwnersApart(owners: Owners, futures: map<nat, nat>, next: nat, tasks: set<nat>, known: set<nat>)
    requires Owned(owners, futures, next, tasks, known)
    ensures forall i, j :: i in owners && j in owners && i != j ==> owners[i] != owners[j]
    ensures forall i :: i in owners ==> owners[i] in tasks && owners[i] !in known
    ensures forall i: nat :: i in owners <==> i < next
  {}

  lemma OwnedLater(owners: Owners, futures: map<nat, nat>, next: nat, tasks: set<nat>, more: set<nat>, known: set<nat>)
    requires Owned(owners, futures, next, tasks, known) && tasks <= more
    ensures Owned(owners, futures, next, more, known) && next !in owners
  {}

  lemma OwnedNext(owners: Owners, futures: map<nat, nat>, next: nat, tasks: set<nat>, more: set<nat>, known: set<nat>,
                  t: nat)
    requires Owned(owners, futures, next, tasks, known) && tasks <= more && t in more && t !in tasks
    ensures Owned(owners[next := t], futures[t := next], next + 1, more, known)
  {}

  /** The fetch behind a future has a task. */
  lemma OwnerOf(owners: Owners, futures: map<nat, nat>, next: nat, tasks: set<nat>, known: set<nat>, f: nat)
    requires Owned(owners, futures, next, tasks, known) && f in futures
    ensures futures[f] in owners && owners[futures[f]] == f && f in tasks && futures[f] < next
    ensures Owned(owners, futures - {f}, next, tasks, known)
  {}

  lemma NewNone(owners: Owners, futures: map<nat, nat>, next: nat, tasks: set<nat>, known: set<nat>)
    requires Owned(owners, futures, next, tasks, known)
    ensures NewFrom(owners, next, tasks)
  {}

  lemma NewMore(owners: Owners, from: nat, tasks: set<nat>, more: set<nat>, next: nat, t: nat)
    requires NewFrom(owners, from, tasks) && tasks <= more && t !in more
    ensures NewFrom(owners[next := t], from, tasks)
  {}

  lemma WaitingLess(futures: map<nat, nat>, polled: Pool, f: nat)
    requires Waiting(futures, polled) && f in futures
    ensures Waiting(futures - {f}, polled) && (f in polled.tasks ==> !Ended(polled.tasks[f]))
  {}

  lemma WaitingNew(owners: Owners, futures: map<nat, nat>, next: nat, tasks: set<nat>, known: set<nat>, polled: Pool)
    requires Owned(owners, futures, next, tasks, known) && known == polled.tasks.Keys
    ensures Waiting(futures, polled)
  {}

  /** Those newly submitted are not among the tasks last looked at. */
  lemma WaitingMore(before: Owners, left: map<nat, nat>, was: nat, owners: Owners, futures: map<nat, nat>, next: nat,
                    polled: Pool, known: set<nat>, tasks: set<nat>)
    requires Owned(before, left, was, polled.tasks.Keys, known) && Waiting(left, polled)
    requires Owned(owners, futures, next, tasks, known) && OwnersKept(before, owners)
    requires NewFrom(owners, was, polled.tasks.Keys) && Joined(left, futures, was, next)
    ensures Waiting(futures, polled)
  {
    forall f | f in futures && f in polled.tasks ensures f in left {
      var i := futures[f];
      assert Pending(futures, i);
      assert i < was;
      var g :| g in left && left[g] == i;
      assert before[i] == g && owners[i] == f;
    }
  }

  lemma EarnedNone<R>(projected: seq<Option<Shown<R>>>, selected: seq<R>, owners: Owners, tasks: map<nat, Task>,
                      projectable: R -> bool)
    requires |projected| == |selected| && forall i :: 0 <= i < |projected| ==> projected[i].None?
    ensures Earned(projected, selected, owners, tasks, projectable)
  {}

  lemma EarnedOne<R>(projected: seq<Option<Shown<R>>>, selected: seq<R>, owners: Owners, tasks: map<nat, Task>,
                     projectable: R -> bool, index: nat, entry: Shown<R>)
    requires Earned(projected, selected, owners, tasks, projectable) && index < |projected|
    requires index in owners && owners[index] in tasks
    requires Reports(entry, selected[index], tasks[owners[index]], projectable)
    ensures Earned(projected[index := Some(entry)], selected, owners, tasks, projectable)
  {
    hide Reports;
  }

  /** What has ended stays as it ended, and owners stay. */
  lemma EarnedLater<R>(projected: seq<Option<Shown<R>>>, selected: seq<R>, a: Owners, b: Owners, p: Pool, q: Pool,
                       projectable: R -> bool)
    requires Earned(projected, selected, a, p.tasks, projectable) && TasksKept(p, q) && OwnersKept(a, b)
    ensures Earned(projected, selected, b, q.tasks, projectable)
  {}

  lemma ToldEarned<R>(projected: seq<Option<Shown<R>>>, selected: seq<R>, owners: Owners, tasks: map<nat, Task>,
                      projectable: R -> bool, polled: Pool, overdue: bool)
    requires Earned(projected, selected, owners, tasks, projectable)
    ensures Told(projected, selected, owners, tasks, projectable, polled, overdue) && |projected| == |selected|
  {
    hide Reports, TimesOut;
  }

  lemma ToldLater<R>(projected: seq<Option<Shown<R>>>, selected: seq<R>, owners: Owners, p: Pool, q: Pool,
                     projectable: R -> bool, polled: Pool, overdue: bool)
    requires Told(projected, selected, owners, p.tasks, projectable, polled, overdue) && TasksKept(p, q)
    ensures Told(projected, selected, owners, q.tasks, projectable, polled, overdue)
  {}

  lemma ToldOne<R>(projected: seq<Option<Shown<R>>>, selected: seq<R>, owners: Owners, tasks: map<nat, Task>,
                   projectable: R -> bool, polled: Pool, overdue: bool, index: nat)
    requires Told(projected, selected, owners, tasks, projectable, polled, overdue) && index < |projected|
    requires index in owners && owners[index] in tasks
    requires if owners[index] in polled.tasks then !Ended(polled.tasks[owners[index]]) else overdue
    ensures Told(projected[index := Some(Stale(selected[index], TimedOut))], selected, owners, tasks, projectable,
                 polled, overdue)
  {
    hide Reports;
  }

  lemma LateNone<R>(projected: seq<Option<Shown<R>>>, selected: seq<R>, all: map<nat, nat>)
    requires |projected| == |selected|
    ensures Late(projected, selected, all, all)
  {}

  lemma LateOne<R>(projected: seq<Option<Shown<R>>>, selected: seq<R>, all: map<nat, nat>, left: map<nat, nat>, f: nat)
    requires Late(projected, selected, all, left) && f in left && left[f] < |selected|
    ensures Late(projected[left[f] := Some(Stale(selected[left[f]], TimedOut))], selected, all, left - {f})
  {}

  /** One more future given up on. */
  lemma LetGo<R>(projected: seq<Option<Shown<R>>>, selected: seq<R>, all: map<nat, nat>, futures: map<nat, nat>,
                 next: nat, owners: Owners, p: Pool, q: Pool, projectable: R -> bool, polled: Pool, overdue: bool,
                 known: set<nat>, f: nat)
    requires f in futures && TasksKept(p, q) && Owned(owners, futures, next, p.tasks.Keys, known)
    requires Tracked(futures, next) && Filled(projected, selected, futures, next) && next <= |selected|
    requires Told(projected, selected, owners, p.tasks, projectable, polled, overdue)
    requires Waiting(futures, polled) && Late(projected, selected, all, futures)
    requires overdue || f in polled.tasks
    ensures futures[f] < |selected| && |projected| == |selected|
    ensures var left, told := futures - {f}, projected[futures[f] := Some(Stale(selected[futures[f]], TimedOut))];
            && Owned(owners, left, next, q.tasks.Keys, known) && |left| < |futures|
            && Tracked(left, next) && Filled(told, selected, left, next)
            && Told(told, selected, owners, q.tasks, projectable, polled, overdue)
            && Waiting(left, polled) && Late(told, selected, all, left)
  {
    var index := futures[f];
    KeptKeys(p, q);
    OwnedLater(owners, futures, next, p.tasks.Keys, q.tasks.Keys, known);
    ToldLater(projected, selected, owners, p, q, projectable, polled, overdue);
    OwnerOf(owners, futures, next, q.tasks.Keys, known, f);
    WaitingLess(futures, polled, f);
    hide Owned, Waiting, TasksKept;
    Collected(projected, selected, futures, next, f, Stale(selected[index], TimedOut));
    ToldOne(projected, selected, owners, q.tasks, projectable, polled, overdue, index);
    LateOne(projected, selected, all, futures, f);
  }

  /** What the finished list says of each record. */
  lemma EntriesTold<R>(projected: seq<Option<Shown<R>>>, records: seq<R>, size: nat, owners: Owners,
                       tasks: map<nat, Task>, projectable: R -> bool, polled: Pool, overdue: bool, next: nat,
                       note: Note)
    requires size <= |records| && Told(projected, records[..size], owners, tasks, projectable, polled, overdue)
    requires Filled(projected, records[..size], map[], next) && forall i: nat :: i in owners <==> i < next
    ensures var shown := Shows(projected, records[..size], note) + Beyond(records, size);
            forall i :: 0 <= i < size ==>
              if i in owners then
                && owners[i] in tasks
                && (|| Reports(shown[i], records[i], tasks[owners[i]], projectable)
                    || TimesOut(shown[i], records[i], owners[i], polled, overdue))
              else shown[i] == Stale(records[i], note)
  {
    hide Reports, TimesOut;
  }

  /**
   Every record has exactly one entry, in order: beyond the limit it says so; a submitted one reports its own new task
   or gave up on it; any other was never submitted, for want of a permit or because of as many given up on as there
   are workers.
   */
  ghost predicate TellsAll<R>(shown: seq<Shown<R>>, records: seq<R>, limit: nat, owners: Owners, tasks: map<nat, Task>,
                              known: set<nat>, projectable: R -> bool, polled: Pool, filled: Pool, overdue: bool,
                              workers: nat)
  {
    && |shown| == |records|
    && forall i :: 0 <= i < |records| ==>
         && shown[i].record == records[i] && (i >= limit <==> shown[i] == Stale(records[i], LimitReached))
         && (i < limit && i in owners ==>
               && owners[i] in tasks && owners[i] !in known
               && (|| Reports(shown[i], records[i], tasks[owners[i]], projectable)
                   || TimesOut(shown[i], records[i], owners[i], polled, overdue)))
         && (i < limit && i !in owners ==>
               && shown[i].Stale?
               && match shown[i].note {
                 case CapacityExhausted => filled.permits == 0
                 case DeadlineReached => workers <= |TimedOutOf(shown)|
                 case _ => false
               })
  }

  lemma AllTold<R>(projected: seq<Option<Shown<R>>>, records: seq<R>, size: nat, limit: nat, owners: Owners,
                   tasks: map<nat, Task>, known: set<nat>, projectable: R -> bool, polled: Pool, filled: Pool,
                   overdue: bool, next: nat, note: Note, workers: nat)
    requires size == if limit < |records| then limit else |records|
    requires Told(projected, records[..size], owners, tasks, projectable, polled, overdue)
    requires Filled(projected, records[..size], map[], next) && forall i: nat :: i in owners <==> i < next
    requires next <= size && forall i :: i in owners ==> owners[i] in tasks && owners[i] !in known
    requires note == CapacityExhausted || note == DeadlineReached
    requires note == CapacityExhausted ==> filled.permits == 0
    requires var shown := Shows(projected, records[..size], note) + Beyond(records, size);
             note == DeadlineReached && next < size ==> workers <= |TimedOutOf(shown)|
    ensures |projected| == size
    ensures TellsAll(Shows(projected, records[..size], note) + Beyond(records, size), records, limit, owners, tasks,
                     known, projectable, polled, filled, overdue, workers)
  {
    EveryRecordShown(projected, records, size, next, note);
    EntriesTold(projected, records, size, owners, tasks, projectable, polled, overdue, next, note);
    hide Reports, TimesOut, Told, Filled, Shows, Beyond, TimedOutOf;
  }

  function ValuesIn(m: map<nat, nat>): set<nat> {
    set f | f in m :: m[f]
  }

  lemma ValueTaken(m: map<nat, nat>, f: nat)
    requires f in m && forall g, h :: g in m && h in m && g != h ==> m[g] != m[h]
    ensures m[f] !in ValuesIn(m - {f}) && ValuesIn(m) == ValuesIn(m - {f}) + {m[f]}
    ensures |m - {f}| == |m| - 1
  {
    var rest := m - {f};
    forall v | v in ValuesIn(m) && v != m[f] ensures v in ValuesIn(rest) {
      var g :| g in m && m[g] == v;
      assert g in rest;
    }
    assert rest.Keys == m.Keys - {f};
  }

  lemma DistinctValues(m: map<nat, nat>)
    requires forall f, g :: f in m && g in m && f != g ==> m[f] != m[g]
    ensures |ValuesIn(m)| == |m|
  {
    if m != map[] {
      var f :| f in m;
      ValueTaken(m, f);
      hide ValuesIn;
      DistinctValues(m - {f});
    }
  }

  /** As many records are shown as timed out as futures were given up on. */
  lemma LateCounted<R>(projected: seq<Option<Shown<R>>>, records: seq<R>, size: nat, all: map<nat, nat>, next: nat,
                       note: Note)
    requires size <= |records| && Late(projected, records[..size], all, map[]) && Tracked(all, next)
    ensures |all| <= |TimedOutOf(Shows(projected, records[..size], note) + Beyond(records, size))|
  {
    var shown := Shows(projected, records[..size], note) + Beyond(records, size);
    var values := ValuesIn(all);
    DistinctValues(all);
    assert values <= TimedOutOf(shown);
    SubsetSize(values, TimedOutOf(shown));
  }

  lemma TrackedNone()
    ensures Tracked(map[], 0)
  {}

  /** Exactly the submitted records that are not pending have an entry, and it is their own. */
  ghost predicate Filled<R>(projected: seq<Option<Shown<R>>>, selected: seq<R>, futures: map<nat, nat>, next: nat) {
    && |projected| == |selected|
    && forall i :: 0 <= i < |selected| ==>
         && (projected[i].None? <==> Pending(futures, i) || next <= i)
         && (projected[i].Some? ==>
             projected[i].value.record == selected[i] && projected[i].value != Stale(selected[i], LimitReached))
  }

  lemma FilledFirst<R>(projected: seq<Option<Shown<R>>>, selected: seq<R>, futures: map<nat, nat>, next: nat)
    requires |projected| == |selected| && forall i :: 0 <= i < |projected| ==> projected[i].None?
    requires Joined(map[], futures, 0, next)
    ensures Filled(projected, selected, futures, next)
  {}

  lemma FilledMore<R>(projected: seq<Option<Shown<R>>>, selected: seq<R>, a: map<nat, nat>, b: map<nat, nat>,
                      from: nat, to: nat)
    requires Filled(projected, selected, a, from) && Joined(a, b, from, to)
    ensures Filled(projected, selected, b, to)
  {
    hide Pending;
  }

  lemma Collected<R>(projected: seq<Option<Shown<R>>>, selected: seq<R>, futures: map<nat, nat>, next: nat,
                     f: nat, entry: Shown<R>)
    requires Tracked(futures, next) && Filled(projected, selected, futures, next) && next <= |selected| && f in futures
    requires entry.record == selected[futures[f]] && entry != Stale(entry.record, LimitReached)
    ensures Tracked(futures - {f}, next) && |futures - {f}| < |futures|
    ensures Filled(projected[futures[f] := Some(entry)], selected, futures - {f}, next)
  {
    forall i: nat ensures Pending(futures - {f}, i) <==> Pending(futures, i) && i != futures[f] {
      PendingRemoved(futures, next, f, i);
    }
    assert (futures - {f}).Keys == futures.Keys - {f};
    hide Pending;
  }

  lemma PendingRemoved(futures: map<nat, nat>, next: nat, f: nat, i: nat)
    requires Tracked(futures, next) && f in futures
    ensures Pending(futures - {f}, i) <==> Pending(futures, i) && i != futures[f]
  {
    var less := futures - {f};
    if Pending(futures, i) && i != futures[f] {
      var g :| g in futures && futures[g] == i;
      assert g in less && less[g] == i;
    }
    if Pending(less, i) {
      var g :| g in less && less[g] == i;
      assert g in futures && futures[g] == i;
    }
  }

  /** Futures stand for distinct records, none of them still to be submitted. */
  ghost predicate Tracked(futures: map<nat, nat>, next: nat) {
    && (forall f :: f in futures ==> futures[f] < next)
    && forall f, g :: f in futures && g in futures && f != g ==> futures[f] != futures[g]
  }

  ghost predicate Pending(futures: map<nat, nat>, i: nat) {
    exists f :: f in futures && futures[f] == i
  }

  /** Exactly the records in a span have joined the pending ones. */
  ghost predicate Joined(a: map<nat, nat>, b: map<nat, nat>, from: nat, to: nat)
  {
    && from <= to && |b| == |a| + (to - from)
    && forall i: nat :: Pending(b, i) <==> Pending(a, i) || from <= i < to
  }

  lemma JoinedSelf(a: map<nat, nat>, from: nat)
    ensures Joined(a, a, from, from)
  {}

  lemma PendingAdded(futures: map<nat, nat>, t: nat, v: nat, i: nat)
    requires t !in futures
    ensures Pending(futures[t := v], i) <==> Pending(futures, i) || i == v
  {
    var more := futures[t := v];
    assert more[t] == v;
    if Pending(futures, i) {
      var f :| f in futures && futures[f] == i;
      assert more[f] == i;
    }
  }

  lemma TrackedNext(futures: map<nat, nat>, next: nat, t: nat)
    requires t !in futures && Tracked(futures, next)
    ensures Tracked(futures[t := next], next + 1)
  {}

  lemma OneMoreKey(m: map<nat, nat>, k: nat, v: nat)
    requires k !in m
    ensures |m[k := v]| == |m| + 1
  {
    assert m[k := v].Keys == m.Keys + {k};
  }

  lemma JoinedNext(a: map<nat, nat>, b: map<nat, nat>, from: nat, to: nat, t: nat)
    requires Joined(a, b, from, to) && t !in b && Tracked(b, to)
    ensures Joined(a, b[t := to], from, to + 1) && Tracked(b[t := to], to + 1) && |b[t := to]| == |b| + 1
  {
    TrackedNext(b, to, t);
    OneMoreKey(b, t, to);
    hide Pending, Tracked;
    forall i: nat ensures Pending(b[t := to], i) <==> Pending(a, i) || from <= i < to + 1 {
      PendingAdded(b, t, to, i);
    }
  }

  lemma KeptSelf(p: Pool)
    ensures TasksKept(p, p)
  {}

  lemma KeptKeys(p: Pool, q: Pool)
    requires TasksKept(p, q)
    ensures p.tasks.Keys <= q.tasks.Keys
  {}

  lemma {:induction false} OutsideHoldsNone(p: Pool, events: seq<PoolEvent>)
    requires forall i :: 0 <= i < |events| ==> Outside(events[i])
    ensures AfterAll(p, events).held == p.held
  {
    if events != [] {
      OutsideHoldsNone(p, events[..|events| - 1]);
    }
  }

  lemma SubmitKeeps(p: Pool)
    requires p.permits > 0 && !p.closed && forall t :: t in p.tasks ==> t < p.next
    ensures TasksKept(p, After(After(p, Acquire), Submit))
  {}
}
