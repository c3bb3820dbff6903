/** Worker slots of the live projection: permits, queued and running fetches, and one entry per live record. */
module FetchSlots {

  // ----- The pool -----

  datatype Status = Queued | Running | Finished(ok: bool) | Cancelled

  /** A task is watched once its completion callback is attached. */
  datatype Task = Task(status: Status, watched: bool)

  /** held counts permits acquired for a submission that has not happened yet. */
  datatype Pool = Pool(permits: int, held: nat, tasks: map<nat, Task>, next: nat, closed: bool)

  /** Steps of the projector, then steps of the executor and of close. */
  datatype PoolEvent =
    | Acquire | Submit | Watch(t: nat) | Cancel(t: nat)
    | Start(t: nat) | Finish(t: nat, ok: bool) | Close

  function WithStatus(p: Pool, t: nat, status: Status): Pool
    requires t in p.tasks
  {
    p.(tasks := p.tasks[t := p.tasks[t].(status := status)])
  }

  function After(p: Pool, e: PoolEvent): Pool {
    match e
    case Acquire => if p.permits > 0 then p.(permits := p.permits - 1, held := p.held + 1) else p
    case Submit =>
      if p.held == 0 then p
      else if p.closed then p.(permits := p.permits + 1, held := p.held - 1)
      else p.(held := p.held - 1, tasks := p.tasks[p.next := Task(Queued, false)], next := p.next + 1)
    case Watch(t) =>
      if t !in p.tasks || p.tasks[t].watched then p
      else
        var q := p.(tasks := p.tasks[t := p.tasks[t].(watched := true)]);
        if p.tasks[t].status == Cancelled then q.(permits := q.permits + 1) else q
    case Cancel(t) =>
      if t !in p.tasks || p.tasks[t].status != Queued then p
      else
        var q := WithStatus(p, t, Cancelled);
        if p.tasks[t].watched then q.(permits := q.permits + 1) else q
    case Start(t) => if t in p.tasks && p.tasks[t].status == Queued then WithStatus(p, t, Running) else p
    case Finish(t, ok) =>
      if t in p.tasks && p.tasks[t].status == Running
      then WithStatus(p, t, Finished(ok)).(permits := p.permits + 1)
      else p
    case Close => p.(closed := true)
  }

  function AfterAll(p: Pool, events: seq<PoolEvent>): Pool {
    if events == [] then p else After(AfterAll(p, events[..|events| - 1]), events[|events| - 1])
  }

  /** A task holds its permit while queued or running, and a cancelled one until its callback is attached. */
  predicate Holds(task: Task) {
    task.status == Queued || task.status == Running || (task.status == Cancelled && !task.watched)
  }

  function Holders(tasks: map<nat, Task>): set<nat> {
    set t | t in tasks && Holds(tasks[t])
  }

  /** Every permit is free, held for a submission, or belongs to exactly one task that has not released it. */
  ghost predicate Conserved(p: Pool, maxWorkers: nat) {
    && 0 <= p.permits && p.permits + p.held + |Holders(p.tasks)| == maxWorkers
    && forall t :: t in p.tasks ==> t < p.next
  }

  /** Changing one task changes the holders by that task. */
  lemma OneTask(tasks: map<nat, Task>, t: nat, task: Task)
    ensures |Holders(tasks[t := task])| ==
            |Holders(tasks)| + (if Holds(task) then 1 else 0) - (if t in tasks && Holds(tasks[t]) then 1 else 0)
  {
    var others := Holders(tasks) - {t};
    assert Holders(tasks[t := task]) == if Holds(task) then others + {t} else others;
    assert Holders(tasks) == if t in tasks && Holds(tasks[t]) then others + {t} else others;
  }

  lemma StepConserves(p: Pool, maxWorkers: nat, e: PoolEvent)
    requires Conserved(p, maxWorkers)
    ensures Conserved(After(p, e), maxWorkers)
  {
    match e {
      case Submit => OneTask(p.tasks, p.next, Task(Queued, false));
      case Watch(t) => if t in p.tasks { OneTask(p.tasks, t, p.tasks[t].(watched := true)); }
      case Cancel(t) => if t in p.tasks { OneTask(p.tasks, t, p.tasks[t].(status := Cancelled)); }
      case Start(t) => if t in p.tasks { OneTask(p.tasks, t, p.tasks[t].(status := Running)); }
      case Finish(t, ok) => if t in p.tasks { OneTask(p.tasks, t, p.tasks[t].(status := Finished(ok))); }
      case _ =>
    }
  }

  /**
   In every interleaving of submitting, starting, finishing, cancelling and closing, free permits plus the tasks still
   holding one make up the worker limit, so no permit is lost and none is released twice.
   */
  lemma {:induction false} PermitsConserved(p: Pool, maxWorkers: nat, events: seq<PoolEvent>)
    requires Conserved(p, maxWorkers)
    ensures Conserved(AfterAll(p, events), maxWorkers)
  {
    if events != [] {
      PermitsConserved(p, maxWorkers, events[..|events| - 1]);
      StepConserves(AfterAll(p, events[..|events| - 1]), maxWorkers, events[|events| - 1]);
    }
  }

  /** Once every fetch is finished or cancelled with its callback attached, all permits are back. */
  lemma AllPermitsReturn(p: Pool, maxWorkers: nat)
    requires Conserved(p, maxWorkers) && p.held == 0 && forall t :: t in p.tasks ==> !Holds(p.tasks[t])
    ensures p.permits == maxWorkers
  {
    assert Holders(p.tasks) == {};
  }

  /** The pool after one more task came to this end and gave its permit back. */
  function WithTask(p: Pool, task: Task): Pool {
    p.(tasks := p.tasks[p.next := task], next := p.next + 1)
  }

  /** From a free permit to its return: a fetch that runs, one cancelled while queued, and a closed executor. */
  lemma PermitComesBack(p: Pool, ok: bool)
    requires p.permits > 0 && p.held == 0
    ensures var t, submitted := p.next, After(After(p, Acquire), Submit);
            if p.closed then submitted == p
            else
              && submitted.permits == p.permits - 1
              && After(After(After(submitted, Watch(t)), Start(t)), Finish(t, ok))
                 == WithTask(p, Task(Finished(ok), true))
              && After(After(submitted, Watch(t)), Cancel(t)) == WithTask(p, Task(Cancelled, true))
              && After(After(submitted, Cancel(t)), Watch(t)) == WithTask(p, Task(Cancelled, true))
  {}

  predicate Ended(task: Task) {
    task.status.Finished? || task.status.Cancelled?
  }

  /** Tasks never disappear, outcomes stay, and a task that has released its permit never holds one again. */
  predicate TasksKept(p: Pool, q: Pool) {
    p.next <= q.next && forall t :: t in p.tasks ==> t in q.tasks && (Holds(q.tasks[t]) ==> Holds(p.tasks[t]))
                                                     && (p.tasks[t].watched ==> q.tasks[t].watched)
                                                     && (Ended(p.tasks[t]) ==>
                                                         q.tasks[t].status == p.tasks[t].status)
  }

  lemma StepKeepsTasks(p: Pool, maxWorkers: nat, e: PoolEvent)
    requires Conserved(p, maxWorkers)
    ensures TasksKept(p, After(p, e))
  {
    hide Holders;
  }

  lemma TasksKeptTransitive(p: Pool, q: Pool, r: Pool)
    requires TasksKept(p, q) && TasksKept(q, r)
    ensures TasksKept(p, r)
  {
    hide Holds;
  }

  lemma {:induction false} ReleasedForGood(p: Pool, maxWorkers: nat, events: seq<PoolEvent>)
    requires Conserved(p, maxWorkers)
    ensures TasksKept(p, AfterAll(p, events))
  {
    if events != [] {
      hide TasksKept, After;
      var before := AfterAll(p, events[..|events| - 1]);
      ReleasedForGood(p, maxWorkers, events[..|events| - 1]);
      PermitsConserved(p, maxWorkers, events[..|events| - 1]);
      StepKeepsTasks(before, maxWorkers, events[|events| - 1]);
      TasksKeptTransitive(p, before, AfterAll(p, events));
    }
  }
}
