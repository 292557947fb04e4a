/**
 * The application service: the transactions and loops of allocation, task life cycle and order
 * confirmation, over one repository and one ready queue.
 */
module KitchenService {
  import opened Wrappers
  import opened Model
  import opened StaffMetrics
  import opened Transactions
  import opened ReadyOrder
  import opened ReadyQueue
  import opened KitchenMachine
  import opened Repository
  import opened OrderExpansion
  import opened ServiceEffects

  class KitchenAppService {
    const repo: KitchenRepository
    const readyQueue: InMemoryReadyQueue

    constructor (repo: KitchenRepository, readyQueue: InMemoryReadyQueue)
      ensures this.repo == repo && this.readyQueue == readyQueue
    {
      this.repo := repo;
      this.readyQueue := readyQueue;
    }

    // -------------------------------------------------------------- allocation

    /** The assign transaction of one popped id. */
    method AssignOne(t: TaskId, now: Time) returns (pick: Option<StaffId>)
      modifies repo
      ensures PickOk(old(repo.db), t, pick, now)
      ensures var db := old(repo.db);
        pick.Some? <==>
          && t in db.tasks && db.tasks[t].status == TaskUnassigned && db.tasks[t].pendingDeps == 0
          && db.tasks[t].counter in db.counters && db.counters[db.tasks[t].counter].inUse < db.counters[db.tasks[t].counter].capacity
          && db.tasks[t].machine.Some? && db.tasks[t].machine.value in db.machines
          && db.machines[db.tasks[t].machine.value].counter == db.tasks[t].counter && db.machines[db.tasks[t].machine.value].isUp
          && db.machines[db.tasks[t].machine.value].inUse < db.machines[db.tasks[t].machine.value].capacity
          && exists s :: s in db.staff && (s, db.tasks[t].counter) in db.skills && !db.staff[s].onBreak
                         && db.staff[s].shiftStart <= now <= db.staff[s].shiftEnd
                         && db.staff[s].activeTasks < db.staff[s].maxParallel
      ensures var db := old(repo.db);
        pick.Some? ==>
          && pick.value in db.staff && (pick.value, db.tasks[t].counter) in db.skills
          && forall u | u in db.staff && (u, db.tasks[t].counter) in db.skills && !db.staff[u].onBreak
                        && db.staff[u].shiftStart <= now <= db.staff[u].shiftEnd && db.staff[u].activeTasks < db.staff[u].maxParallel ::
               var a, b := db.staff[pick.value], db.staff[u];
               var sa := if now - a.shiftStart < 1_000_000_000 then 1 else (now - a.shiftStart) / 1_000_000_000;
               var sb := if now - b.shiftStart < 1_000_000_000 then 1 else (now - b.shiftStart) / 1_000_000_000;
               1.2 * (a.activeTasks - b.activeTasks) as real
               + 0.9 * (a.activeSeconds as real / sa as real - b.activeSeconds as real / sb as real)
               <= 1.1 * (a.efficiency - b.efficiency)
      ensures pick.Some? ==>
        && old(repo.db).tasks[t].machine.Some? && t in repo.db.tasks
        && repo.db.tasks == old(repo.db).tasks[t := old(repo.db).tasks[t].(
             staff := pick, onMachine := old(repo.db).tasks[t].machine, status := TaskAssigned,
             assignedAt := Some(now), version := old(repo.db).tasks[t].version + 1)]
        && repo.db.tasks[t].staff.Some? && repo.db.tasks[t].onMachine.Some?
        && repo.db.log == old(repo.db).log
             + [Event(EventTaskAssigned(repo.db.tasks[t].staff.value, repo.db.tasks[t].onMachine.value), t)]
      ensures pick.Some? ==> repo.db == AssignTo(old(repo.db), t, pick.value, now)
      ensures pick.None? ==> repo.db == old(repo.db)
    {
      var locked := repo.LockTaskForAssignment(t);
      if locked.None? {
        return None;
      }
      var task := locked.value;
      var counter := repo.LockCounter(task.counter);
      if counter.None? || counter.value.inUse >= counter.value.capacity {
        return None;
      }
      var staff := repo.FindEligibleStaff(task.counter, now);
      if |staff| == 0 {
        return None;
      }
      if task.machine.None? {
        return None;
      }
      var machine := repo.LockMachineForTask(task.machine.value, task.counter);
      if machine.None? {
        return None;
      }
      var best := PickStaff(staff, now);
      assert best in staff;
      var m := task.machine.value;
      forall u | CanAssign(repo.db, t, u, now) ensures StaffScore(best.row, now) <= StaffScore(repo.db.staff[u], now) {
        assert Candidate(u, repo.db.staff[u]) in staff;
      }
      ghost var db0 := repo.db;
      assert BestPick(db0, t, best.id, now);
      BestPickCompares(db0, t, best.id, now);
      AssignedRows(db0, t, best.id, now);
      repo.UpdateTaskAssignment(t, best.id, m, now);
      repo.IncrementCounterUsage(task.counter, 1);
      repo.IncrementMachineUsage(m, 1);
      repo.MarkOrderInProgressIfConfirmed(task.order);
      repo.IncrementStaffActiveTasks(best.id, 1);
      repo.InsertDomainEvent(Event(EventTaskAssigned(best.id, m), t));
      return Some(best.id);
    }

    /** requeueExpiredAssignedTasks. */
    method RequeueExpired(now: Time) returns (requeued: seq<TaskId>)
      modifies repo, readyQueue
      ensures OldestExpired(old(repo.db), now - ASSIGN_TTL, 50, requeued)
      ensures forall t :: t in requeued ==> t in old(repo.db).tasks
      ensures Desk(repo.db, readyQueue.items) == AfterRequeue(Desk(old(repo.db), old(readyQueue.items)), requeued, now)
      ensures forall t :: t in requeued ==>
        && old(repo.db).tasks[t].status == TaskAssigned && old(repo.db).tasks[t].startedAt == None
        && old(repo.db).tasks[t].assignedAt.Some? && now - old(repo.db).tasks[t].assignedAt.value > 45_000_000_000
      ensures |requeued| < 50 ==>
        forall t | t in old(repo.db).tasks && old(repo.db).tasks[t].status == TaskAssigned && old(repo.db).tasks[t].startedAt == None
                   && old(repo.db).tasks[t].assignedAt.Some? && now - old(repo.db).tasks[t].assignedAt.value > 45_000_000_000 ::
          t in requeued
      ensures repo.db.tasks.Keys == old(repo.db).tasks.Keys
      ensures forall t :: t in requeued ==>
        repo.db.tasks[t] == old(repo.db).tasks[t].(status := TaskUnassigned, staff := None, onMachine := None, assignedAt := None)
      ensures forall t | t in old(repo.db).tasks && t !in requeued :: repo.db.tasks[t] == old(repo.db).tasks[t]
      ensures forall t | t in old(repo.db).tasks && old(repo.db).tasks[t].assignedAt.Some?
                         && now - old(repo.db).tasks[t].assignedAt.value <= 45_000_000_000 ::
        repo.db.tasks[t] == old(repo.db).tasks[t]
      ensures repo.db.log == old(repo.db).log + RequeuedEvents(requeued)
      ensures readyQueue.items.Keys == old(readyQueue.items).Keys + set t | t in requeued
      ensures forall t :: t in requeued ==>
        && t in readyQueue.items && t in repo.db.tasks
        && readyQueue.items[t] ==
             -(repo.db.tasks[t].basePriority + 10.0 + 0.14 * ((now - repo.db.tasks[t].createdAt) as real / 1_000_000_000.0))
      ensures forall t :: t in old(readyQueue.items) && t !in requeued ==> readyQueue.items[t] == old(readyQueue.items)[t]
    {
      requeued := repo.RequeueExpiredAssignedTasks(now - ASSIGN_TTL, 50);
      EnqueueList(requeued, REQUEUE_BOOST, now);
      QueueScores(old(readyQueue.items), repo.db, requeued, REQUEUE_BOOST, now);
      forall t | t in requeued ensures ScoreOf(repo.db, t, REQUEUE_BOOST, now) ==
          -(repo.db.tasks[t].basePriority + 10.0 + 0.14 * ((now - repo.db.tasks[t].createdAt) as real / 1_000_000_000.0))
      {
        ScoreMeans(repo.db, t, REQUEUE_BOOST, now);
      }
    }

    method EnqueueList(ids: seq<TaskId>, boost: real, now: Time)
      modifies readyQueue
      ensures readyQueue.items == EnqueueAll(old(readyQueue.items), repo.db, ids, boost, now)
    {
      for i := 0 to |ids|
        invariant readyQueue.items == EnqueueAll(old(readyQueue.items), repo.db, ids[..i], boost, now)
      {
        assert ids[..i + 1][..i] == ids[..i];
        readyQueue.Enqueue(ids[i], ScoreOf(repo.db, ids[i], boost, now));
      }
      assert ids[..|ids|] == ids;
    }

    method AllocateOnce(now: Time)
      returns (first: TaskId, ghost requeued: seq<TaskId>, ghost ids: seq<TaskId>, ghost picks: seq<Option<StaffId>>)
      modifies repo, readyQueue
      ensures OldestExpired(old(repo.db), now - ASSIGN_TTL, 50, requeued)
      ensures forall t :: t in requeued ==> t in old(repo.db).tasks
      ensures var d := AfterRequeue(Desk(old(repo.db), old(readyQueue.items)), requeued, now);
        var d' := d.(queue := Without(d.queue, ids));
        && ids == TopN(d.queue, 20)
        && |picks| == |ids| && PicksOk(d', ids, picks, now)
        && Desk(repo.db, readyQueue.items) == AfterBatch(d', ids, picks, now)
        && first == FirstAssigned(ids, picks)
      ensures forall t :: t in old(repo.db).tasks ==>
        (t in requeued ==>
           && old(repo.db).tasks[t].status == TaskAssigned && old(repo.db).tasks[t].startedAt == None
           && old(repo.db).tasks[t].assignedAt.Some? && now - old(repo.db).tasks[t].assignedAt.value > 45_000_000_000)
      ensures forall t | t in old(repo.db).tasks && t !in requeued && t !in ids ::
        t in repo.db.tasks && repo.db.tasks[t] == old(repo.db).tasks[t]
      ensures var d := AfterRequeue(Desk(old(repo.db), old(readyQueue.items)), requeued, now);
        var d' := d.(queue := Without(d.queue, ids));
        && |ids| == (if |d.queue| < 20 then |d.queue| else 20)
        && (forall i :: 0 <= i < |ids| ==> Tried(d', Desk(repo.db, readyQueue.items), ids[i], picks[i], now))
        && forall t :: t !in ids ==> Untouched(d', Desk(repo.db, readyQueue.items), t)
      ensures first == 0 <==> forall i :: 0 <= i < |ids| && picks[i].Some? ==> ids[i] == 0
      ensures first != 0 ==>
        exists i :: 0 <= i < |ids| && picks[i].Some? && ids[i] == first && forall j :: 0 <= j < i && picks[j].Some? ==> ids[j] == 0
    {
      requeued := RequeueExpired(now);
      ghost var d := Desk(repo.db, readyQueue.items);
      TopNIsLeast(d.queue, 20);
      var batch := readyQueue.PopTopN(20);
      ids := batch;
      first, picks := TryBatch(batch, now);
      forall t | t in old(repo.db).tasks && t !in requeued && t !in ids
        ensures t in repo.db.tasks && repo.db.tasks[t] == old(repo.db).tasks[t]
      {
        assert Untouched(d.(queue := Without(d.queue, ids)), Desk(repo.db, readyQueue.items), t);
        assert d.db.tasks[t] == old(repo.db).tasks[t];
      }
    }

    /** The loop over the popped ids. */
    method TryBatch(batch: seq<TaskId>, now: Time) returns (first: TaskId, ghost picks: seq<Option<StaffId>>)
      modifies repo, readyQueue
      ensures |picks| == |batch|
      ensures var d := Desk(old(repo.db), old(readyQueue.items));
        && PicksOk(d, batch, picks, now)
        && Desk(repo.db, readyQueue.items) == AfterBatch(d, batch, picks, now)
      ensures first == FirstAssigned(batch, picks)
      ensures NoDuplicates(batch) ==>
        var d, d' := Desk(old(repo.db), old(readyQueue.items)), Desk(repo.db, readyQueue.items);
        && (forall i :: 0 <= i < |batch| ==> Tried(d, d', batch[i], picks[i], now))
        && forall t :: t !in batch ==> Untouched(d, d', t)
      ensures first == 0 <==> forall i :: 0 <= i < |batch| && picks[i].Some? ==> batch[i] == 0
      ensures first != 0 ==>
        exists i :: 0 <= i < |batch| && picks[i].Some? && batch[i] == first && forall j :: 0 <= j < i && picks[j].Some? ==> batch[j] == 0
    {
      picks, first := [], 0;
      ghost var d := Desk(repo.db, readyQueue.items);
      for i := 0 to |batch|
        invariant |picks| == i && PicksOk(d, batch[..i], picks, now)
        invariant Desk(repo.db, readyQueue.items) == AfterBatch(d, batch[..i], picks, now)
        invariant first == FirstAssigned(batch[..i], picks)
      {
        var t := batch[i];
        var pick := AssignOne(t, now);
        PicksGrow(d, batch[..i], picks, t, pick, now);
        picks := picks + [pick];
        assert batch[..i + 1] == batch[..i] + [t];
        if pick.None? {
          if t in repo.db.tasks && repo.db.tasks[t].status == TaskUnassigned {
            readyQueue.Enqueue(t, QueueScore(repo.db.tasks[t].basePriority, repo.db.tasks[t].createdAt, now));
          }
          continue;
        }
        if first == 0 {
          first := t;
        }
      }
      assert batch[..|batch|] == batch;
      if NoDuplicates(batch) { BatchRows(d, batch, picks, now); }
      FirstMeans(batch, picks);
    }

    // -------------------------------------------------------------- task life cycle

    method StartTask(t: TaskId, now: Time) returns (r: Result<(), LifecycleError>)
      modifies repo
      ensures r.Success? <==> HasStatus(old(repo.db), t, TaskAssigned) && old(repo.db).tasks[t].onMachine.Some?
      ensures repo.db == if r.Success? then StartTx(old(repo.db), t, now) else old(repo.db)
      ensures r.Success? ==>
        repo.db == old(repo.db).(
          tasks := old(repo.db).tasks[t := old(repo.db).tasks[t].(status := TaskStarted, startedAt := Some(now))],
          log := old(repo.db).log + [Event(EventTaskStarted, t)])
      ensures r.Failure? ==> r.error == if t !in old(repo.db).tasks then NotFound
                                        else if HasStatus(old(repo.db), t, TaskAssigned) then MissingMetadata else NotAssigned
    {
      var saved := repo.db;
      var started := repo.UpdateTaskStatusStarted(t, now);
      if started.Failure? {
        return Failure(started.error);
      }
      if started.value.onMachine.None? {
        repo.db := saved;
        return Failure(MissingMetadata);
      }
      repo.InsertDomainEvent(Event(EventTaskStarted, t));
      return Success(());
    }

    method CompleteTask(t: TaskId, now: Time) returns (r: Result<(), LifecycleError>, ghost children: seq<TaskId>)
      modifies repo, readyQueue
      ensures r.Success? <==> HasStatus(old(repo.db), t, TaskStarted) && HasRunMetadata(old(repo.db).tasks[t])
      ensures r.Success? ==>
        && Enumerates(children, Unlocked(old(repo.db), t))
        && repo.db == CompleteTx(old(repo.db), t, children, now)
        && readyQueue.items == EnqueueAll(old(readyQueue.items), old(repo.db), children, 0.0, now)
      ensures r.Success? ==>
        var db, task := old(repo.db), old(repo.db).tasks[t];
        && t in db.tasks && task.status == TaskStarted && task.staff.Some? && task.onMachine.Some? && task.startedAt.Some?
        && repo.db.tasks.Keys == db.tasks.Keys && repo.db.tasks[t] == task.(status := TaskCompleted, completedAt := Some(now))
        && (task.staff.value in db.staff ==>
              Measured(db.staff[task.staff.value], repo.db.staff[task.staff.value], now - task.startedAt.value, task.estimateSecs))
        && repo.db.log == db.log + ReadyEvents(children) + [Event(EventTaskCompleted, t)]
      ensures r.Success? ==>
        forall c :: c in children <==>
          c in repo.db.tasks && Edge(c, t) in repo.db.deps
          && repo.db.tasks[c].status == TaskUnassigned && repo.db.tasks[c].pendingDeps == 0
      ensures r.Success? ==>
        && readyQueue.items.Keys == old(readyQueue.items).Keys + (set c | c in children)
        && (forall c :: c in children ==>
              && c in old(repo.db).tasks
              && readyQueue.items[c] == -(old(repo.db).tasks[c].basePriority
                                          + 0.14 * ((now - old(repo.db).tasks[c].createdAt) as real / 1_000_000_000.0)))
        && (forall c :: c in old(readyQueue.items) && c !in children ==> readyQueue.items[c] == old(readyQueue.items)[c])
      ensures r.Failure? ==>
        && repo.db == old(repo.db) && readyQueue.items == old(readyQueue.items)
        && r.error == if t !in old(repo.db).tasks then NotFound
                      else if HasStatus(old(repo.db), t, TaskStarted) then MissingMetadata else NotStarted
    {
      ghost var db, q := repo.db, readyQueue.items;
      r, children := CompleteInTransaction(t, now);
      if r.Success? {
        CompletionMeans(db, q, t, children, now);
      }
    }

    /** The closure that runs in the transaction. */
    method CompleteInTransaction(t: TaskId, now: Time) returns (r: Result<(), LifecycleError>, ghost children: seq<TaskId>)
      modifies repo, readyQueue
      ensures r.Success? <==> HasStatus(old(repo.db), t, TaskStarted) && HasRunMetadata(old(repo.db).tasks[t])
      ensures r.Success? ==>
        && Enumerates(children, Unlocked(old(repo.db), t))
        && repo.db == CompleteTx(old(repo.db), t, children, now)
        && readyQueue.items == EnqueueAll(old(readyQueue.items), old(repo.db), children, 0.0, now)
      ensures r.Failure? ==>
        && repo.db == old(repo.db) && readyQueue.items == old(readyQueue.items)
        && r.error == if t !in old(repo.db).tasks then NotFound
                      else if HasStatus(old(repo.db), t, TaskStarted) then MissingMetadata else NotStarted
    {
      children := [];
      var saved := repo.db;
      var completed := repo.UpdateTaskStatusCompleted(t, now);
      if completed.Failure? {
        return Failure(completed.error), [];
      }
      var task := completed.value;
      if task.onMachine.None? || task.staff.None? || task.startedAt.None? {
        repo.db := saved;
        return Failure(MissingMetadata), [];
      }
      repo.IncrementCounterUsage(task.counter, -1);
      repo.IncrementMachineUsage(task.onMachine.value, -1);
      repo.UpdateStaffEfficiencyAndActive(task.staff.value, -1, task.estimateSecs, task.startedAt.value, now);
      assert repo.db == ReleaseStarted(saved, t, now);
      ghost var released := repo.db;
      var readyChildren := repo.DecrementDependentPendingDeps(t);
      children := readyChildren;
      ChildrenUnaffected(saved, t, now);
      PublishChildren(readyChildren, saved, now);
      repo.InsertDomainEvent(Event(EventTaskCompleted, t));
      repo.MarkOrderPartCompletedIfNotDone(task.order);
      var done := repo.CompleteOrderIfAllTasksDone(task.order);
      return Success(()), children;
    }

    /** Enqueues each ready child and logs TASK_READY for it. */
    method PublishChildren(ids: seq<TaskId>, ghost scores: Database, now: Time)
      requires forall t :: t in ids ==>
        && t in repo.db.tasks && repo.db.tasks[t].status.TaskUnassigned? && repo.db.tasks[t].pendingDeps == 0
        && ScoreOf(repo.db, t, 0.0, now) == ScoreOf(scores, t, 0.0, now)
      modifies repo, readyQueue
      ensures repo.db == old(repo.db).(log := old(repo.db).log + ReadyEvents(ids))
      ensures readyQueue.items == EnqueueAll(old(readyQueue.items), scores, ids, 0.0, now)
    {
      for i := 0 to |ids|
        invariant repo.db == old(repo.db).(log := old(repo.db).log + ReadyEvents(ids[..i]))
        invariant readyQueue.items == EnqueueAll(old(readyQueue.items), scores, ids[..i], 0.0, now)
      {
        var t := ids[i];
        assert t in ids && ids[..i + 1][..i] == ids[..i];
        if repo.db.tasks[t].status == TaskUnassigned && repo.db.tasks[t].pendingDeps == 0 {
          readyQueue.Enqueue(t, QueueScore(repo.db.tasks[t].basePriority, repo.db.tasks[t].createdAt, now));
          repo.InsertDomainEvent(Event(EventTaskReady, t));
        }
        assert ReadyEvents(ids[..i + 1]) == ReadyEvents(ids[..i]) + [Event(EventTaskReady, t)];
      }
      assert ids[..|ids|] == ids;
    }

    /** ConfirmOrder's last loop: enqueue, then log TASK_READY, for each listed task. */
    method PublishRoots(ids: seq<TaskId>, now: Time)
      requires forall t :: t in ids ==> t in repo.db.tasks
      modifies repo, readyQueue
      ensures repo.db == old(repo.db).(log := old(repo.db).log + ReadyEvents(ids))
      ensures readyQueue.items == EnqueueAll(old(readyQueue.items), old(repo.db), ids, 0.0, now)
    {
      for i := 0 to |ids|
        invariant repo.db == old(repo.db).(log := old(repo.db).log + ReadyEvents(ids[..i]))
        invariant readyQueue.items == EnqueueAll(old(readyQueue.items), old(repo.db), ids[..i], 0.0, now)
      {
        var t := ids[i];
        assert t in ids && ids[..i + 1][..i] == ids[..i];
        readyQueue.Enqueue(t, QueueScore(repo.db.tasks[t].basePriority, repo.db.tasks[t].createdAt, now));
        repo.InsertDomainEvent(Event(EventTaskReady, t));
        assert ReadyEvents(ids[..i + 1]) == ReadyEvents(ids[..i]) + [Event(EventTaskReady, t)];
      }
      assert ids[..|ids|] == ids;
    }

    /** The completion activity: a task that is not started, or not there, counts as done. */
    method CompleteTaskByIDActivity(t: TaskId, now: Time) returns (ok: bool, ghost children: seq<TaskId>)
      modifies repo, readyQueue
      ensures !ok ==> HasStatus(old(repo.db), t, TaskStarted) && !HasRunMetadata(old(repo.db).tasks[t])
      ensures !HasStatus(old(repo.db), t, TaskStarted) || !ok ==>
        repo.db == old(repo.db) && readyQueue.items == old(readyQueue.items)
      ensures HasStatus(old(repo.db), t, TaskStarted) && ok ==>
        && HasRunMetadata(old(repo.db).tasks[t])
        && Enumerates(children, Unlocked(old(repo.db), t))
        && repo.db == CompleteTx(old(repo.db), t, children, now)
        && readyQueue.items == EnqueueAll(old(readyQueue.items), old(repo.db), children, 0.0, now)
    {
      var r;
      r, children := CompleteTask(t, now);
      if r.Failure? {
        if r.error == NotStarted || r.error == NotFound {
          return true, [];
        }
        return false, [];
      }
      return true, children;
    }

    // -------------------------------------------------------------- orders

    /** The rows of task_dependencies for the derived links; the de-duplication never drops one. */
    method DependencyRows(ids: seq<TaskId>, links: seq<Link>) returns (deps: seq<Edge>)
      requires NoDuplicates(ids) && LinksOk(links, |ids|) && NoDuplicates(links)
      ensures |deps| == |links| && (set e | e in deps) == LinkEdges(ids, links)
    {
      deps := [];
      var seen: set<Edge> := {};
      for i := 0 to |links|
        invariant |deps| == i && forall j :: 0 <= j < i ==> deps[j] == Edge(ids[links[j].task], ids[links[j].dep])
        invariant seen == set e | e in deps
        invariant forall j :: 0 <= j < |links| ==> 0 <= links[j].task < |ids| && 0 <= links[j].dep < |ids|
      {
        assert links[i] in links;
        var link := links[i];
        var dep := Edge(ids[link.task], ids[link.dep]);
        if dep in seen {
          SameEdgeSameLink(ids, links, i);
          assert false;
        }
        seen := seen + {dep};
        deps := deps + [dep];
      }
      forall e ensures e in deps <==> e in LinkEdges(ids, links) {
        if e in deps {
          var j :| 0 <= j < |deps| && deps[j] == e;
          assert links[j] in links;
        }
        if e in LinkEdges(ids, links) {
          var l :| l in links && e == Edge(ids[l.task], ids[l.dep]);
          var j :| 0 <= j < |links| && links[j] == l;
          assert deps[j] == e;
        }
      }
    }

    method ConfirmOrder(items: map<string, int>, book: Book, now: Time)
      returns (r: Result<(OrderId, seq<TaskId>), ExpandError>,
               ghost ids: seq<TaskId>, ghost exp: Expansion, ghost order: seq<string>)
      requires StepsKnown(repo.db, items, book)
      modifies repo, readyQueue
      ensures r.Success? <==> Expandable(items, book)
      ensures r.Failure? ==> repo.db == old(repo.db) && readyQueue.items == old(readyQueue.items) && r.error != InvalidLink
      ensures r.Success? ==>
        && Enumerates(order, items.Keys) && Built(book, Units(items, order), now, exp.rows, exp.links)
        && exp.rows != [] && |ids| == |exp.rows| && NoDuplicates(ids) && LinksOk(exp.links, |ids|)
        && r.value.0 !in old(repo.db).orders && (forall t :: t in ids ==> t !in old(repo.db).tasks)
        && var db := Confirmed(old(repo.db), r.value.0, ids, exp.rows, exp.links);
           && Enumerates(r.value.1, OrderReady(db, r.value.0))
           && (forall i, j :: 0 <= i < j < |r.value.1| ==> r.value.1[i] < r.value.1[j])
           && repo.db == db.(log := db.log + ReadyEvents(r.value.1))
           && readyQueue.items == EnqueueAll(old(readyQueue.items), db, r.value.1, 0.0, now)
      ensures r.Success? <==>
        && (forall x :: x in items ==> x in book.steps && book.steps[x] != [])
        && (forall x, st :: x in items && items[x] > 0 && x in book.steps && st in book.steps[x] ==> st.machine.Some?)
        && (exists x :: x in items && items[x] > 0)
      ensures r.Success? ==>
        && (forall x :: x in items ==> multiset(Units(items, order))[x] == if items[x] > 0 then items[x] else 0)
        && |ids| == TaskTotal(items, book, order)
      ensures r.Success? && KeysHold(old(repo.db)) ==>
        && |ids| == |exp.rows| && LinksOk(exp.links, |ids|)
        && repo.db.orders == old(repo.db).orders[r.value.0 := OrderConfirmed]
        && repo.db.tasks.Keys == old(repo.db).tasks.Keys + (set t | t in ids)
        && (forall t :: t in old(repo.db).tasks ==> repo.db.tasks[t] == old(repo.db).tasks[t])
        && (forall e :: e in repo.db.deps <==>
              e in old(repo.db).deps || exists l :: l in exp.links && e == Edge(ids[l.task], ids[l.dep]))
        && (forall i :: 0 <= i < |ids| ==>
              repo.db.tasks[ids[i]] == Task(r.value.0, exp.rows[i].counter, exp.rows[i].machine, exp.rows[i].estimateSecs,
                                            exp.rows[i].basePriority, |set e | e in repo.db.deps && e.task == ids[i]|,
                                            None, None, TaskUnassigned, 0, None, None, None, exp.rows[i].createdAt))
      ensures r.Success? && KeysHold(old(repo.db)) ==>
        && (forall t :: t in r.value.1 <==> t in ids && forall e :: e in repo.db.deps ==> e.task != t)
        && repo.db.log == old(repo.db).log + ReadyEvents(r.value.1)
      ensures r.Success? ==>
        && readyQueue.items.Keys == old(readyQueue.items).Keys + (set t | t in r.value.1)
        && (forall t :: t in r.value.1 ==>
              && t in repo.db.tasks
              && readyQueue.items[t] == -(repo.db.tasks[t].basePriority
                                          + 0.14 * ((now - repo.db.tasks[t].createdAt) as real / 1_000_000_000.0)))
        && (forall t :: t in old(readyQueue.items) && t !in r.value.1 ==> readyQueue.items[t] == old(readyQueue.items)[t])
    {
      ids, exp := [], Expansion([], []);
      var expanded;
      expanded, order := ExpandOrder(items, book, now);
      if expanded.Failure? {
        return Failure(expanded.error), ids, exp, order;
      }
      exp := expanded.value;
      var rows, links := expanded.value.rows, expanded.value.links;
      BuiltLinksOk(book, Units(items, order), now, rows, links);
      var o, newIds := repo.CreateOrderWithTasks(rows);
      ids := newIds;
      assert LinksOk(links, |ids|) by {
        forall l | l in links ensures 0 <= l.task < |ids| && 0 <= l.dep < |ids| && l.task != l.dep {
          assert LinkOk(l, |rows|);
        }
      }
      if |links| > 0 {
        var deps := DependencyRows(newIds, links);
        repo.InsertTaskDependencies(deps);
        repo.RecalculatePendingDepsForOrder(o);
      }
      assert repo.db == Confirmed(old(repo.db), o, ids, rows, links);
      var ready := repo.ListOrderReadyTasks(o);
      assert forall t :: t in ready ==> t in OrderReady(repo.db, o);
      ghost var db := repo.db;
      PublishRoots(ready, now);
      if KeysHold(old(repo.db)) {
        ConfirmedRows(old(repo.db), o, ids, rows, links);
        ConfirmedReady(old(repo.db), o, ids, rows, links);
      }
      EnqueuedScores(db, old(readyQueue.items), ready, now);
      r := Success((o, ready));
    }
  }

  lemma SameEdgeSameLink(ids: seq<TaskId>, links: seq<Link>, i: nat)
    requires NoDuplicates(ids) && LinksOk(links, |ids|) && NoDuplicates(links) && i < |links|
    ensures forall j :: 0 <= j < |links| ==> 0 <= links[j].task < |ids| && 0 <= links[j].dep < |ids|
    ensures forall j :: 0 <= j < i ==>
      Edge(ids[links[j].task], ids[links[j].dep]) != Edge(ids[links[i].task], ids[links[i].dep])
  {
    forall j | 0 <= j < |links| ensures 0 <= links[j].task < |ids| && 0 <= links[j].dep < |ids| {
      assert links[j] in links;
    }
    forall j | 0 <= j < i
      ensures Edge(ids[links[j].task], ids[links[j].dep]) != Edge(ids[links[i].task], ids[links[i].dep])
    {
      assert links[j] != links[i];
    }
  }

  /** The completed row itself is not among its children, and releasing resources changes no child. */
  lemma ChildrenUnaffected(db: Database, t: TaskId, now: Time)
    requires HasStatus(db, t, TaskStarted) && HasRunMetadata(db.tasks[t])
    ensures ReadyChildren(DecrementDependents(ReleaseStarted(db, t, now), t), t) == Unlocked(db, t)
    ensures forall c :: c in db.tasks && c != t ==>
      forall q :: ScoreOf(DecrementDependents(ReleaseStarted(db, t, now), t), c, q, now) == ScoreOf(db, c, q, now)
    ensures t !in Unlocked(db, t)
  {
    var a := DecrementDependents(ReleaseStarted(db, t, now), t);
    var b := DecrementDependents(db, t);
    forall c | c in db.tasks && c != t ensures a.tasks[c] == b.tasks[c] {}
  }
}
