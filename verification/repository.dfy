/**
 * The repository: one method per query or statement, on the tables it owns. Row locks do not
 * appear: a method runs inside one transaction.
 */
module Repository {
  import opened Wrappers
  import opened Model
  import opened Collections
  import opened StaffMetrics
  import opened Transactions
  import opened ResourceAccounting

  datatype LifecycleError = NotFound | NotAssigned | NotStarted | MissingMetadata

  // ---------------------------------------------------------------- what the statements compute

  /** The loop of the requeue transaction. */
  function RequeueAll(db: Database, ids: seq<TaskId>): (r: Database)
    requires forall t :: t in ids ==> t in db.tasks
    ensures r.tasks.Keys == db.tasks.Keys
  {
    if ids == [] then db
    else
      assert ids == ids[..|ids| - 1] + [ids[|ids| - 1]];
      RequeueOne(RequeueAll(db, ids[..|ids| - 1]), ids[|ids| - 1])
  }

  function RequeuedEvents(ids: seq<TaskId>): (es: seq<Event>)
    ensures |es| == |ids| && forall i :: 0 <= i < |ids| ==> es[i] == Event(EventTaskRequeued, ids[i])
  {
    seq(|ids|, i requires 0 <= i < |ids| => Event(EventTaskRequeued, ids[i]))
  }

  /** The loop resets the listed rows, logs each of them, and leaves every other row alone. */
  lemma {:induction false} RequeueAllRows(db: Database, ids: seq<TaskId>)
    requires NoDuplicates(ids) && forall t :: t in ids ==> t in db.tasks
    ensures RequeueAll(db, ids).tasks.Keys == db.tasks.Keys
    ensures forall t | t in db.tasks && t in ids :: RequeueAll(db, ids).tasks[t] ==
              db.tasks[t].(status := TaskUnassigned, staff := None, onMachine := None, assignedAt := None)
    ensures forall t | t in db.tasks && t !in ids :: RequeueAll(db, ids).tasks[t] == db.tasks[t]
    ensures RequeueAll(db, ids).log == db.log + RequeuedEvents(ids)
  {
    if ids != [] {
      var n := |ids| - 1;
      SplitLast(ids);
      RequeueAllRows(db, ids[..n]);
      assert RequeuedEvents(ids) == RequeuedEvents(ids[..n]) + [Event(EventTaskRequeued, ids[n])];
      RequeueOneRow(RequeueAll(db, ids[..n]), ids[n]);
    }
  }

  lemma RequeueOneRow(db: Database, t: TaskId)
    requires t in db.tasks
    ensures RequeueOne(db, t).tasks ==
      db.tasks[t := db.tasks[t].(status := TaskUnassigned, staff := None, onMachine := None, assignedAt := None)]
    ensures RequeueOne(db, t).log == db.log + [Event(EventTaskRequeued, t)]
  {
  }

  /** ORDER BY assigned_at LIMIT n, in the columns of the rows. */
  lemma StalestFirst(db: Database, cutoff: Time, limit: nat, ids: seq<TaskId>)
    requires OldestExpired(db, cutoff, limit, ids)
    ensures forall t :: t in ids ==>
      && t in db.tasks && db.tasks[t].status == TaskAssigned && db.tasks[t].startedAt == None
      && db.tasks[t].assignedAt.Some? && db.tasks[t].assignedAt.value < cutoff
    ensures forall i, j :: 0 <= i < j < |ids| ==>
      ids[i] != ids[j] && db.tasks[ids[i]].assignedAt.value <= db.tasks[ids[j]].assignedAt.value
    ensures |ids| <= limit
    ensures forall u | u in db.tasks && db.tasks[u].status == TaskAssigned && db.tasks[u].startedAt == None
                       && db.tasks[u].assignedAt.Some? && db.tasks[u].assignedAt.value < cutoff && u !in ids ::
      && |ids| == limit
      && forall t :: t in ids ==> db.tasks[t].assignedAt.value <= db.tasks[u].assignedAt.value
  {
    forall t | t in ids
      ensures t in db.tasks && db.tasks[t].status == TaskAssigned && db.tasks[t].startedAt == None
      ensures db.tasks[t].assignedAt.Some? && db.tasks[t].assignedAt.value < cutoff
    {
      assert t in ExpiredTasks(db, cutoff);
    }
    forall i, j | 0 <= i < j < |ids|
      ensures ids[i] != ids[j] && db.tasks[ids[i]].assignedAt.value <= db.tasks[ids[j]].assignedAt.value
    {
      assert ids[i] in ids && ids[j] in ids && AssignedTime(db, ids[i]) <= AssignedTime(db, ids[j]);
    }
    forall u | u in db.tasks && db.tasks[u].status == TaskAssigned && db.tasks[u].startedAt == None
               && db.tasks[u].assignedAt.Some? && db.tasks[u].assignedAt.value < cutoff && u !in ids
      ensures |ids| == limit && forall t :: t in ids ==> db.tasks[t].assignedAt.value <= db.tasks[u].assignedAt.value
    {
      assert u in ExpiredTasks(db, cutoff);
      assert forall t :: t in ids ==> AssignedTime(db, t) <= AssignedTime(db, u);
    }
  }

  function AssignedTime(db: Database, t: TaskId): Time {
    if t in db.tasks && db.tasks[t].assignedAt.Some? then db.tasks[t].assignedAt.value else 0
  }

  function ExpiredTasks(db: Database, cutoff: Time): set<TaskId> {
    set t | t in db.tasks && Expired(db, t, cutoff)
  }

  /** ORDER BY assigned_at LIMIT n over the expired tasks. */
  ghost predicate OldestExpired(db: Database, cutoff: Time, limit: nat, ids: seq<TaskId>) {
    && NoDuplicates(ids)
    && (forall t :: t in ids ==> t in ExpiredTasks(db, cutoff))
    && |ids| <= limit
    && (forall i, j :: 0 <= i < j < |ids| ==> AssignedTime(db, ids[i]) <= AssignedTime(db, ids[j]))
    && (forall t, u :: t in ids && u in ExpiredTasks(db, cutoff) && u !in ids ==> AssignedTime(db, t) <= AssignedTime(db, u))
    && (|ids| < limit ==> forall u :: u in ExpiredTasks(db, cutoff) ==> u in ids)
  }

  /** Position of a row with the least key. */
  method OldestIn(db: Database, rows: set<TaskId>) returns (t: TaskId)
    requires rows != {}
    ensures t in rows && forall u :: u in rows ==> AssignedTime(db, t) <= AssignedTime(db, u)
  {
    t :| t in rows;
    var left := rows - {t};
    while left != {}
      invariant t in rows && left <= rows
      invariant forall u :: u in rows && u !in left ==> AssignedTime(db, t) <= AssignedTime(db, u)
      decreases |left|
    {
      var u :| u in left;
      if AssignedTime(db, u) < AssignedTime(db, t) {
        t := u;
      }
      left := left - {u};
    }
  }

  class KitchenRepository {
    var db: Database

    constructor (db: Database)
      ensures this.db == db
    {
      this.db := db;
    }

    // -------------------------------------------------------------- assignment

    method LockTaskForAssignment(t: TaskId) returns (task: Option<Task>)
      ensures task.Some? <==> t in db.tasks && db.tasks[t].status == TaskUnassigned && db.tasks[t].pendingDeps == 0
      ensures task.Some? ==> task.value == db.tasks[t]
    {
      if t in db.tasks && db.tasks[t].status.TaskUnassigned? && db.tasks[t].pendingDeps == 0 {
        return Some(db.tasks[t]);
      }
      return None;
    }

    method LockCounter(c: CounterId) returns (counter: Option<Counter>)
      ensures counter == if c in db.counters then Some(db.counters[c]) else None
    {
      if c in db.counters {
        return Some(db.counters[c]);
      }
      return None;
    }

    method LockMachineForTask(m: MachineId, c: CounterId) returns (machine: Option<Machine>)
      ensures machine.Some? <==>
        m in db.machines && db.machines[m].counter == c && db.machines[m].isUp && db.machines[m].inUse < db.machines[m].capacity
      ensures machine.Some? ==> machine.value == db.machines[m]
    {
      if m in db.machines && db.machines[m].counter == c && db.machines[m].isUp && db.machines[m].inUse < db.machines[m].capacity {
        return Some(db.machines[m]);
      }
      return None;
    }

    /** The join of staff and skills, in whatever order the database returns it. */
    method FindEligibleStaff(c: CounterId, now: Time) returns (staff: seq<Candidate>)
      ensures forall x :: x in staff ==>
        && x.id in db.staff && x.row == db.staff[x.id] && (x.id, c) in db.skills
        && !x.row.onBreak && x.row.shiftStart <= now <= x.row.shiftEnd && x.row.activeTasks < x.row.maxParallel
      ensures forall s | s in db.staff && (s, c) in db.skills && !db.staff[s].onBreak
                         && db.staff[s].shiftStart <= now <= db.staff[s].shiftEnd && db.staff[s].activeTasks < db.staff[s].maxParallel ::
        Candidate(s, db.staff[s]) in staff
    {
      staff := [];
      var left := db.skills;
      while left != {}
        invariant left <= db.skills
        invariant forall x :: x in staff ==> Eligible(db, x.id, c, now) && x.row == db.staff[x.id]
        invariant forall s :: Eligible(db, s, c, now) && (s, c) !in left ==> Candidate(s, db.staff[s]) in staff
        decreases |left|
      {
        var skill :| skill in left;
        left := left - {skill};
        if skill.1 == c && Eligible(db, skill.0, c, now) {
          staff := staff + [Candidate(skill.0, db.staff[skill.0])];
        }
      }
    }

    method UpdateTaskAssignment(t: TaskId, s: StaffId, m: MachineId, now: Time)
      requires t in db.tasks
      modifies this
      ensures db == old(db).(tasks := old(db).tasks[t := AssignRow(old(db).tasks[t], s, m, now)])
      ensures db.tasks[t] == old(db).tasks[t].(staff := Some(s), onMachine := Some(m), status := TaskAssigned,
                                               assignedAt := Some(now), version := old(db).tasks[t].version + 1)
    {
      var task := db.tasks[t];
      task := task.(staff := Some(s), onMachine := Some(m));
      task := task.(status := TaskAssigned, assignedAt := Some(now), version := task.version + 1);
      db := db.(tasks := db.tasks[t := task]);
    }

    method IncrementCounterUsage(c: CounterId, delta: int)
      modifies this
      ensures db == UseCounter(old(db), c, delta)
      ensures c in old(db).counters ==>
        db.counters == old(db).counters[c := old(db).counters[c].(inUse :=
          if old(db).counters[c].inUse + delta < 0 then 0 else old(db).counters[c].inUse + delta)]
    {
      if c in db.counters {
        var inUse := db.counters[c].inUse + delta;
        if inUse < 0 {
          inUse := 0;
        }
        db := db.(counters := db.counters[c := db.counters[c].(inUse := inUse)]);
      }
    }

    method IncrementMachineUsage(m: MachineId, delta: int)
      modifies this
      ensures db == UseMachine(old(db), m, delta)
      ensures m in old(db).machines ==>
        db.machines == old(db).machines[m := old(db).machines[m].(inUse :=
          if old(db).machines[m].inUse + delta < 0 then 0 else old(db).machines[m].inUse + delta)]
    {
      if m in db.machines {
        var inUse := db.machines[m].inUse + delta;
        if inUse < 0 {
          inUse := 0;
        }
        db := db.(machines := db.machines[m := db.machines[m].(inUse := inUse)]);
      }
    }

    method IncrementStaffActiveTasks(s: StaffId, delta: int)
      modifies this
      ensures db == UseStaff(old(db), s, delta)
      ensures s in old(db).staff ==>
        db.staff == old(db).staff[s := old(db).staff[s].(activeTasks :=
          if old(db).staff[s].activeTasks + delta < 0 then 0 else old(db).staff[s].activeTasks + delta)]
    {
      if s in db.staff {
        var active := db.staff[s].activeTasks + delta;
        if active < 0 {
          active := 0;
        }
        db := db.(staff := db.staff[s := db.staff[s].(activeTasks := active)]);
      }
    }

    method InsertDomainEvent(e: Event)
      modifies this
      ensures db == AppendEvent(old(db), e)
    {
      db := db.(log := db.log + [e]);
    }

    // -------------------------------------------------------------- order status

    method MarkOrderInProgressIfConfirmed(o: OrderId)
      modifies this
      ensures db == MarkOrder(old(db), o, {OrderConfirmed}, OrderInProgress)
      ensures db.orders == if o in old(db).orders && old(db).orders[o] == OrderConfirmed
                           then old(db).orders[o := OrderInProgress] else old(db).orders
    {
      if o in db.orders && db.orders[o] == OrderConfirmed {
        db := db.(orders := db.orders[o := OrderInProgress]);
      }
    }

    method MarkOrderPartCompletedIfNotDone(o: OrderId)
      modifies this
      ensures db == MarkOrder(old(db), o, {OrderConfirmed, OrderInProgress}, OrderPartCompleted)
      ensures db.orders == if o in old(db).orders && (old(db).orders[o] == OrderConfirmed || old(db).orders[o] == OrderInProgress)
                           then old(db).orders[o := OrderPartCompleted] else old(db).orders
    {
      if o in db.orders && (db.orders[o] == OrderConfirmed || db.orders[o] == OrderInProgress) {
        db := db.(orders := db.orders[o := OrderPartCompleted]);
      }
    }

    method CompleteOrderIfAllTasksDone(o: OrderId) returns (done: bool)
      modifies this
      ensures db == CompleteOrder(old(db), o)
      ensures done <==> forall t :: t in old(db).tasks && old(db).tasks[t].order == o ==> old(db).tasks[t].status == TaskCompleted
      ensures db.orders == if done && o in old(db).orders then old(db).orders[o := OrderCompleted] else old(db).orders
    {
      var remaining := set t | t in db.tasks && db.tasks[t].order == o && db.tasks[t].status != TaskCompleted;
      done := |remaining| == 0;
      assert remaining == {} <==> AllDone(db, o) by {
        if !AllDone(db, o) {
          var t :| t in db.tasks && db.tasks[t].order == o && !db.tasks[t].status.TaskCompleted?;
          assert t in remaining;
        }
      }
      if done && o in db.orders && db.orders[o] != OrderCompleted {
        db := db.(orders := db.orders[o := OrderCompleted]);
      }
    }

    // -------------------------------------------------------------- life cycle

    method UpdateTaskStatusStarted(t: TaskId, now: Time) returns (r: Result<Task, LifecycleError>)
      modifies this
      ensures r.Success? <==> HasStatus(old(db), t, TaskAssigned)
      ensures r.Success? ==>
        && db == old(db).(tasks := old(db).tasks[t := old(db).tasks[t].(status := TaskStarted, startedAt := Some(now))])
        && r.value == db.tasks[t]
      ensures r.Failure? ==> db == old(db) && r.error == if t in old(db).tasks then NotAssigned else NotFound
    {
      if t !in db.tasks {
        return Failure(NotFound);
      }
      var task := db.tasks[t];
      if task.status != TaskAssigned {
        return Failure(NotAssigned);
      }
      task := task.(status := TaskStarted, startedAt := Some(now));
      db := db.(tasks := db.tasks[t := task]);
      return Success(task);
    }

    method UpdateTaskStatusCompleted(t: TaskId, now: Time) returns (r: Result<Task, LifecycleError>)
      modifies this
      ensures r.Success? <==> HasStatus(old(db), t, TaskStarted)
      ensures r.Success? ==>
        && db == old(db).(tasks := old(db).tasks[t := old(db).tasks[t].(status := TaskCompleted, completedAt := Some(now))])
        && r.value == db.tasks[t]
      ensures r.Failure? ==> db == old(db) && r.error == if t in old(db).tasks then NotStarted else NotFound
    {
      if t !in db.tasks {
        return Failure(NotFound);
      }
      var task := db.tasks[t];
      if task.status != TaskStarted {
        return Failure(NotStarted);
      }
      task := task.(status := TaskCompleted, completedAt := Some(now));
      db := db.(tasks := db.tasks[t := task]);
      return Success(task);
    }

    method UpdateStaffEfficiencyAndActive(s: StaffId, delta: int, estimateSecs: int, startedAt: Time, completedAt: Time)
      modifies this
      ensures db == CreditStaff(old(db), s, delta, Sample(estimateSecs, completedAt - startedAt))
      ensures s in old(db).staff ==>
        var row, row' := old(db).staff[s], db.staff[s];
        && db.staff == old(db).staff[s := row.(activeTasks := row'.activeTasks, activeSeconds := row'.activeSeconds,
                                               efficiency := row'.efficiency)]
        && row'.activeTasks == (if row.activeTasks + delta < 0 then 0 else row.activeTasks + delta)
        && Measured(row, row', completedAt - startedAt, estimateSecs)
    {
      var actualSecs := if completedAt - startedAt < 0 then 0 else (completedAt - startedAt) / SECOND;
      if actualSecs <= 0 {
        actualSecs := 1;
      }
      var perf := estimateSecs as real / actualSecs as real;
      if s in db.staff {
        var row := db.staff[s];
        var active := row.activeTasks + delta;
        if active < 0 {
          active := 0;
        }
        row := row.(activeTasks := active);
        CreditMeasures(row, Sample(estimateSecs, completedAt - startedAt));
        row := row.(activeSeconds := row.activeSeconds + actualSecs, efficiency := row.efficiency * 0.85 + perf * 0.15);
        db := db.(staff := db.staff[s := row]);
      }
    }

    /** Counts the dependents down, then reads the ones that wait for nothing any more. */
    method DecrementDependentPendingDeps(t: TaskId) returns (ready: seq<TaskId>)
      modifies this
      ensures db == DecrementDependents(old(db), t)
      ensures Enumerates(ready, ReadyChildren(db, t))
      ensures forall u | u in old(db).tasks && Edge(u, t) in old(db).deps && old(db).tasks[u].status == TaskUnassigned ::
        u in db.tasks && db.tasks[u] == old(db).tasks[u].(pendingDeps :=
          if old(db).tasks[u].pendingDeps <= 0 then 0 else old(db).tasks[u].pendingDeps - 1)
      ensures forall u | u in old(db).tasks && !(Edge(u, t) in old(db).deps && old(db).tasks[u].status == TaskUnassigned) ::
        u in db.tasks && db.tasks[u] == old(db).tasks[u]
      ensures forall u :: u in ready <==>
        u in db.tasks && Edge(u, t) in db.deps && db.tasks[u].status == TaskUnassigned && db.tasks[u].pendingDeps == 0
    {
      db := db.(tasks := map u | u in db.tasks ::
                  if Edge(u, t) in db.deps && db.tasks[u].status.TaskUnassigned?
                  then db.tasks[u].(pendingDeps := Greatest(db.tasks[u].pendingDeps - 1)) else db.tasks[u]);
      ready := Listing(set u | u in db.tasks && Edge(u, t) in db.deps
                              && db.tasks[u].status.TaskUnassigned? && db.tasks[u].pendingDeps == 0);
    }

    /** SELECT ... ORDER BY assigned_at ASC LIMIT n. */
    method SelectExpired(cutoff: Time, limit: nat) returns (ids: seq<TaskId>)
      ensures OldestExpired(db, cutoff, limit, ids)
    {
      ids := [];
      var left := ExpiredTasks(db, cutoff);
      while |ids| < limit && left != {}
        invariant |ids| <= limit && left <= ExpiredTasks(db, cutoff)
        invariant Enumerates(ids, ExpiredTasks(db, cutoff) - left)
        invariant forall i, j :: 0 <= i < j < |ids| ==> AssignedTime(db, ids[i]) <= AssignedTime(db, ids[j])
        invariant forall t, u :: t in ids && u in left ==> AssignedTime(db, t) <= AssignedTime(db, u)
        decreases |left|
      {
        var t := OldestIn(db, left);
        ids := ids + [t];
        left := left - {t};
      }
    }

    method RequeueExpiredAssignedTasks(cutoff: Time, limit: int) returns (requeued: seq<TaskId>)
      modifies this
      ensures OldestExpired(old(db), cutoff, if limit <= 0 then 50 else limit, requeued)
      ensures forall t :: t in requeued ==>
        && t in old(db).tasks && old(db).tasks[t].status == TaskAssigned && old(db).tasks[t].startedAt == None
        && old(db).tasks[t].assignedAt.Some? && old(db).tasks[t].assignedAt.value < cutoff
      ensures |requeued| <= (if limit <= 0 then 50 else limit)
      ensures forall i, j :: 0 <= i < j < |requeued| ==>
        && requeued[i] in old(db).tasks && requeued[j] in old(db).tasks && requeued[i] != requeued[j]
        && old(db).tasks[requeued[i]].assignedAt.value <= old(db).tasks[requeued[j]].assignedAt.value
      ensures forall u | u in old(db).tasks && old(db).tasks[u].status == TaskAssigned && old(db).tasks[u].startedAt == None
                         && old(db).tasks[u].assignedAt.Some? && old(db).tasks[u].assignedAt.value < cutoff && u !in requeued ::
        && |requeued| == (if limit <= 0 then 50 else limit)
        && forall t :: t in requeued ==> old(db).tasks[t].assignedAt.value <= old(db).tasks[u].assignedAt.value
      ensures db == RequeueAll(old(db), requeued)
      ensures db.tasks.Keys == old(db).tasks.Keys
      ensures forall t :: t in requeued ==>
        db.tasks[t] == old(db).tasks[t].(status := TaskUnassigned, staff := None, onMachine := None, assignedAt := None)
      ensures forall t | t in old(db).tasks && t !in requeued :: db.tasks[t] == old(db).tasks[t]
      ensures db.log == old(db).log + RequeuedEvents(requeued)
    {
      var n := if limit <= 0 then 50 else limit;
      requeued := SelectExpired(cutoff, n);
      StalestFirst(db, cutoff, n, requeued);
      RequeueAllRows(db, requeued);
      ResetTasks(requeued);
    }

    /** The loop of the transaction. */
    method ResetTasks(tasks: seq<TaskId>)
      requires NoDuplicates(tasks) && forall t :: t in tasks ==> t in db.tasks
      modifies this
      ensures db == RequeueAll(old(db), tasks)
    {
      ghost var db0 := db;
      for i := 0 to |tasks|
        invariant forall t :: t in tasks[..i] ==> t in db0.tasks
        invariant db == RequeueAll(db0, tasks[..i])
      {
        assert tasks[..i + 1][..i] == tasks[..i] && tasks[i] in tasks;
        ResetTask(tasks[i]);
      }
      assert tasks[..|tasks|] == tasks;
    }

    /** The loop body: reset the row, give back what it held, log it. */
    method ResetTask(t: TaskId)
      requires t in db.tasks
      modifies this
      ensures db == RequeueOne(old(db), t)
    {
      var task := db.tasks[t];
      db := db.(tasks := db.tasks[t := task.(status := TaskUnassigned, staff := None, onMachine := None, assignedAt := None)]);
      if task.staff.Some? {
        IncrementStaffActiveTasks(task.staff.value, -1);
      }
      IncrementCounterUsage(task.counter, -1);
      if task.onMachine.Some? {
        IncrementMachineUsage(task.onMachine.value, -1);
      }
      InsertDomainEvent(Event(EventTaskRequeued, t));
    }

    // -------------------------------------------------------------- orders

    /** Inserts the order and its tasks; the sequences of the database choose unused ids. */
    method CreateOrderWithTasks(rows: seq<NewTask>) returns (o: OrderId, ids: seq<TaskId>)
      modifies this
      ensures o > 0 && o !in old(db).orders && |ids| == |rows| && NoDuplicates(ids)
      ensures forall t :: t in ids ==> t > 0 && t !in old(db).tasks
      ensures db == CreateTx(old(db), o, ids, rows)
      ensures db.orders == old(db).orders[o := OrderConfirmed] && db.tasks.Keys == old(db).tasks.Keys + set t | t in ids
      ensures forall t :: t in old(db).tasks ==> db.tasks[t] == old(db).tasks[t]
      ensures forall i :: 0 <= i < |ids| ==>
        && ids[i] in db.tasks
        && db.tasks[ids[i]] == Task(o, rows[i].counter, rows[i].machine, rows[i].estimateSecs, rows[i].basePriority, 0,
                                    None, None, TaskUnassigned, 0, None, None, None, rows[i].createdAt)
    {
      ghost var unused := FreshId(db.orders);
      o :| o > 0 && o !in db.orders;
      db := db.(orders := db.orders[o := OrderConfirmed]);
      ghost var tasks0 := db.tasks;
      ids := [];
      for i := 0 to |rows|
        invariant |ids| == i && NoDuplicates(ids)
        invariant forall t :: t in ids ==> t > 0 && t !in tasks0 && t in db.tasks
        invariant tasks0.Keys <= db.tasks.Keys
        invariant db == old(db).(orders := old(db).orders[o := OrderConfirmed], tasks := InsertRows(tasks0, o, ids, rows[..i]))
      {
        ghost var unusedTask := FreshId(db.tasks);
        var t: TaskId :| t > 0 && t !in db.tasks;
        assert rows[..i + 1][..i] == rows[..i] && (ids + [t])[..i] == ids;
        db := db.(tasks := db.tasks[t := NewRow(o, rows[i])]);
        ids := ids + [t];
      }
      assert rows[..|rows|] == rows;
      InsertRowsEffect(tasks0, o, ids, rows);
    }

    method InsertTaskDependencies(deps: seq<Edge>)
      modifies this
      ensures db == old(db).(deps := old(db).deps + set e | e in deps)
    {
      db := db.(deps := db.deps + set e | e in deps);
    }

    method RecalculatePendingDepsForOrder(o: OrderId)
      modifies this
      ensures db == RecalculateTx(old(db), o)
      ensures forall u :: u in old(db).tasks ==>
        var n := |set e | e in old(db).deps && e.task == u|;
        && u in db.tasks
        && db.tasks[u] == if old(db).tasks[u].order == o && n > 0 then old(db).tasks[u].(pendingDeps := n) else old(db).tasks[u]
    {
      var counts := map u | u in db.tasks && db.tasks[u].order == o && EdgesOf(db, u) != {} :: |EdgesOf(db, u)|;
      db := db.(tasks := map u | u in db.tasks ::
                  if u in counts then db.tasks[u].(pendingDeps := counts[u]) else db.tasks[u]);
    }

    /** SELECT ... ORDER BY id ASC. */
    method ListOrderReadyTasks(o: OrderId) returns (ready: seq<TaskId>)
      ensures Enumerates(ready, OrderReady(db, o))
      ensures forall t :: t in ready <==>
        t in db.tasks && db.tasks[t].order == o && db.tasks[t].status == TaskUnassigned && db.tasks[t].pendingDeps == 0
      ensures forall i, j :: 0 <= i < j < |ready| ==> ready[i] < ready[j]
    {
      ready := [];
      var left := OrderReady(db, o);
      while left != {}
        invariant left <= OrderReady(db, o) && Enumerates(ready, OrderReady(db, o) - left)
        invariant forall i, j :: 0 <= i < j < |ready| ==> ready[i] < ready[j]
        invariant forall t, u :: t in ready && u in left ==> t < u
        decreases |left|
      {
        var t := LeastId(left);
        assert forall i :: 0 <= i < |ready| ==> ready[i] in ready;
        ready := ready + [t];
        left := left - {t};
      }
    }
  }
}
