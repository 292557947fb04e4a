/**
 * The usage numbers in_use and active_tasks are kept by +1/-1 updates. Here they are compared
 * with what they stand for: the number of busy tasks that hold the resource.
 */
module ResourceAccounting {
  import opened Wrappers
  import opened Model
  import opened Transactions

  // ---------------------------------------------------------------- what the numbers count

  function OnCounter(tasks: map<TaskId, Task>, c: CounterId): set<TaskId> {
    set t | t in tasks && tasks[t].Busy() && tasks[t].counter == c
  }

  function OnMachine(tasks: map<TaskId, Task>, m: MachineId): set<TaskId> {
    set t | t in tasks && tasks[t].Busy() && tasks[t].onMachine == Some(m)
  }

  function OfStaff(tasks: map<TaskId, Task>, s: StaffId): set<TaskId> {
    set t | t in tasks && tasks[t].Busy() && tasks[t].staff == Some(s)
  }

  /** The triggers keep the prover from walking from a task to its resources to their tasks and on. */
  ghost predicate Accounts(db: Database) {
    && (forall c {:trigger OnCounter(db.tasks, c)} :: c in db.counters ==> db.counters[c].inUse == |OnCounter(db.tasks, c)|)
    && (forall m {:trigger OnMachine(db.tasks, m)} :: m in db.machines ==> db.machines[m].inUse == |OnMachine(db.tasks, m)|)
    && (forall s {:trigger OfStaff(db.tasks, s)} :: s in db.staff ==> db.staff[s].activeTasks == |OfStaff(db.tasks, s)|)
  }

  lemma UsageNonNegative(db: Database)
    requires Accounts(db)
    ensures forall c :: c in db.counters ==> db.counters[c].inUse >= 0
    ensures forall m :: m in db.machines ==> db.machines[m].inUse >= 0
    ensures forall s :: s in db.staff ==> db.staff[s].activeTasks >= 0
  {
    forall c | c in db.counters ensures db.counters[c].inUse >= 0 {
      assert |OnCounter(db.tasks, c)| >= 0;
    }
    forall m | m in db.machines ensures db.machines[m].inUse >= 0 {
      assert |OnMachine(db.tasks, m)| >= 0;
    }
    forall s | s in db.staff ensures db.staff[s].activeTasks >= 0 {
      assert |OfStaff(db.tasks, s)| >= 0;
    }
  }

  /** No counter and no machine is used beyond its capacity. */
  ghost predicate WithinCapacity(db: Database) {
    && (forall c :: c in db.counters ==> db.counters[c].inUse == 0 || db.counters[c].inUse <= db.counters[c].capacity)
    && (forall m :: m in db.machines ==> db.machines[m].inUse == 0 || db.machines[m].inUse <= db.machines[m].capacity)
  }

  ghost predicate WithinParallel(db: Database) {
    forall s :: s in db.staff ==> db.staff[s].activeTasks == 0 || db.staff[s].activeTasks <= db.staff[s].maxParallel
  }

  // ---------------------------------------------------------------- shape of the rows

  predicate RowShape(db: Database, task: Task) {
    && task.order in db.orders
    && task.counter in db.counters
    && task.machine.Some? && task.machine.value in db.machines
    && task.version >= 0
    && (task.status.TaskUnassigned? ==> task.staff.None? && task.onMachine.None? && task.startedAt.None?)
    && (!task.status.TaskUnassigned? ==>
          && task.staff.Some? && task.staff.value in db.staff
          && task.onMachine == task.machine
          && task.assignedAt.Some? && task.version > 0)
    && (task.status.TaskAssigned? ==> task.startedAt.None?)
    && (task.status.TaskStarted? || task.status.TaskCompleted? ==> task.startedAt.Some?)
  }

  ghost predicate Rows(db: Database) {
    && (forall t :: t in db.tasks ==> RowShape(db, db.tasks[t]))
    && (forall e :: e in db.deps ==>
          && e.task in db.tasks && e.dep in db.tasks && e.task != e.dep
          && db.tasks[e.task].order == db.tasks[e.dep].order)
  }

  // ---------------------------------------------------------------- one task changes

  lemma SwapMember(a: set<TaskId>, b: set<TaskId>, t: TaskId)
    requires a - {t} == b - {t}
    ensures |b| == |a| - (if t in a then 1 else 0) + (if t in b then 1 else 0)
  {
    assert |a - {t}| == |a| - if t in a then 1 else 0;
    assert |b - {t}| == |b| - if t in b then 1 else 0;
  }

  /** Replacing the row of `t` moves at most `t` in or out of a group of busy tasks. */
  lemma MoveOnCounter(tasks: map<TaskId, Task>, t: TaskId, x: Task, c: CounterId)
    ensures |OnCounter(tasks[t := x], c)| ==
              |OnCounter(tasks, c)| - (if t in OnCounter(tasks, c) then 1 else 0)
              + (if x.Busy() && x.counter == c then 1 else 0)
  {
    SwapMember(OnCounter(tasks, c), OnCounter(tasks[t := x], c), t);
  }

  lemma MoveOnMachine(tasks: map<TaskId, Task>, t: TaskId, x: Task, m: MachineId)
    ensures |OnMachine(tasks[t := x], m)| ==
              |OnMachine(tasks, m)| - (if t in OnMachine(tasks, m) then 1 else 0)
              + (if x.Busy() && x.onMachine == Some(m) then 1 else 0)
  {
    SwapMember(OnMachine(tasks, m), OnMachine(tasks[t := x], m), t);
  }

  lemma MoveOfStaff(tasks: map<TaskId, Task>, t: TaskId, x: Task, s: StaffId)
    ensures |OfStaff(tasks[t := x], s)| ==
              |OfStaff(tasks, s)| - (if t in OfStaff(tasks, s) then 1 else 0)
              + (if x.Busy() && x.staff == Some(s) then 1 else 0)
  {
    SwapMember(OfStaff(tasks, s), OfStaff(tasks[t := x], s), t);
  }

  /** Every usage number is the same in both databases but for `d` on one counter, machine and staff member. */
  ghost predicate UsageShifted(db: Database, db': Database, c0: CounterId, m0: MachineId, s0: StaffId, d: int) {
    && db'.counters.Keys == db.counters.Keys
    && db'.machines.Keys == db.machines.Keys
    && db'.staff.Keys == db.staff.Keys
    && (forall c :: c in db.counters ==> db'.counters[c].inUse == db.counters[c].inUse + if c == c0 then d else 0)
    && (forall m :: m in db.machines ==> db'.machines[m].inUse == db.machines[m].inUse + if m == m0 then d else 0)
    && (forall s :: s in db.staff ==> db'.staff[s].activeTasks == db.staff[s].activeTasks + if s == s0 then d else 0)
  }

  lemma Acquire(db: Database, db': Database, t: TaskId, x: Task, m: MachineId, s: StaffId)
    requires Accounts(db) && t in db.tasks && !db.tasks[t].Busy()
    requires db'.tasks == db.tasks[t := x] && x.Busy() && x.onMachine == Some(m) && x.staff == Some(s)
    requires UsageShifted(db, db', x.counter, m, s, 1)
    ensures Accounts(db')
  {
    forall c | c in db'.counters ensures db'.counters[c].inUse == |OnCounter(db'.tasks, c)| {
      MoveOnCounter(db.tasks, t, x, c);
      assert t !in OnCounter(db.tasks, c);
    }
    forall k | k in db'.machines ensures db'.machines[k].inUse == |OnMachine(db'.tasks, k)| {
      MoveOnMachine(db.tasks, t, x, k);
      assert t !in OnMachine(db.tasks, k);
    }
    forall k | k in db'.staff ensures db'.staff[k].activeTasks == |OfStaff(db'.tasks, k)| {
      MoveOfStaff(db.tasks, t, x, k);
      assert t !in OfStaff(db.tasks, k);
    }
  }

  lemma Release(db: Database, db': Database, t: TaskId, x: Task, m: MachineId, s: StaffId)
    requires Accounts(db) && t in db.tasks && db.tasks[t].Busy()
    requires db.tasks[t].onMachine == Some(m) && db.tasks[t].staff == Some(s)
    requires db'.tasks == db.tasks[t := x] && !x.Busy()
    requires UsageShifted(db, db', db.tasks[t].counter, m, s, -1)
    ensures Accounts(db')
  {
    forall c | c in db'.counters ensures db'.counters[c].inUse == |OnCounter(db'.tasks, c)| {
      MoveOnCounter(db.tasks, t, x, c);
      assert t in OnCounter(db.tasks, c) <==> db.tasks[t].counter == c;
    }
    forall k | k in db'.machines ensures db'.machines[k].inUse == |OnMachine(db'.tasks, k)| {
      MoveOnMachine(db.tasks, t, x, k);
      assert t in OnMachine(db.tasks, k) <==> k == m;
    }
    forall k | k in db'.staff ensures db'.staff[k].activeTasks == |OfStaff(db'.tasks, k)| {
      MoveOfStaff(db.tasks, t, x, k);
      assert t in OfStaff(db.tasks, k) <==> k == s;
    }
  }

  /** A busy task is counted by its counter, its machine and its staff member. */
  lemma BusyIsCounted(db: Database, t: TaskId)
    requires Rows(db) && Accounts(db) && t in db.tasks && db.tasks[t].Busy()
    ensures db.tasks[t].staff.Some? && db.tasks[t].onMachine.Some?
    ensures db.counters[db.tasks[t].counter].inUse >= 1
    ensures db.machines[db.tasks[t].onMachine.value].inUse >= 1
    ensures db.staff[db.tasks[t].staff.value].activeTasks >= 1
  {
    assert t in OnCounter(db.tasks, db.tasks[t].counter);
    assert t in OnMachine(db.tasks, db.tasks[t].onMachine.value);
    assert t in OfStaff(db.tasks, db.tasks[t].staff.value);
  }

  // ---------------------------------------------------------------- many rows change

  /** Two task tables that agree on everything but pending_deps. */
  ghost predicate SameButPending(a: map<TaskId, Task>, b: map<TaskId, Task>) {
    a.Keys == b.Keys && forall t :: t in a ==> a[t] == b[t].(pendingDeps := a[t].pendingDeps)
  }

  /** The same tasks are busy, with the same resources. */
  ghost predicate SameHolders(a: map<TaskId, Task>, b: map<TaskId, Task>) {
    forall t :: (t in a && a[t].Busy() <==> t in b && b[t].Busy())
      && (t in a && t in b && a[t].Busy() ==>
            a[t].counter == b[t].counter && a[t].onMachine == b[t].onMachine && a[t].staff == b[t].staff)
  }

  lemma SameHoldersAccounts(db: Database, db': Database)
    requires Accounts(db) && SameHolders(db'.tasks, db.tasks)
    requires db'.counters == db.counters && db'.machines == db.machines && db'.staff == db.staff
    ensures Accounts(db')
  {
    assert forall c: CounterId :: OnCounter(db'.tasks, c) == OnCounter(db.tasks, c);
    assert forall m: MachineId :: OnMachine(db'.tasks, m) == OnMachine(db.tasks, m);
    assert forall s: StaffId :: OfStaff(db'.tasks, s) == OfStaff(db.tasks, s);
  }

  lemma SameButPendingAccounts(db: Database, db': Database)
    requires Accounts(db) && SameButPending(db'.tasks, db.tasks)
    requires db'.counters == db.counters && db'.machines == db.machines && db'.staff == db.staff
    ensures Accounts(db')
  {
    SameHoldersAccounts(db, db');
  }

  /** The rows of a new order: old rows stay, the new ones are fresh. */
  lemma {:induction false} InsertRowsEffect(tasks: map<TaskId, Task>, o: OrderId, ids: seq<TaskId>, rows: seq<NewTask>)
    requires |ids| == |rows| && NoDuplicates(ids)
    requires forall t :: t in ids ==> t !in tasks
    ensures InsertRows(tasks, o, ids, rows).Keys == tasks.Keys + (set t | t in ids)
    ensures forall t :: t in tasks ==> InsertRows(tasks, o, ids, rows)[t] == tasks[t]
    ensures forall i :: 0 <= i < |ids| ==> InsertRows(tasks, o, ids, rows)[ids[i]] == NewRow(o, rows[i])
  {
    if ids != [] {
      var n := |ids| - 1;
      assert ids == ids[..n] + [ids[n]];
      InsertRowsEffect(tasks, o, ids[..n], rows[..n]);
      var before := InsertRows(tasks, o, ids[..n], rows[..n]);
      forall i | 0 <= i < |ids| ensures before[ids[n] := NewRow(o, rows[n])][ids[i]] == NewRow(o, rows[i]) {
        if i < n {
          assert ids[..n][i] == ids[i] && rows[..n][i] == rows[i];
        }
      }
    }
  }

  lemma CreateAccounts(db: Database, o: OrderId, ids: seq<TaskId>, rows: seq<NewTask>)
    requires Accounts(db) && |ids| == |rows| && NoDuplicates(ids)
    requires forall t :: t in ids ==> t !in db.tasks
    ensures Accounts(CreateTx(db, o, ids, rows))
  {
    InsertRowsEffect(db.tasks, o, ids, rows);
    var tasks' := InsertRows(db.tasks, o, ids, rows);
    forall t | t in tasks' && t !in db.tasks ensures !tasks'[t].Busy() {
      var i :| 0 <= i < |ids| && ids[i] == t;
    }
    SameHoldersAccounts(db, CreateTx(db, o, ids, rows));
  }

  // ---------------------------------------------------------------- the transactions

  lemma AssignAccounts(db: Database, t: TaskId, s: StaffId, now: Time)
    requires Rows(db) && Accounts(db) && HasStatus(db, t, TaskUnassigned) && s in db.staff
    ensures Accounts(AssignTo(db, t, s, now))
  {
    var m := db.tasks[t].machine.value;
    UsageNonNegative(db);
    Acquire(db, AssignTo(db, t, s, now), t, AssignRow(db.tasks[t], s, m, now), m, s);
  }

  lemma StartAccounts(db: Database, t: TaskId, now: Time)
    requires Rows(db) && Accounts(db) && HasStatus(db, t, TaskAssigned)
    ensures Accounts(StartTx(db, t, now))
  {
    SameHoldersAccounts(db, StartTx(db, t, now));
  }

  lemma ReleaseStartedAccounts(db: Database, t: TaskId, now: Time)
    requires Rows(db) && Accounts(db) && HasStatus(db, t, TaskStarted)
    ensures HasRunMetadata(db.tasks[t]) && Accounts(ReleaseStarted(db, t, now))
  {
    var task := db.tasks[t];
    BusyIsCounted(db, t);
    Release(db, ReleaseStarted(db, t, now), t, task.(status := TaskCompleted, completedAt := Some(now)),
            task.onMachine.value, task.staff.value);
  }

  lemma CompleteAccounts(db: Database, t: TaskId, children: seq<TaskId>, now: Time)
    requires Rows(db) && Accounts(db) && HasStatus(db, t, TaskStarted)
    ensures HasRunMetadata(db.tasks[t]) && Accounts(CompleteTx(db, t, children, now))
  {
    ReleaseStartedAccounts(db, t, now);
    AfterRelease(db, t, children, now);
    SameButPendingAccounts(ReleaseStarted(db, t, now), CompleteTx(db, t, children, now));
  }

  /** After its resources are released, a completion changes pending counts, the log and the order only. */
  lemma AfterRelease(db: Database, t: TaskId, children: seq<TaskId>, now: Time)
    requires t in db.tasks && HasRunMetadata(db.tasks[t])
    ensures var a, b := ReleaseStarted(db, t, now), CompleteTx(db, t, children, now);
      SameButPending(b.tasks, a.tasks) && b.counters == a.counters && b.machines == a.machines && b.staff == a.staff
  {
  }

  /** A requeue touches the usage numbers of the task's counter, machine and staff member only. */
  lemma RequeueCounters(db: Database, t: TaskId)
    requires t in db.tasks
    ensures RequeueOne(db, t).counters == UseCounter(db, db.tasks[t].counter, -1).counters
    ensures RequeueOne(db, t).skills == db.skills
  {
  }

  lemma RequeueMachines(db: Database, t: TaskId)
    requires t in db.tasks
    ensures RequeueOne(db, t).machines ==
      if db.tasks[t].onMachine.Some? then UseMachine(db, db.tasks[t].onMachine.value, -1).machines else db.machines
  {
  }

  lemma RequeueStaff(db: Database, t: TaskId)
    requires t in db.tasks
    ensures RequeueOne(db, t).staff ==
      if db.tasks[t].staff.Some? then UseStaff(db, db.tasks[t].staff.value, -1).staff else db.staff
  {
  }

  lemma RequeueAccounts(db: Database, t: TaskId)
    requires Rows(db) && Accounts(db) && HasStatus(db, t, TaskAssigned)
    ensures Accounts(RequeueOne(db, t))
  {
    var task := db.tasks[t];
    BusyIsCounted(db, t);
    Release(db, RequeueOne(db, t), t, ResetRow(task), task.onMachine.value, task.staff.value);
  }
}
