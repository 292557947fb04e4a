/**
 * What each statement of the repository does to the tables, and the transactions built from
 * them. The increments keep the source's GREATEST(x + delta, 0).
 */
module Transactions {
  import opened Wrappers
  import opened Model
  import opened StaffMetrics

  /** GREATEST(x, 0). */
  function Greatest(x: int): int {
    if x < 0 then 0 else x
  }

  // ---------------------------------------------------------------- single statements

  function UseCounter(db: Database, c: CounterId, delta: int): (r: Database)
    ensures r == db.(counters := r.counters) && r.counters.Keys == db.counters.Keys
  {
    if c in db.counters then
      db.(counters := db.counters[c := db.counters[c].(inUse := Greatest(db.counters[c].inUse + delta))])
    else db
  }

  function UseMachine(db: Database, m: MachineId, delta: int): (r: Database)
    ensures r == db.(machines := r.machines) && r.machines.Keys == db.machines.Keys
  {
    if m in db.machines then
      db.(machines := db.machines[m := db.machines[m].(inUse := Greatest(db.machines[m].inUse + delta))])
    else db
  }

  function UseStaff(db: Database, s: StaffId, delta: int): (r: Database)
    ensures r == db.(staff := r.staff) && r.staff.Keys == db.staff.Keys
  {
    if s in db.staff then
      db.(staff := db.staff[s := db.staff[s].(activeTasks := Greatest(db.staff[s].activeTasks + delta))])
    else db
  }

  /** active_tasks, active_seconds and efficiency_multiplier in one update. */
  function CreditStaff(db: Database, s: StaffId, delta: int, sample: Sample): (r: Database)
    ensures r == db.(staff := r.staff) && r.staff.Keys == db.staff.Keys
  {
    if s in db.staff then
      var row := db.staff[s].(activeTasks := Greatest(db.staff[s].activeTasks + delta));
      db.(staff := db.staff[s := Credit(row, sample)])
    else db
  }

  function AppendEvent(db: Database, e: Event): Database {
    db.(log := db.log + [e])
  }

  function MarkOrder(db: Database, o: OrderId, from: set<OrderStatus>, to: OrderStatus): (r: Database)
    ensures r == db.(orders := r.orders) && r.orders.Keys == db.orders.Keys
  {
    if o in db.orders && db.orders[o] in from then db.(orders := db.orders[o := to]) else db
  }

  /** No task of the order is left to complete. */
  predicate AllDone(db: Database, o: OrderId) {
    forall t :: t in db.tasks && db.tasks[t].order == o ==> db.tasks[t].status.TaskCompleted?
  }

  function CompleteOrder(db: Database, o: OrderId): (r: Database)
    ensures r == db.(orders := r.orders) && r.orders.Keys == db.orders.Keys
  {
    if AllDone(db, o)
    then MarkOrder(db, o, {OrderConfirmed, OrderInProgress, OrderPartCompleted}, OrderCompleted)
    else db
  }

  function AssignRow(task: Task, s: StaffId, m: MachineId, now: Time): Task {
    task.(staff := Some(s), onMachine := Some(m), status := TaskAssigned, assignedAt := Some(now), version := task.version + 1)
  }

  /** One unassigned dependent row of a finished task. */
  function DecrementRow(task: Task): Task {
    task.(pendingDeps := Greatest(task.pendingDeps - 1))
  }

  /** UPDATE over the dependents of `t` that are still unassigned. */
  function DecrementDependents(db: Database, t: TaskId): Database {
    db.(tasks := map u | u in db.tasks ::
          if Edge(u, t) in db.deps && db.tasks[u].status.TaskUnassigned?
          then DecrementRow(db.tasks[u]) else db.tasks[u])
  }

  /** The dependents of `t` that are unassigned and wait for nothing. */
  function ReadyChildren(db: Database, t: TaskId): set<TaskId> {
    set u | u in db.tasks && Edge(u, t) in db.deps
            && db.tasks[u].status.TaskUnassigned? && db.tasks[u].pendingDeps == 0
  }

  function ReadyEvents(ids: seq<TaskId>): seq<Event> {
    seq(|ids|, i requires 0 <= i < |ids| => Event(EventTaskReady, ids[i]))
  }

  function EdgesOf(db: Database, t: TaskId): set<Edge> {
    set e | e in db.deps && e.task == t
  }

  // ---------------------------------------------------------------- guards

  predicate Eligible(db: Database, s: StaffId, c: CounterId, now: Time) {
    && s in db.staff
    && (s, c) in db.skills
    && !db.staff[s].onBreak
    && db.staff[s].shiftStart <= now <= db.staff[s].shiftEnd
    && db.staff[s].activeTasks < db.staff[s].maxParallel
  }

  /** The row lock of the assign transaction finds the task. */
  predicate Waiting(db: Database, t: TaskId) {
    t in db.tasks && db.tasks[t].status.TaskUnassigned? && db.tasks[t].pendingDeps == 0
  }

  predicate CounterFree(db: Database, c: CounterId) {
    c in db.counters && db.counters[c].inUse < db.counters[c].capacity
  }

  predicate MachineFree(db: Database, m: MachineId, c: CounterId) {
    && m in db.machines
    && db.machines[m].counter == c
    && db.machines[m].isUp
    && db.machines[m].inUse < db.machines[m].capacity
  }

  /** Every check of the assign transaction except the one on a staff member. */
  predicate Placeable(db: Database, t: TaskId) {
    && Waiting(db, t)
    && CounterFree(db, db.tasks[t].counter)
    && db.tasks[t].machine.Some?
    && MachineFree(db, db.tasks[t].machine.value, db.tasks[t].counter)
  }

  predicate CanAssign(db: Database, t: TaskId, s: StaffId, now: Time) {
    Placeable(db, t) && Eligible(db, s, db.tasks[t].counter, now)
  }

  predicate HasStatus(db: Database, t: TaskId, st: TaskStatus) {
    t in db.tasks && db.tasks[t].status == st
  }

  predicate Expired(db: Database, t: TaskId, cutoff: Time) {
    && HasStatus(db, t, TaskAssigned)
    && db.tasks[t].startedAt.None?
    && db.tasks[t].assignedAt.Some?
    && db.tasks[t].assignedAt.value < cutoff
  }

  // ---------------------------------------------------------------- transactions

  /** The writes of a successful assign transaction. */
  function AssignTo(db: Database, t: TaskId, s: StaffId, now: Time): Database
    requires t in db.tasks && db.tasks[t].machine.Some?
  {
    var task := db.tasks[t];
    var m := task.machine.value;
    var d1 := db.(tasks := db.tasks[t := AssignRow(task, s, m, now)]);
    var d2 := UseMachine(UseCounter(d1, task.counter, 1), m, 1);
    var d3 := MarkOrder(d2, task.order, {OrderConfirmed}, OrderInProgress);
    AppendEvent(UseStaff(d3, s, 1), Event(EventTaskAssigned(s, m), t))
  }

  function StartTx(db: Database, t: TaskId, now: Time): Database
    requires t in db.tasks
  {
    var d1 := db.(tasks := db.tasks[t := db.tasks[t].(status := TaskStarted, startedAt := Some(now))]);
    AppendEvent(d1, Event(EventTaskStarted, t))
  }

  predicate HasRunMetadata(task: Task) {
    task.staff.Some? && task.onMachine.Some? && task.startedAt.Some?
  }

  /** Release of the three resources of a started task that is being completed. */
  function ReleaseStarted(db: Database, t: TaskId, now: Time): Database
    requires t in db.tasks && HasRunMetadata(db.tasks[t])
  {
    var task := db.tasks[t];
    var d1 := db.(tasks := db.tasks[t := task.(status := TaskCompleted, completedAt := Some(now))]);
    var d2 := UseMachine(UseCounter(d1, task.counter, -1), task.onMachine.value, -1);
    CreditStaff(d2, task.staff.value, -1, Sample(task.estimateSecs, now - task.startedAt.value))
  }

  /** The writes of a committed completion; `children` is the list of ready dependents it read. */
  function CompleteTx(db: Database, t: TaskId, children: seq<TaskId>, now: Time): Database
    requires t in db.tasks && HasRunMetadata(db.tasks[t])
  {
    var d1 := DecrementDependents(ReleaseStarted(db, t, now), t);
    var d2 := d1.(log := d1.log + ReadyEvents(children) + [Event(EventTaskCompleted, t)]);
    var o := db.tasks[t].order;
    CompleteOrder(MarkOrder(d2, o, {OrderConfirmed, OrderInProgress}, OrderPartCompleted), o)
  }

  function ResetRow(task: Task): Task {
    task.(status := TaskUnassigned, staff := None, onMachine := None, assignedAt := None)
  }

  /** One round of the loop that takes back a stale assignment. */
  function RequeueOne(db: Database, t: TaskId): Database
    requires t in db.tasks
  {
    var task := db.tasks[t];
    var d1 := db.(tasks := db.tasks[t := ResetRow(task)]);
    var d2 := if task.staff.Some? then UseStaff(d1, task.staff.value, -1) else d1;
    var d3 := UseCounter(d2, task.counter, -1);
    var d4 := if task.onMachine.Some? then UseMachine(d3, task.onMachine.value, -1) else d3;
    AppendEvent(d4, Event(EventTaskRequeued, t))
  }

  function NewRow(o: OrderId, row: NewTask): Task {
    Task(o, row.counter, row.machine, row.estimateSecs, row.basePriority, 0,
         None, None, TaskUnassigned, 0, None, None, None, row.createdAt)
  }

  /** `tasks` extended by the rows of a new order under the ids the database chose. */
  function InsertRows(tasks: map<TaskId, Task>, o: OrderId, ids: seq<TaskId>, rows: seq<NewTask>): map<TaskId, Task>
    requires |ids| == |rows|
  {
    if ids == [] then tasks
    else InsertRows(tasks, o, ids[..|ids| - 1], rows[..|rows| - 1])[ids[|ids| - 1] := NewRow(o, rows[|rows| - 1])]
  }

  function CreateTx(db: Database, o: OrderId, ids: seq<TaskId>, rows: seq<NewTask>): Database
    requires |ids| == |rows|
  {
    db.(orders := db.orders[o := OrderConfirmed], tasks := InsertRows(db.tasks, o, ids, rows))
  }

  /** pending_deps := number of dependency rows, for the tasks of `o` that have any. */
  function RecalculateTx(db: Database, o: OrderId): Database {
    db.(tasks := map u | u in db.tasks ::
          if db.tasks[u].order == o && EdgesOf(db, u) != {}
          then db.tasks[u].(pendingDeps := |EdgesOf(db, u)|) else db.tasks[u])
  }

  function OrderReady(db: Database, o: OrderId): set<TaskId> {
    set u | u in db.tasks && db.tasks[u].order == o && Waiting(db, u)
  }
}
