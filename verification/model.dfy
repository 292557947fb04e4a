/**
 * The tables of the scheduling database (db/schema.sql) and the domain event log.
 * Times are nanoseconds, as in Go's time.Duration.
 */
module Model {
  import opened Wrappers

  type TaskId = nat
  type OrderId = nat
  type CounterId = nat
  type MachineId = nat
  type StaffId = nat
  type Time = int

  datatype TaskStatus = TaskUnassigned | TaskAssigned | TaskStarted | TaskCompleted

  datatype OrderStatus = OrderConfirmed | OrderInProgress | OrderPartCompleted | OrderCompleted

  datatype EventKind =
    | EventTaskReady
    | EventTaskAssigned(staff: StaffId, machine: MachineId)
    | EventTaskStarted
    | EventTaskCompleted
    | EventTaskRequeued

  datatype Event = Event(kind: EventKind, task: TaskId)

  /** A row of task_dependencies: `task` waits for `dep`. */
  datatype Edge = Edge(task: TaskId, dep: TaskId)

  datatype Task = Task(
    order: OrderId, counter: CounterId, machine: Option<MachineId>,
    estimateSecs: int, basePriority: real, pendingDeps: int,
    staff: Option<StaffId>, onMachine: Option<MachineId>,
    status: TaskStatus, version: int,
    assignedAt: Option<Time>, startedAt: Option<Time>, completedAt: Option<Time>,
    createdAt: Time)
  {
    /** The task occupies one slot of its counter, its machine and its staff member. */
    predicate Busy() {
      status.TaskAssigned? || status.TaskStarted?
    }
  }

  datatype Counter = Counter(capacity: int, inUse: int)

  datatype Machine = Machine(counter: CounterId, capacity: int, inUse: int, isUp: bool)

  datatype Staff = Staff(
    shiftStart: Time, shiftEnd: Time, maxParallel: int,
    efficiency: real, activeTasks: int, activeSeconds: int, onBreak: bool)

  datatype Database = Database(
    tasks: map<TaskId, Task>,
    deps: set<Edge>,
    counters: map<CounterId, Counter>,
    machines: map<MachineId, Machine>,
    staff: map<StaffId, Staff>,
    skills: set<(StaffId, CounterId)>,
    orders: map<OrderId, OrderStatus>,
    log: seq<Event>)

  /** A task row before the database gives it an id and an order. */
  datatype NewTask = NewTask(
    counter: CounterId, machine: Option<MachineId>,
    estimateSecs: int, basePriority: real, createdAt: Time)

  /** A dependency between two positions of the list of rows of one order. */
  datatype Link = Link(task: int, dep: int)

  predicate NoDuplicates<T(==)>(s: seq<T>) {
    forall i, j :: 0 <= i < j < |s| ==> s[i] != s[j]
  }

  /** `s` lists every element of `xs` exactly once, in some order. */
  ghost predicate Enumerates<T(!new)>(s: seq<T>, xs: set<T>) {
    && (forall x :: x in s <==> x in xs)
    && forall i, j :: 0 <= i < j < |s| ==> s[i] != s[j]
  }
}
