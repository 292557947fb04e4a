/** What holds in every state that any interleaving of the steps can reach. */
module KitchenTheorems {
  import opened Wrappers
  import opened Model
  import opened Transactions
  import opened ResourceAccounting
  import opened KitchenMachine
  import opened DependencyGate
  import opened ReadyFlow
  import opened EventLog
  import opened OrderLifecycle

  ghost predicate Usage(db: Database) {
    Accounts(db) && WithinCapacity(db) && WithinParallel(db)
  }

  ghost predicate Inv(k: State) {
    Gate(k) && Flow(k) && Usage(k.db) && LogOk(k.db) && ReadyOnce(k) && OrdersOk(k.db)
  }

  // ---------------------------------------------------------------- usage over one step

  /** Limits stay, and numbers only rise where there was room. */
  ghost predicate UsageBounded(db: Database, db': Database) {
    CountersBounded(db, db') && MachinesBounded(db, db') && StaffBounded(db, db')
  }

  ghost predicate CountersBounded(db: Database, db': Database) {
    db'.counters.Keys == db.counters.Keys && forall c :: c in db.counters ==>
      && db'.counters[c].capacity == db.counters[c].capacity
      && (db'.counters[c].inUse <= Greatest(db.counters[c].inUse) || db'.counters[c].inUse <= db.counters[c].capacity)
  }

  ghost predicate MachinesBounded(db: Database, db': Database) {
    db'.machines.Keys == db.machines.Keys && forall m :: m in db.machines ==>
      && db'.machines[m].capacity == db.machines[m].capacity
      && (db'.machines[m].inUse <= Greatest(db.machines[m].inUse) || db'.machines[m].inUse <= db.machines[m].capacity)
  }

  ghost predicate StaffBounded(db: Database, db': Database) {
    db'.staff.Keys == db.staff.Keys && forall s :: s in db.staff ==>
      && db'.staff[s].maxParallel == db.staff[s].maxParallel
      && (db'.staff[s].activeTasks <= Greatest(db.staff[s].activeTasks) || db'.staff[s].activeTasks <= db.staff[s].maxParallel)
  }

  lemma BoundedUsage(db: Database, db': Database)
    requires Usage(db) && UsageBounded(db, db') && Accounts(db')
    ensures Usage(db')
  {
    UsageNonNegative(db);
    UsageNonNegative(db');
  }

  lemma AssignBounded(db: Database, t: TaskId, s: StaffId, now: Time)
    requires CanAssign(db, t, s, now)
    ensures UsageBounded(db, AssignTo(db, t, s, now))
  {
  }

  lemma AssignUsage(db: Database, t: TaskId, s: StaffId, now: Time)
    requires Rows(db) && Usage(db) && CanAssign(db, t, s, now)
    ensures Usage(AssignTo(db, t, s, now))
  {
    AssignAccounts(db, t, s, now);
    AssignBounded(db, t, s, now);
    BoundedUsage(db, AssignTo(db, t, s, now));
  }

  lemma ReleaseBounded(db: Database, t: TaskId, now: Time)
    requires Accounts(db) && t in db.tasks && HasRunMetadata(db.tasks[t])
    ensures UsageBounded(db, ReleaseStarted(db, t, now))
  {
  }

  lemma CompleteUsage(db: Database, t: TaskId, children: seq<TaskId>, now: Time)
    requires Rows(db) && Usage(db) && HasStatus(db, t, TaskStarted)
    ensures HasRunMetadata(db.tasks[t]) && Usage(CompleteTx(db, t, children, now))
  {
    CompleteAccounts(db, t, children, now);
    ReleaseBounded(db, t, now);
    BoundedUsage(db, CompleteTx(db, t, children, now));
  }

  lemma RequeueUsage(db: Database, t: TaskId)
    requires Rows(db) && Usage(db) && HasStatus(db, t, TaskAssigned)
    ensures Usage(RequeueOne(db, t))
  {
    RequeueAccounts(db, t);
    RequeueBounded(db, t);
    BoundedUsage(db, RequeueOne(db, t));
  }

  lemma CounterDown(db: Database, db': Database, c: CounterId)
    requires db'.counters == UseCounter(db, c, -1).counters
    ensures CountersBounded(db, db')
  {
  }

  lemma MachineDown(db: Database, db': Database, m: MachineId)
    requires db'.machines == UseMachine(db, m, -1).machines
    ensures MachinesBounded(db, db')
  {
  }

  lemma StaffDown(db: Database, db': Database, s: StaffId)
    requires db'.staff == UseStaff(db, s, -1).staff
    ensures StaffBounded(db, db')
  {
  }

  lemma RequeueBounded(db: Database, t: TaskId)
    requires Accounts(db) && t in db.tasks
    ensures UsageBounded(db, RequeueOne(db, t))
  {
    RequeueCounters(db, t);
    RequeueMachines(db, t);
    RequeueStaff(db, t);
    CounterDown(db, RequeueOne(db, t), db.tasks[t].counter);
    if db.tasks[t].onMachine.Some? { MachineDown(db, RequeueOne(db, t), db.tasks[t].onMachine.value); }
    if db.tasks[t].staff.Some? { StaffDown(db, RequeueOne(db, t), db.tasks[t].staff.value); }
  }

  lemma CreateUsage(db: Database, o: OrderId, ids: seq<TaskId>, rows: seq<NewTask>)
    requires Usage(db) && |ids| == |rows| && NoDuplicates(ids)
    requires forall t :: t in ids ==> t !in db.tasks
    ensures Usage(CreateTx(db, o, ids, rows))
  {
    CreateAccounts(db, o, ids, rows);
    BoundedUsage(db, CreateTx(db, o, ids, rows));
  }

  lemma StartUsage(db: Database, t: TaskId, now: Time)
    requires Rows(db) && Usage(db) && HasStatus(db, t, TaskAssigned)
    ensures Usage(StartTx(db, t, now))
  {
    StartAccounts(db, t, now);
    SameBounded(db, StartTx(db, t, now));
    BoundedUsage(db, StartTx(db, t, now));
  }

  lemma SameBounded(db: Database, db': Database)
    requires Accounts(db) && db'.counters == db.counters && db'.machines == db.machines && db'.staff == db.staff
    ensures UsageBounded(db, db')
  {
  }

  lemma SameUsage(db: Database, db': Database)
    requires Usage(db) && SameButPending(db'.tasks, db.tasks)
    requires db'.counters == db.counters && db'.machines == db.machines && db'.staff == db.staff
    ensures Usage(db')
  {
    SameButPendingAccounts(db, db');
    BoundedUsage(db, db');
  }

  lemma UsageStep(k: State, step: Step)
    requires Gate(k) && Flow(k) && Usage(k.db) && Enabled(k, step)
    ensures Usage(Apply(k, step).db)
  {
    match step
    case CreateOrder(o, ids, rows, _) => CreateUsage(k.db, o, ids, rows);
    case Assign(t, s, now) => AssignUsage(k.db, t, s, now);
    case RequeueExpired(t, _) => RequeueUsage(k.db, t);
    case Start(t, now) => StartUsage(k.db, t, now);
    case CommitComplete(t, now) => CommitUsage(k, t, now);
    case InsertEdges(_) => LinkUsage(k, step);
    case Recalculate(_) => LinkUsage(k, step);
    case PublishEvent(_) => LinkUsage(k, step);
    case _ => QuietKeepsTables(k, step);
  }

  lemma LinkUsage(k: State, step: Step)
    requires Usage(k.db) && Enabled(k, step) && (step.InsertEdges? || step.Recalculate? || step.PublishEvent?)
    ensures Usage(Apply(k, step).db)
  {
    SameUsage(k.db, Apply(k, step).db);
  }

  lemma CommitUsage(k: State, t: TaskId, now: Time)
    requires Rows(k.db) && CompletionsOk(k) && Usage(k.db) && Enabled(k, CommitComplete(t, now))
    ensures Usage(Apply(k, CommitComplete(t, now)).db)
  {
    assert CompletionOk(k, t, k.completions[t]);
    CompleteUsage(k.db, t, k.completions[t].children, now);
  }

  // ---------------------------------------------------------------- every step, every run

  lemma InitInv(k: State)
    requires Init(k)
    ensures Inv(k)
  {
    assert forall c: CounterId :: OnCounter(k.db.tasks, c) == {};
    assert forall m: MachineId :: OnMachine(k.db.tasks, m) == {};
    assert forall s: StaffId :: OfStaff(k.db.tasks, s) == {};
  }

  /** Every transaction and every queue operation keeps the invariant. */
  lemma StepInv(k: State, step: Step)
    requires Inv(k) && Enabled(k, step)
    ensures Inv(Apply(k, step))
  {
    if step.CommitComplete? {
      assert CompletionOk(k, step.t, k.completions[step.t]);
    }
    GateStep(k, step);
    FlowStep(k, step);
    UsageStep(k, step);
    LogStep(k, step);
    ReadyStep(k, step);
    OrdersStep(k, step);
  }

  lemma {:induction false} RunInv(k: State, steps: seq<Step>, k': State)
    requires Inv(k) && Run(k, steps, k')
    ensures Inv(k')
    decreases |steps|
  {
    if steps != [] {
      StepInv(k, steps[0]);
      RunInv(Apply(k, steps[0]), steps[1..], k');
    }
  }

  lemma ReachableInv(k: State)
    requires Reachable(k)
    ensures Inv(k)
  {
    var k0, steps :| Init(k0) && Run(k0, steps, k);
    InitInv(k0);
    RunInv(k0, steps, k);
  }

  lemma OrderOfTask(k: State, t: TaskId)
    requires Reachable(k) && t in k.db.tasks
    ensures k.db.tasks[t].order in k.db.orders
    ensures k.db.orders[k.db.tasks[t].order] == StatusOf(k.db, k.db.tasks[t].order)
  {
    ReachableInv(k);
  }

  /** In a reachable state a completion leaves its task completed and its dependents one down. */
  lemma StartedFinishes(k: State, t: TaskId, children: seq<TaskId>, now: Time)
    requires Reachable(k) && HasStatus(k.db, t, TaskStarted)
    ensures HasRunMetadata(k.db.tasks[t]) && Finished(k.db, CompleteTx(k.db, t, children, now), t)
  {
    ReachableInv(k);
    CompleteFinishes(k, t, children, now);
  }

  // ---------------------------------------------------------------- main results

  /** A task is assigned, started or completed only after everything it depends on was completed. */
  lemma DependencySafety(k: State, e: Edge)
    requires Reachable(k) && e in k.db.deps
    ensures e.task in k.db.tasks && e.dep in k.db.tasks
    ensures !k.db.tasks[e.task].status.TaskUnassigned? ==> k.db.tasks[e.dep].status.TaskCompleted?
  {
    ReachableInv(k);
  }

  /**
   * Between the commits of ConfirmOrder: once the counts are in, pending_deps is the number of
   * uncompleted dependencies; before, nobody can have seen the task.
   */
  lemma PendingCountExact(k: State, t: TaskId)
    requires Reachable(k) && t in k.db.tasks
    ensures Linked(k, k.db.tasks[t].order) ==>
      k.db.tasks[t].pendingDeps ==
        |set e | e in k.db.deps && e.task == t && e.dep in k.db.tasks && !k.db.tasks[e.dep].status.TaskCompleted?|
    ensures !Linked(k, k.db.tasks[t].order) ==> k.db.tasks[t].status.TaskUnassigned? && !Held(k, t)
  {
    ReachableInv(k);
    assert OpenEdges(k.db, t) ==
      set e | e in k.db.deps && e.task == t && e.dep in k.db.tasks && !k.db.tasks[e.dep].status.TaskCompleted?;
  }

  /** The stored usage numbers count the busy tasks, and no capacity is exceeded. */
  lemma ResourceConservation(k: State)
    requires Reachable(k)
    ensures forall c :: c in k.db.counters ==>
      && k.db.counters[c].inUse == |set t | t in k.db.tasks && k.db.tasks[t].counter == c
                                           && (k.db.tasks[t].status == TaskAssigned || k.db.tasks[t].status == TaskStarted)|
      && (k.db.counters[c].inUse == 0 || k.db.counters[c].inUse <= k.db.counters[c].capacity)
    ensures forall m :: m in k.db.machines ==>
      && k.db.machines[m].inUse == |set t | t in k.db.tasks && k.db.tasks[t].onMachine == Some(m)
                                           && (k.db.tasks[t].status == TaskAssigned || k.db.tasks[t].status == TaskStarted)|
      && (k.db.machines[m].inUse == 0 || k.db.machines[m].inUse <= k.db.machines[m].capacity)
    ensures forall s :: s in k.db.staff ==>
      && k.db.staff[s].activeTasks == |set t | t in k.db.tasks && k.db.tasks[t].staff == Some(s)
                                              && (k.db.tasks[t].status == TaskAssigned || k.db.tasks[t].status == TaskStarted)|
      && (k.db.staff[s].activeTasks == 0 || k.db.staff[s].activeTasks <= k.db.staff[s].maxParallel)
  {
    ReachableInv(k);
    UsageCounted(k.db);
  }

  lemma UsageCounted(db: Database)
    requires Accounts(db)
    ensures forall c :: c in db.counters ==>
      db.counters[c].inUse == |set t | t in db.tasks && db.tasks[t].counter == c
                                       && (db.tasks[t].status == TaskAssigned || db.tasks[t].status == TaskStarted)|
    ensures forall m :: m in db.machines ==>
      db.machines[m].inUse == |set t | t in db.tasks && db.tasks[t].onMachine == Some(m)
                                       && (db.tasks[t].status == TaskAssigned || db.tasks[t].status == TaskStarted)|
    ensures forall s :: s in db.staff ==>
      db.staff[s].activeTasks == |set t | t in db.tasks && db.tasks[t].staff == Some(s)
                                          && (db.tasks[t].status == TaskAssigned || db.tasks[t].status == TaskStarted)|
  {
    forall c | c in db.counters ensures
        OnCounter(db.tasks, c) == set t | t in db.tasks && db.tasks[t].counter == c
                                          && (db.tasks[t].status == TaskAssigned || db.tasks[t].status == TaskStarted) {}
    forall m | m in db.machines ensures
        OnMachine(db.tasks, m) == set t | t in db.tasks && db.tasks[t].onMachine == Some(m)
                                          && (db.tasks[t].status == TaskAssigned || db.tasks[t].status == TaskStarted) {}
    forall s | s in db.staff ensures
        OfStaff(db.tasks, s) == set t | t in db.tasks && db.tasks[t].staff == Some(s)
                                        && (db.tasks[t].status == TaskAssigned || db.tasks[t].status == TaskStarted) {}
  }

  /** The three resources a busy task gives back are all in use: GREATEST(x - 1, 0) is x - 1. */
  ghost predicate HoldsThreeSlots(db: Database, t: TaskId) {
    && t in db.tasks
    && db.tasks[t].staff.Some? && db.tasks[t].onMachine.Some?
    && db.tasks[t].counter in db.counters && db.counters[db.tasks[t].counter].inUse - 1 >= 0
    && db.tasks[t].onMachine.value in db.machines && db.machines[db.tasks[t].onMachine.value].inUse - 1 >= 0
    && db.tasks[t].staff.value in db.staff && db.staff[db.tasks[t].staff.value].activeTasks - 1 >= 0
  }

  /**
   * The clamps never change a value: not when a completion or a requeue releases its resources,
   * and not when a completion counts down its dependents, all of which are still unassigned.
   */
  lemma ClampsNeverBite(k: State, step: Step)
    requires Reachable(k) && Enabled(k, step)
    ensures step.RequeueExpired? || step.CommitComplete? ==> HoldsThreeSlots(k.db, step.t)
    ensures step.CommitComplete? ==> forall c :: Edge(c, step.t) in k.db.deps ==>
      HasStatus(k.db, c, TaskUnassigned) && k.db.tasks[c].pendingDeps - 1 >= 0
  {
    ReachableInv(k);
    if step.CommitComplete? {
      assert CompletionOk(k, step.t, k.completions[step.t]);
      BusyIsCounted(k.db, step.t);
      forall c | Edge(c, step.t) in k.db.deps
        ensures HasStatus(k.db, c, TaskUnassigned) && k.db.tasks[c].pendingDeps - 1 >= 0
      {
        ChildOfStarted(k, c, step.t);
      }
    } else if step.RequeueExpired? {
      BusyIsCounted(k.db, step.t);
    }
  }

  /** The list ConfirmOrder is working through still has `t` before its enqueue. */
  predicate AwaitsPublication(k: State, t: TaskId) {
    && t in k.db.tasks && k.db.tasks[t].order in k.confirms
    && Upcoming(k.confirms[k.db.tasks[t].order], t)
  }

  /**
   * A task that could be assigned is in the queue, in a batch some allocator popped, on a list
   * about to be enqueued, or still ahead in its ConfirmOrder.
   */
  lemma NoLostTask(k: State, t: TaskId)
    requires Reachable(k) && Waiting(k.db, t) && Linked(k, k.db.tasks[t].order)
    ensures t in k.queue || t in k.popped || t in k.returning || AwaitsPublication(k, t)
  {
    ReachableInv(k);
  }

  /** The committed events of a task replay to its status and count its assignments. */
  lemma LogReplaysToState(k: State, t: TaskId)
    requires Reachable(k) && t in k.db.tasks
    ensures Replay(k.db.log, t) == Some(k.db.tasks[t].status)
    ensures Count(k.db.log, t, Assigned) == k.db.tasks[t].version
    ensures Count(k.db.log, t, Requeued) == k.db.tasks[t].version - if k.db.tasks[t].status.TaskUnassigned? then 0 else 1
    ensures Count(k.db.log, t, Started) == if k.db.tasks[t].status.TaskStarted? || k.db.tasks[t].status.TaskCompleted? then 1 else 0
    ensures Count(k.db.log, t, Completed) == if k.db.tasks[t].status.TaskCompleted? then 1 else 0
  {
    ReachableInv(k);
    LegalCounts(k.db.log, t);
  }

  /** Once ConfirmOrder is through, TASK_READY was logged once for every unlocked task and for no other. */
  lemma ReadinessExactlyOnce(k: State, t: TaskId)
    requires Reachable(k) && t in k.db.tasks
    requires k.db.tasks[t].order in k.confirms && k.confirms[k.db.tasks[t].order] == Publishing([], false)
    ensures Count(k.db.log, t, Ready) ==
      if forall e :: e in k.db.deps && e.task == t ==> HasStatus(k.db, e.dep, TaskCompleted) then 1 else 0
  {
    ReachableInv(k);
    if k.db.tasks[t].pendingDeps == 0 {
      WaitingIsUnblocked(k, t);
    }
    assert (forall e :: e in k.db.deps && e.task == t ==> HasStatus(k.db, e.dep, TaskCompleted)) ==>
      OpenEdges(k.db, t) == {};
    if EdgesOf(k.db, t) == {} {
      RootHasNothingPending(k, t);
      assert forall e :: e in k.db.deps && e.task == t ==> e in EdgesOf(k.db, t);
    }
  }

  lemma CommitReadies(k: State, d: TaskId, now: Time, t: TaskId)
    requires CompletionsOk(k) && Enabled(k, CommitComplete(d, now))
    requires Count(Apply(k, CommitComplete(d, now)).db.log, t, Ready) > Count(k.db.log, t, Ready)
    ensures HasStatus(k.db, d, TaskStarted) && t in LastDeps(k.db, d)
  {
    assert CompletionOk(k, d, k.completions[d]);
    CompleteLogShape(k.db, d, k.completions[d].children, now);
    CompleteCounts(k.db.log, d, k.completions[d].children, t);
  }

  lemma OnlyOpenDep(k: State, t: TaskId, d: TaskId)
    requires Gate(k) && HasStatus(k.db, d, TaskStarted) && t in LastDeps(k.db, d)
    ensures forall e :: Edge(t, e) in k.db.deps && e != d ==> HasStatus(k.db, e, TaskCompleted)
  {
    ChildOfStarted(k, t, d);
    forall e | Edge(t, e) in k.db.deps && e != d ensures HasStatus(k.db, e, TaskCompleted) {
      assert Edge(t, e).task == t && Edge(t, e).dep == e;
      assert Edge(t, e) !in OpenEdges(k.db, t);
    }
  }

  lemma PublishSource(k: State, o: OrderId, t: TaskId)
    requires ListsOk(k) && Enabled(k, PublishEvent(o))
    requires Count(Apply(k, PublishEvent(o)).db.log, t, Ready) > Count(k.db.log, t, Ready)
    ensures EdgesOf(k.db, t) == {}
  {
    assert ListOk(k.db, o, k.confirms[o]);
    assert k.confirms[o].rest[0] in k.confirms[o].rest;
    AppendOne(k.db.log, Event(EventTaskReady, k.confirms[o].rest[0]), t);
  }

  lemma OneEventSource(db: Database, db': Database, e: Event, t: TaskId)
    requires db'.log == db.log + [e] && TagOf(e.kind) != Ready
    ensures Count(db'.log, t, Ready) == Count(db.log, t, Ready)
  {
    AppendOne(db.log, e, t);
  }

  lemma OtherSource(k: State, step: Step, t: TaskId)
    requires Enabled(k, step) && !step.CommitComplete? && !step.PublishEvent?
    ensures Count(Apply(k, step).db.log, t, Ready) == Count(k.db.log, t, Ready)
  {
    match step
    case Assign(u, s, now) =>
      OneEventSource(k.db, AssignTo(k.db, u, s, now), Event(EventTaskAssigned(s, k.db.tasks[u].machine.value), u), t);
    case Start(u, now) => OneEventSource(k.db, StartTx(k.db, u, now), Event(EventTaskStarted, u), t);
    case RequeueExpired(u, _) => OneEventSource(k.db, RequeueOne(k.db, u), Event(EventTaskRequeued, u), t);
    case _ =>
  }

  /** Only two kinds of step log TASK_READY: ConfirmOrder for a root, and the completion of the last open dependency. */
  lemma ReadinessSource(k: State, step: Step, t: TaskId)
    requires Reachable(k) && Enabled(k, step) && t in k.db.tasks
    requires Count(Apply(k, step).db.log, t, Ready) > Count(k.db.log, t, Ready)
    ensures if EdgesOf(k.db, t) == {} then step.PublishEvent?
            else && step.CommitComplete? && Edge(t, step.t) in k.db.deps && HasStatus(k.db, step.t, TaskStarted)
                 && forall e :: Edge(t, e) in k.db.deps && e != step.t ==> HasStatus(k.db, e, TaskCompleted)
  {
    ReachableInv(k);
    if step.CommitComplete? {
      CommitReadies(k, step.t, step.now, t);
      OnlyOpenDep(k, t, step.t);
      assert Edge(t, step.t) in EdgesOf(k.db, t);
    } else if step.PublishEvent? {
      PublishSource(k, step.o, t);
    } else {
      OtherSource(k, step, t);
    }
  }

  /** With atomic transactions the order status is exactly what its tasks say. */
  lemma OrderStatusAgrees(k: State, o: OrderId)
    requires Reachable(k) && o in k.db.orders
    ensures k.db.orders[o].OrderCompleted? <==> AllDone(k.db, o)
    ensures k.db.orders[o].OrderPartCompleted? <==> SomeDone(k.db, o) && !AllDone(k.db, o)
    ensures k.db.orders[o].OrderInProgress? <==> !AllDone(k.db, o) && !SomeDone(k.db, o) && EverAssigned(k.db, o)
  {
    ReachableInv(k);
  }

  /** Over any run the status of an order only moves forward, requeues included. */
  lemma {:induction false} OrderStatusForward(k: State, steps: seq<Step>, k': State, o: OrderId)
    requires Run(k, steps, k') && o in k.db.orders
    ensures o in k'.db.orders && Rank(k'.db.orders[o]) >= Rank(k.db.orders[o])
    decreases |steps|
  {
    if steps != [] {
      StatusForward(k, steps[0], o);
      OrderStatusForward(Apply(k, steps[0]), steps[1..], k', o);
    }
  }
}
