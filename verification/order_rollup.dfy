/**
 * The order roll-up under Read Committed. A completion updates its task and resource rows, marks
 * the order PART_COMPLETED if it was only CONFIRMED or IN_PROGRESS, counts the tasks it sees as
 * not completed, sets the order COMPLETED on a count of zero, and commits. It sees committed rows
 * and its own. The order row is locked only by a transaction that updates it.
 */
module OrderRollup {
  import opened Wrappers
  import opened Model
  import opened Collections
  import opened Graphs
  import opened Transactions
  import opened KitchenMachine
  import opened DependencyGate
  import opened OrderLifecycle
  import opened KitchenTheorems

  /** A row of a table that a completion updates and so keeps locked until it ends. */
  datatype Row = CounterRow(c: CounterId) | MachineRow(m: MachineId) | StaffRow(s: StaffId)

  /** The tasks of one order, their dependencies and the resources each one holds. */
  datatype Plan = Plan(tasks: set<TaskId>, deps: set<Edge>, rows: map<TaskId, set<Row>>)

  datatype Phase = Updated | Marked | Counted(all: bool)

  /** Committed task and order state, the open completions, and the one that has the order row locked. */
  datatype Roll = Roll(done: set<TaskId>, status: OrderStatus, holder: Option<TaskId>, open: map<TaskId, Phase>)

  datatype RollStep =
    | Progress
    | Update(t: TaskId)
    | Mark(t: TaskId)
    | CountLeft(t: TaskId)
    | Commit(t: TaskId)
    | Abort(t: TaskId)

  predicate Early(st: OrderStatus) {
    st.OrderConfirmed? || st.OrderInProgress?
  }

  function RowsOf(plan: Plan, t: TaskId): set<Row> {
    if t in plan.rows then plan.rows[t] else {}
  }

  /** Two completions that never wait for each other's rows. */
  predicate Independent(plan: Plan, t: TaskId, u: TaskId) {
    && RowsOf(plan, t) !! RowsOf(plan, u)
    && forall c :: c in plan.tasks ==> !(Edge(c, t) in plan.deps && Edge(c, u) in plan.deps)
  }

  predicate DepsDone(plan: Plan, done: set<TaskId>, t: TaskId) {
    forall e :: e in plan.deps && e.task == t ==> e.dep in done
  }

  predicate CanStep(plan: Plan, r: Roll, step: RollStep) {
    match step
    case Progress => r.status.OrderConfirmed? && r.holder.None?
    case Update(t) =>
      && t in plan.tasks && t !in r.done && t !in r.open && DepsDone(plan, r.done, t)
      && forall u :: u in r.open ==> Independent(plan, t, u)
    case Mark(t) => t in r.open && r.open[t] == Updated && (Early(r.status) ==> r.holder.None?)
    case CountLeft(t) => t in r.open && r.open[t] == Marked
    case Commit(t) => t in r.open && r.open[t].Counted? && (r.open[t].all ==> r.holder in {None, Some(t)})
    case Abort(t) => t in r.open
  }

  function Freed(holder: Option<TaskId>, t: TaskId): Option<TaskId> {
    if holder == Some(t) then None else holder
  }

  function DoStep(plan: Plan, r: Roll, step: RollStep): Roll
    requires CanStep(plan, r, step)
  {
    match step
    case Progress => r.(status := OrderInProgress)
    case Update(t) => r.(open := r.open[t := Updated])
    case Mark(t) => r.(open := r.open[t := Marked], holder := if Early(r.status) then Some(t) else r.holder)
    case CountLeft(t) => r.(open := r.open[t := Counted(plan.tasks <= r.done + {t})])
    case Commit(t) =>
      Roll(r.done + {t},
           if r.open[t].all then OrderCompleted else if r.holder == Some(t) then OrderPartCompleted else r.status,
           Freed(r.holder, t), r.open - {t})
    case Abort(t) => r.(open := r.open - {t}, holder := Freed(r.holder, t))
  }

  const Fresh: Roll := Roll({}, OrderConfirmed, None, map[])

  ghost predicate RollRun(plan: Plan, r: Roll, steps: seq<RollStep>, r': Roll)
    decreases |steps|
  {
    if steps == [] then r == r' else CanStep(plan, r, steps[0]) && RollRun(plan, DoStep(plan, r, steps[0]), steps[1..], r')
  }

  ghost predicate RollLeads(plan: Plan, r: Roll, r': Roll) {
    exists steps :: RollRun(plan, r, steps, r')
  }

  // ---------------------------------------------------------------- COMPLETED means all done

  ghost predicate Sound(plan: Plan, r: Roll) {
    && (r.status.OrderCompleted? ==> plan.tasks <= r.done)
    && (forall t :: t in r.open && r.open[t] == Counted(true) ==> plan.tasks <= r.done + {t})
  }

  lemma SoundStep(plan: Plan, r: Roll, step: RollStep)
    requires Sound(plan, r) && CanStep(plan, r, step)
    ensures Sound(plan, DoStep(plan, r, step))
  {
  }

  lemma {:induction false} SoundRun(plan: Plan, r: Roll, steps: seq<RollStep>, r': Roll)
    requires Sound(plan, r) && RollRun(plan, r, steps, r')
    ensures Sound(plan, r')
    decreases |steps|
  {
    if steps != [] {
      SoundStep(plan, r, steps[0]);
      SoundRun(plan, DoStep(plan, r, steps[0]), steps[1..], r');
    }
  }

  /** In every interleaving a COMPLETED order has no task left. */
  lemma CompletedMeansAllDone(plan: Plan, r: Roll)
    requires RollLeads(plan, Fresh, r) && r.status.OrderCompleted?
    ensures plan.tasks <= r.done
  {
    var steps :| RollRun(plan, Fresh, steps, r);
    SoundRun(plan, Fresh, steps, r);
  }

  // ---------------------------------------------------------------- when all done means COMPLETED

  /** No task waits for `t`. */
  predicate Last(plan: Plan, t: TaskId) {
    t in plan.tasks && forall e :: e in plan.deps ==> e.dep != t
  }

  /** Two last tasks can complete side by side while a third was completed before. */
  ghost predicate Risky(plan: Plan) {
    |plan.tasks| >= 3 && exists a, b :: RiskyPair(plan, a, b)
  }

  predicate RiskyPair(plan: Plan, a: TaskId, b: TaskId) {
    a != b && Last(plan, a) && Last(plan, b) && RowsOf(plan, a) !! RowsOf(plan, b)
  }

  ghost predicate PlanOk(plan: Plan) {
    && plan.tasks != {}
    && (forall e :: e in plan.deps ==> e.task in plan.tasks && e.dep in plan.tasks && e.task != e.dep)
    && Acyclic(PlanLinks(plan))
  }

  function PlanLinks(plan: Plan): set<Link> {
    set e | e in plan.deps :: Link(e.task, e.dep)
  }

  /** Whoever counted somebody else as unfinished is right until it commits. */
  ghost predicate CountsHold(plan: Plan, r: Roll) {
    forall t :: t in r.open && r.open[t] == Counted(false) ==> !(plan.tasks <= r.done + {t})
  }

  ghost predicate OpenOk(plan: Plan, r: Roll) {
    && r.done <= plan.tasks
    && (forall e :: e in plan.deps && e.task in r.done ==> e.dep in r.done)
    && (forall t :: t in r.open ==> t in plan.tasks && t !in r.done && DepsDone(plan, r.done, t))
    && (forall t, u :: t in r.open && u in r.open && t != u ==> Independent(plan, t, u))
  }

  /** Before the first completion commits, a transaction that got past its mark holds the order row. */
  ghost predicate OneMarked(r: Roll) {
    && (r.done == {} ==> Early(r.status))
    && (Early(r.status) ==> forall t :: t in r.open && r.open[t] != Updated ==> r.holder == Some(t))
  }

  ghost predicate RollInv(plan: Plan, r: Roll) {
    && OpenOk(plan, r) && OneMarked(r) && Sound(plan, r) && CountsHold(plan, r)
    && (plan.tasks <= r.done ==> r.status.OrderCompleted?)
  }

  lemma OpenOkStep(plan: Plan, r: Roll, step: RollStep)
    requires OpenOk(plan, r) && CanStep(plan, r, step)
    ensures OpenOk(plan, DoStep(plan, r, step))
  {
  }

  lemma OneMarkedStep(plan: Plan, r: Roll, step: RollStep)
    requires OneMarked(r) && CanStep(plan, r, step)
    ensures OneMarked(DoStep(plan, r, step))
  {
  }

  /** Two open completions that are the last two of the order are a risky pair. */
  lemma LastTwo(plan: Plan, r: Roll, a: TaskId, b: TaskId)
    requires PlanOk(plan) && OpenOk(plan, r) && a in r.open && b in r.open && a != b
    requires plan.tasks <= r.done + {a, b}
    ensures RiskyPair(plan, a, b)
    ensures |plan.tasks| < 3 ==> r.done == {}
  {
    forall e | e in plan.deps ensures e.dep != a && e.dep != b {
      assert e.dep !in r.done ==> e.task !in r.done;
      assert e.task in r.open ==> DepsDone(plan, r.done, e.task);
    }
    assert Independent(plan, a, b);
    if r.done != {} {
      var x :| x in r.done;
      assert {x, a, b} <= plan.tasks;
      assert |{x, a, b}| == 3;
      SubsetSize({x, a, b}, plan.tasks);
    }
  }

  lemma CommitCounts(plan: Plan, r: Roll, b: TaskId)
    requires PlanOk(plan) && RollInv(plan, r) && !Risky(plan) && CanStep(plan, r, Commit(b))
    ensures CountsHold(plan, DoStep(plan, r, Commit(b)))
  {
    var r' := DoStep(plan, r, Commit(b));
    forall a | a in r'.open && r'.open[a] == Counted(false) ensures !(plan.tasks <= r'.done + {a}) {
      if plan.tasks <= r.done + {a, b} {
        LastTwo(plan, r, a, b);
      }
      assert r'.done + {a} == r.done + {a, b};
    }
  }

  lemma RollInvStep(plan: Plan, r: Roll, step: RollStep)
    requires PlanOk(plan) && RollInv(plan, r) && !Risky(plan) && CanStep(plan, r, step)
    ensures RollInv(plan, DoStep(plan, r, step))
  {
    OpenOkStep(plan, r, step);
    OneMarkedStep(plan, r, step);
    SoundStep(plan, r, step);
    if step.Commit? {
      CommitCounts(plan, r, step.t);
    }
  }

  lemma {:induction false} RollInvRun(plan: Plan, r: Roll, steps: seq<RollStep>, r': Roll)
    requires PlanOk(plan) && RollInv(plan, r) && !Risky(plan) && RollRun(plan, r, steps, r')
    ensures RollInv(plan, r')
    decreases |steps|
  {
    if steps != [] {
      RollInvStep(plan, r, steps[0]);
      RollInvRun(plan, DoStep(plan, r, steps[0]), steps[1..], r');
    }
  }

  /** Whatever the interleaving, the order is COMPLETED as soon as its last task is. */
  ghost predicate AlwaysRollsUp(plan: Plan) {
    forall r :: RollLeads(plan, Fresh, r) && r.done == plan.tasks ==> r.status.OrderCompleted?
  }

  // ---------------------------------------------------------------- the interleaving that forgets the order

  lemma LeadsBy(plan: Plan, r: Roll, step: RollStep, mid: Roll, r': Roll)
    requires CanStep(plan, r, step) && mid == DoStep(plan, r, step) && RollLeads(plan, mid, r')
    ensures RollLeads(plan, r, r')
  {
    var steps :| RollRun(plan, mid, steps, r');
    var all := [step] + steps;
    assert all[0] == step && all[1..] == steps;
    assert RollRun(plan, r, all, r');
  }

  lemma LeadsHere(plan: Plan, r: Roll)
    ensures RollLeads(plan, r, r)
  {
    assert RollRun(plan, r, [], r);
  }

  /** The state between two completions when no transaction is open. */
  predicate Rest(plan: Plan, r: Roll) {
    && r.open == map[] && r.holder.None? && !r.status.OrderCompleted?
    && (r.done != {} ==> r.status.OrderPartCompleted?)
  }

  /** A completion on its own that leaves others to do. */
  lemma CompleteOne(plan: Plan, r: Roll, t: TaskId, r': Roll)
    requires Rest(plan, r) && t in plan.tasks && t !in r.done && DepsDone(plan, r.done, t)
    requires !(plan.tasks <= r.done + {t})
    requires RollLeads(plan, Roll(r.done + {t}, OrderPartCompleted, None, map[]), r')
    ensures RollLeads(plan, r, r')
  {
    var r1 := DoStep(plan, r, Update(t));
    var r2 := DoStep(plan, r1, Mark(t));
    var r3 := DoStep(plan, r2, CountLeft(t));
    var r4 := DoStep(plan, r3, Commit(t));
    assert r4.open == map[];
    LeadsBy(plan, r3, Commit(t), r4, r');
    LeadsBy(plan, r2, CountLeft(t), r3, r');
    LeadsBy(plan, r1, Mark(t), r2, r');
    LeadsBy(plan, r, Update(t), r1, r');
  }

  /** The two open at once: neither sees the other's task as completed. */
  lemma SideBySide(plan: Plan, r: Roll, a: TaskId, b: TaskId)
    requires RiskyPair(plan, a, b) && Rest(plan, r) && r.status.OrderPartCompleted?
    requires a !in r.done && b !in r.done && r.done + {a, b} == plan.tasks
    requires DepsDone(plan, r.done, a) && DepsDone(plan, r.done, b)
    ensures RollLeads(plan, r, Roll(plan.tasks, OrderPartCompleted, None, map[]))
  {
    var r1 := DoStep(plan, r, Update(a));
    assert Independent(plan, b, a) by {
      forall c | c in plan.tasks ensures Edge(c, a) !in plan.deps {
        assert Edge(c, a).dep == a;
      }
    }
    var r2 := DoStep(plan, r1, Update(b));
    var r3 := DoStep(plan, r2, Mark(a));
    var r4 := DoStep(plan, r3, Mark(b));
    Forgotten(plan, r, a, b, r4);
    LeadsBy(plan, r3, Mark(b), r4, Roll(plan.tasks, OrderPartCompleted, None, map[]));
    LeadsBy(plan, r2, Mark(a), r3, Roll(plan.tasks, OrderPartCompleted, None, map[]));
    LeadsBy(plan, r1, Update(b), r2, Roll(plan.tasks, OrderPartCompleted, None, map[]));
    LeadsBy(plan, r, Update(a), r1, Roll(plan.tasks, OrderPartCompleted, None, map[]));
  }

  /** The second half: both count, both commit. */
  lemma Forgotten(plan: Plan, r: Roll, a: TaskId, b: TaskId, r4: Roll)
    requires a != b && a in plan.tasks && b in plan.tasks
    requires a !in r.done && b !in r.done && r.done + {a, b} == plan.tasks
    requires r4 == Roll(r.done, OrderPartCompleted, None, map[a := Marked, b := Marked])
    ensures RollLeads(plan, r4, Roll(plan.tasks, OrderPartCompleted, None, map[]))
  {
    var end := Roll(plan.tasks, OrderPartCompleted, None, map[]);
    assert b in plan.tasks && b !in r.done + {a};
    assert a in plan.tasks && a !in r.done + {b};
    var r5 := DoStep(plan, r4, CountLeft(a));
    var r6 := DoStep(plan, r5, CountLeft(b));
    var r7 := DoStep(plan, r6, Commit(a));
    var r8 := DoStep(plan, r7, Commit(b));
    assert r8.done == plan.tasks && r8.open == map[];
    LeadsHere(plan, end);
    LeadsBy(plan, r7, Commit(b), r8, end);
    LeadsBy(plan, r6, Commit(a), r7, end);
    LeadsBy(plan, r5, CountLeft(b), r6, end);
    LeadsBy(plan, r4, CountLeft(a), r5, end);
  }

  function NatsAsInts(s: set<TaskId>): set<int> {
    set t | t in s :: t as int
  }

  /** In an acyclic plan some task outside `a`, `b` and `done` has its dependencies done. */
  lemma NextReady(plan: Plan, done: set<TaskId>, a: TaskId, b: TaskId) returns (t: TaskId)
    requires PlanOk(plan) && RiskyPair(plan, a, b) && plan.tasks - {a, b} - done != {}
    ensures t in plan.tasks - {a, b} - done && DepsDone(plan, done, t)
  {
    var nodes := NatsAsInts(plan.tasks - {a, b} - done);
    var some :| some in plan.tasks - {a, b} - done;
    assert some as int in nodes;
    SinkExists(PlanLinks(plan), nodes);
    var u :| u in nodes && !HasSuccessor(PlanLinks(plan), nodes, u);
    t := u;
    forall e | e in plan.deps && e.task == t ensures e.dep in done {
      assert Link(e.task, e.dep) in PlanLinks(plan);
      assert e.dep !in plan.tasks - {a, b} - done || e.dep as int in nodes;
    }
  }

  /** All others first, one at a time, then the pair side by side. */
  lemma {:induction false} ForgetFrom(plan: Plan, a: TaskId, b: TaskId, r: Roll)
    requires PlanOk(plan) && RiskyPair(plan, a, b) && Rest(plan, r)
    requires r.done <= plan.tasks - {a, b}
    requires r.done == {} ==> |plan.tasks| >= 3
    ensures RollLeads(plan, r, Roll(plan.tasks, OrderPartCompleted, None, map[]))
    decreases |plan.tasks - {a, b} - r.done|
  {
    var left := plan.tasks - {a, b} - r.done;
    if left == {} {
      PairLeft(plan, a, b, r.done);
      SideBySide(plan, r, a, b);
    } else {
      var t := NextReady(plan, r.done, a, b);
      var r' := Roll(r.done + {t}, OrderPartCompleted, None, map[]);
      assert plan.tasks - {a, b} - r'.done == left - {t};
      ForgetFrom(plan, a, b, r');
      assert a in plan.tasks && a !in r.done + {t};
      CompleteOne(plan, r, t, Roll(plan.tasks, OrderPartCompleted, None, map[]));
    }
  }

  lemma PairLeft(plan: Plan, a: TaskId, b: TaskId, done: set<TaskId>)
    requires PlanOk(plan) && RiskyPair(plan, a, b) && done <= plan.tasks - {a, b} && plan.tasks - {a, b} - done == {}
    ensures done + {a, b} == plan.tasks && DepsDone(plan, done, a) && DepsDone(plan, done, b)
    ensures |plan.tasks| >= 3 ==> done != {}
  {
    assert done + {a, b} == plan.tasks;
    assert done == {} ==> plan.tasks == {a, b};
    assert |{a, b}| == 2;
  }

  lemma SafePlansRollUp(plan: Plan)
    requires PlanOk(plan) && !Risky(plan)
    ensures AlwaysRollsUp(plan)
  {
    forall r | RollLeads(plan, Fresh, r) && r.done == plan.tasks ensures r.status.OrderCompleted? {
      var steps :| RollRun(plan, Fresh, steps, r);
      RollInvRun(plan, Fresh, steps, r);
    }
  }

  lemma RiskyPlansForget(plan: Plan)
    requires PlanOk(plan) && Risky(plan)
    ensures RollLeads(plan, Fresh, Roll(plan.tasks, OrderPartCompleted, None, map[]))
  {
    var a, b :| RiskyPair(plan, a, b);
    ForgetFrom(plan, a, b, Fresh);
  }

  /**
   * All tasks completed implies order COMPLETED in every interleaving exactly when the order has
   * fewer than three tasks, or any two tasks that nothing waits for share a counter, a machine
   * or a staff member.
   */
  lemma RollsUpIff(plan: Plan)
    requires PlanOk(plan)
    ensures AlwaysRollsUp(plan) <==> !Risky(plan)
  {
    if Risky(plan) {
      RiskyPlansForget(plan);
    } else {
      SafePlansRollUp(plan);
    }
  }

  /** A forgotten order stays forgotten: there is no further completion that could count. */
  lemma ForgottenForGood(plan: Plan, r: Roll, steps: seq<RollStep>, r': Roll)
    requires r.done == plan.tasks && r.open == map[] && r.status.OrderPartCompleted?
    requires RollRun(plan, r, steps, r')
    ensures r' == r
    decreases |steps|
  {
  }

  // ---------------------------------------------------------------- the tables behind a plan

  /** The rows a completion of the task updates besides its own and its order's. */
  function RowsHeld(task: Task): set<Row> {
    {CounterRow(task.counter)}
    + (if task.onMachine.Some? then {MachineRow(task.onMachine.value)} else {})
    + (if task.staff.Some? then {StaffRow(task.staff.value)} else {})
  }

  function TasksOf(db: Database, o: OrderId): set<TaskId> {
    set t | t in db.tasks && db.tasks[t].order == o
  }

  /** The plan of an order, read off its rows once its tasks have been assigned. */
  function PlanOf(db: Database, o: OrderId): Plan {
    var deps := set e | e in db.deps && e.task in TasksOf(db, o);
    Plan(TasksOf(db, o), deps, map t | t in TasksOf(db, o) :: RowsHeld(db.tasks[t]))
  }

  /** The committed state of the order, no completion being open. */
  function RollOf(db: Database, o: OrderId): Roll
    requires o in db.orders
  {
    var done := set t | t in TasksOf(db, o) && db.tasks[t].status.TaskCompleted?;
    Roll(done, db.orders[o], None, map[])
  }

  lemma SamePlan(db: Database, db': Database, t: TaskId, o: OrderId)
    requires Finished(db, db', t)
    ensures PlanOf(db', o) == PlanOf(db, o)
  {
    forall u | u in db.tasks
      ensures db'.tasks[u].order == db.tasks[u].order && RowsHeld(db'.tasks[u]) == RowsHeld(db.tasks[u])
    {
    }
    assert TasksOf(db', o) == TasksOf(db, o);
  }

  /** What a completion on its own does to the state of the order. */
  function AfterAlone(plan: Plan, r: Roll, t: TaskId): Roll {
    Roll(r.done + {t},
         if plan.tasks <= r.done + {t} then OrderCompleted else if Early(r.status) then OrderPartCompleted else r.status,
         None, map[])
  }

  lemma AloneRun(plan: Plan, r: Roll, t: TaskId)
    requires t in plan.tasks && t !in r.done && DepsDone(plan, r.done, t) && r.open == map[] && r.holder.None?
    ensures RollRun(plan, r, [Update(t), Mark(t), CountLeft(t), Commit(t)], AfterAlone(plan, r, t))
  {
    var r1 := DoStep(plan, r, Update(t));
    var r2 := DoStep(plan, r1, Mark(t));
    var r3 := DoStep(plan, r2, CountLeft(t));
    var r4 := DoStep(plan, r3, Commit(t));
    assert r4.open == map[] && r4 == AfterAlone(plan, r, t);
    var steps := [Update(t), Mark(t), CountLeft(t), Commit(t)];
    assert steps[1..] == [Mark(t), CountLeft(t), Commit(t)];
    assert steps[1..][1..] == [CountLeft(t), Commit(t)];
    assert steps[1..][1..][1..] == [Commit(t)];
    assert steps[1..][1..][1..][1..] == [];
    assert RollRun(plan, r4, [], r4);
    assert RollRun(plan, r3, [Commit(t)], r4);
    assert RollRun(plan, r2, [CountLeft(t), Commit(t)], r4);
    assert RollRun(plan, r1, [Mark(t), CountLeft(t), Commit(t)], r4);
  }

  lemma StartedOrder(k: State, t: TaskId)
    requires Reachable(k) && HasStatus(k.db, t, TaskStarted)
    ensures k.db.tasks[t].order in k.db.orders && !k.db.orders[k.db.tasks[t].order].OrderCompleted?
  {
    OrderOfTask(k, t);
    assert !AllDone(k.db, k.db.tasks[t].order);
  }

  lemma StartedDeps(k: State, t: TaskId)
    requires Reachable(k) && HasStatus(k.db, t, TaskStarted)
    ensures forall e :: e in k.db.deps && e.task == t ==>
      HasStatus(k.db, e.dep, TaskCompleted) && k.db.tasks[e.dep].order == k.db.tasks[t].order
  {
    ReachableInv(k);
  }

  /** Run alone, the four steps do to the order what the completion transaction does. */
  lemma AloneIsCompleteTx(k: State, t: TaskId, children: seq<TaskId>, now: Time)
    requires Reachable(k) && HasStatus(k.db, t, TaskStarted)
    ensures HasRunMetadata(k.db.tasks[t]) && k.db.tasks[t].order in k.db.orders
    ensures var o, db' := k.db.tasks[t].order, CompleteTx(k.db, t, children, now);
      && o in db'.orders && PlanOf(db', o) == PlanOf(k.db, o)
      && RollRun(PlanOf(k.db, o), RollOf(k.db, o), [Update(t), Mark(t), CountLeft(t), Commit(t)], RollOf(db', o))
  {
    StartedOrder(k, t);
    StartedDeps(k, t);
    StartedFinishes(k, t, children, now);
    var o, db' := k.db.tasks[t].order, CompleteTx(k.db, t, children, now);
    SamePlan(k.db, db', t, o);
    CompleteOrderTable(k.db, t, children, now);
    AloneRun(PlanOf(k.db, o), RollOf(k.db, o), t);
    FinishedRoll(k.db, db', t);
  }

  lemma FinishedRoll(db: Database, db': Database, t: TaskId)
    requires Finished(db, db', t) && db.tasks[t].order in db.orders && !db.orders[db.tasks[t].order].OrderCompleted?
    requires var o := db.tasks[t].order;
      db'.orders == db.orders[o := if AllDone(db', o) then OrderCompleted
                                   else if db.orders[o].OrderCompleted? then OrderCompleted else OrderPartCompleted]
    ensures RollOf(db', db.tasks[t].order) == AfterAlone(PlanOf(db, db.tasks[t].order), RollOf(db, db.tasks[t].order), t)
  {
    var o := db.tasks[t].order;
    forall u | u in db.tasks
      ensures db'.tasks[u].order == db.tasks[u].order
      ensures u != t ==> db'.tasks[u].status == db.tasks[u].status
    {
    }
    var done := RollOf(db, o).done;
    assert RollOf(db', o).done == done + {t};
    assert TasksOf(db', o) == TasksOf(db, o);
    AllDoneIsSubset(db', o);
  }

  lemma AllDoneIsSubset(db: Database, o: OrderId)
    requires o in db.orders
    ensures AllDone(db, o) <==> TasksOf(db, o) <= RollOf(db, o).done
  {
    if TasksOf(db, o) <= RollOf(db, o).done {
      forall t | t in db.tasks && db.tasks[t].order == o ensures db.tasks[t].status.TaskCompleted? {
        assert t in TasksOf(db, o);
      }
    }
  }

  /** A reachable order with a risky pair still to do can be forgotten, from where it stands. */
  lemma RiskyOrderForgets(k: State, o: OrderId, a: TaskId, b: TaskId)
    requires Reachable(k) && o in k.db.orders && PlanOk(PlanOf(k.db, o)) && RiskyPair(PlanOf(k.db, o), a, b)
    requires a !in RollOf(k.db, o).done && b !in RollOf(k.db, o).done
    requires SomeDone(k.db, o) || |TasksOf(k.db, o)| >= 3
    ensures RollLeads(PlanOf(k.db, o), RollOf(k.db, o), Roll(TasksOf(k.db, o), OrderPartCompleted, None, map[]))
  {
    OrderStatusAgrees(k, o);
    assert a in TasksOf(k.db, o) && !AllDone(k.db, o);
    if SomeDone(k.db, o) {
      var t :| t in k.db.tasks && k.db.tasks[t].order == o && k.db.tasks[t].status.TaskCompleted?;
      assert t in RollOf(k.db, o).done;
    } else {
      assert RollOf(k.db, o).done == {};
    }
    ForgetFrom(PlanOf(k.db, o), a, b, RollOf(k.db, o));
  }
}
