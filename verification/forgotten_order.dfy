/**
 * An order that the roll-up can forget, built step by step: three tasks at three counters, each with
 * a machine and a person of its own, are created, published, assigned and started. Completed in
 * the wrong interleaving they are all done, and the order is PART_COMPLETED for good.
 */
module ForgottenOrder {
  import opened Wrappers
  import opened Model
  import opened Transactions
  import opened ResourceAccounting
  import opened Graphs
  import opened KitchenMachine
  import opened KitchenTheorems
  import opened ServiceEffects
  import opened ServiceRuns
  import opened Progress
  import opened OrderCompletion
  import opened OrderRollup

  const NOON: Time := 50

  function Trio(): Database {
    Database(
      map[], {}, map[1 := Counter(1, 0), 2 := Counter(1, 0), 3 := Counter(1, 0)],
      map[1 := Machine(1, 1, 0, true), 2 := Machine(2, 1, 0, true), 3 := Machine(3, 1, 0, true)],
      map[1 := Person(), 2 := Person(), 3 := Person()], {(1, 1), (2, 2), (3, 3)}, map[], [])
  }

  function Person(): Staff {
    Staff(0, 100, 1, 1.0, 0, 0, false)
  }

  function TrioOpening(): State {
    State(Trio(), map[], multiset{}, multiset{}, map[], map[])
  }

  function TrioIds(): seq<TaskId> {
    [1, 2, 3]
  }

  function TrioRows(): seq<NewTask> {
    [NewTask(1, Some(1), 60, 0.0, 0), NewTask(2, Some(2), 60, 0.0, 0), NewTask(3, Some(3), 60, 0.0, 0)]
  }

  ghost predicate TrioHouse(db: Database) {
    SameCounters(Trio(), db) && SameMachines(Trio(), db) && SameRoster(Trio(), db) && db.skills == Trio().skills
  }

  /** Task t is at counter t; the first n tasks are started, the others popped and still waiting. */
  predicate TrioTask(k: State, t: TaskId, n: nat)
    requires t in k.db.tasks
  {
    var task := k.db.tasks[t];
    && task.order == 1 && task.counter == t && task.machine == Some(t)
    && if t <= n then task.status.TaskStarted? && task.staff == Some(t) && task.onMachine == Some(t)
       else task.status.TaskUnassigned? && t in k.popped
  }

  ghost predicate TrioScene(k: State, n: nat) {
    && Reachable(k) && FullyPublished(k, 1) && TrioHouse(k.db)
    && k.db.tasks.Keys == {1, 2, 3} && k.db.deps == {}
    && forall t :: t in k.db.tasks ==> TrioTask(k, t, n)
  }

  lemma TrioTables()
    ensures CreateTx(Trio(), 1, TrioIds(), TrioRows()).tasks ==
      map[1 := NewRow(1, TrioRows()[0]), 2 := NewRow(1, TrioRows()[1]), 3 := NewRow(1, TrioRows()[2])]
  {
    InsertRowsEffect(map[], 1, TrioIds(), TrioRows());
    var tasks := InsertRows(map[], 1, TrioIds(), TrioRows());
    assert TrioIds()[0] == 1 && TrioIds()[1] == 2 && TrioIds()[2] == 3;
    assert tasks.Keys == {1, 2, 3};
  }

  lemma TrioAccepted()
    ensures Reachable(TrioOpening()) && Enabled(TrioOpening(), CreateOrder(1, TrioIds(), TrioRows(), []))
  {
    assert Init(TrioOpening()) && Run(TrioOpening(), [], TrioOpening());
    assert RowsOk(Trio(), TrioRows());
  }

  /** Created and published, then popped. */
  lemma TrioConfirmed() returns (k: State)
    ensures Reachable(k) && FullyPublished(k, 1) && forall t :: t in {1, 2, 3} ==> t in k.queue
    ensures k.db == CreateTx(Trio(), 1, TrioIds(), TrioRows()).(log := k.db.log)
  {
    TrioAccepted();
    TrioTables();
    var db := Confirmed(Trio(), 1, TrioIds(), TrioRows(), []);
    var ready := SomeListing(OrderReady(db, 1));
    CreateAndPublishLeads(TrioOpening(), 1, TrioIds(), TrioRows(), [], ready, 0);
    k := AfterConfirm(TrioOpening(), 1, TrioIds(), TrioRows(), [], ready, 0);
    LeadsReachable(TrioOpening(), k);
    QueueScores(map[], db, ready, 0.0, 0);
    TrioReady();
  }

  lemma TrioReady()
    ensures OrderReady(CreateTx(Trio(), 1, TrioIds(), TrioRows()), 1) == {1, 2, 3}
  {
    TrioTables();
  }

  lemma TrioPopped() returns (k: State)
    ensures TrioScene(k, 0)
  {
    var k0 := TrioConfirmed();
    k := PopAll(k0);
    LeadsReachable(k0, k);
    TrioCreated(k);
  }

  lemma TrioCreated(k: State)
    requires k.db == CreateTx(Trio(), 1, TrioIds(), TrioRows()).(log := k.db.log)
    ensures TrioHouse(k.db) && k.db.tasks.Keys == {1, 2, 3} && k.db.deps == {}
    ensures (forall t :: t in k.db.tasks ==> t in k.popped) ==> forall t :: t in k.db.tasks ==> TrioTask(k, t, 0)
  {
    TrioTables();
  }

  lemma TrioWaiting(k: State, n: nat, t: TaskId)
    requires TrioScene(k, n) && t in k.db.tasks && n < t
    ensures Waiting(k.db, t)
  {
    assert TrioTask(k, t, n);
    UnblockedWaits(k, t);
  }

  /** What a waiting task needs is not in use: each started task is at its own places. */
  lemma TrioFree(k: State, n: nat, t: TaskId)
    requires TrioScene(k, n) && t in k.db.tasks && n < t
    ensures k.db.counters[t].inUse == 0 && k.db.machines[t].inUse == 0 && k.db.staff[t].activeTasks == 0
  {
    assert Accounts(k.db) by { ReachableInv(k); }
    forall u | u in k.db.tasks && k.db.tasks[u].Busy()
      ensures k.db.tasks[u].counter != t && k.db.tasks[u].onMachine != Some(t) && k.db.tasks[u].staff != Some(t)
    {
      assert TrioTask(k, u, n);
    }
    assert OnCounter(k.db.tasks, t) == {} && OnMachine(k.db.tasks, t) == {} && OfStaff(k.db.tasks, t) == {};
  }

  lemma TrioNext(k: State, n: nat) returns (k': State)
    requires TrioScene(k, n) && n < 3
    ensures TrioScene(k', n + 1)
  {
    var t: TaskId := n + 1;
    assert t in k.db.tasks && TrioTask(k, t, n);
    TrioWaiting(k, n, t);
    TrioFree(k, n, t);
    TrioCanAssign(k.db, t);
    k' := AssignAndStart(k, t, t, NOON);
    LeadsReachable(k, k');
    TrioMoved(k, k', n);
  }

  lemma TrioCanAssign(db: Database, t: TaskId)
    requires TrioHouse(db) && t in {1, 2, 3} && Waiting(db, t) && db.tasks[t].counter == t && db.tasks[t].machine == Some(t)
    requires db.counters[t].inUse == 0 && db.machines[t].inUse == 0 && db.staff[t].activeTasks == 0
    ensures CanAssign(db, t, t, NOON)
  {
    assert t in Trio().counters && t in Trio().machines && t in Trio().staff;
  }

  lemma TrioMoved(k: State, k': State, n: nat)
    requires TrioScene(k, n) && Reachable(k') && k' == k.(db := k'.db, popped := k.popped - multiset{n + 1}) && n < 3
    requires SameSetup(k.db, k'.db) && k'.db.deps == k.db.deps && HasStatus(k'.db, n + 1, TaskStarted)
    requires k'.db.tasks == k.db.tasks[n + 1 := k'.db.tasks[n + 1]]
    requires k'.db.tasks[n + 1].staff == Some(n + 1) && k'.db.tasks[n + 1].onMachine == Some(n + 1)
    ensures TrioScene(k', n + 1)
  {
    TrioHouseKept(k.db, k'.db);
    forall u | u in k'.db.tasks ensures TrioTask(k', u, n + 1) {
      assert TrioTask(k, u, n);
    }
  }

  lemma TrioHouseKept(db: Database, db': Database)
    requires TrioHouse(db) && SameSetup(db, db')
    ensures TrioHouse(db')
  {
  }

  /** All three are started. */
  lemma TrioStarted() returns (k: State)
    ensures TrioScene(k, 3)
  {
    k := TrioPopped();
    k := TrioNext(k, 0);
    k := TrioNext(k, 1);
    k := TrioNext(k, 2);
  }

  lemma TrioPlan(k: State)
    requires TrioScene(k, 3)
    ensures var plan := PlanOf(k.db, 1);
      && plan.tasks == {1, 2, 3} && plan.deps == {}
      && RowsOf(plan, 1) == {CounterRow(1), MachineRow(1), StaffRow(1)}
      && RowsOf(plan, 2) == {CounterRow(2), MachineRow(2), StaffRow(2)}
  {
    assert TrioTask(k, 1, 3) && TrioTask(k, 2, 3) && TrioTask(k, 3, 3);
    assert TasksOf(k.db, 1) == {1, 2, 3};
  }

  lemma TrioRisky(k: State)
    requires TrioScene(k, 3)
    ensures PlanOk(PlanOf(k.db, 1)) && RiskyPair(PlanOf(k.db, 1), 1, 2) && Risky(PlanOf(k.db, 1))
  {
    TrioPlan(k);
    ThreeApart(PlanOf(k.db, 1));
  }

  lemma ThreeApart(plan: Plan)
    requires plan.tasks == {1, 2, 3} && plan.deps == {} && RowsOf(plan, 1) !! RowsOf(plan, 2)
    ensures PlanOk(plan) && RiskyPair(plan, 1, 2) && Risky(plan)
  {
    assert PlanLinks(plan) == {};
    DescendingAcyclic({});
    assert RiskyPair(plan, 1, 2);
  }

  /** A reachable kitchen whose order ends PART_COMPLETED, with all its tasks done, in some interleaving. */
  lemma OrderForgotten() returns (k: State)
    ensures Reachable(k) && 1 in k.db.orders && PlanOk(PlanOf(k.db, 1)) && Risky(PlanOf(k.db, 1))
    ensures RollLeads(PlanOf(k.db, 1), RollOf(k.db, 1), Roll(TasksOf(k.db, 1), OrderPartCompleted, None, map[]))
  {
    k := TrioStarted();
    TrioRisky(k);
    assert TrioTask(k, 1, 3) && TrioTask(k, 2, 3);
    OrderOfTask(k, 1);
    TrioPlan(k);
    RiskyOrderForgets(k, 1, 1, 2);
  }
}
