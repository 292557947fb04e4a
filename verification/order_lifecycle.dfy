/** The stored order status against what the order's tasks say. */
module OrderLifecycle {
  import opened Wrappers
  import opened Model
  import opened Transactions
  import opened ResourceAccounting
  import opened KitchenMachine
  import opened DependencyGate
  import opened ReadyFlow

  ghost predicate SomeDone(db: Database, o: OrderId) {
    exists t :: t in db.tasks && db.tasks[t].order == o && db.tasks[t].status.TaskCompleted?
  }

  ghost predicate EverAssigned(db: Database, o: OrderId) {
    exists t :: t in db.tasks && db.tasks[t].order == o && db.tasks[t].version > 0
  }

  /** The status as the README defines it, read off the tasks. */
  ghost function StatusOf(db: Database, o: OrderId): OrderStatus {
    if AllDone(db, o) then OrderCompleted
    else if SomeDone(db, o) then OrderPartCompleted
    else if EverAssigned(db, o) then OrderInProgress
    else OrderConfirmed
  }

  ghost predicate OrdersOk(db: Database) {
    forall o :: o in db.orders ==> db.orders[o] == StatusOf(db, o)
  }

  function Rank(st: OrderStatus): nat {
    match st case OrderConfirmed => 0 case OrderInProgress => 1 case OrderPartCompleted => 2 case OrderCompleted => 3
  }

  // ---------------------------------------------------------------- what a status can read

  /** The tasks of `o` agree on completedness and on having been assigned. */
  ghost predicate SameProgress(db: Database, db': Database, o: OrderId) {
    && (forall t :: t in db.tasks && db.tasks[t].order == o ==>
          && t in db'.tasks && db'.tasks[t].order == o
          && (db'.tasks[t].status.TaskCompleted? <==> db.tasks[t].status.TaskCompleted?)
          && (db'.tasks[t].version > 0 <==> db.tasks[t].version > 0))
    && (forall t :: t in db'.tasks && db'.tasks[t].order == o ==> t in db.tasks && db.tasks[t].order == o)
  }

  lemma SameProgressStatus(db: Database, db': Database, o: OrderId)
    requires SameProgress(db, db', o)
    ensures StatusOf(db', o) == StatusOf(db, o)
  {
    assert AllDone(db', o) == AllDone(db, o);
    assert SomeDone(db', o) == SomeDone(db, o) by {
      if SomeDone(db, o) {
        var t :| t in db.tasks && db.tasks[t].order == o && db.tasks[t].status.TaskCompleted?;
        assert db'.tasks[t].status.TaskCompleted?;
      }
    }
    assert EverAssigned(db', o) == EverAssigned(db, o) by {
      if EverAssigned(db, o) {
        var t :| t in db.tasks && db.tasks[t].order == o && db.tasks[t].version > 0;
        assert db'.tasks[t].version > 0;
      }
    }
  }

  /** `t` was assigned and `db'` marks its order accordingly. */
  lemma AssignedStatus(db: Database, db': Database, t: TaskId)
    requires OneRow(db, db', t) && !db.tasks[t].status.TaskCompleted? && !db'.tasks[t].status.TaskCompleted?
    requires db'.tasks[t].version > 0
    ensures StatusOf(db', db.tasks[t].order) ==
              if StatusOf(db, db.tasks[t].order).OrderConfirmed? then OrderInProgress else StatusOf(db, db.tasks[t].order)
  {
    var o := db.tasks[t].order;
    assert !AllDone(db, o) && !AllDone(db', o) && EverAssigned(db', o);
    if SomeDone(db, o) {
      var u :| u in db.tasks && db.tasks[u].order == o && db.tasks[u].status.TaskCompleted?;
      assert db'.tasks[u].status.TaskCompleted?;
    } else {
      assert !SomeDone(db', o);
    }
  }

  lemma AssignTables(db: Database, t: TaskId, s: StaffId, now: Time)
    requires t in db.tasks && db.tasks[t].machine.Some?
    ensures AssignTo(db, t, s, now).orders == MarkOrder(db, db.tasks[t].order, {OrderConfirmed}, OrderInProgress).orders
  {
  }

  lemma AssignOrders(db: Database, t: TaskId, s: StaffId, now: Time)
    requires Rows(db) && OrdersOk(db) && HasStatus(db, t, TaskUnassigned) && s in db.staff
    ensures OrdersOk(AssignTo(db, t, s, now))
  {
    var db' := AssignTo(db, t, s, now);
    AssignOneRow(db, t, s, now);
    AssignTables(db, t, s, now);
    forall o | o in db'.orders ensures db'.orders[o] == StatusOf(db', o) {
      if o == db.tasks[t].order {
        AssignedStatus(db, db', t);
      } else {
        SameProgressStatus(db, db', o);
      }
    }
  }

  lemma SameProgressOrders(db: Database, db': Database)
    requires OrdersOk(db) && db'.orders == db.orders
    requires forall o :: o in db.orders ==> SameProgress(db, db', o)
    ensures OrdersOk(db')
  {
    forall o | o in db'.orders ensures db'.orders[o] == StatusOf(db', o) {
      SameProgressStatus(db, db', o);
    }
  }

  lemma RequeueOrders(db: Database, t: TaskId)
    requires Rows(db) && OrdersOk(db) && HasStatus(db, t, TaskAssigned)
    ensures OrdersOk(RequeueOne(db, t))
  {
    SameProgressOrders(db, RequeueOne(db, t));
  }

  lemma StartOrders(db: Database, t: TaskId, now: Time)
    requires OrdersOk(db) && HasStatus(db, t, TaskAssigned)
    ensures OrdersOk(StartTx(db, t, now))
  {
    SameProgressOrders(db, StartTx(db, t, now));
  }

  lemma AddedOrders(db: Database, db': Database, o: OrderId, t: TaskId)
    requires Rows(db) && OrdersOk(db) && OrderAdded(db, db', o) && db'.orders == db.orders[o := OrderConfirmed]
    requires t in db'.tasks && t !in db.tasks
    ensures OrdersOk(db')
  {
    forall p | p in db'.orders ensures db'.orders[p] == StatusOf(db', p) {
      if p == o {
        assert !AllDone(db', o) && !SomeDone(db', o) && !EverAssigned(db', o);
      } else {
        SameProgressStatus(db, db', p);
      }
    }
  }

  lemma CreateOrders(db: Database, o: OrderId, ids: seq<TaskId>, rows: seq<NewTask>)
    requires Rows(db) && OrdersOk(db)
    requires o !in db.orders && |ids| == |rows| > 0 && NoDuplicates(ids) && RowsOk(db, rows)
    requires forall t :: t in ids ==> t !in db.tasks
    ensures OrdersOk(CreateTx(db, o, ids, rows))
  {
    CreateAddsOrder(db, o, ids, rows);
    assert ids[0] in ids;
    AddedOrders(db, CreateTx(db, o, ids, rows), o, ids[0]);
  }

  // ---------------------------------------------------------------- completion

  /** The two order updates of a completion, on any table that already has the finished row. */
  lemma RollUp(db: Database, o: OrderId)
    requires o in db.orders
    ensures var d := CompleteOrder(MarkOrder(db, o, {OrderConfirmed, OrderInProgress}, OrderPartCompleted), o);
      d.orders == db.orders[o := if AllDone(db, o) then OrderCompleted
                                 else if db.orders[o].OrderCompleted? then OrderCompleted else OrderPartCompleted]
  {
    var m := MarkOrder(db, o, {OrderConfirmed, OrderInProgress}, OrderPartCompleted);
    assert AllDone(m, o) == AllDone(db, o);
    assert db.orders[o := db.orders[o]] == db.orders;
    assert m.orders == db.orders[o := if db.orders[o].OrderCompleted? then OrderCompleted else OrderPartCompleted];
    assert m.orders[o := m.orders[o]] == m.orders;
  }

  lemma FinishedStatus(db: Database, db': Database, t: TaskId)
    requires Finished(db, db', t) && db.tasks[t].status.TaskStarted?
    ensures !AllDone(db, db.tasks[t].order) && SomeDone(db', db.tasks[t].order)
  {
    assert db'.tasks[t].status.TaskCompleted? && db'.tasks[t].order == db.tasks[t].order;
  }

  lemma CompleteOrderTable(db: Database, t: TaskId, children: seq<TaskId>, now: Time)
    requires t in db.tasks && HasRunMetadata(db.tasks[t]) && db.tasks[t].order in db.orders
    ensures var db' := CompleteTx(db, t, children, now);
      db'.orders == db.orders[db.tasks[t].order :=
        if AllDone(db', db.tasks[t].order) then OrderCompleted
        else if db.orders[db.tasks[t].order].OrderCompleted? then OrderCompleted else OrderPartCompleted]
  {
    var d1 := DecrementDependents(ReleaseStarted(db, t, now), t);
    var d2 := d1.(log := d1.log + ReadyEvents(children) + [Event(EventTaskCompleted, t)]);
    assert d2.orders == db.orders;
    RollUp(d2, db.tasks[t].order);
    assert AllDone(d2, db.tasks[t].order) == AllDone(CompleteTx(db, t, children, now), db.tasks[t].order);
  }

  lemma FinishedOrders(db: Database, db': Database, t: TaskId)
    requires Rows(db) && OrdersOk(db) && Finished(db, db', t) && db.tasks[t].status.TaskStarted?
    requires db'.orders == db.orders[db.tasks[t].order :=
        if AllDone(db', db.tasks[t].order) then OrderCompleted
        else if db.orders[db.tasks[t].order].OrderCompleted? then OrderCompleted else OrderPartCompleted]
    ensures OrdersOk(db')
  {
    var p := db.tasks[t].order;
    OwnOrder(db, db', t);
    forall o | o in db'.orders ensures db'.orders[o] == StatusOf(db', o) {
      if o != p {
        OtherOrder(db, db', t, o);
        SameProgressStatus(db, db', o);
      }
    }
  }

  /** The order of the finished task. */
  lemma OwnOrder(db: Database, db': Database, t: TaskId)
    requires Finished(db, db', t) && db.tasks[t].status.TaskStarted?
    requires db.tasks[t].order in db.orders && db.orders[db.tasks[t].order] == StatusOf(db, db.tasks[t].order)
    ensures !db.orders[db.tasks[t].order].OrderCompleted?
    ensures StatusOf(db', db.tasks[t].order) == if AllDone(db', db.tasks[t].order) then OrderCompleted else OrderPartCompleted
  {
    FinishedStatus(db, db', t);
  }

  /** Of another order, a completion changes pending counts only. */
  lemma OtherOrder(db: Database, db': Database, t: TaskId, o: OrderId)
    requires Finished(db, db', t) && o != db.tasks[t].order
    ensures SameProgress(db, db', o)
  {
    forall u | u in db.tasks
      ensures db'.tasks[u].order == db.tasks[u].order
      ensures u != t ==> db'.tasks[u].status == db.tasks[u].status && db'.tasks[u].version == db.tasks[u].version
    {
    }
  }

  lemma CommitOrders(k: State, t: TaskId, now: Time)
    requires Gate(k) && CompletionsOk(k) && OrdersOk(k.db) && Enabled(k, CommitComplete(t, now))
    ensures OrdersOk(Apply(k, CommitComplete(t, now)).db)
  {
    var children := k.completions[t].children;
    assert CompletionOk(k, t, k.completions[t]);
    CompleteFinishes(k, t, children, now);
    CompleteOrderTable(k.db, t, children, now);
    FinishedOrders(k.db, Apply(k, CommitComplete(t, now)).db, t);
  }

  lemma RecalculateOrders(db: Database, o: OrderId)
    requires OrdersOk(db)
    ensures OrdersOk(RecalculateTx(db, o))
  {
    SameProgressOrders(db, RecalculateTx(db, o));
  }

  lemma OrdersStep(k: State, step: Step)
    requires Gate(k) && Flow(k) && OrdersOk(k.db) && Enabled(k, step)
    ensures OrdersOk(Apply(k, step).db)
  {
    match step
    case CreateOrder(o, ids, rows, _) => CreateOrders(k.db, o, ids, rows);
    case Recalculate(o) => RecalculateOrders(k.db, o);
    case Assign(t, s, now) => AssignOrders(k.db, t, s, now);
    case RequeueExpired(t, _) => RequeueOrders(k.db, t);
    case Start(t, now) => StartOrders(k.db, t, now);
    case CommitComplete(t, now) => CommitOrders(k, t, now);
    case InsertEdges(o) => SameRowsOrders(k.db, Apply(k, step).db);
    case PublishEvent(o) => SameRowsOrders(k.db, Apply(k, step).db);
    case _ => QuietKeepsTables(k, step);
  }

  lemma SameRowsOrders(db: Database, db': Database)
    requires OrdersOk(db) && db'.orders == db.orders && db'.tasks == db.tasks
    ensures OrdersOk(db')
  {
    SameProgressOrders(db, db');
  }

  // ---------------------------------------------------------------- never backwards

  lemma CompleteForward(db: Database, t: TaskId, children: seq<TaskId>, now: Time, o: OrderId)
    requires t in db.tasks && HasRunMetadata(db.tasks[t]) && o in db.orders
    ensures o in CompleteTx(db, t, children, now).orders
    ensures Rank(CompleteTx(db, t, children, now).orders[o]) >= Rank(db.orders[o])
  {
    var d1 := DecrementDependents(ReleaseStarted(db, t, now), t);
    assert d1.orders == db.orders;
  }

  lemma RequeueForward(db: Database, t: TaskId)
    requires t in db.tasks
    ensures RequeueOne(db, t).orders == db.orders
  {
  }

  /** No step moves a stored order status down, whatever the tasks say. */
  lemma StatusForward(k: State, step: Step, o: OrderId)
    requires Enabled(k, step) && o in k.db.orders
    ensures o in Apply(k, step).db.orders
    ensures Rank(Apply(k, step).db.orders[o]) >= Rank(k.db.orders[o])
  {
    match step
    case Assign(t, s, now) => AssignTables(k.db, t, s, now);
    case RequeueExpired(t, _) => RequeueForward(k.db, t);
    case CommitComplete(t, now) => CompleteForward(k.db, t, k.completions[t].children, now, o);
    case _ =>
  }
}
