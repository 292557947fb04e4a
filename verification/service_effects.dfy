/**
 * What the calls of the application service do to tables and queue: as functions that the service
 * is proved against, and row by row in the columns of the tables.
 */
module ServiceEffects {
  import opened Wrappers
  import opened Model
  import opened Collections
  import opened StaffMetrics
  import opened Transactions
  import opened KitchenMachine
  import opened Repository
  import opened OrderExpansion
  import opened ResourceAccounting

  const AGING_FACTOR: real := 0.14
  const ASSIGN_TTL: Time := 45 * SECOND
  const REQUEUE_BOOST: real := 10.0

  /** Older tasks and higher base priorities get lower scores; the queue pops the lowest. */
  function QueueScore(basePriority: real, createdAt: Time, now: Time): real {
    -(basePriority + (now - createdAt) as real / SECOND as real * AGING_FACTOR)
  }

  /**
   * Which of two scores is lower, whenever each was taken: a point of priority weighs as much as
   * 1 / 0.14 seconds of waiting. Scores taken at one moment compare as they would at any other.
   */
  lemma ScoreOrder(p: real, created: Time, now: Time, q: real, created': Time, later: Time)
    ensures QueueScore(p, created, now) < QueueScore(q, created', later) <==>
            p - q > 0.14 * (((later - created') - (now - created)) as real / 1_000_000_000.0)
    ensures QueueScore(p, created, now) < QueueScore(q, created', now) <==>
            QueueScore(p, created, later) < QueueScore(q, created', later)
  {
    WaitDifference(now - created, later - created');
    WaitDifference(now - created, now - created');
    WaitDifference(later - created, later - created');
  }

  lemma WaitDifference(a: int, b: int)
    ensures (b - a) as real / 1_000_000_000.0 == b as real / SECOND as real - a as real / SECOND as real
  {
  }

  // ---------------------------------------------------------------- what a call does to tables and queue

  datatype Desk = Desk(db: Database, queue: map<TaskId, real>)

  function ScoreOf(db: Database, t: TaskId, boost: real, now: Time): real {
    if t in db.tasks then QueueScore(db.tasks[t].basePriority + boost, db.tasks[t].createdAt, now) else 0.0
  }

  /** The queue pops the least: waiting lowers the score by 0.14 a second, priority and boost point by point. */
  lemma ScoreMeans(db: Database, t: TaskId, boost: real, now: Time)
    requires t in db.tasks
    ensures ScoreOf(db, t, boost, now) ==
      -(db.tasks[t].basePriority + boost + 0.14 * ((now - db.tasks[t].createdAt) as real / 1_000_000_000.0))
  {
  }

  /** The queue after the ids were enqueued one by one. */
  function EnqueueAll(q: map<TaskId, real>, db: Database, ids: seq<TaskId>, boost: real, now: Time): map<TaskId, real> {
    if ids == [] then q
    else
      var t := ids[|ids| - 1];
      EnqueueAll(q, db, ids[..|ids| - 1], boost, now)[t := ScoreOf(db, t, boost, now)]
  }

  /** Each enqueued id has its score, every other keeps its own. */
  lemma {:induction false} QueueScores(q: map<TaskId, real>, db: Database, ids: seq<TaskId>, boost: real, now: Time)
    ensures var q' := EnqueueAll(q, db, ids, boost, now);
      && (forall t :: t in q' <==> t in q || t in ids)
      && (forall t :: t in ids ==> q'[t] == ScoreOf(db, t, boost, now))
      && (forall t :: t in q && t !in ids ==> q'[t] == q[t])
  {
    if ids != [] {
      var n := |ids| - 1;
      assert ids == ids[..n] + [ids[n]];
      QueueScores(q, db, ids[..n], boost, now);
    }
  }

  /** `s` can take the task and no eligible staff member scores lower. */
  ghost predicate BestPick(db: Database, t: TaskId, s: StaffId, now: Time) {
    && CanAssign(db, t, s, now)
    && forall u :: CanAssign(db, t, u, now) ==> StaffScore(db.staff[s], now) <= StaffScore(db.staff[u], now)
  }

  /** The best pick in the numbers of the rows: 1.2 a task, 0.9 the used share of the shift, 1.1 a point of efficiency. */
  lemma BestPickCompares(db: Database, t: TaskId, s: StaffId, now: Time)
    requires BestPick(db, t, s, now)
    ensures forall u | CanAssign(db, t, u, now) ::
      var a, b := db.staff[s], db.staff[u];
      var sa := if now - a.shiftStart < 1_000_000_000 then 1 else (now - a.shiftStart) / 1_000_000_000;
      var sb := if now - b.shiftStart < 1_000_000_000 then 1 else (now - b.shiftStart) / 1_000_000_000;
      1.2 * (a.activeTasks - b.activeTasks) as real
      + 0.9 * (a.activeSeconds as real / sa as real - b.activeSeconds as real / sb as real)
      <= 1.1 * (a.efficiency - b.efficiency)
  {
    forall u | CanAssign(db, t, u, now) ensures !(StaffScore(db.staff[u], now) < StaffScore(db.staff[s], now)) {
      ScoreCompares(db.staff[u], db.staff[s], now);
    }
  }

  /** The row, the usage numbers, the order and the log after an assignment. */
  lemma AssignedRows(db: Database, t: TaskId, s: StaffId, now: Time)
    requires CanAssign(db, t, s, now)
    ensures var m, c, db' := db.tasks[t].machine.value, db.tasks[t].counter, AssignTo(db, t, s, now);
      && db'.tasks == db.tasks[t := db.tasks[t].(staff := Some(s), onMachine := Some(m), status := TaskAssigned,
                                                 assignedAt := Some(now), version := db.tasks[t].version + 1)]
      && db'.log == db.log + [Event(EventTaskAssigned(s, m), t)]
      && db'.deps == db.deps && db'.skills == db.skills
      && (db.counters[c].inUse >= 0 ==>
            db'.counters == db.counters[c := db.counters[c].(inUse := db.counters[c].inUse + 1)])
      && (db.machines[m].inUse >= 0 ==>
            db'.machines == db.machines[m := db.machines[m].(inUse := db.machines[m].inUse + 1)])
      && (db.staff[s].activeTasks >= 0 ==>
            db'.staff == db.staff[s := db.staff[s].(activeTasks := db.staff[s].activeTasks + 1)])
  {
  }

  /** A popped task is assigned to a best staff member exactly when there is one it can be assigned to. */
  ghost predicate PickOk(db: Database, t: TaskId, pick: Option<StaffId>, now: Time) {
    match pick
    case Some(s) => BestPick(db, t, s, now)
    case None => forall s :: !CanAssign(db, t, s, now)
  }

  /** One round of the allocation loop. */
  function TryOne(d: Desk, t: TaskId, pick: Option<StaffId>, now: Time): Desk {
    if pick.Some? && t in d.db.tasks && d.db.tasks[t].machine.Some? then
      d.(db := AssignTo(d.db, t, pick.value, now))
    else if HasStatus(d.db, t, TaskUnassigned) then
      d.(queue := d.queue[t := ScoreOf(d.db, t, 0.0, now)])
    else d
  }

  function AfterBatch(d: Desk, ids: seq<TaskId>, picks: seq<Option<StaffId>>, now: Time): Desk
    requires |ids| == |picks|
  {
    if ids == [] then d
    else
      var n := |ids| - 1;
      TryOne(AfterBatch(d, ids[..n], picks[..n], now), ids[n], picks[n], now)
  }

  ghost predicate PicksOk(d: Desk, ids: seq<TaskId>, picks: seq<Option<StaffId>>, now: Time)
    requires |ids| == |picks|
  {
    forall i :: 0 <= i < |ids| ==> PickOk(AfterBatch(d, ids[..i], picks[..i], now).db, ids[i], picks[i], now)
  }

  /** The id the call returns: the first assigned one, 0 for none. */
  function FirstAssigned(ids: seq<TaskId>, picks: seq<Option<StaffId>>): TaskId
    requires |ids| == |picks|
  {
    if ids == [] then 0
    else
      var n := |ids| - 1;
      var first := FirstAssigned(ids[..n], picks[..n]);
      if first == 0 && picks[n].Some? then ids[n] else first
  }

  /** The rows of the tasks after a completion: the task itself, and one dependency less for each that waits for it. */
  lemma CompletedTaskRows(db: Database, t: TaskId, children: seq<TaskId>, now: Time)
    requires HasStatus(db, t, TaskStarted) && HasRunMetadata(db.tasks[t])
    ensures var db' := CompleteTx(db, t, children, now);
      && db'.tasks.Keys == db.tasks.Keys && db'.deps == db.deps && db'.skills == db.skills
      && db'.tasks[t] == db.tasks[t].(status := TaskCompleted, completedAt := Some(now))
      && (forall u | u in db.tasks && u != t && Edge(u, t) in db.deps && db.tasks[u].status == TaskUnassigned ::
            db'.tasks[u] == db.tasks[u].(pendingDeps := if db.tasks[u].pendingDeps <= 0 then 0 else db.tasks[u].pendingDeps - 1))
      && (forall u | u in db.tasks && u != t && !(Edge(u, t) in db.deps && db.tasks[u].status == TaskUnassigned) ::
            db'.tasks[u] == db.tasks[u])
  {
  }

  /** What it gives back, what it credits, and what it logs. */
  lemma CompletedResources(db: Database, t: TaskId, children: seq<TaskId>, now: Time)
    requires t in db.tasks && HasRunMetadata(db.tasks[t])
    requires db.tasks[t].staff.value in db.staff
    ensures var db', s := CompleteTx(db, t, children, now), db.tasks[t].staff.value;
      && db'.staff.Keys == db.staff.Keys
      && (forall u :: u in db.staff && u != s ==> db'.staff[u] == db.staff[u])
      && db'.staff[s].activeTasks == (if db.staff[s].activeTasks <= 0 then 0 else db.staff[s].activeTasks - 1)
      && Measured(db.staff[s], db'.staff[s], now - db.tasks[t].startedAt.value, db.tasks[t].estimateSecs)
  {
    CreditMeasures(db.staff[db.tasks[t].staff.value].(activeTasks := Greatest(db.staff[db.tasks[t].staff.value].activeTasks - 1)),
                   Sample(db.tasks[t].estimateSecs, now - db.tasks[t].startedAt.value));
  }

  lemma CompletedSlots(db: Database, t: TaskId, children: seq<TaskId>, now: Time)
    requires t in db.tasks && HasRunMetadata(db.tasks[t])
    ensures var db', c, m := CompleteTx(db, t, children, now), db.tasks[t].counter, db.tasks[t].onMachine.value;
      && (c in db.counters ==> db'.counters == db.counters[c := db.counters[c].(inUse :=
            if db.counters[c].inUse <= 0 then 0 else db.counters[c].inUse - 1)])
      && (m in db.machines ==> db'.machines == db.machines[m := db.machines[m].(inUse :=
            if db.machines[m].inUse <= 0 then 0 else db.machines[m].inUse - 1)])
  {
  }

  /** The part of it that concerns the task and the person. */
  lemma CompletedRow(db: Database, t: TaskId, children: seq<TaskId>, now: Time)
    requires HasStatus(db, t, TaskStarted) && HasRunMetadata(db.tasks[t])
    ensures var task, db' := db.tasks[t], CompleteTx(db, t, children, now);
      && db'.tasks.Keys == db.tasks.Keys && db'.tasks[t] == task.(status := TaskCompleted, completedAt := Some(now))
      && (task.staff.value in db.staff ==>
            && task.staff.value in db'.staff
            && Measured(db.staff[task.staff.value], db'.staff[task.staff.value], now - task.startedAt.value, task.estimateSecs))
      && db'.log == db.log + ReadyEvents(children) + [Event(EventTaskCompleted, t)]
  {
    CompletedTaskRows(db, t, children, now);
    CompletedLog(db, t, children, now);
    if db.tasks[t].staff.value in db.staff { CompletedResources(db, t, children, now); }
  }

  lemma CompletedLog(db: Database, t: TaskId, children: seq<TaskId>, now: Time)
    requires t in db.tasks && HasRunMetadata(db.tasks[t])
    ensures CompleteTx(db, t, children, now).log == db.log + ReadyEvents(children) + [Event(EventTaskCompleted, t)]
  {
  }

  /** COMPLETED if the rest of the order is completed, otherwise PART_COMPLETED at least. */
  lemma CompletedOrder(db: Database, t: TaskId, children: seq<TaskId>, now: Time)
    requires HasStatus(db, t, TaskStarted) && HasRunMetadata(db.tasks[t]) && db.tasks[t].order in db.orders
    ensures var o := db.tasks[t].order;
      CompleteTx(db, t, children, now).orders == db.orders[o :=
        if forall u :: u in db.tasks && u != t && db.tasks[u].order == o ==> db.tasks[u].status == TaskCompleted then OrderCompleted
        else if db.orders[o] == OrderConfirmed || db.orders[o] == OrderInProgress then OrderPartCompleted
        else db.orders[o]]
  {
    var o, db' := db.tasks[t].order, CompleteTx(db, t, children, now);
    CompletedTaskRows(db, t, children, now);
    OrderDone(db, db', t);
    CompletedStatus(db, t, children, now);
  }

  lemma CompletedStatus(db: Database, t: TaskId, children: seq<TaskId>, now: Time)
    requires t in db.tasks && HasRunMetadata(db.tasks[t]) && db.tasks[t].order in db.orders
    ensures var o, db' := db.tasks[t].order, CompleteTx(db, t, children, now);
      db'.orders == db.orders[o :=
        if AllDone(db', o) then OrderCompleted
        else if db.orders[o] == OrderConfirmed || db.orders[o] == OrderInProgress then OrderPartCompleted
        else db.orders[o]]
  {
    var o := db.tasks[t].order;
    var d1 := DecrementDependents(ReleaseStarted(db, t, now), t);
    var d2 := d1.(log := d1.log + ReadyEvents(children) + [Event(EventTaskCompleted, t)]);
    var d3 := MarkOrder(d2, o, {OrderConfirmed, OrderInProgress}, OrderPartCompleted);
    assert d3.tasks == CompleteOrder(d3, o).tasks && d1.orders == db.orders;
    assert AllDone(d3, o) <==> AllDone(CompleteOrder(d3, o), o);
    assert db.orders[o := OrderPartCompleted][o := OrderCompleted] == db.orders[o := OrderCompleted];
    assert db.orders[o := db.orders[o]] == db.orders;
    assert d3.orders[o] in {OrderConfirmed, OrderInProgress, OrderPartCompleted} || d3.orders[o] == OrderCompleted;
  }

  lemma OrderDone(db: Database, db': Database, t: TaskId)
    requires t in db.tasks && db'.tasks.Keys == db.tasks.Keys
    requires db'.tasks[t].status == TaskCompleted && db'.tasks[t].order == db.tasks[t].order
    requires forall u :: u in db.tasks && u != t ==> db'.tasks[u].status == db.tasks[u].status && db'.tasks[u].order == db.tasks[u].order
    ensures AllDone(db', db.tasks[t].order) <==>
      forall u :: u in db.tasks && u != t && db.tasks[u].order == db.tasks[t].order ==> db.tasks[u].status == TaskCompleted
  {
    if AllDone(db', db.tasks[t].order) {
      forall u | u in db.tasks && u != t && db.tasks[u].order == db.tasks[t].order ensures db.tasks[u].status == TaskCompleted {
        assert db'.tasks[u].status.TaskCompleted?;
      }
    }
  }

  /** The ids are enqueued with the scores of their rows, and nothing else in the queue changes. */
  lemma EnqueuedScores(db: Database, q: map<TaskId, real>, children: seq<TaskId>, now: Time)
    requires forall c :: c in children ==> c in db.tasks
    ensures var q' := EnqueueAll(q, db, children, 0.0, now);
      && q'.Keys == q.Keys + (set c | c in children)
      && (forall c :: c in children ==>
            q'[c] == -(db.tasks[c].basePriority + 0.14 * ((now - db.tasks[c].createdAt) as real / 1_000_000_000.0)))
      && (forall c :: c in q && c !in children ==> q'[c] == q[c])
  {
    QueueScores(q, db, children, 0.0, now);
    forall c | c in children ensures ScoreOf(db, c, 0.0, now) ==
        -(db.tasks[c].basePriority + 0.14 * ((now - db.tasks[c].createdAt) as real / 1_000_000_000.0))
    {
      ScoreMeans(db, c, 0.0, now);
    }
  }

  /** All that a completion promises its caller. */
  lemma CompletionMeans(db: Database, q: map<TaskId, real>, t: TaskId, children: seq<TaskId>, now: Time)
    requires HasStatus(db, t, TaskStarted) && HasRunMetadata(db.tasks[t]) && Enumerates(children, Unlocked(db, t))
    ensures var task, db' := db.tasks[t], CompleteTx(db, t, children, now);
      && db'.tasks.Keys == db.tasks.Keys && db'.tasks[t] == task.(status := TaskCompleted, completedAt := Some(now))
      && (task.staff.value in db.staff ==>
            && task.staff.value in db'.staff
            && Measured(db.staff[task.staff.value], db'.staff[task.staff.value], now - task.startedAt.value, task.estimateSecs))
      && db'.log == db.log + ReadyEvents(children) + [Event(EventTaskCompleted, t)]
      && (forall c :: c in children <==>
            c in db'.tasks && Edge(c, t) in db'.deps && db'.tasks[c].status == TaskUnassigned && db'.tasks[c].pendingDeps == 0)
    ensures var q' := EnqueueAll(q, db, children, 0.0, now);
      && q'.Keys == q.Keys + (set c | c in children)
      && (forall c :: c in children ==>
            && c in db.tasks
            && q'[c] == -(db.tasks[c].basePriority + 0.14 * ((now - db.tasks[c].createdAt) as real / 1_000_000_000.0)))
      && (forall c :: c in q && c !in children ==> q'[c] == q[c])
  {
    CompletedRow(db, t, children, now);
    CompletedChildren(db, t, children, now);
    assert CompleteTx(db, t, children, now).deps == db.deps by { CompletedTaskRows(db, t, children, now); }
    assert forall c :: c in children ==> c in Unlocked(db, t);
    EnqueuedScores(db, q, children, now);
  }

  lemma CompletedChildren(db: Database, t: TaskId, children: seq<TaskId>, now: Time)
    requires HasStatus(db, t, TaskStarted) && HasRunMetadata(db.tasks[t]) && Enumerates(children, Unlocked(db, t))
    ensures var db' := CompleteTx(db, t, children, now);
      forall c :: c in children <==>
        c in db'.tasks && Edge(c, t) in db.deps && db'.tasks[c].status == TaskUnassigned && db'.tasks[c].pendingDeps == 0
  {
    var db' := CompleteTx(db, t, children, now);
    CompletedTaskRows(db, t, children, now);
    forall c ensures c in Unlocked(db, t) <==>
        c in db'.tasks && Edge(c, t) in db.deps && db'.tasks[c].status == TaskUnassigned && db'.tasks[c].pendingDeps == 0
    {
    }
  }

  /** Tables and queue after the stale assignments were taken back and enqueued with a boost. */
  function AfterRequeue(d: Desk, ids: seq<TaskId>, now: Time): Desk
    requires forall t :: t in ids ==> t in d.db.tasks
  {
    var db := RequeueAll(d.db, ids);
    Desk(db, EnqueueAll(d.queue, db, ids, REQUEUE_BOOST, now))
  }

  /** The children a completion of `t` makes ready. */
  function Unlocked(db: Database, t: TaskId): set<TaskId> {
    ReadyChildren(DecrementDependents(db, t), t)
  }

  /** The tables after ConfirmOrder created, linked and recalculated. */
  function Confirmed(db: Database, o: OrderId, ids: seq<TaskId>, rows: seq<NewTask>, links: seq<Link>): Database
    requires |ids| == |rows| && LinksOk(links, |ids|)
  {
    var d1 := CreateTx(db, o, ids, rows);
    if links == [] then d1 else RecalculateTx(d1.(deps := d1.deps + LinkEdges(ids, links)), o)
  }

  /** The foreign keys of tasks and task_dependencies. */
  predicate KeysHold(db: Database) {
    (forall t :: t in db.tasks ==> db.tasks[t].order in db.orders) && forall e :: e in db.deps ==> e.task in db.tasks
  }

  /** What ConfirmOrder leaves in the tables: one row for each new task, one for each link, and nothing old is changed. */
  lemma ConfirmedRows(db: Database, o: OrderId, ids: seq<TaskId>, rows: seq<NewTask>, links: seq<Link>)
    requires |ids| == |rows| && LinksOk(links, |ids|) && NoDuplicates(ids) && forall t :: t in ids ==> t !in db.tasks
    requires KeysHold(db) && o !in db.orders
    ensures var db' := Confirmed(db, o, ids, rows, links);
      && db'.orders == db.orders[o := OrderConfirmed] && db'.tasks.Keys == db.tasks.Keys + (set t | t in ids)
      && (forall e :: e in db'.deps <==> e in db.deps || exists l :: l in links && e == Edge(ids[l.task], ids[l.dep]))
      && (forall t :: t in db.tasks ==> db'.tasks[t] == db.tasks[t])
      && (forall i :: 0 <= i < |ids| ==>
            db'.tasks[ids[i]] == Task(o, rows[i].counter, rows[i].machine, rows[i].estimateSecs, rows[i].basePriority,
                                      |set e | e in db'.deps && e.task == ids[i]|,
                                      None, None, TaskUnassigned, 0, None, None, None, rows[i].createdAt))
  {
    InsertRowsEffect(db.tasks, o, ids, rows);
    var d1, db' := CreateTx(db, o, ids, rows), Confirmed(db, o, ids, rows, links);
    ConfirmedEdges(db, o, ids, rows, links);
    forall t | t in db.tasks ensures db'.tasks[t] == db.tasks[t] {
      assert db.tasks[t].order != o;
    }
    forall i | 0 <= i < |ids| ensures db'.tasks[ids[i]] == NewRow(o, rows[i]).(pendingDeps := |set e | e in db'.deps && e.task == ids[i]|) {
      assert ids[i] in ids;
      NewTaskRow(db, o, ids, rows, links, i);
    }
  }

  lemma ConfirmedEdges(db: Database, o: OrderId, ids: seq<TaskId>, rows: seq<NewTask>, links: seq<Link>)
    requires |ids| == |rows| && LinksOk(links, |ids|)
    ensures forall e :: e in Confirmed(db, o, ids, rows, links).deps <==>
      e in db.deps || exists l :: l in links && e == Edge(ids[l.task], ids[l.dep])
  {
    assert links == [] ==> LinkEdges(ids, links) == {};
  }

  lemma NewTaskRow(db: Database, o: OrderId, ids: seq<TaskId>, rows: seq<NewTask>, links: seq<Link>, i: nat)
    requires |ids| == |rows| && LinksOk(links, |ids|) && NoDuplicates(ids) && forall t :: t in ids ==> t !in db.tasks
    requires KeysHold(db) && o !in db.orders && i < |ids|
    ensures var db' := Confirmed(db, o, ids, rows, links);
      ids[i] in db'.tasks && db'.tasks[ids[i]] == NewRow(o, rows[i]).(pendingDeps := |set e | e in db'.deps && e.task == ids[i]|)
  {
    var db' := Confirmed(db, o, ids, rows, links);
    var waits := set e | e in db'.deps && e.task == ids[i];
    assert ids[i] in ids && ids[i] !in db.tasks;
    InsertedRow(db, o, ids, rows, i);
    if links == [] {
      assert waits == {};
    } else {
      var d1 := CreateTx(db, o, ids, rows);
      RecountedRow(d1.(deps := d1.deps + LinkEdges(ids, links)), o, ids[i]);
    }
  }

  lemma InsertedRow(db: Database, o: OrderId, ids: seq<TaskId>, rows: seq<NewTask>, i: nat)
    requires |ids| == |rows| && NoDuplicates(ids) && (forall t :: t in ids ==> t !in db.tasks) && i < |ids|
    ensures ids[i] in CreateTx(db, o, ids, rows).tasks && CreateTx(db, o, ids, rows).tasks[ids[i]] == NewRow(o, rows[i])
  {
    InsertRowsEffect(db.tasks, o, ids, rows);
  }

  lemma RecountedRow(db: Database, o: OrderId, t: TaskId)
    requires t in db.tasks && db.tasks[t].order == o && db.tasks[t].pendingDeps == 0
    ensures var waits := set e | e in db.deps && e.task == t;
      t in RecalculateTx(db, o).tasks && RecalculateTx(db, o).tasks[t] == db.tasks[t].(pendingDeps := |waits|)
  {
    assert EdgesOf(db, t) == set e | e in db.deps && e.task == t;
  }

  /** ConfirmOrder publishes the new tasks that wait for nothing. */
  lemma ConfirmedReady(db: Database, o: OrderId, ids: seq<TaskId>, rows: seq<NewTask>, links: seq<Link>)
    requires |ids| == |rows| && LinksOk(links, |ids|) && NoDuplicates(ids) && forall t :: t in ids ==> t !in db.tasks
    requires KeysHold(db) && o !in db.orders
    ensures forall t :: t in OrderReady(Confirmed(db, o, ids, rows, links), o) <==>
      t in ids && forall e :: e in Confirmed(db, o, ids, rows, links).deps ==> e.task != t
  {
    var db' := Confirmed(db, o, ids, rows, links);
    ConfirmedRows(db, o, ids, rows, links);
    forall t ensures t in OrderReady(db', o) <==> t in ids && forall e :: e in db'.deps ==> e.task != t {
      if t in ids {
        var i :| 0 <= i < |ids| && ids[i] == t;
        var waits := set e | e in db'.deps && e.task == t;
        assert db'.tasks[t].pendingDeps == |waits|;
        assert |waits| == 0 <==> waits == {};
        assert waits == {} <==> forall e :: e in db'.deps ==> e.task != t by {
          if e :| e in db'.deps && e.task == t { assert e in waits; }
        }
      } else if t in db'.tasks {
        assert t in db.tasks && db.tasks[t].order != o;
      }
    }
  }

  /** The foreign keys of recipe_steps. */
  predicate StepsKnown(db: Database, items: map<string, int>, book: Book) {
    forall item :: item in items ==> forall st :: st in StepsOf(book, item) ==>
      st.counter in db.counters && (st.machine.Some? ==> st.machine.value in db.machines)
  }

  lemma PicksGrow(d: Desk, ids: seq<TaskId>, picks: seq<Option<StaffId>>, t: TaskId, pick: Option<StaffId>, now: Time)
    requires |ids| == |picks| && PicksOk(d, ids, picks, now)
    requires PickOk(AfterBatch(d, ids, picks, now).db, t, pick, now)
    ensures PicksOk(d, ids + [t], picks + [pick], now)
    ensures AfterBatch(d, ids + [t], picks + [pick], now) == TryOne(AfterBatch(d, ids, picks, now), t, pick, now)
    ensures FirstAssigned(ids + [t], picks + [pick]) ==
              if FirstAssigned(ids, picks) == 0 && pick.Some? then t else FirstAssigned(ids, picks)
  {
    var ids', picks' := ids + [t], picks + [pick];
    assert ids'[..|ids|] == ids && picks'[..|ids|] == picks;
    forall i | 0 <= i < |ids'| ensures PickOk(AfterBatch(d, ids'[..i], picks'[..i], now).db, ids'[i], picks'[i], now) {
      assert ids'[..i] == ids[..i] && picks'[..i] == picks[..i];
    }
  }

  lemma PicksPrefix(d: Desk, ids: seq<TaskId>, picks: seq<Option<StaffId>>, n: nat, now: Time)
    requires |ids| == |picks| && n <= |ids| && PicksOk(d, ids, picks, now)
    ensures PicksOk(d, ids[..n], picks[..n], now)
  {
    forall i | 0 <= i < n ensures PickOk(AfterBatch(d, ids[..n][..i], picks[..n][..i], now).db, ids[..n][i], picks[..n][i], now) {
      assert ids[..n][..i] == ids[..i] && picks[..n][..i] == picks[..i];
    }
  }

  /** What became of one popped id: assigned and gone from the queue, or enqueued again if it still waits. */
  ghost predicate Tried(d: Desk, d': Desk, t: TaskId, pick: Option<StaffId>, now: Time) {
    && (t in d'.db.tasks <==> t in d.db.tasks)
    && (pick.Some? ==>
          && t in d.db.tasks && d.db.tasks[t].status == TaskUnassigned
          && d'.db.tasks[t] == d.db.tasks[t].(staff := pick, onMachine := d.db.tasks[t].machine, status := TaskAssigned,
                                              assignedAt := Some(now), version := d.db.tasks[t].version + 1)
          && (t in d'.queue <==> t in d.queue))
    && (pick.None? && t in d.db.tasks ==> d'.db.tasks[t] == d.db.tasks[t])
    && (pick.None? && t in d.db.tasks && d.db.tasks[t].status == TaskUnassigned ==>
          && t in d'.queue
          && d'.queue[t] == -(d.db.tasks[t].basePriority + 0.14 * ((now - d.db.tasks[t].createdAt) as real / 1_000_000_000.0)))
    && (pick.None? && !(t in d.db.tasks && d.db.tasks[t].status == TaskUnassigned) ==> (t in d'.queue <==> t in d.queue))
  }

  ghost predicate Untouched(d: Desk, d': Desk, t: TaskId) {
    && (t in d'.db.tasks <==> t in d.db.tasks) && (t in d.db.tasks ==> d'.db.tasks[t] == d.db.tasks[t])
    && (t in d'.queue <==> t in d.queue) && (t in d.queue ==> d'.queue[t] == d.queue[t])
  }

  lemma TryOneRows(d: Desk, t: TaskId, pick: Option<StaffId>, now: Time)
    requires PickOk(d.db, t, pick, now)
    ensures Tried(d, TryOne(d, t, pick, now), t, pick, now)
    ensures forall u :: u != t ==> Untouched(d, TryOne(d, t, pick, now), u)
  {
    if pick.Some? {
      AssignedRows(d.db, t, pick.value, now);
    } else if t in d.db.tasks {
      ScoreMeans(d.db, t, 0.0, now);
    }
  }

  /** Over the whole batch every popped id is tried on its own, and nothing else is touched. */
  lemma {:induction false} BatchRows(d: Desk, ids: seq<TaskId>, picks: seq<Option<StaffId>>, now: Time)
    requires |ids| == |picks| && NoDuplicates(ids) && PicksOk(d, ids, picks, now)
    ensures forall i :: 0 <= i < |ids| ==> Tried(d, AfterBatch(d, ids, picks, now), ids[i], picks[i], now)
    ensures forall t :: t !in ids ==> Untouched(d, AfterBatch(d, ids, picks, now), t)
  {
    if ids != [] {
      var n := |ids| - 1;
      SplitLast(ids);
      PicksPrefix(d, ids, picks, n, now);
      BatchRows(d, ids[..n], picks[..n], now);
      NextTried(d, ids, picks, now);
    }
  }

  lemma NextTried(d: Desk, ids: seq<TaskId>, picks: seq<Option<StaffId>>, now: Time)
    requires |ids| == |picks| > 0 && NoDuplicates(ids) && PicksOk(d, ids, picks, now)
    requires var n := |ids| - 1;
      && (forall i :: 0 <= i < n ==> Tried(d, AfterBatch(d, ids[..n], picks[..n], now), ids[..n][i], picks[..n][i], now))
      && forall t :: t !in ids[..n] ==> Untouched(d, AfterBatch(d, ids[..n], picks[..n], now), t)
    ensures forall i :: 0 <= i < |ids| ==> Tried(d, AfterBatch(d, ids, picks, now), ids[i], picks[i], now)
    ensures forall t :: t !in ids ==> Untouched(d, AfterBatch(d, ids, picks, now), t)
  {
    var n := |ids| - 1;
    var mid := AfterBatch(d, ids[..n], picks[..n], now);
    assert PickOk(mid.db, ids[n], picks[n], now);
    TryOneRows(mid, ids[n], picks[n], now);
    forall i | 0 <= i < n ensures Tried(d, mid, ids[i], picks[i], now) {
      assert ids[..n][i] == ids[i] && picks[..n][i] == picks[i];
    }
    LastTried(d, mid, AfterBatch(d, ids, picks, now), ids, picks, now);
  }

  lemma LastTried(d: Desk, mid: Desk, end: Desk, ids: seq<TaskId>, picks: seq<Option<StaffId>>, now: Time)
    requires |ids| == |picks| > 0 && NoDuplicates(ids)
    requires forall i :: 0 <= i < |ids| - 1 ==> Tried(d, mid, ids[i], picks[i], now)
    requires forall t :: t !in ids[..|ids| - 1] ==> Untouched(d, mid, t)
    requires Tried(mid, end, ids[|ids| - 1], picks[|ids| - 1], now)
    requires forall u :: u != ids[|ids| - 1] ==> Untouched(mid, end, u)
    ensures forall i :: 0 <= i < |ids| ==> Tried(d, end, ids[i], picks[i], now)
    ensures forall t :: t !in ids ==> Untouched(d, end, t)
  {
    var n := |ids| - 1;
    SplitLast(ids);
    ThenTried(d, mid, end, ids[n], picks[n], now);
    forall i | 0 <= i < n ensures Tried(d, end, ids[i], picks[i], now) {
      TriedThen(d, mid, end, ids[i], picks[i], now);
    }
    forall t | t !in ids ensures Untouched(d, end, t) {
      UntouchedThen(d, mid, end, t);
    }
  }

  lemma TriedThen(d: Desk, mid: Desk, end: Desk, t: TaskId, pick: Option<StaffId>, now: Time)
    requires Tried(d, mid, t, pick, now) && Untouched(mid, end, t)
    ensures Tried(d, end, t, pick, now)
  {
  }

  lemma ThenTried(d: Desk, mid: Desk, end: Desk, t: TaskId, pick: Option<StaffId>, now: Time)
    requires Untouched(d, mid, t) && Tried(mid, end, t, pick, now)
    ensures Tried(d, end, t, pick, now)
  {
  }

  lemma UntouchedThen(d: Desk, mid: Desk, end: Desk, t: TaskId)
    requires Untouched(d, mid, t) && Untouched(mid, end, t)
    ensures Untouched(d, end, t)
  {
  }

  /** The returned id is the first assigned one; an id 0 would not be told from none. */
  lemma {:induction false} FirstMeans(ids: seq<TaskId>, picks: seq<Option<StaffId>>)
    requires |ids| == |picks|
    ensures FirstAssigned(ids, picks) == 0 <==> forall i :: 0 <= i < |ids| && picks[i].Some? ==> ids[i] == 0
    ensures FirstAssigned(ids, picks) != 0 ==>
      exists i :: 0 <= i < |ids| && picks[i].Some? && ids[i] == FirstAssigned(ids, picks)
                  && forall j :: 0 <= j < i && picks[j].Some? ==> ids[j] == 0
  {
    if ids != [] {
      FirstMeans(ids[..|ids| - 1], picks[..|ids| - 1]);
    }
  }
}
