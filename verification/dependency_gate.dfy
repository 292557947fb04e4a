/**
 * pending_deps across the commits of ConfirmOrder: exact for every order whose edges are in,
 * zero and harmless before, and never letting a task run ahead of what it waits for.
 */
module DependencyGate {
  import opened Wrappers
  import opened Model
  import opened Transactions
  import opened ResourceAccounting
  import opened KitchenMachine

  /** The dependency counts of the order are in place. */
  predicate Linked(k: State, o: OrderId) {
    o in k.confirms && (k.confirms[o].AwaitList? || k.confirms[o].Publishing?)
  }

  /** The list of root tasks has been read: ids of the order may be in the queue. */
  predicate Live(k: State, o: OrderId) {
    o in k.confirms && k.confirms[o].Publishing?
  }

  /** The dependencies of `t` that are not completed. */
  function OpenEdges(db: Database, t: TaskId): set<Edge> {
    set e | e in db.deps && e.task == t && e.dep in db.tasks && !db.tasks[e.dep].status.TaskCompleted?
  }

  ghost predicate EdgesWithin(db: Database, o: OrderId, edges: set<Edge>) {
    forall e :: e in edges ==>
      && e.task in db.tasks && e.dep in db.tasks && e.task != e.dep
      && db.tasks[e.task].order == o && db.tasks[e.dep].order == o
  }

  ghost predicate Phases(k: State) {
    && k.confirms.Keys == k.db.orders.Keys
    && forall o :: o in k.confirms && k.confirms[o].AwaitEdges? ==> EdgesWithin(k.db, o, k.confirms[o].edges)
  }

  ghost predicate Untouched(k: State) {
    forall t :: t in k.db.tasks && !Live(k, k.db.tasks[t].order) ==>
      k.db.tasks[t].status.TaskUnassigned? && k.db.tasks[t].version == 0
  }

  ghost predicate PendingExact(k: State) {
    forall t :: t in k.db.tasks ==>
      k.db.tasks[t].pendingDeps == if Linked(k, k.db.tasks[t].order) then |OpenEdges(k.db, t)| else 0
  }

  ghost predicate DependencySafe(db: Database) {
    forall e :: e in db.deps && e.task in db.tasks && e.dep in db.tasks && !db.tasks[e.task].status.TaskUnassigned? ==>
      db.tasks[e.dep].status.TaskCompleted?
  }

  ghost predicate Gate(k: State) {
    Rows(k.db) && Phases(k) && Untouched(k) && PendingExact(k) && DependencySafe(k.db)
  }

  /** Ids in the queue or in the hands of a process. */
  predicate Held(k: State, t: TaskId) {
    t in k.queue || t in k.popped || t in k.returning
  }

  /** Nothing of an order moves before its root tasks were listed. */
  ghost predicate HeldLive(k: State) {
    forall t :: Held(k, t) ==> t in k.db.tasks && Live(k, k.db.tasks[t].order)
  }

  // ---------------------------------------------------------------- consequences used by every step

  lemma OnlyMember(a: set<Edge>, x: Edge)
    requires x in a && |a| == 1
    ensures a == {x}
  {
    assert |a - {x}| == 0;
    assert a == (a - {x}) + {x};
  }

  /** With a started dependency a task is unassigned and counts that dependency. */
  lemma ChildOfStarted(k: State, c: TaskId, d: TaskId)
    requires Gate(k) && Edge(c, d) in k.db.deps && HasStatus(k.db, d, TaskStarted)
    ensures c in k.db.tasks && k.db.tasks[c].status.TaskUnassigned?
    ensures k.db.tasks[c].order == k.db.tasks[d].order && Live(k, k.db.tasks[d].order)
    ensures k.db.tasks[c].pendingDeps >= 1
    ensures k.db.tasks[c].pendingDeps == 1 ==> OpenEdges(k.db, c) == {Edge(c, d)}
  {
    assert Edge(c, d).task == c && Edge(c, d).dep == d;
    assert Edge(c, d) in OpenEdges(k.db, c);
    if k.db.tasks[c].pendingDeps == 1 {
      OnlyMember(OpenEdges(k.db, c), Edge(c, d));
    }
  }

  /** A task that may be assigned has all its dependencies completed. */
  lemma WaitingIsUnblocked(k: State, t: TaskId)
    requires Gate(k) && t in k.db.tasks && Linked(k, k.db.tasks[t].order) && k.db.tasks[t].pendingDeps == 0
    ensures forall e :: e in k.db.deps && e.task == t ==> e.dep in k.db.tasks && k.db.tasks[e.dep].status.TaskCompleted?
  {
    forall e | e in k.db.deps && e.task == t ensures k.db.tasks[e.dep].status.TaskCompleted? {
      assert e !in OpenEdges(k.db, t);
    }
  }

  /** A task that is past UNASSIGNED has nothing pending. */
  lemma BusyHasNothingPending(k: State, t: TaskId)
    requires Gate(k) && t in k.db.tasks && !k.db.tasks[t].status.TaskUnassigned?
    ensures k.db.tasks[t].pendingDeps == 0 && Live(k, k.db.tasks[t].order)
  {
    assert OpenEdges(k.db, t) == {};
  }

  // ---------------------------------------------------------------- one row changes status, none completes

  /** `db'` differs from `db` in the row of `t` (not its links) and in numbers no gate looks at. */
  ghost predicate OneRow(db: Database, db': Database, t: TaskId) {
    && t in db.tasks && t in db'.tasks && db'.tasks == db.tasks[t := db'.tasks[t]]
    && db'.tasks[t].order == db.tasks[t].order
    && db'.tasks[t].pendingDeps == db.tasks[t].pendingDeps
    && db'.deps == db.deps
    && SameKeys(db, db')
  }

  ghost predicate SameKeys(db: Database, db': Database) {
    && db'.orders.Keys == db.orders.Keys && db'.counters.Keys == db.counters.Keys
    && db'.machines.Keys == db.machines.Keys && db'.staff.Keys == db.staff.Keys
  }

  lemma SameOpenEdges(db: Database, db': Database, t: TaskId)
    requires EdgesOf(db', t) == EdgesOf(db, t) && db.tasks.Keys <= db'.tasks.Keys
    requires forall e :: e in EdgesOf(db, t) ==>
      e.dep in db.tasks && (db.tasks[e.dep].status.TaskCompleted? <==> db'.tasks[e.dep].status.TaskCompleted?)
    ensures OpenEdges(db', t) == OpenEdges(db, t)
  {
    assert forall e :: e in OpenEdges(db, t) ==> e in EdgesOf(db, t);
    assert forall e :: e in OpenEdges(db', t) ==> e in EdgesOf(db', t);
    assert forall e :: e in EdgesOf(db, t) ==> (e in OpenEdges(db, t) <==> e in OpenEdges(db', t));
  }

  lemma OneRowOpenEdges(db: Database, db': Database, t: TaskId, u: TaskId)
    requires Rows(db) && OneRow(db, db', t)
    requires !db.tasks[t].status.TaskCompleted? && !db'.tasks[t].status.TaskCompleted?
    ensures OpenEdges(db', u) == OpenEdges(db, u)
  {
    SameOpenEdges(db, db', u);
  }

  lemma OneRowRows(db: Database, db': Database, t: TaskId)
    requires Rows(db) && OneRow(db, db', t) && RowShape(db', db'.tasks[t])
    ensures Rows(db')
  {
  }

  lemma OneRowSafe(db: Database, db': Database, t: TaskId)
    requires Rows(db) && DependencySafe(db) && OneRow(db, db', t) && !db.tasks[t].status.TaskCompleted?
    requires db'.tasks[t].status.TaskUnassigned? ||
             forall e :: e in db.deps && e.task == t ==> db.tasks[e.dep].status.TaskCompleted?
    ensures DependencySafe(db')
  {
  }

  lemma OneRowGate(k: State, k': State, t: TaskId)
    requires Gate(k) && OneRow(k.db, k'.db, t) && k'.confirms == k.confirms
    requires Live(k, k.db.tasks[t].order)
    requires !k.db.tasks[t].status.TaskCompleted? && !k'.db.tasks[t].status.TaskCompleted?
    requires RowShape(k'.db, k'.db.tasks[t])
    requires k'.db.tasks[t].status.TaskUnassigned? ||
             forall e :: e in k.db.deps && e.task == t ==> k.db.tasks[e.dep].status.TaskCompleted?
    ensures Gate(k')
  {
    OneRowRows(k.db, k'.db, t);
    OneRowSafe(k.db, k'.db, t);
    assert PendingExact(k') by {
      forall u | u in k'.db.tasks ensures OpenEdges(k'.db, u) == OpenEdges(k.db, u) {
        OneRowOpenEdges(k.db, k'.db, t, u);
      }
    }
    assert Phases(k') && Untouched(k');
  }

  lemma AssignOneRow(db: Database, t: TaskId, s: StaffId, now: Time)
    requires Rows(db) && HasStatus(db, t, TaskUnassigned) && s in db.staff
    ensures OneRow(db, AssignTo(db, t, s, now), t)
    ensures RowShape(AssignTo(db, t, s, now), AssignTo(db, t, s, now).tasks[t])
    ensures AssignTo(db, t, s, now).tasks[t] == AssignRow(db.tasks[t], s, db.tasks[t].machine.value, now)
  {
  }

  lemma AssignGate(k: State, t: TaskId, s: StaffId, now: Time)
    requires Gate(k) && HeldLive(k) && Enabled(k, Assign(t, s, now))
    ensures Gate(Apply(k, Assign(t, s, now)))
  {
    assert Held(k, t);
    WaitingIsUnblocked(k, t);
    AssignOneRow(k.db, t, s, now);
    OneRowGate(k, Apply(k, Assign(t, s, now)), t);
  }

  lemma StartGate(k: State, t: TaskId, now: Time)
    requires Gate(k) && Enabled(k, Start(t, now))
    ensures Gate(Apply(k, Start(t, now)))
  {
    OneRowGate(k, Apply(k, Start(t, now)), t);
  }

  lemma RequeueGate(k: State, t: TaskId, cutoff: Time)
    requires Gate(k) && Enabled(k, RequeueExpired(t, cutoff))
    ensures Gate(Apply(k, RequeueExpired(t, cutoff)))
  {
    OneRowGate(k, Apply(k, RequeueExpired(t, cutoff)), t);
  }

  // ---------------------------------------------------------------- completion

  /** `db'` is `db` after `t` completed: every dependent of `t` waits for one task less. */
  ghost predicate Finished(db: Database, db': Database, t: TaskId) {
    && t in db.tasks && db'.tasks.Keys == db.tasks.Keys && db'.deps == db.deps && SameKeys(db, db')
    && db'.tasks[t].(completedAt := None) == db.tasks[t].(status := TaskCompleted, completedAt := None)
    && forall u :: u in db.tasks && u != t ==>
         db'.tasks[u] == if Edge(u, t) in db.deps
                         then db.tasks[u].(pendingDeps := db.tasks[u].pendingDeps - 1) else db.tasks[u]
  }

  lemma NoSelfEdge(db: Database, t: TaskId)
    requires Rows(db)
    ensures Edge(t, t) !in db.deps
  {
    assert Edge(t, t).task == Edge(t, t).dep;
  }

  lemma ReleaseTables(db: Database, t: TaskId, now: Time)
    requires t in db.tasks && HasRunMetadata(db.tasks[t])
    ensures ReleaseStarted(db, t, now).tasks == db.tasks[t := db.tasks[t].(status := TaskCompleted, completedAt := Some(now))]
    ensures ReleaseStarted(db, t, now).deps == db.deps
    ensures SameKeys(db, ReleaseStarted(db, t, now))
  {
  }

  lemma CompleteTables(db: Database, t: TaskId, children: seq<TaskId>, now: Time)
    requires t in db.tasks && HasRunMetadata(db.tasks[t])
    ensures CompleteTx(db, t, children, now).deps == db.deps
    ensures SameKeys(db, CompleteTx(db, t, children, now))
    ensures CompleteTx(db, t, children, now).tasks == DecrementDependents(ReleaseStarted(db, t, now), t).tasks
  {
    ReleaseTables(db, t, now);
  }

  lemma CompleteFinishes(k: State, t: TaskId, children: seq<TaskId>, now: Time)
    requires Gate(k) && HasStatus(k.db, t, TaskStarted)
    ensures HasRunMetadata(k.db.tasks[t]) && Finished(k.db, CompleteTx(k.db, t, children, now), t)
  {
    forall u | u in k.db.tasks && Edge(u, t) in k.db.deps
      ensures k.db.tasks[u].status.TaskUnassigned? && k.db.tasks[u].pendingDeps >= 1
    {
      ChildOfStarted(k, u, t);
    }
    NoSelfEdge(k.db, t);
    ReleaseTables(k.db, t, now);
    CompleteTables(k.db, t, children, now);
  }

  lemma FinishedOpenEdges(db: Database, db': Database, t: TaskId, u: TaskId)
    requires Rows(db) && Finished(db, db', t) && !db.tasks[t].status.TaskCompleted?
    ensures |OpenEdges(db', u)| == |OpenEdges(db, u)| - if Edge(u, t) in db.deps then 1 else 0
  {
    var x := Edge(u, t);
    assert x.task == u && x.dep == t;
    assert forall e :: e in db.deps && e.task == u && e.dep == t ==> e == x;
    assert OpenEdges(db', u) == OpenEdges(db, u) - {x};
    assert x in OpenEdges(db, u) <==> x in db.deps;
  }

  lemma FinishedRows(db: Database, db': Database, t: TaskId)
    requires Rows(db) && Finished(db, db', t) && db.tasks[t].status.TaskStarted?
    ensures Rows(db')
  {
  }

  lemma FinishedSafe(db: Database, db': Database, t: TaskId)
    requires Rows(db) && DependencySafe(db) && Finished(db, db', t) && db.tasks[t].status.TaskStarted?
    ensures DependencySafe(db')
  {
  }

  lemma FinishedPending(k: State, k': State, t: TaskId, u: TaskId)
    requires Gate(k) && HasStatus(k.db, t, TaskStarted) && Finished(k.db, k'.db, t) && u in k.db.tasks
    ensures k'.db.tasks[u].pendingDeps == if Linked(k, k.db.tasks[u].order) then |OpenEdges(k'.db, u)| else 0
  {
    FinishedOpenEdges(k.db, k'.db, t, u);
    NoSelfEdge(k.db, t);
    if Edge(u, t) in k.db.deps {
      ChildOfStarted(k, u, t);
    }
  }

  lemma FinishedPhases(k: State, k': State, t: TaskId)
    requires Phases(k) && Finished(k.db, k'.db, t) && k'.confirms == k.confirms
    ensures Phases(k')
  {
    assert forall u :: u in k.db.tasks ==> k'.db.tasks[u].order == k.db.tasks[u].order;
  }

  lemma FinishedUntouched(k: State, k': State, t: TaskId)
    requires Untouched(k) && Finished(k.db, k'.db, t) && HasStatus(k.db, t, TaskStarted) && k'.confirms == k.confirms
    ensures Untouched(k')
  {
  }

  lemma FinishedGate(k: State, k': State, t: TaskId)
    requires Gate(k) && HasStatus(k.db, t, TaskStarted) && Finished(k.db, k'.db, t) && k'.confirms == k.confirms
    ensures Gate(k')
  {
    FinishedRows(k.db, k'.db, t);
    FinishedSafe(k.db, k'.db, t);
    FinishedPhases(k, k', t);
    FinishedUntouched(k, k', t);
    forall u | u in k'.db.tasks
      ensures k'.db.tasks[u].pendingDeps == if Linked(k', k'.db.tasks[u].order) then |OpenEdges(k'.db, u)| else 0
    {
      FinishedPending(k, k', t, u);
    }
  }

  lemma CompleteGate(k: State, t: TaskId, now: Time)
    requires Gate(k) && Enabled(k, CommitComplete(t, now)) && HasStatus(k.db, t, TaskStarted)
    ensures Gate(Apply(k, CommitComplete(t, now)))
  {
    CompleteFinishes(k, t, k.completions[t].children, now);
    FinishedGate(k, Apply(k, CommitComplete(t, now)), t);
  }

  // ---------------------------------------------------------------- confirming an order

  /** `db'` is `db` with one more order, whose tasks are new and untouched. */
  ghost predicate OrderAdded(db: Database, db': Database, o: OrderId) {
    && o !in db.orders && db'.orders.Keys == db.orders.Keys + {o} && db'.deps == db.deps
    && db'.counters == db.counters && db'.machines == db.machines && db'.staff == db.staff
    && db.tasks.Keys <= db'.tasks.Keys
    && (forall t :: t in db.tasks ==> db'.tasks[t] == db.tasks[t])
    && (forall t :: t in db'.tasks && t !in db.tasks ==>
          && RowShape(db', db'.tasks[t]) && db'.tasks[t].order == o && db'.tasks[t].pendingDeps == 0
          && db'.tasks[t].status.TaskUnassigned? && db'.tasks[t].version == 0)
  }

  lemma CreateAddsOrder(db: Database, o: OrderId, ids: seq<TaskId>, rows: seq<NewTask>)
    requires o !in db.orders && |ids| == |rows| && NoDuplicates(ids) && RowsOk(db, rows)
    requires forall t :: t in ids ==> t !in db.tasks
    ensures OrderAdded(db, CreateTx(db, o, ids, rows), o)
    ensures forall i :: 0 <= i < |ids| ==> ids[i] in CreateTx(db, o, ids, rows).tasks && CreateTx(db, o, ids, rows).tasks[ids[i]].order == o
  {
    var db' := CreateTx(db, o, ids, rows);
    InsertRowsEffect(db.tasks, o, ids, rows);
    forall t | t in db'.tasks && t !in db.tasks
      ensures RowShape(db', db'.tasks[t]) && db'.tasks[t].order == o && db'.tasks[t].pendingDeps == 0
      ensures db'.tasks[t].status.TaskUnassigned? && db'.tasks[t].version == 0
    {
      var i :| 0 <= i < |ids| && ids[i] == t;
      assert rows[i] in rows;
    }
  }

  lemma LinkEdgesWithin(db: Database, o: OrderId, ids: seq<TaskId>, links: seq<Link>)
    requires NoDuplicates(ids) && LinksOk(links, |ids|)
    requires forall i :: 0 <= i < |ids| ==> ids[i] in db.tasks && db.tasks[ids[i]].order == o
    ensures EdgesWithin(db, o, LinkEdges(ids, links))
  {
    forall e | e in LinkEdges(ids, links)
      ensures e.task in db.tasks && e.dep in db.tasks && e.task != e.dep
      ensures db.tasks[e.task].order == o && db.tasks[e.dep].order == o
    {
      var l :| l in links && e == Edge(ids[l.task], ids[l.dep]);
    }
  }

  lemma AddedOpenEdges(db: Database, db': Database, o: OrderId, t: TaskId)
    requires Rows(db) && OrderAdded(db, db', o)
    ensures OpenEdges(db', t) == OpenEdges(db, t)
    ensures t !in db.tasks ==> OpenEdges(db', t) == {}
  {
    SameOpenEdges(db, db', t);
  }

  lemma AddedGate(k: State, k': State, o: OrderId)
    requires Gate(k) && OrderAdded(k.db, k'.db, o) && o !in k.confirms
    requires o in k'.confirms && k'.confirms == k.confirms[o := k'.confirms[o]]
    requires match k'.confirms[o] case AwaitList => true case AwaitEdges(edges) => EdgesWithin(k'.db, o, edges) case _ => false
    ensures Gate(k')
  {
    assert Rows(k'.db);
    assert DependencySafe(k'.db);
    forall t | t in k'.db.tasks
      ensures k'.db.tasks[t].pendingDeps == if Linked(k', k'.db.tasks[t].order) then |OpenEdges(k'.db, t)| else 0
    {
      AddedOpenEdges(k.db, k'.db, o, t);
    }
    assert Phases(k') && Untouched(k') && PendingExact(k');
  }

  lemma CreateGate(k: State, o: OrderId, ids: seq<TaskId>, rows: seq<NewTask>, links: seq<Link>)
    requires Gate(k) && Enabled(k, CreateOrder(o, ids, rows, links))
    ensures Gate(Apply(k, CreateOrder(o, ids, rows, links)))
  {
    CreateAddsOrder(k.db, o, ids, rows);
    LinkEdgesWithin(CreateTx(k.db, o, ids, rows), o, ids, links);
    AddedGate(k, Apply(k, CreateOrder(o, ids, rows, links)), o);
  }

  lemma InsertEdgesGate(k: State, o: OrderId)
    requires Gate(k) && Enabled(k, InsertEdges(o))
    ensures Gate(Apply(k, InsertEdges(o)))
  {
    var k' := Apply(k, InsertEdges(o));
    forall t | t in k.db.tasks && Linked(k, k.db.tasks[t].order) ensures OpenEdges(k'.db, t) == OpenEdges(k.db, t) {}
  }

  lemma RecalculatePending(k: State, o: OrderId, t: TaskId)
    requires Rows(k.db) && Untouched(k) && PendingExact(k) && Enabled(k, Recalculate(o)) && t in k.db.tasks
    ensures var k' := Apply(k, Recalculate(o));
      k'.db.tasks[t].pendingDeps == if Linked(k', k.db.tasks[t].order) then |OpenEdges(k'.db, t)| else 0
  {
    var k' := Apply(k, Recalculate(o));
    assert EdgesOf(k'.db, t) == EdgesOf(k.db, t);
    SameOpenEdges(k.db, k'.db, t);
    if k.db.tasks[t].order == o {
      assert OpenEdges(k.db, t) == EdgesOf(k.db, t);
    }
  }

  lemma SameButPendingRows(db: Database, db': Database)
    requires Rows(db) && SameButPending(db'.tasks, db.tasks) && db'.deps == db.deps && SameKeys(db, db')
    ensures Rows(db')
    ensures DependencySafe(db) ==> DependencySafe(db')
  {
  }

  lemma RecalculateGate(k: State, o: OrderId)
    requires Gate(k) && Enabled(k, Recalculate(o))
    ensures Gate(Apply(k, Recalculate(o)))
  {
    var k' := Apply(k, Recalculate(o));
    SameButPendingRows(k.db, k'.db);
    forall t | t in k'.db.tasks
      ensures k'.db.tasks[t].pendingDeps == if Linked(k', k'.db.tasks[t].order) then |OpenEdges(k'.db, t)| else 0
    {
      RecalculatePending(k, o, t);
    }
    RecalculatePhases(k, o);
  }

  lemma RecalculatePhases(k: State, o: OrderId)
    requires Phases(k) && Untouched(k) && Enabled(k, Recalculate(o))
    ensures Phases(Apply(k, Recalculate(o))) && Untouched(Apply(k, Recalculate(o)))
  {
  }

  lemma GateStep(k: State, step: Step)
    requires Gate(k) && HeldLive(k) && Enabled(k, step)
    requires step.CommitComplete? ==> HasStatus(k.db, step.t, TaskStarted)
    ensures Gate(Apply(k, step))
  {
    match step
    case CreateOrder(o, ids, rows, links) => CreateGate(k, o, ids, rows, links);
    case InsertEdges(o) => InsertEdgesGate(k, o);
    case Recalculate(o) => RecalculateGate(k, o);
    case Assign(t, s, now) => AssignGate(k, t, s, now);
    case RequeueExpired(t, cutoff) => RequeueGate(k, t, cutoff);
    case Start(t, now) => StartGate(k, t, now);
    case CommitComplete(t, now) => CompleteGate(k, t, now);
    case _ => SameTablesGate(k, Apply(k, step));
  }

  /** Steps that move ids between queue and processes leave the gate alone. */
  lemma SameTablesGate(k: State, k': State)
    requires Gate(k) && k'.db.(log := k.db.log) == k.db
    requires k'.confirms.Keys == k.confirms.Keys
    requires forall o :: o in k.confirms && k'.confirms[o] != k.confirms[o] ==> Linked(k, o) && Live(k', o)
    ensures Gate(k')
  {
    assert forall t :: t in k.db.tasks ==> OpenEdges(k'.db, t) == OpenEdges(k.db, t);
  }
}
