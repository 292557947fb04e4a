/**
 * The domain event log as a second account of the task states: replaying a task's events gives
 * its status, the event counts give its assignment version, and TASK_READY is logged exactly once.
 */
module EventLog {
  import opened Wrappers
  import opened Model
  import opened Transactions
  import opened ResourceAccounting
  import opened KitchenMachine
  import opened DependencyGate
  import opened ReadyFlow

  datatype Tag = Ready | Assigned | Started | Completed | Requeued

  function TagOf(kind: EventKind): Tag {
    match kind
    case EventTaskReady => Ready
    case EventTaskAssigned(_, _) => Assigned
    case EventTaskStarted => Started
    case EventTaskCompleted => Completed
    case EventTaskRequeued => Requeued
  }

  /** The task life cycle; None when the event does not fit the status. */
  function Advance(st: TaskStatus, tag: Tag): Option<TaskStatus> {
    match (st, tag)
    case (_, Ready) => Some(st)
    case (TaskUnassigned, Assigned) => Some(TaskAssigned)
    case (TaskAssigned, Started) => Some(TaskStarted)
    case (TaskAssigned, Requeued) => Some(TaskUnassigned)
    case (TaskStarted, Completed) => Some(TaskCompleted)
    case _ => None
  }

  /** The status that the events of `t` lead to, None if they are not a legal life. */
  function Replay(log: seq<Event>, t: TaskId): Option<TaskStatus> {
    if log == [] then Some(TaskUnassigned)
    else
      var e := log[|log| - 1];
      var before := Replay(log[..|log| - 1], t);
      if e.task != t || before.None? then before else Advance(before.value, TagOf(e.kind))
  }

  function Count(log: seq<Event>, t: TaskId, tag: Tag): nat {
    if log == [] then 0
    else
      var e := log[|log| - 1];
      Count(log[..|log| - 1], t, tag) + if e.task == t && TagOf(e.kind) == tag then 1 else 0
  }

  lemma AppendOne(log: seq<Event>, e: Event, t: TaskId)
    ensures Replay(log + [e], t) ==
              if e.task != t || Replay(log, t).None? then Replay(log, t) else Advance(Replay(log, t).value, TagOf(e.kind))
    ensures forall tag :: Count(log + [e], t, tag) == Count(log, t, tag) + if e.task == t && TagOf(e.kind) == tag then 1 else 0
  {
    assert (log + [e])[..|log|] == log;
  }

  lemma {:induction false} AppendReady(log: seq<Event>, ids: seq<TaskId>, t: TaskId)
    requires NoDuplicates(ids)
    ensures Replay(log + ReadyEvents(ids), t) == Replay(log, t)
    ensures forall tag :: Count(log + ReadyEvents(ids), t, tag) ==
              Count(log, t, tag) + if tag == Ready && t in ids then 1 else 0
  {
    if ids == [] {
      assert log + ReadyEvents(ids) == log;
    } else {
      var n := |ids| - 1;
      AppendReady(log, ids[..n], t);
      AppendOne(log + ReadyEvents(ids[..n]), Event(EventTaskReady, ids[n]), t);
      assert log + ReadyEvents(ids) == log + ReadyEvents(ids[..n]) + [Event(EventTaskReady, ids[n])];
      assert ids == ids[..n] + [ids[n]];
    }
  }

  lemma {:induction false} NoEvents(log: seq<Event>, t: TaskId)
    requires forall e :: e in log ==> e.task != t
    ensures Replay(log, t) == Some(TaskUnassigned)
    ensures forall tag :: Count(log, t, tag) == 0
  {
    if log != [] {
      var n := |log| - 1;
      assert log == log[..n] + [log[n]];
      NoEvents(log[..n], t);
    }
  }

  /** In any log that replays, assignments and requeues alternate and the rest happens once. */
  lemma {:induction false} LegalCounts(log: seq<Event>, t: TaskId)
    requires Replay(log, t).Some?
    ensures var st := Replay(log, t).value;
      && Count(log, t, Assigned) == Count(log, t, Requeued) + (if st.TaskUnassigned? then 0 else 1)
      && Count(log, t, Started) == (if st.TaskStarted? || st.TaskCompleted? then 1 else 0)
      && Count(log, t, Completed) == (if st.TaskCompleted? then 1 else 0)
  {
    if log != [] {
      LegalCounts(log[..|log| - 1], t);
    }
  }

  // ---------------------------------------------------------------- the invariants

  ghost predicate LogOk(db: Database) {
    && (forall e :: e in db.log ==> e.task in db.tasks)
    && forall t :: t in db.tasks ==>
         && Replay(db.log, t) == Some(db.tasks[t].status)
         && Count(db.log, t, Assigned) == db.tasks[t].version
  }

  /** How many TASK_READY events `t` must have: one once it was unlocked or published. */
  ghost function ReadyDue(k: State, t: TaskId): nat
    requires t in k.db.tasks
  {
    var o := k.db.tasks[t].order;
    if !Linked(k, o) then 0
    else if EdgesOf(k.db, t) != {} then (if k.db.tasks[t].pendingDeps == 0 then 1 else 0)
    else if k.confirms[o].AwaitList? || t in k.confirms[o].rest then 0 else 1
  }

  ghost predicate ReadyOnce(k: State) {
    forall t :: t in k.db.tasks ==> Count(k.db.log, t, Ready) == ReadyDue(k, t)
  }

  // ---------------------------------------------------------------- status and log move together

  lemma OneEventLog(db: Database, db': Database, t: TaskId, e: Event)
    requires LogOk(db) && OneRow(db, db', t) && db'.log == db.log + [e] && e.task == t
    requires Advance(db.tasks[t].status, TagOf(e.kind)) == Some(db'.tasks[t].status)
    requires db'.tasks[t].version == db.tasks[t].version + if TagOf(e.kind) == Assigned then 1 else 0
    ensures LogOk(db')
  {
    forall u | u in db'.tasks
      ensures Replay(db'.log, u) == Some(db'.tasks[u].status) && Count(db'.log, u, Assigned) == db'.tasks[u].version
    {
      AppendOne(db.log, e, u);
    }
  }

  lemma AddedLog(db: Database, db': Database, o: OrderId)
    requires LogOk(db) && OrderAdded(db, db', o) && db'.log == db.log
    ensures LogOk(db')
  {
    forall t | t in db'.tasks
      ensures Replay(db'.log, t) == Some(db'.tasks[t].status) && Count(db'.log, t, Assigned) == db'.tasks[t].version
    {
      if t !in db.tasks { NoEvents(db.log, t); }
    }
  }

  lemma CompleteLogShape(db: Database, t: TaskId, children: seq<TaskId>, now: Time)
    requires t in db.tasks && HasRunMetadata(db.tasks[t])
    ensures CompleteTx(db, t, children, now).log == db.log + ReadyEvents(children) + [Event(EventTaskCompleted, t)]
  {
  }

  lemma CompleteCounts(log: seq<Event>, t: TaskId, children: seq<TaskId>, u: TaskId)
    requires NoDuplicates(children)
    ensures var log' := log + ReadyEvents(children) + [Event(EventTaskCompleted, t)];
      && Replay(log', u) == (if u == t && Replay(log, u).Some? then Advance(Replay(log, u).value, Completed) else Replay(log, u))
      && Count(log', u, Assigned) == Count(log, u, Assigned)
      && Count(log', u, Ready) == Count(log, u, Ready) + if u in children then 1 else 0
  {
    AppendReady(log, children, u);
    AppendOne(log + ReadyEvents(children), Event(EventTaskCompleted, t), u);
  }

  lemma FinishedLog(db: Database, db': Database, t: TaskId, children: seq<TaskId>)
    requires LogOk(db) && HasStatus(db, t, TaskStarted) && Finished(db, db', t) && NoDuplicates(children)
    requires forall c :: c in children ==> c in db.tasks
    requires db'.log == db.log + ReadyEvents(children) + [Event(EventTaskCompleted, t)]
    ensures LogOk(db')
  {
    forall u | u in db'.tasks
      ensures Replay(db'.log, u) == Some(db'.tasks[u].status) && Count(db'.log, u, Assigned) == db'.tasks[u].version
    {
      CompleteCounts(db.log, t, children, u);
    }
    forall e | e in db'.log ensures e.task in db'.tasks {
      if e !in db.log && e in ReadyEvents(children) {
        var i :| 0 <= i < |children| && e == ReadyEvents(children)[i];
        assert children[i] in children;
      }
    }
  }

  lemma AssignLog(db: Database, t: TaskId, s: StaffId, now: Time)
    requires Rows(db) && LogOk(db) && HasStatus(db, t, TaskUnassigned) && s in db.staff
    ensures LogOk(AssignTo(db, t, s, now))
  {
    AssignOneRow(db, t, s, now);
    OneEventLog(db, AssignTo(db, t, s, now), t, Event(EventTaskAssigned(s, db.tasks[t].machine.value), t));
  }

  lemma CommitLog(k: State, t: TaskId, now: Time)
    requires Gate(k) && CompletionsOk(k) && LogOk(k.db) && Enabled(k, CommitComplete(t, now))
    ensures LogOk(Apply(k, CommitComplete(t, now)).db)
  {
    var children := k.completions[t].children;
    assert CompletionOk(k, t, k.completions[t]);
    CompleteFinishes(k, t, children, now);
    CompleteLogShape(k.db, t, children, now);
    FinishedLog(k.db, Apply(k, CommitComplete(t, now)).db, t, children);
  }

  lemma ReadyEventLog(db: Database, t: TaskId)
    requires LogOk(db) && t in db.tasks
    ensures LogOk(AppendEvent(db, Event(EventTaskReady, t)))
  {
    forall u | u in db.tasks
      ensures Replay(db.log + [Event(EventTaskReady, t)], u) == Some(db.tasks[u].status)
      ensures Count(db.log + [Event(EventTaskReady, t)], u, Assigned) == db.tasks[u].version
    {
      AppendOne(db.log, Event(EventTaskReady, t), u);
    }
  }

  lemma RequeueLog(db: Database, t: TaskId)
    requires Rows(db) && LogOk(db) && HasStatus(db, t, TaskAssigned)
    ensures LogOk(RequeueOne(db, t))
  {
    OneEventLog(db, RequeueOne(db, t), t, Event(EventTaskRequeued, t));
  }

  lemma StartLog(db: Database, t: TaskId, now: Time)
    requires Rows(db) && LogOk(db) && HasStatus(db, t, TaskAssigned)
    ensures LogOk(StartTx(db, t, now))
  {
    OneEventLog(db, StartTx(db, t, now), t, Event(EventTaskStarted, t));
  }

  lemma CreateLog(db: Database, o: OrderId, ids: seq<TaskId>, rows: seq<NewTask>)
    requires LogOk(db) && o !in db.orders && |ids| == |rows| && NoDuplicates(ids) && RowsOk(db, rows)
    requires forall t :: t in ids ==> t !in db.tasks
    ensures LogOk(CreateTx(db, o, ids, rows))
  {
    CreateAddsOrder(db, o, ids, rows);
    AddedLog(db, CreateTx(db, o, ids, rows), o);
  }

  lemma SameStatusesLog(db: Database, db': Database)
    requires LogOk(db) && db'.log == db.log && SameButPending(db'.tasks, db.tasks)
    ensures LogOk(db')
  {
  }

  lemma PublishEventLog(k: State, o: OrderId)
    requires ListsOk(k) && LogOk(k.db) && Enabled(k, PublishEvent(o))
    ensures LogOk(Apply(k, PublishEvent(o)).db)
  {
    assert k.confirms[o].rest[0] in k.confirms[o].rest;
    ReadyEventLog(k.db, k.confirms[o].rest[0]);
  }

  lemma LogStep(k: State, step: Step)
    requires Gate(k) && CompletionsOk(k) && ListsOk(k) && LogOk(k.db) && Enabled(k, step)
    ensures LogOk(Apply(k, step).db)
  {
    match step
    case CreateOrder(o, ids, rows, _) => CreateLog(k.db, o, ids, rows);
    case PublishEvent(o) => PublishEventLog(k, o);
    case Assign(t, s, now) => AssignLog(k.db, t, s, now);
    case RequeueExpired(t, _) => RequeueLog(k.db, t);
    case Start(t, now) => StartLog(k.db, t, now);
    case CommitComplete(t, now) => CommitLog(k, t, now);
    case InsertEdges(o) => SameStatusesLog(k.db, Apply(k, step).db);
    case Recalculate(o) => SameStatusesLog(k.db, RecalculateTx(k.db, o));
    case _ => QuietKeepsTables(k, step);
  }

  // ---------------------------------------------------------------- TASK_READY exactly once

  lemma OtherEventReady(k: State, k': State, t: TaskId, e: Event)
    requires ReadyOnce(k) && OneRow(k.db, k'.db, t) && k'.confirms == k.confirms
    requires k'.db.log == k.db.log + [e] && TagOf(e.kind) != Ready
    ensures ReadyOnce(k')
  {
    forall u | u in k'.db.tasks ensures Count(k'.db.log, u, Ready) == ReadyDue(k', u) {
      AppendOne(k.db.log, e, u);
      assert EdgesOf(k'.db, u) == EdgesOf(k.db, u);
    }
  }

  lemma AssignReady(k: State, t: TaskId, s: StaffId, now: Time)
    requires Gate(k) && ReadyOnce(k) && Enabled(k, Assign(t, s, now))
    ensures ReadyOnce(Apply(k, Assign(t, s, now)))
  {
    AssignOneRow(k.db, t, s, now);
    OtherEventReady(k, Apply(k, Assign(t, s, now)), t, Event(EventTaskAssigned(s, k.db.tasks[t].machine.value), t));
  }

  lemma PublishEventReady(k: State, o: OrderId)
    requires ListsOk(k) && ReadyOnce(k) && Enabled(k, PublishEvent(o))
    ensures ReadyOnce(Apply(k, PublishEvent(o)))
  {
    var k' := Apply(k, PublishEvent(o));
    var rest := k.confirms[o].rest;
    assert ListOk(k.db, o, k.confirms[o]) && rest[0] in rest;
    forall u | u in k'.db.tasks ensures Count(k'.db.log, u, Ready) == ReadyDue(k', u) {
      AppendOne(k.db.log, Event(EventTaskReady, rest[0]), u);
      PublishEventDue(k, o, u);
    }
  }

  lemma TailMember(s: seq<TaskId>, x: TaskId)
    requires s != [] && NoDuplicates(s)
    ensures x in s[1..] <==> x in s && x != s[0]
  {
    if x in s && x != s[0] {
      var i :| 0 <= i < |s| && s[i] == x;
      assert s[1..][i - 1] == x;
    }
    if x in s[1..] {
      var i :| 0 <= i < |s[1..]| && s[1..][i] == x;
      assert s[i + 1] == x;
    }
  }

  lemma PublishEventDue(k: State, o: OrderId, u: TaskId)
    requires Enabled(k, PublishEvent(o)) && ListOk(k.db, o, k.confirms[o]) && u in k.db.tasks
    ensures ReadyDue(Apply(k, PublishEvent(o)), u) == ReadyDue(k, u) + if u == k.confirms[o].rest[0] then 1 else 0
  {
    var k' := Apply(k, PublishEvent(o));
    var rest := k.confirms[o].rest;
    assert rest[0] in rest;
    TailMember(rest, u);
    assert EdgesOf(k'.db, u) == EdgesOf(k.db, u);
  }

  lemma FinishedReady(k: State, k': State, t: TaskId, children: seq<TaskId>)
    requires Gate(k) && ReadyOnce(k) && HasStatus(k.db, t, TaskStarted) && Finished(k.db, k'.db, t)
    requires k'.confirms == k.confirms && Enumerates(children, LastDeps(k.db, t))
    requires k'.db.log == k.db.log + ReadyEvents(children) + [Event(EventTaskCompleted, t)]
    ensures ReadyOnce(k')
  {
    forall u | u in k'.db.tasks ensures Count(k'.db.log, u, Ready) == ReadyDue(k', u) {
      CompleteCounts(k.db.log, t, children, u);
      NoSelfEdge(k.db, t);
      assert EdgesOf(k'.db, u) == EdgesOf(k.db, u);
      assert u in children <==> u in LastDeps(k.db, t);
      if Edge(u, t) in k.db.deps {
        ChildOfStarted(k, u, t);
        assert Edge(u, t) in EdgesOf(k.db, u);
      }
    }
  }

  lemma CommitReady(k: State, t: TaskId, now: Time)
    requires Gate(k) && CompletionsOk(k) && ReadyOnce(k) && Enabled(k, CommitComplete(t, now))
    ensures ReadyOnce(Apply(k, CommitComplete(t, now)))
  {
    var children := k.completions[t].children;
    assert CompletionOk(k, t, k.completions[t]);
    CompleteFinishes(k, t, children, now);
    CompleteLogShape(k.db, t, children, now);
    FinishedReady(k, Apply(k, CommitComplete(t, now)), t, children);
  }

  lemma CreateReady(k: State, k': State, o: OrderId)
    requires Gate(k) && ReadyOnce(k) && LogOk(k.db) && OrderAdded(k.db, k'.db, o) && o !in k.confirms
    requires o in k'.confirms && k'.confirms == k.confirms[o := k'.confirms[o]]
    requires !k'.confirms[o].Publishing? && k'.db.log == k.db.log
    ensures ReadyOnce(k')
  {
    forall u | u in k'.db.tasks ensures Count(k'.db.log, u, Ready) == ReadyDue(k', u) {
      if u in k.db.tasks {
        OldTaskDue(k, k', o, u);
      } else {
        NoEvents(k.db.log, u);
        NewTaskUnlinked(k.db, u);
        assert EdgesOf(k'.db, u) == EdgesOf(k.db, u);
      }
    }
  }

  lemma OldTaskDue(k: State, k': State, o: OrderId, u: TaskId)
    requires Rows(k.db) && OrderAdded(k.db, k'.db, o) && o !in k.confirms && u in k.db.tasks
    requires o in k'.confirms && k'.confirms == k.confirms[o := k'.confirms[o]]
    ensures ReadyDue(k', u) == ReadyDue(k, u)
  {
    assert k'.db.tasks[u] == k.db.tasks[u] && k.db.tasks[u].order != o;
    assert EdgesOf(k'.db, u) == EdgesOf(k.db, u);
  }

  lemma NewTaskUnlinked(db: Database, u: TaskId)
    requires Rows(db) && u !in db.tasks
    ensures EdgesOf(db, u) == {}
  {
    assert forall e :: e in EdgesOf(db, u) ==> e.task in db.tasks;
  }

  lemma InsertEdgesReady(k: State, o: OrderId)
    requires Gate(k) && ReadyOnce(k) && Enabled(k, InsertEdges(o))
    ensures ReadyOnce(Apply(k, InsertEdges(o)))
  {
    var k' := Apply(k, InsertEdges(o));
    forall u | u in k'.db.tasks && k.db.tasks[u].order != o ensures EdgesOf(k'.db, u) == EdgesOf(k.db, u) {}
  }

  lemma RecalculateLeavesPending(db: Database, o: OrderId, u: TaskId)
    requires u in db.tasks && db.tasks[u].order == o && EdgesOf(db, u) != {}
    ensures RecalculateTx(db, o).tasks[u].pendingDeps != 0
  {
  }

  lemma RecalculateDue(k: State, o: OrderId, u: TaskId)
    requires Phases(k) && Enabled(k, Recalculate(o)) && u in k.db.tasks
    ensures ReadyDue(Apply(k, Recalculate(o)), u) == ReadyDue(k, u)
  {
    var k' := Apply(k, Recalculate(o));
    assert EdgesOf(k'.db, u) == EdgesOf(k.db, u);
    if k.db.tasks[u].order == o && EdgesOf(k.db, u) != {} {
      RecalculateLeavesPending(k.db, o, u);
    }
  }

  lemma RecalculateReady(k: State, o: OrderId)
    requires Phases(k) && ReadyOnce(k) && Enabled(k, Recalculate(o))
    ensures ReadyOnce(Apply(k, Recalculate(o)))
  {
    var k' := Apply(k, Recalculate(o));
    forall u | u in k'.db.tasks ensures Count(k'.db.log, u, Ready) == ReadyDue(k', u) {
      RecalculateDue(k, o, u);
    }
  }

  lemma ListReadyReady(k: State, o: OrderId, ready: seq<TaskId>)
    requires Gate(k) && ReadyOnce(k) && Enabled(k, ListReady(o, ready))
    ensures ReadyOnce(Apply(k, ListReady(o, ready)))
  {
    var k' := Apply(k, ListReady(o, ready));
    forall u | u in k'.db.tasks && k.db.tasks[u].order == o && EdgesOf(k.db, u) == {}
      ensures u in ready
    {
      RootHasNothingPending(k, u);
      assert u in OrderReady(k.db, o);
    }
  }

  lemma RequeueReady(k: State, t: TaskId, cutoff: Time)
    requires ReadyOnce(k) && Enabled(k, RequeueExpired(t, cutoff))
    ensures ReadyOnce(Apply(k, RequeueExpired(t, cutoff)))
  {
    OtherEventReady(k, Apply(k, RequeueExpired(t, cutoff)), t, Event(EventTaskRequeued, t));
  }

  lemma StartReady(k: State, t: TaskId, now: Time)
    requires ReadyOnce(k) && Enabled(k, Start(t, now))
    ensures ReadyOnce(Apply(k, Start(t, now)))
  {
    OtherEventReady(k, Apply(k, Start(t, now)), t, Event(EventTaskStarted, t));
  }

  lemma CreateOrderReady(k: State, o: OrderId, ids: seq<TaskId>, rows: seq<NewTask>, links: seq<Link>)
    requires Gate(k) && ReadyOnce(k) && LogOk(k.db) && Enabled(k, CreateOrder(o, ids, rows, links))
    ensures ReadyOnce(Apply(k, CreateOrder(o, ids, rows, links)))
  {
    CreateAddsOrder(k.db, o, ids, rows);
    CreateReady(k, Apply(k, CreateOrder(o, ids, rows, links)), o);
  }

  lemma ConfirmReady(k: State, step: Step)
    requires Gate(k) && ListsOk(k) && ReadyOnce(k) && Enabled(k, step)
    requires step.InsertEdges? || step.Recalculate? || step.ListReady? || step.PublishEvent?
    ensures ReadyOnce(Apply(k, step))
  {
    match step
    case InsertEdges(o) => InsertEdgesReady(k, o);
    case Recalculate(o) => RecalculateReady(k, o);
    case ListReady(o, ready) => ListReadyReady(k, o, ready);
    case PublishEvent(o) => PublishEventReady(k, o);
  }

  lemma RowReady(k: State, step: Step)
    requires Gate(k) && ReadyOnce(k) && Enabled(k, step)
    requires step.Assign? || step.RequeueExpired? || step.Start?
    ensures ReadyOnce(Apply(k, step))
  {
    match step
    case Assign(t, s, now) => AssignReady(k, t, s, now);
    case RequeueExpired(t, cutoff) => RequeueReady(k, t, cutoff);
    case Start(t, now) => StartReady(k, t, now);
  }

  lemma QuietReady(k: State, step: Step)
    requires ReadyOnce(k) && Enabled(k, step) && Quiet(step) && !step.ListReady?
    ensures ReadyOnce(Apply(k, step))
  {
    SameCounts(k, Apply(k, step));
  }

  lemma ReadyStep(k: State, step: Step)
    requires Gate(k) && CompletionsOk(k) && ListsOk(k) && LogOk(k.db) && ReadyOnce(k) && Enabled(k, step)
    ensures ReadyOnce(Apply(k, step))
  {
    match step
    case CreateOrder(o, ids, rows, links) => CreateOrderReady(k, o, ids, rows, links);
    case InsertEdges(_) => ConfirmReady(k, step);
    case Recalculate(_) => ConfirmReady(k, step);
    case ListReady(_, _) => ConfirmReady(k, step);
    case PublishEvent(_) => ConfirmReady(k, step);
    case Assign(_, _, _) => RowReady(k, step);
    case RequeueExpired(_, _) => RowReady(k, step);
    case Start(_, _) => RowReady(k, step);
    case CommitComplete(t, now) => CommitReady(k, t, now);
    case _ => QuietReady(k, step);
  }

  lemma SameCounts(k: State, k': State)
    requires ReadyOnce(k) && k'.db == k.db && k'.confirms.Keys == k.confirms.Keys
    requires forall o :: o in k.confirms && k'.confirms[o] != k.confirms[o] ==>
      k.confirms[o].Publishing? && k'.confirms[o].Publishing? && k'.confirms[o].rest == k.confirms[o].rest
    ensures ReadyOnce(k')
  {
  }
}
