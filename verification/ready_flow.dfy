/**
 * Where a ready task is at any time: in the queue, in some allocator's batch, or on a list that
 * some process is still enqueuing. An open completion enqueues children before it commits; if it
 * rolls back, the queue keeps ids of tasks that are not ready.
 */
module ReadyFlow {
  import opened Model
  import opened Transactions
  import opened ResourceAccounting
  import opened ReadyOrder
  import opened KitchenMachine
  import opened DependencyGate

  /** ConfirmOrder has `t` still before it. */
  predicate Upcoming(p: Confirm, t: TaskId) {
    p.AwaitList? || (p.Publishing? && t in (if p.enqueued && p.rest != [] then p.rest[1..] else p.rest))
  }

  ghost predicate NothingLost(k: State) {
    forall t :: t in k.db.tasks && Linked(k, k.db.tasks[t].order) && Waiting(k.db, t) ==>
      Held(k, t) || Upcoming(k.confirms[k.db.tasks[t].order], t)
  }

  /** The dependents of `d` that wait for one task only. */
  function LastDeps(db: Database, d: TaskId): set<TaskId> {
    set c | c in db.tasks && Edge(c, d) in db.deps && db.tasks[c].pendingDeps == 1
  }

  ghost predicate CompletionOk(k: State, d: TaskId, c: Completion) {
    && HasStatus(k.db, d, TaskStarted)
    && c.next <= |c.children|
    && Enumerates(c.children, LastDeps(k.db, d))
    && forall i :: 0 <= i < c.next ==> Held(k, c.children[i])
  }

  ghost predicate CompletionsOk(k: State) {
    && (forall d :: d in k.completions ==> CompletionOk(k, d, k.completions[d]))
    && (forall d, e :: d in k.completions && e in k.completions && d != e ==> !ShareDependent(k.db, d, e))
  }

  /** A publishing list holds distinct root tasks of its order. */
  ghost predicate ListOk(db: Database, o: OrderId, p: Confirm)
    requires p.Publishing?
  {
    && NoDuplicates(p.rest)
    && (p.enqueued ==> p.rest != [])
    && forall t :: t in p.rest ==> t in db.tasks && db.tasks[t].order == o && EdgesOf(db, t) == {}
  }

  ghost predicate ListsOk(k: State) {
    forall o :: o in k.confirms && k.confirms[o].Publishing? ==> ListOk(k.db, o, k.confirms[o])
  }

  predicate StartedDep(db: Database, t: TaskId, d: TaskId) {
    Edge(t, d) in db.deps && HasStatus(db, d, TaskStarted)
  }

  /** An id that circulates before its task is ready waits for one started task only. */
  ghost predicate EarlyIds(k: State) {
    forall t :: Held(k, t) && HasStatus(k.db, t, TaskUnassigned) && k.db.tasks[t].pendingDeps != 0 ==>
      k.db.tasks[t].pendingDeps == 1 && exists d :: StartedDep(k.db, t, d)
  }

  ghost predicate Flow(k: State) {
    HeldLive(k) && NothingLost(k) && CompletionsOk(k) && ListsOk(k) && EarlyIds(k)
  }

  // ---------------------------------------------------------------- frame: how the rows may change

  /** Ids that stop being held are ids of tasks that are no longer unassigned. */
  ghost predicate HeldKept(k: State, k': State) {
    forall t :: Held(k, t) && HasStatus(k'.db, t, TaskUnassigned) ==> Held(k', t)
  }

  lemma CompletionKept(k: State, k': State, d: TaskId)
    requires Gate(k) && d in k.completions && CompletionOk(k, d, k.completions[d])
    requires HasStatus(k'.db, d, TaskStarted) && HeldKept(k, k')
    requires LastDeps(k'.db, d) == LastDeps(k.db, d)
    requires forall c :: c in LastDeps(k.db, d) ==> HasStatus(k'.db, c, TaskUnassigned)
    ensures CompletionOk(k', d, k.completions[d])
  {
    var c := k.completions[d];
    forall i | 0 <= i < c.next ensures Held(k', c.children[i]) {
      assert c.children[i] in c.children;
      assert c.children[i] in LastDeps(k.db, d);
    }
  }

  lemma LastDepsUnassigned(k: State, d: TaskId)
    requires Gate(k) && HasStatus(k.db, d, TaskStarted)
    ensures forall c :: c in LastDeps(k.db, d) ==> HasStatus(k.db, c, TaskUnassigned)
  {
    forall c | c in LastDeps(k.db, d) ensures HasStatus(k.db, c, TaskUnassigned) {
      ChildOfStarted(k, c, d);
    }
  }

  // ---------------------------------------------------------------- steps that leave the rows alone

  /** Only queue, batches and lists change. */
  ghost predicate SameRows(k: State, k': State) {
    k'.db == k.db.(log := k'.db.log) && k'.confirms.Keys == k.confirms.Keys
  }

  lemma SameRowsCompletions(k: State, k': State)
    requires Gate(k) && CompletionsOk(k) && SameRows(k, k') && HeldKept(k, k')
    requires k'.completions.Keys <= k.completions.Keys
    requires forall d :: d in k'.completions ==> k'.completions[d] == k.completions[d]
    ensures CompletionsOk(k')
  {
    forall d | d in k'.completions ensures CompletionOk(k', d, k'.completions[d]) {
      assert CompletionOk(k, d, k.completions[d]);
      SameRowsCompletion(k, k', d);
    }
    assert forall d, e :: ShareDependent(k'.db, d, e) == ShareDependent(k.db, d, e);
  }

  lemma SameRowsCompletion(k: State, k': State, d: TaskId)
    requires Gate(k) && SameRows(k, k') && HeldKept(k, k') && d in k.completions && CompletionOk(k, d, k.completions[d])
    ensures CompletionOk(k', d, k.completions[d])
  {
    LastDepsUnassigned(k, d);
    CompletionKept(k, k', d);
  }

  lemma SameRowsEarly(k: State, k': State)
    requires EarlyIds(k) && SameRows(k, k')
    requires forall t :: Held(k', t) && HasStatus(k.db, t, TaskUnassigned) && k.db.tasks[t].pendingDeps != 0 ==> Held(k, t)
    ensures EarlyIds(k')
  {
    forall t | Held(k', t) && HasStatus(k'.db, t, TaskUnassigned) && k'.db.tasks[t].pendingDeps != 0
      ensures k'.db.tasks[t].pendingDeps == 1 && exists d :: StartedDep(k'.db, t, d)
    {
      var d :| StartedDep(k.db, t, d);
      assert StartedDep(k'.db, t, d);
    }
  }

  /** Pop, GiveUp, Reenqueue: ids move between the queue and the batches. */
  lemma MoveFlow(k: State, k': State)
    requires Gate(k) && Flow(k) && k'.db == k.db && k'.confirms == k.confirms && k'.completions == k.completions
    requires HeldKept(k, k') && forall t :: Held(k', t) ==> Held(k, t)
    ensures Flow(k')
  {
    SameRowsCompletions(k, k');
    SameRowsEarly(k, k');
  }

  lemma PopFlow(k: State)
    requires Gate(k) && Flow(k)
    ensures Flow(Apply(k, Pop))
  {
    var k' := Apply(k, Pop);
    var ids := TopN(k.queue, POP_SIZE);
    forall t ensures Held(k', t) <==> Held(k, t) {
      assert t in multiset(ids) <==> t in ids;
    }
    MoveFlow(k, k');
  }

  lemma GiveUpFlow(k: State, t: TaskId)
    requires Gate(k) && Flow(k) && Enabled(k, GiveUp(t))
    ensures Flow(Apply(k, GiveUp(t)))
  {
    MoveFlow(k, Apply(k, GiveUp(t)));
  }

  lemma ReenqueueFlow(k: State, t: TaskId, score: real)
    requires Gate(k) && Flow(k) && Enabled(k, Reenqueue(t, score))
    ensures Flow(Apply(k, Reenqueue(t, score)))
  {
    MoveFlow(k, Apply(k, Reenqueue(t, score)));
  }

  lemma RollbackFlow(k: State, t: TaskId)
    requires Gate(k) && Flow(k) && Enabled(k, RollbackComplete(t))
    ensures Flow(Apply(k, RollbackComplete(t)))
  {
    var k' := Apply(k, RollbackComplete(t));
    SameRowsCompletions(k, k');
    SameHeldFlow(k, k');
  }

  // ---------------------------------------------------------------- publishing the roots

  lemma RootHasNothingPending(k: State, t: TaskId)
    requires Gate(k) && t in k.db.tasks && EdgesOf(k.db, t) == {}
    ensures k.db.tasks[t].pendingDeps == 0
  {
    assert forall e :: e in OpenEdges(k.db, t) ==> e in EdgesOf(k.db, t);
    assert OpenEdges(k.db, t) == {};
  }

  lemma ListReadyLists(k: State, o: OrderId, ready: seq<TaskId>)
    requires Gate(k) && ListsOk(k) && Enabled(k, ListReady(o, ready))
    ensures ListOk(k.db, o, Publishing(ready, false))
  {
    forall t | t in ready ensures t in k.db.tasks && k.db.tasks[t].order == o && EdgesOf(k.db, t) == {} {
      assert t in OrderReady(k.db, o);
      assert forall e :: e in EdgesOf(k.db, t) ==> e.dep in k.db.tasks && k.db.tasks[e.dep].status.TaskUnassigned?;
      WaitingIsUnblocked(k, t);
    }
  }

  lemma ListReadyFlow(k: State, o: OrderId, ready: seq<TaskId>)
    requires Gate(k) && Flow(k) && Enabled(k, ListReady(o, ready))
    ensures Flow(Apply(k, ListReady(o, ready)))
  {
    var k' := Apply(k, ListReady(o, ready));
    ListReadyLists(k, o, ready);
    SameRowsCompletions(k, k');
    SameRowsEarly(k, k');
    forall t | t in k.db.tasks && Linked(k', k.db.tasks[t].order) && Waiting(k.db, t)
      ensures Held(k', t) || Upcoming(k'.confirms[k.db.tasks[t].order], t)
    {
      assert t in OrderReady(k.db, k.db.tasks[t].order);
    }
  }

  lemma PublishEnqueueFlow(k: State, o: OrderId, score: real)
    requires Gate(k) && Flow(k) && Enabled(k, PublishEnqueue(o, score))
    ensures Flow(Apply(k, PublishEnqueue(o, score)))
  {
    var k' := Apply(k, PublishEnqueue(o, score));
    PublishEnqueueLists(k, o, score);
    SameRowsCompletions(k, k');
    SameRowsEarly(k, k');
    PublishEnqueueNothingLost(k, o, score);
  }

  lemma PublishEnqueueLists(k: State, o: OrderId, score: real)
    requires Gate(k) && HeldLive(k) && ListsOk(k) && Enabled(k, PublishEnqueue(o, score))
    ensures HeldLive(Apply(k, PublishEnqueue(o, score))) && ListsOk(Apply(k, PublishEnqueue(o, score)))
    ensures var t := k.confirms[o].rest[0]; t in k.db.tasks && k.db.tasks[t].pendingDeps == 0
  {
    var rest := k.confirms[o].rest;
    assert ListOk(k.db, o, k.confirms[o]);
    assert rest[0] in rest;
    RootHasNothingPending(k, rest[0]);
  }

  lemma PublishEnqueueNothingLost(k: State, o: OrderId, score: real)
    requires NothingLost(k) && Enabled(k, PublishEnqueue(o, score))
    ensures NothingLost(Apply(k, PublishEnqueue(o, score)))
  {
    var k' := Apply(k, PublishEnqueue(o, score));
    var rest := k.confirms[o].rest;
    forall t | t in k.db.tasks && Linked(k', k.db.tasks[t].order) && Waiting(k.db, t)
      ensures Held(k', t) || Upcoming(k'.confirms[k.db.tasks[t].order], t)
    {
      if k.db.tasks[t].order == o && t in rest && t != rest[0] {
        var i :| 0 <= i < |rest| && rest[i] == t;
        assert rest[1..][i - 1] == t;
      }
    }
  }

  lemma PublishEventLists(k: State, o: OrderId)
    requires ListsOk(k) && Enabled(k, PublishEvent(o))
    ensures ListsOk(Apply(k, PublishEvent(o)))
  {
    var k' := Apply(k, PublishEvent(o));
    forall p | p in k'.confirms && k'.confirms[p].Publishing? ensures ListOk(k'.db, p, k'.confirms[p]) {
      assert forall t :: t in k.db.tasks ==> EdgesOf(k'.db, t) == EdgesOf(k.db, t);
      assert ListOk(k.db, p, k.confirms[p]);
      assert forall t :: t in k'.confirms[p].rest ==> t in k.confirms[p].rest;
    }
  }

  lemma PublishEventNothingLost(k: State, o: OrderId)
    requires NothingLost(k) && Enabled(k, PublishEvent(o))
    ensures NothingLost(Apply(k, PublishEvent(o)))
  {
  }

  lemma PublishEventFlow(k: State, o: OrderId)
    requires Gate(k) && Flow(k) && Enabled(k, PublishEvent(o))
    ensures Flow(Apply(k, PublishEvent(o)))
  {
    var k' := Apply(k, PublishEvent(o));
    PublishEventLists(k, o);
    PublishEventNothingLost(k, o);
    SameRowsCompletions(k, k');
    SameRowsEarly(k, k');
  }

  lemma BeginReadsLastDeps(k: State, t: TaskId)
    requires Gate(k) && HasStatus(k.db, t, TaskStarted)
    ensures ReadyChildren(DecrementDependents(k.db, t), t) == LastDeps(k.db, t)
  {
    var d := DecrementDependents(k.db, t);
    forall c | c in k.db.tasks && Edge(c, t) in k.db.deps
      ensures c in ReadyChildren(d, t) <==> c in LastDeps(k.db, t)
    {
      ChildOfStarted(k, c, t);
    }
  }

  lemma BeginCompletions(k: State, t: TaskId, children: seq<TaskId>)
    requires Gate(k) && CompletionsOk(k) && Enabled(k, BeginComplete(t, children))
    ensures CompletionsOk(Apply(k, BeginComplete(t, children)))
  {
    var k' := Apply(k, BeginComplete(t, children));
    BeginReadsLastDeps(k, t);
    forall d | d in k'.completions ensures CompletionOk(k', d, k'.completions[d]) {
      if d != t {
        assert CompletionOk(k, d, k.completions[d]);
      }
    }
    forall d | d in k.completions ensures ShareDependent(k.db, d, t) == ShareDependent(k.db, t, d) {}
  }

  lemma BeginFlow(k: State, t: TaskId, children: seq<TaskId>)
    requires Gate(k) && Flow(k) && Enabled(k, BeginComplete(t, children))
    ensures Flow(Apply(k, BeginComplete(t, children)))
  {
    BeginCompletions(k, t, children);
    SameHeldFlow(k, Apply(k, BeginComplete(t, children)));
  }

  /** All of the flow that does not look at the open completions. */
  lemma SameHeldFlow(k: State, k': State)
    requires HeldLive(k) && NothingLost(k) && ListsOk(k) && EarlyIds(k)
    requires k' == k.(completions := k'.completions)
    ensures HeldLive(k') && NothingLost(k') && ListsOk(k') && EarlyIds(k')
  {
    SameRowsEarly(k, k');
  }

  lemma EnqueueChildCompletions(k: State, t: TaskId, score: real)
    requires Gate(k) && CompletionsOk(k) && Enabled(k, EnqueueChild(t, score))
    ensures CompletionsOk(Apply(k, EnqueueChild(t, score)))
  {
    var k' := Apply(k, EnqueueChild(t, score));
    forall d | d in k'.completions ensures CompletionOk(k', d, k'.completions[d]) {
      LastDepsUnassigned(k, d);
      CompletionKept(k, k', d);
    }
  }

  lemma EnqueueChildFlow(k: State, t: TaskId, score: real)
    requires Gate(k) && Flow(k) && Enabled(k, EnqueueChild(t, score))
    ensures Flow(Apply(k, EnqueueChild(t, score)))
  {
    var k' := Apply(k, EnqueueChild(t, score));
    var child := k.completions[t].children[k.completions[t].next];
    assert child in k.completions[t].children;
    assert child in LastDeps(k.db, t);
    ChildOfStarted(k, child, t);
    EnqueueChildCompletions(k, t, score);
    EnqueueChildEarly(k, k', t, child);
  }

  lemma EnqueueChildEarly(k: State, k': State, t: TaskId, child: TaskId)
    requires EarlyIds(k) && k'.db == k.db && StartedDep(k.db, child, t) && child in LastDeps(k.db, t)
    requires forall u :: Held(k', u) ==> Held(k, u) || u == child
    ensures EarlyIds(k')
  {
    forall u | Held(k', u) && HasStatus(k.db, u, TaskUnassigned) && k.db.tasks[u].pendingDeps != 0
      ensures k.db.tasks[u].pendingDeps == 1 && exists d :: StartedDep(k.db, u, d)
    {
      if u == child { assert StartedDep(k.db, child, t); }
    }
  }

  // ---------------------------------------------------------------- steps that change one row

  lemma OneRowLastDeps(db: Database, db': Database, t: TaskId, d: TaskId)
    requires OneRow(db, db', t)
    ensures LastDeps(db', d) == LastDeps(db, d)
  {
  }

  lemma OneRowCompletions(k: State, k': State, t: TaskId)
    requires Gate(k) && CompletionsOk(k) && OneRow(k.db, k'.db, t) && k'.completions == k.completions
    requires HeldKept(k, k') && k.db.tasks[t].pendingDeps == 0 && t !in k.completions
    ensures CompletionsOk(k')
  {
    forall d | d in k.completions ensures CompletionOk(k', d, k.completions[d]) {
      LastDepsUnassigned(k, d);
      OneRowLastDeps(k.db, k'.db, t, d);
      CompletionKept(k, k', d);
    }
    forall d, e | d in k.completions && e in k.completions && d != e ensures !ShareDependent(k'.db, d, e) {
      assert !ShareDependent(k.db, d, e);
    }
  }

  lemma OneRowEarly(k: State, k': State, t: TaskId)
    requires EarlyIds(k) && OneRow(k.db, k'.db, t) && k.db.tasks[t].pendingDeps == 0
    requires HasStatus(k.db, t, TaskStarted) ==> HasStatus(k'.db, t, TaskStarted)
    requires forall u :: Held(k', u) && u != t ==> Held(k, u)
    ensures EarlyIds(k')
  {
    forall u | Held(k', u) && HasStatus(k'.db, u, TaskUnassigned) && k'.db.tasks[u].pendingDeps != 0
      ensures k'.db.tasks[u].pendingDeps == 1 && exists d :: StartedDep(k'.db, u, d)
    {
      var d :| StartedDep(k.db, u, d);
      assert StartedDep(k'.db, u, d);
    }
  }

  lemma OneRowLists(k: State, k': State, t: TaskId)
    requires ListsOk(k) && OneRow(k.db, k'.db, t) && k'.confirms == k.confirms
    ensures ListsOk(k')
  {
    forall o | o in k'.confirms && k'.confirms[o].Publishing? ensures ListOk(k'.db, o, k'.confirms[o]) {
      assert ListOk(k.db, o, k.confirms[o]);
      assert forall u :: u in k.db.tasks ==> EdgesOf(k'.db, u) == EdgesOf(k.db, u);
    }
  }

  lemma OneRowFlow(k: State, k': State, t: TaskId)
    requires Gate(k) && Flow(k) && OneRow(k.db, k'.db, t) && k'.confirms == k.confirms && k'.completions == k.completions
    requires k.db.tasks[t].pendingDeps == 0 && t !in k.completions
    requires HasStatus(k.db, t, TaskStarted) ==> HasStatus(k'.db, t, TaskStarted)
    requires HeldKept(k, k') && forall u :: Held(k', u) && u != t ==> Held(k, u)
    requires Held(k', t) ==> Live(k, k.db.tasks[t].order)
    requires HasStatus(k'.db, t, TaskUnassigned) ==> Held(k', t)
    ensures Flow(k')
  {
    OneRowCompletions(k, k', t);
    OneRowEarly(k, k', t);
    OneRowLists(k, k', t);
  }

  lemma AssignFlow(k: State, t: TaskId, s: StaffId, now: Time)
    requires Gate(k) && Flow(k) && Enabled(k, Assign(t, s, now))
    ensures Flow(Apply(k, Assign(t, s, now)))
  {
    AssignOneRow(k.db, t, s, now);
    OneRowFlow(k, Apply(k, Assign(t, s, now)), t);
  }

  lemma StartFlow(k: State, t: TaskId, now: Time)
    requires Gate(k) && Flow(k) && Enabled(k, Start(t, now))
    ensures Flow(Apply(k, Start(t, now)))
  {
    BusyHasNothingPending(k, t);
    OneRowFlow(k, Apply(k, Start(t, now)), t);
  }

  lemma RequeueFlow(k: State, t: TaskId, cutoff: Time)
    requires Gate(k) && Flow(k) && Enabled(k, RequeueExpired(t, cutoff))
    ensures Flow(Apply(k, RequeueExpired(t, cutoff)))
  {
    BusyHasNothingPending(k, t);
    OneRowFlow(k, Apply(k, RequeueExpired(t, cutoff)), t);
  }

  // ---------------------------------------------------------------- a completion commits

  lemma FinishedCompletion(k: State, k': State, t: TaskId, d: TaskId)
    requires Gate(k) && HasStatus(k.db, t, TaskStarted) && Finished(k.db, k'.db, t) && HeldKept(k, k')
    requires d in k.completions && CompletionOk(k, d, k.completions[d]) && d != t && !ShareDependent(k.db, d, t)
    ensures CompletionOk(k', d, k.completions[d])
  {
    assert Edge(d, t) in k.db.deps ==> HasStatus(k.db, d, TaskUnassigned) by {
      if Edge(d, t) in k.db.deps { ChildOfStarted(k, d, t); }
    }
    LastDepsUnassigned(k, d);
    forall c | c in k.db.tasks && Edge(c, d) in k.db.deps
      ensures Edge(c, t) !in k.db.deps && k'.db.tasks[c] == k.db.tasks[c]
    {
      ChildOfStarted(k, c, d);
    }
    CompletionKept(k, k', d);
  }

  lemma FinishedCompletions(k: State, k': State, t: TaskId)
    requires Gate(k) && CompletionsOk(k) && t in k.completions && Finished(k.db, k'.db, t)
    requires k'.completions == k.completions - {t} && HeldKept(k, k')
    ensures CompletionsOk(k')
  {
    assert CompletionOk(k, t, k.completions[t]);
    forall d | d in k'.completions ensures CompletionOk(k', d, k'.completions[d]) {
      FinishedCompletion(k, k', t, d);
    }
    forall d, e | d in k'.completions && e in k'.completions && d != e ensures !ShareDependent(k'.db, d, e) {
      assert !ShareDependent(k.db, d, e);
    }
  }

  lemma FinishedNothingLost(k: State, k': State, t: TaskId)
    requires Gate(k) && NothingLost(k) && t in k.completions && CompletionOk(k, t, k.completions[t])
    requires k.completions[t].next == |k.completions[t].children|
    requires Finished(k.db, k'.db, t) && k'.confirms == k.confirms
    requires forall u :: Held(k', u) <==> Held(k, u)
    ensures NothingLost(k')
  {
    var children := k.completions[t].children;
    forall u | u in k'.db.tasks && Linked(k', k'.db.tasks[u].order) && Waiting(k'.db, u)
      ensures Held(k', u) || Upcoming(k'.confirms[k'.db.tasks[u].order], u)
    {
      if u != t && Edge(u, t) in k.db.deps {
        assert u in LastDeps(k.db, t);
        var i :| 0 <= i < |children| && children[i] == u;
      }
    }
  }

  lemma FinishedEarly(k: State, k': State, t: TaskId)
    requires Gate(k) && EarlyIds(k) && HasStatus(k.db, t, TaskStarted) && Finished(k.db, k'.db, t)
    requires forall u :: Held(k', u) <==> Held(k, u)
    ensures EarlyIds(k')
  {
    forall u | Held(k', u) && HasStatus(k'.db, u, TaskUnassigned) && k'.db.tasks[u].pendingDeps != 0
      ensures k'.db.tasks[u].pendingDeps == 1 && exists d :: StartedDep(k'.db, u, d)
    {
      if Edge(u, t) in k.db.deps {
        ChildOfStarted(k, u, t);
      }
      var d :| StartedDep(k.db, u, d);
      ChildOfStarted(k, u, d);
      assert Edge(d, t) in k.db.deps ==> HasStatus(k.db, d, TaskUnassigned) by {
        if Edge(d, t) in k.db.deps { ChildOfStarted(k, d, t); }
      }
      assert StartedDep(k'.db, u, d);
    }
  }

  lemma FinishedLists(k: State, k': State, t: TaskId)
    requires ListsOk(k) && Finished(k.db, k'.db, t) && k'.confirms == k.confirms
    ensures ListsOk(k')
  {
    forall o | o in k'.confirms && k'.confirms[o].Publishing? ensures ListOk(k'.db, o, k'.confirms[o]) {
      assert ListOk(k.db, o, k.confirms[o]);
      assert forall u :: u in k.db.tasks ==> EdgesOf(k'.db, u) == EdgesOf(k.db, u) && k'.db.tasks[u].order == k.db.tasks[u].order;
    }
  }

  lemma FinishedHeldLive(k: State, k': State, t: TaskId)
    requires HeldLive(k) && Finished(k.db, k'.db, t) && k'.confirms == k.confirms
    requires forall u :: Held(k', u) <==> Held(k, u)
    ensures HeldLive(k')
  {
    assert forall u :: u in k.db.tasks ==> k'.db.tasks[u].order == k.db.tasks[u].order;
  }

  lemma CommitFlow(k: State, t: TaskId, now: Time)
    requires Gate(k) && Flow(k) && Enabled(k, CommitComplete(t, now))
    ensures Flow(Apply(k, CommitComplete(t, now)))
  {
    var k' := Apply(k, CommitComplete(t, now));
    assert CompletionOk(k, t, k.completions[t]);
    CompleteFinishes(k, t, k.completions[t].children, now);
    FinishedCompletions(k, k', t);
    FinishedNothingLost(k, k', t);
    FinishedEarly(k, k', t);
    FinishedLists(k, k', t);
    FinishedHeldLive(k, k', t);
  }

  // ---------------------------------------------------------------- ConfirmOrder before it publishes

  /** Only order `o`, of which nothing is in the queue yet, changes. */
  ghost predicate OnlyOrder(k: State, k': State, o: OrderId) {
    && !Live(k, o) && !Live(k', o) && (Linked(k', o) ==> k'.confirms[o].AwaitList?)
    && (forall p :: p != o ==> (p in k'.confirms <==> p in k.confirms))
    && (forall p :: p != o && p in k.confirms ==> k'.confirms[p] == k.confirms[p])
    && k.db.tasks.Keys <= k'.db.tasks.Keys
    && (forall t :: t in k.db.tasks ==> k'.db.tasks[t].order == k.db.tasks[t].order)
    && (forall t :: t in k'.db.tasks && k'.db.tasks[t].order != o ==>
          t in k.db.tasks && k'.db.tasks[t] == k.db.tasks[t] && EdgesOf(k'.db, t) == EdgesOf(k.db, t))
    && k'.queue == k.queue && k'.popped == k.popped && k'.returning == k.returning && k'.completions == k.completions
  }

  lemma OnlyOrderEdge(k: State, k': State, o: OrderId, c: TaskId, d: TaskId)
    requires Gate(k) && Gate(k') && OnlyOrder(k, k', o) && d in k.db.tasks && k.db.tasks[d].order != o
    ensures Edge(c, d) in k'.db.deps <==> Edge(c, d) in k.db.deps
    ensures Edge(c, d) in k.db.deps ==> c in k.db.tasks && k'.db.tasks[c] == k.db.tasks[c]
  {
    var e := Edge(c, d);
    assert e.task == c && e.dep == d;
    if e in k'.db.deps || e in k.db.deps {
      assert e in EdgesOf(k'.db, c) <==> e in EdgesOf(k.db, c);
    }
  }

  lemma OnlyOrderCompletion(k: State, k': State, o: OrderId, d: TaskId)
    requires Gate(k) && Gate(k') && OnlyOrder(k, k', o)
    requires d in k.completions && CompletionOk(k, d, k.completions[d])
    ensures CompletionOk(k', d, k.completions[d])
  {
    forall c ensures c in LastDeps(k'.db, d) <==> c in LastDeps(k.db, d) {
      OnlyOrderEdge(k, k', o, c, d);
    }
  }

  lemma OnlyOrderLocks(k: State, k': State, o: OrderId, d: TaskId, e: TaskId)
    requires Gate(k) && Gate(k') && OnlyOrder(k, k', o) && !ShareDependent(k.db, d, e)
    requires HasStatus(k.db, d, TaskStarted) && HasStatus(k.db, e, TaskStarted)
    ensures !ShareDependent(k'.db, d, e)
  {
    forall c | c in k'.db.tasks ensures !(Edge(c, d) in k'.db.deps && Edge(c, e) in k'.db.deps) {
      OnlyOrderEdge(k, k', o, c, d);
      OnlyOrderEdge(k, k', o, c, e);
    }
  }

  lemma OnlyOrderCompletions(k: State, k': State, o: OrderId)
    requires Gate(k) && Gate(k') && CompletionsOk(k) && OnlyOrder(k, k', o)
    ensures CompletionsOk(k')
  {
    forall d | d in k'.completions ensures CompletionOk(k', d, k'.completions[d]) {
      OnlyOrderCompletion(k, k', o, d);
    }
    forall d, e | d in k'.completions && e in k'.completions && d != e ensures !ShareDependent(k'.db, d, e) {
      assert CompletionOk(k, d, k.completions[d]) && CompletionOk(k, e, k.completions[e]);
      OnlyOrderLocks(k, k', o, d, e);
    }
  }

  lemma OnlyOrderEarly(k: State, k': State, o: OrderId)
    requires Gate(k) && Gate(k') && HeldLive(k) && EarlyIds(k) && OnlyOrder(k, k', o)
    ensures EarlyIds(k')
  {
    forall u | Held(k', u) && HasStatus(k'.db, u, TaskUnassigned) && k'.db.tasks[u].pendingDeps != 0
      ensures k'.db.tasks[u].pendingDeps == 1 && exists d :: StartedDep(k'.db, u, d)
    {
      assert Held(k, u);
      var d :| StartedDep(k.db, u, d);
      ChildOfStarted(k, u, d);
      OnlyOrderEdge(k, k', o, u, d);
      assert StartedDep(k'.db, u, d);
    }
  }

  lemma OnlyOrderLists(k: State, k': State, o: OrderId)
    requires ListsOk(k) && OnlyOrder(k, k', o)
    ensures ListsOk(k')
  {
    forall p | p in k'.confirms && k'.confirms[p].Publishing? ensures ListOk(k'.db, p, k'.confirms[p]) {
      assert ListOk(k.db, p, k.confirms[p]);
    }
  }

  lemma OnlyOrderNothingLost(k: State, k': State, o: OrderId)
    requires NothingLost(k) && OnlyOrder(k, k', o)
    ensures NothingLost(k')
  {
  }

  lemma OnlyOrderFlow(k: State, k': State, o: OrderId)
    requires Gate(k) && Gate(k') && Flow(k) && OnlyOrder(k, k', o)
    ensures Flow(k')
  {
    OnlyOrderCompletions(k, k', o);
    OnlyOrderEarly(k, k', o);
    OnlyOrderLists(k, k', o);
    OnlyOrderNothingLost(k, k', o);
  }

  lemma CreateOnlyOrder(k: State, o: OrderId, ids: seq<TaskId>, rows: seq<NewTask>, links: seq<Link>)
    requires Phases(k) && Rows(k.db) && Enabled(k, CreateOrder(o, ids, rows, links))
    ensures OnlyOrder(k, Apply(k, CreateOrder(o, ids, rows, links)), o)
  {
    CreateAddsOrder(k.db, o, ids, rows);
  }

  lemma InsertEdgesOnlyOrder(k: State, o: OrderId)
    requires Phases(k) && Enabled(k, InsertEdges(o))
    ensures OnlyOrder(k, Apply(k, InsertEdges(o)), o)
  {
  }

  lemma RecalculateOnlyOrder(k: State, o: OrderId)
    requires Enabled(k, Recalculate(o))
    ensures OnlyOrder(k, Apply(k, Recalculate(o)), o)
  {
    var k' := Apply(k, Recalculate(o));
    assert forall t :: EdgesOf(k'.db, t) == EdgesOf(k.db, t);
  }

  /** Creating, linking and counting an order. */
  lemma UnpublishedFlow(k: State, step: Step)
    requires Gate(k) && Flow(k) && Enabled(k, step) && Gate(Apply(k, step))
    requires step.CreateOrder? || step.InsertEdges? || step.Recalculate?
    ensures Flow(Apply(k, step))
  {
    match step {
      case CreateOrder(o, ids, rows, links) => CreateOnlyOrder(k, o, ids, rows, links);
      case InsertEdges(o) => InsertEdgesOnlyOrder(k, o);
      case Recalculate(o) => RecalculateOnlyOrder(k, o);
    }
    OnlyOrderFlow(k, Apply(k, step), step.o);
  }

  /** Completing a task. */
  lemma CompletionFlow(k: State, step: Step)
    requires Gate(k) && Flow(k) && Enabled(k, step)
    requires step.BeginComplete? || step.EnqueueChild? || step.CommitComplete? || step.RollbackComplete?
    ensures Flow(Apply(k, step))
  {
    match step
    case BeginComplete(t, children) => BeginFlow(k, t, children);
    case EnqueueChild(t, score) => EnqueueChildFlow(k, t, score);
    case CommitComplete(t, now) => CommitFlow(k, t, now);
    case RollbackComplete(t) => RollbackFlow(k, t);
  }

  lemma FlowStep(k: State, step: Step)
    requires Gate(k) && Flow(k) && Enabled(k, step) && Gate(Apply(k, step))
    ensures Flow(Apply(k, step))
  {
    match step
    case CreateOrder(_, _, _, _) => UnpublishedFlow(k, step);
    case InsertEdges(_) => UnpublishedFlow(k, step);
    case Recalculate(_) => UnpublishedFlow(k, step);
    case ListReady(o, ready) => ListReadyFlow(k, o, ready);
    case PublishEnqueue(o, score) => PublishEnqueueFlow(k, o, score);
    case PublishEvent(o) => PublishEventFlow(k, o);
    case Pop => PopFlow(k);
    case Assign(t, s, now) => AssignFlow(k, t, s, now);
    case GiveUp(t) => GiveUpFlow(k, t);
    case Reenqueue(t, score) => ReenqueueFlow(k, t, score);
    case RequeueExpired(t, cutoff) => RequeueFlow(k, t, cutoff);
    case Start(t, now) => StartFlow(k, t, now);
    case _ => CompletionFlow(k, step);
  }
}
