/**
 * Progress: with an acyclic dependency graph and staffed counters a published order never gets
 * stuck; a task on a dependency cycle, which the code does not exclude, stays unassigned for ever.
 */
module Progress {
  import opened Wrappers
  import opened Model
  import opened Collections
  import opened Transactions
  import opened ResourceAccounting
  import opened Graphs
  import opened ReadyOrder
  import opened KitchenMachine
  import opened DependencyGate
  import opened ReadyFlow
  import opened KitchenTheorems
  import opened Repository
  import opened ServiceEffects
  import opened ServiceRuns

  /** The dependency graph of one order. */
  function OrderLinks(db: Database, o: OrderId): set<Link> {
    set e | e in db.deps && e.task in db.tasks && db.tasks[e.task].order == o :: Link(e.task, e.dep)
  }

  /** No process holds ids or an open completion. */
  ghost predicate Idle(k: State) {
    k.popped == multiset{} && k.returning == multiset{} && k.completions == map[]
  }

  ghost predicate NoneBusy(db: Database) {
    forall t :: t in db.tasks ==> !db.tasks[t].Busy()
  }

  ghost predicate HasWorker(db: Database, c: CounterId, now: Time) {
    exists s :: s in db.staff && (s, c) in db.skills && !db.staff[s].onBreak
                && db.staff[s].shiftStart <= now <= db.staff[s].shiftEnd && db.staff[s].maxParallel >= 1
  }

  /** Every counter and machine can take a task, and every counter has somebody to do it. */
  ghost predicate Staffed(db: Database, now: Time) {
    && (forall c :: c in db.counters ==> db.counters[c].capacity >= 1 && HasWorker(db, c, now))
    && (forall m :: m in db.machines ==> db.machines[m].isUp && db.machines[m].capacity >= 1)
    && (forall t :: t in db.tasks && db.tasks[t].machine.Some? && db.tasks[t].machine.value in db.machines ==>
          db.machines[db.tasks[t].machine.value].counter == db.tasks[t].counter)
  }

  // ---------------------------------------------------------------- a ready task exists

  function Unfinished(db: Database, o: OrderId): set<int> {
    set t | t in db.tasks && db.tasks[t].order == o && !db.tasks[t].status.TaskCompleted? :: t as int
  }

  /** Among the unfinished tasks of an acyclic order one waits for none of the others. */
  lemma ReadyTaskExists(k: State, o: OrderId) returns (u: TaskId)
    requires Inv(k) && NoneBusy(k.db) && Linked(k, o) && Acyclic(OrderLinks(k.db, o)) && !AllDone(k.db, o)
    ensures Waiting(k.db, u) && k.db.tasks[u].order == o
  {
    var nodes := Unfinished(k.db, o);
    var t0 :| t0 in k.db.tasks && k.db.tasks[t0].order == o && !k.db.tasks[t0].status.TaskCompleted?;
    assert t0 in nodes;
    SinkExists(OrderLinks(k.db, o), nodes);
    var x: int :| x in nodes && !HasSuccessor(OrderLinks(k.db, o), nodes, x);
    u := x;
    assert forall e :: e in OpenEdges(k.db, u) ==> Link(e.task, e.dep) in OrderLinks(k.db, o) && e.dep in nodes;
    assert OpenEdges(k.db, u) == {};
  }

  /** With nothing busy and nothing in flight, that task is in the queue. */
  lemma ReadyTaskQueued(k: State, o: OrderId) returns (u: TaskId)
    requires Inv(k) && Idle(k) && NoneBusy(k.db) && Acyclic(OrderLinks(k.db, o)) && !AllDone(k.db, o)
    requires o in k.confirms && k.confirms[o] == Publishing([], false)
    ensures u in k.queue && Waiting(k.db, u)
  {
    u := ReadyTaskExists(k, o);
    assert Held(k, u);
  }

  lemma NothingHeld(db: Database)
    requires Accounts(db) && NoneBusy(db)
    ensures forall c :: c in db.counters ==> db.counters[c].inUse == 0
    ensures forall m :: m in db.machines ==> db.machines[m].inUse == 0
    ensures forall s :: s in db.staff ==> db.staff[s].activeTasks == 0
  {
    forall c | c in db.counters ensures db.counters[c].inUse == 0 {
      assert OnCounter(db.tasks, c) == {};
    }
    forall m | m in db.machines ensures db.machines[m].inUse == 0 {
      assert OnMachine(db.tasks, m) == {};
    }
    forall s | s in db.staff ensures db.staff[s].activeTasks == 0 {
      assert OfStaff(db.tasks, s) == {};
    }
  }

  lemma WaitingAssignable(db: Database, t: TaskId, now: Time)
    requires Rows(db) && Accounts(db) && NoneBusy(db) && Staffed(db, now) && Waiting(db, t)
    ensures exists s :: CanAssign(db, t, s, now)
  {
    NothingHeld(db);
    var c := db.tasks[t].counter;
    assert HasWorker(db, c, now);
    var s :| s in db.staff && (s, c) in db.skills && !db.staff[s].onBreak
             && db.staff[s].shiftStart <= now <= db.staff[s].shiftEnd && db.staff[s].maxParallel >= 1;
    assert CanAssign(db, t, s, now);
  }

  /** Every id in the queue is a ready task or a finished one. */
  ghost predicate CleanQueue(d: Desk) {
    forall t :: t in d.queue ==> t in d.db.tasks && (Waiting(d.db, t) || d.db.tasks[t].status.TaskCompleted?)
  }

  lemma QueueIsClean(k: State)
    requires Inv(k) && NoneBusy(k.db)
    ensures CleanQueue(DeskOf(k))
  {
    forall t | t in k.queue ensures t in k.db.tasks && (Waiting(k.db, t) || k.db.tasks[t].status.TaskCompleted?) {
      assert Held(k, t);
      assert forall d :: !StartedDep(k.db, t, d);
    }
  }

  // ---------------------------------------------------------------- allocation rounds

  /** One AllocateOnce while no assignment can be stale: the contract of the call with nothing requeued. */
  ghost predicate Round(d: Desk, ids: seq<TaskId>, picks: seq<Option<StaffId>>, now: Time) {
    ids == TopN(d.queue, 20) && |picks| == |ids| && PicksOk(d.(queue := Without(d.queue, ids)), ids, picks, now)
  }

  function AfterRound(d: Desk, ids: seq<TaskId>, picks: seq<Option<StaffId>>, now: Time): Desk
    requires |picks| == |ids|
  {
    AfterBatch(d.(queue := Without(d.queue, ids)), ids, picks, now)
  }

  ghost predicate Assigns(picks: seq<Option<StaffId>>) {
    exists i :: 0 <= i < |picks| && picks[i].Some?
  }

  /** Whoever is ready can be assigned to somebody. */
  ghost predicate Takeable(db: Database, now: Time) {
    forall t :: Waiting(db, t) ==> !PickOk(db, t, None, now)
  }

  lemma CalmTakeable(db: Database, now: Time)
    requires Rows(db) && Accounts(db) && NoneBusy(db) && Staffed(db, now)
    ensures Takeable(db, now)
  {
    forall t | Waiting(db, t) ensures !PickOk(db, t, None, now) {
      WaitingAssignable(db, t, now);
    }
  }

  /** A batch in which nobody takes a task holds finished tasks only, and trying them changes nothing. */
  lemma {:induction false} FutileBatch(d: Desk, ids: seq<TaskId>, picks: seq<Option<StaffId>>, now: Time)
    requires Takeable(d.db, now)
    requires |ids| == |picks| && PicksOk(d, ids, picks, now) && !Assigns(picks)
    requires forall t :: t in ids ==> t in d.db.tasks && (Waiting(d.db, t) || d.db.tasks[t].status.TaskCompleted?)
    ensures forall t :: t in ids ==> d.db.tasks[t].status.TaskCompleted?
    ensures AfterBatch(d, ids, picks, now) == d
    decreases |ids|
  {
    if ids != [] {
      var n := |ids| - 1;
      PrefixPicks(d, ids, picks, now);
      assert forall t :: t in ids[..n] ==> t in ids;
      FutileBatch(d, ids[..n], picks[..n], now);
      FutileLast(d, ids, picks, now);
    }
  }

  lemma FutileLast(d: Desk, ids: seq<TaskId>, picks: seq<Option<StaffId>>, now: Time)
    requires |ids| == |picks| > 0 && !Assigns(picks)
    requires var n := |ids| - 1;
      && AfterBatch(d, ids[..n], picks[..n], now) == d && PickOk(d.db, ids[n], picks[n], now)
      && ids[n] in d.db.tasks && (Waiting(d.db, ids[n]) || d.db.tasks[ids[n]].status.TaskCompleted?)
      && (forall t :: t in ids[..n] ==> t in d.db.tasks && d.db.tasks[t].status.TaskCompleted?)
    requires Takeable(d.db, now)
    ensures forall t :: t in ids ==> t in d.db.tasks && d.db.tasks[t].status.TaskCompleted?
    ensures AfterBatch(d, ids, picks, now) == d
  {
    var n := |ids| - 1;
    assert picks[n].None?;
    FutileTry(d, ids[n], now);
    SplitLast(ids);
  }

  lemma FutileTry(d: Desk, t: TaskId, now: Time)
    requires Takeable(d.db, now) && PickOk(d.db, t, None, now)
    requires t in d.db.tasks && (Waiting(d.db, t) || d.db.tasks[t].status.TaskCompleted?)
    ensures d.db.tasks[t].status.TaskCompleted? && TryOne(d, t, None, now) == d
  {
  }

  lemma PrefixPicks(d: Desk, ids: seq<TaskId>, picks: seq<Option<StaffId>>, now: Time)
    requires |ids| == |picks| > 0 && PicksOk(d, ids, picks, now) && !Assigns(picks)
    ensures var n := |ids| - 1;
      && PicksOk(d, ids[..n], picks[..n], now) && !Assigns(picks[..n])
      && PickOk(AfterBatch(d, ids[..n], picks[..n], now).db, ids[n], picks[n], now)
  {
    var n := |ids| - 1;
    forall i | 0 <= i < n
      ensures PickOk(AfterBatch(d, ids[..n][..i], picks[..n][..i], now).db, ids[..n][i], picks[..n][i], now)
    {
      assert ids[..i] == ids[..n][..i] && picks[..i] == picks[..n][..i];
    }
    forall i | 0 <= i < |picks[..n]| ensures picks[..n][i].None? {
      assert picks[..n][i] == picks[i];
    }
  }

  /** A round that assigns nothing only throws out ids of finished tasks. */
  lemma RoundAssignsOrShrinks(d: Desk, ids: seq<TaskId>, picks: seq<Option<StaffId>>, now: Time)
    requires Takeable(d.db, now) && CleanQueue(d)
    requires Round(d, ids, picks, now) && !Assigns(picks)
    ensures AfterRound(d, ids, picks, now) == d.(queue := Without(d.queue, ids))
    ensures forall t :: t in d.queue && Waiting(d.db, t) ==> t in Without(d.queue, ids)
    ensures |Without(d.queue, ids)| == if |d.queue| < 20 then 0 else |d.queue| - 20
  {
    var d' := d.(queue := Without(d.queue, ids));
    FutileBatch(d', ids, picks, now);
    TopNIsLeast(d.queue, 20);
    WithoutSize(d.queue, ids);
  }

  /** Some staff member could be given the task at once. */
  ghost predicate SomebodyCanTake(db: Database, t: TaskId, now: Time) {
    exists s :: CanAssign(db, t, s, now)
  }

  lemma {:induction false} NoPickKeepsTables(d: Desk, ids: seq<TaskId>, picks: seq<Option<StaffId>>, now: Time)
    requires |ids| == |picks| && !Assigns(picks)
    ensures AfterBatch(d, ids, picks, now).db == d.db
    decreases |ids|
  {
    if ids != [] {
      var n := |ids| - 1;
      forall i | 0 <= i < |picks[..n]| ensures picks[..n][i].None? {
        assert picks[..n][i] == picks[i];
      }
      NoPickKeepsTables(d, ids[..n], picks[..n], now);
      assert picks[n].None?;
    }
  }

  lemma {:induction false} FirstPick(picks: seq<Option<StaffId>>) returns (i: nat)
    requires Assigns(picks)
    ensures i < |picks| && picks[i].Some? && !Assigns(picks[..i])
    decreases |picks|
  {
    var n := |picks| - 1;
    if j :| 0 <= j < n && picks[j].Some? {
      assert picks[..n][j].Some?;
      i := FirstPick(picks[..n]);
      assert picks[..n][..i] == picks[..i];
    } else {
      i := n;
    }
  }

  /** A batch assigns something exactly when, before it, one of its tasks could be taken by somebody. */
  lemma BatchAssignsIff(d: Desk, ids: seq<TaskId>, picks: seq<Option<StaffId>>, now: Time)
    requires |ids| == |picks| && PicksOk(d, ids, picks, now)
    ensures Assigns(picks) <==> exists t :: t in ids && SomebodyCanTake(d.db, t, now)
  {
    if Assigns(picks) {
      var i := FirstPick(picks);
      NoPickKeepsTables(d, ids[..i], picks[..i], now);
      assert PickOk(AfterBatch(d, ids[..i], picks[..i], now).db, ids[i], picks[i], now);
      assert CanAssign(d.db, ids[i], picks[i].value, now);
      assert ids[i] in ids && SomebodyCanTake(d.db, ids[i], now);
    } else {
      forall i | 0 <= i < |ids| ensures !SomebodyCanTake(d.db, ids[i], now) {
        forall j | 0 <= j < |picks[..i]| ensures picks[..i][j].None? {
          assert picks[..i][j] == picks[j];
        }
        NoPickKeepsTables(d, ids[..i], picks[..i], now);
        assert PickOk(AfterBatch(d, ids[..i], picks[..i], now).db, ids[i], picks[i], now);
      }
    }
  }

  /**
   * A single AllocateOnce assigns something exactly when one of the first 20 queued tasks can be
   * taken; in a staffed kitchen at rest, exactly when one of them is ready.
   */
  lemma RoundAssignsIff(d: Desk, ids: seq<TaskId>, picks: seq<Option<StaffId>>, now: Time)
    requires Round(d, ids, picks, now)
    ensures Assigns(picks) <==> exists t :: t in TopN(d.queue, 20) && SomebodyCanTake(d.db, t, now)
    ensures Takeable(d.db, now) ==> (Assigns(picks) <==> exists t :: t in TopN(d.queue, 20) && Waiting(d.db, t))
  {
    BatchAssignsIff(d.(queue := Without(d.queue, ids)), ids, picks, now);
    if Takeable(d.db, now) {
      forall t ensures SomebodyCanTake(d.db, t, now) <==> Waiting(d.db, t) {
        assert Waiting(d.db, t) ==> !PickOk(d.db, t, None, now);
      }
    }
  }

  /** Successive allocations, each starting from the desk the last one left. */
  ghost predicate Rounds(d: Desk, batches: seq<seq<TaskId>>, picks: seq<seq<Option<StaffId>>>, nows: seq<Time>)
    requires |batches| == |picks| == |nows|
    decreases |batches|
  {
    batches == [] ||
    (Round(d, batches[0], picks[0], nows[0])
     && Rounds(AfterRound(d, batches[0], picks[0], nows[0]), batches[1..], picks[1..], nows[1..]))
  }

  lemma RoundShrinks(d: Desk, u: TaskId, ids: seq<TaskId>, picks: seq<Option<StaffId>>, now: Time) returns (d': Desk)
    requires Takeable(d.db, now) && CleanQueue(d) && Round(d, ids, picks, now) && !Assigns(picks)
    requires u in d.queue && Waiting(d.db, u)
    ensures d' == AfterRound(d, ids, picks, now) && d'.db == d.db && CleanQueue(d') && u in d'.queue
    ensures 0 < |d'.queue| <= |d.queue| - 20
  {
    RoundAssignsOrShrinks(d, ids, picks, now);
    d' := d.(queue := Without(d.queue, ids));
    assert u in d'.queue.Keys;
  }

  /** While a ready task is queued, |queue| / 20 rounds, rounded up, cannot all come back empty. */
  lemma {:induction false} SomeRoundAssigns(d: Desk, u: TaskId, batches: seq<seq<TaskId>>, picks: seq<seq<Option<StaffId>>>, nows: seq<Time>)
    requires CleanQueue(d) && u in d.queue && Waiting(d.db, u)
    requires |batches| == |picks| == |nows| && Rounds(d, batches, picks, nows)
    requires forall i :: 0 <= i < |nows| ==> Takeable(d.db, nows[i])
    requires 20 * |batches| >= |d.queue|
    ensures exists i :: 0 <= i < |picks| && Assigns(picks[i])
    decreases |batches|
  {
    assert |d.queue| > 0 by { assert u in d.queue.Keys; }
    if !Assigns(picks[0]) {
      var d' := RoundShrinks(d, u, batches[0], picks[0], nows[0]);
      assert forall i :: 0 <= i < |nows[1..]| ==> nows[1..][i] == nows[i + 1];
      SomeRoundAssigns(d', u, batches[1..], picks[1..], nows[1..]);
      var i :| 0 <= i < |picks[1..]| && Assigns(picks[1..][i]);
      assert Assigns(picks[i + 1]);
    }
  }

  /** In a state without busy tasks AllocateOnce requeues nothing, so its contract describes a Round. */
  lemma AllocateIsRound(db: Database, now: Time, requeued: seq<TaskId>)
    requires NoneBusy(db) && OldestExpired(db, now - ASSIGN_TTL, 50, requeued)
    ensures requeued == []
  {
    assert ExpiredTasks(db, now - ASSIGN_TTL) == {};
    var first := if requeued == [] then 0 else requeued[0];
    assert requeued == [] || first in requeued;
  }

  // ---------------------------------------------------------------- letting processes finish

  lemma LeadsReachable(k: State, k': State)
    requires Reachable(k) && Leads(k, k')
    ensures Reachable(k')
  {
    var k0, steps :| Init(k0) && Run(k0, steps, k);
    assert Leads(k0, k);
    LeadsTransitive(k0, k, k');
  }

  lemma {:induction false} DrainCompletions(k: State) returns (k': State)
    ensures Leads(k, k') && k' == k.(completions := map[])
    decreases |k.completions|
  {
    LeadsRefl(k);
    k' := k;
    if k.completions != map[] {
      var t :| t in k.completions;
      LeadsThen(k, k, RollbackComplete(t));
      assert t in k.completions.Keys && (k.completions - {t}).Keys == k.completions.Keys - {t};
      k' := DrainCompletions(Apply(k, RollbackComplete(t)));
      LeadsTransitive(k, Apply(k, RollbackComplete(t)), k');
    }
  }

  lemma {:induction false} DrainPopped(k: State) returns (k': State)
    ensures Leads(k, k') && k' == k.(popped := multiset{}, returning := k'.returning)
    decreases |k.popped|
  {
    LeadsRefl(k);
    k' := k;
    if k.popped != multiset{} {
      var t :| t in k.popped;
      LeadsThen(k, k, GiveUp(t));
      k' := DrainPopped(Apply(k, GiveUp(t)));
      LeadsTransitive(k, Apply(k, GiveUp(t)), k');
    }
  }

  lemma {:induction false} DrainReturning(k: State) returns (k': State)
    ensures Leads(k, k') && k' == k.(queue := k'.queue, returning := multiset{})
    decreases |k.returning|
  {
    LeadsRefl(k);
    k' := k;
    if k.returning != multiset{} {
      var t :| t in k.returning;
      LeadsThen(k, k, Reenqueue(t, 0.0));
      k' := DrainReturning(Apply(k, Reenqueue(t, 0.0)));
      LeadsTransitive(k, Apply(k, Reenqueue(t, 0.0)), k');
    }
  }

  /** Open completions roll back, popped ids are given up, and what was in somebody's hands goes back to the queue. */
  lemma Drain(k: State) returns (k': State)
    ensures Leads(k, k') && Idle(k') && k'.db == k.db && k'.confirms == k.confirms
  {
    var k1 := DrainCompletions(k);
    var k2 := DrainPopped(k1);
    k' := DrainReturning(k2);
    LeadsTransitive(k, k1, k2);
    LeadsTransitive(k, k2, k');
  }

  // ---------------------------------------------------------------- what can happen next

  /** Some completion of `t` goes through from `k`. */
  ghost predicate CanFinish(k: State, t: TaskId) {
    exists k' :: Leads(k, k') && HasStatus(k.db, t, TaskStarted) && HasStatus(k'.db, t, TaskCompleted)
  }

  lemma CompletionLeads(k: State, t: TaskId, now: Time) returns (k': State, children: seq<TaskId>)
    requires HasStatus(k.db, t, TaskStarted) && HasRunMetadata(k.db.tasks[t]) && k.completions == map[]
    ensures Enumerates(children, Unlocked(k.db, t))
    ensures Leads(k, k') && HasStatus(k'.db, t, TaskCompleted)
    ensures k' == k.(db := CompleteTx(k.db, t, children, now), queue := EnqueueAll(k.queue, k.db, children, 0.0, now))
  {
    children := SomeListing(Unlocked(k.db, t));
    CompleteLeads(k, t, children, now);
    ReleaseTables(k.db, t, now);
    CompleteTables(k.db, t, children, now);
    k' := k.(db := CompleteTx(k.db, t, children, now), queue := EnqueueAll(k.queue, k.db, children, 0.0, now));
  }

  lemma StartedCanFinish(k: State, t: TaskId)
    requires Reachable(k) && k.completions == map[] && HasStatus(k.db, t, TaskStarted)
    ensures CanFinish(k, t)
  {
    StartedRows(k, t);
    var k', _ := CompletionLeads(k, t, 0);
  }

  lemma StartedRows(k: State, t: TaskId)
    requires Reachable(k) && HasStatus(k.db, t, TaskStarted)
    ensures HasRunMetadata(k.db.tasks[t])
  {
    ReachableInv(k);
  }

  lemma {:induction false} SomeListing<T(!new)>(xs: set<T>) returns (s: seq<T>)
    ensures Enumerates(s, xs)
    decreases |xs|
  {
    s := [];
    if xs != {} {
      var x :| x in xs;
      var rest := SomeListing(xs - {x});
      s := rest + [x];
    }
  }

  /** Enough successive allocations to pop every id that is queued now, with staff present each time. */
  ghost predicate CoveringRounds(k: State, batches: seq<seq<TaskId>>, picks: seq<seq<Option<StaffId>>>, nows: seq<Time>) {
    && |batches| == |picks| == |nows| && Rounds(DeskOf(k), batches, picks, nows)
    && (forall i :: 0 <= i < |nows| ==> Staffed(k.db, nows[i]))
    && 20 * |batches| >= |k.queue|
  }

  lemma RestingKitchen(k: State, o: OrderId) returns (u: TaskId)
    requires Reachable(k) && Idle(k) && NoneBusy(k.db) && Acyclic(OrderLinks(k.db, o)) && !AllDone(k.db, o)
    requires o in k.confirms && k.confirms[o] == Publishing([], false)
    ensures u in k.queue && Waiting(k.db, u) && CleanQueue(DeskOf(k))
    ensures forall now :: Staffed(k.db, now) ==> Takeable(k.db, now)
  {
    ReachableInv(k);
    u := ReadyTaskQueued(k, o);
    QueueIsClean(k);
    forall now | Staffed(k.db, now) ensures Takeable(k.db, now) {
      CalmTakeable(k.db, now);
    }
  }

  /**
   * From every reachable state with a published, unfinished order whose graph is acyclic, once the
   * processes have let go of what they hold, an assigned task can be started, or a started task can
   * be completed, or |queue| / 20 (rounded up) staffed allocations in a row assign at least one task.
   */
  lemma OrderMakesProgress(k: State, o: OrderId) returns (r: State)
    requires Reachable(k) && o in k.confirms && k.confirms[o] == Publishing([], false)
    requires Acyclic(OrderLinks(k.db, o)) && !AllDone(k.db, o)
    ensures Leads(k, r) && Idle(r) && r.db == k.db && r.confirms == k.confirms
    ensures
      || (exists t :: HasStatus(r.db, t, TaskAssigned) && forall now :: Enabled(r, Start(t, now)))
      || (exists t :: CanFinish(r, t))
      || (NoneBusy(r.db) && forall batches, picks, nows :: CoveringRounds(r, batches, picks, nows) ==>
            exists i :: 0 <= i < |picks| && Assigns(picks[i]))
  {
    r := Drain(k);
    LeadsReachable(k, r);
    if t :| HasStatus(r.db, t, TaskAssigned) {
      assert forall now :: Enabled(r, Start(t, now));
    } else if t :| HasStatus(r.db, t, TaskStarted) {
      StartedCanFinish(r, t);
    } else {
      NobodyBusy(r.db);
      var u := RestingKitchen(r, o);
      forall batches, picks, nows | CoveringRounds(r, batches, picks, nows)
        ensures exists i :: 0 <= i < |picks| && Assigns(picks[i])
      {
        SomeRoundAssigns(DeskOf(r), u, batches, picks, nows);
      }
    }
  }

  lemma NobodyBusy(db: Database)
    requires forall t :: !HasStatus(db, t, TaskAssigned) && !HasStatus(db, t, TaskStarted)
    ensures NoneBusy(db)
  {
    forall t | t in db.tasks ensures !db.tasks[t].Busy() {
      assert !HasStatus(db, t, TaskAssigned) && !HasStatus(db, t, TaskStarted);
    }
  }

  // ---------------------------------------------------------------- cycles

  function DepLinks(db: Database): set<Link> {
    set e | e in db.deps :: Link(e.task, e.dep)
  }

  ghost predicate CyclesIdle(k: State) {
    forall t :: t in k.db.tasks && OnCycle(DepLinks(k.db), t) ==> k.db.tasks[t].status.TaskUnassigned?
  }

  /** Along dependencies the order stays the same. */
  lemma {:induction false} WalkInOneOrder(db: Database, p: seq<int>, i: nat)
    requires Rows(db) && Walk(DepLinks(db), p) && i < |p| && |p| >= 2
    ensures SameOrder(db, p[0], p[i])
  {
    if i == 0 {
      var _ := HopIsEdge(db, p, 0);
    } else {
      WalkInOneOrder(db, p, i - 1);
      var _ := HopIsEdge(db, p, i - 1);
    }
  }

  ghost predicate SameOrder(db: Database, x: int, y: int) {
    exists t: TaskId, u: TaskId ::
      t == x && u == y && t in db.tasks && u in db.tasks && db.tasks[t].order == db.tasks[u].order
  }

  /** A hop of a walk is a dependency row. */
  lemma HopIsEdge(db: Database, p: seq<int>, i: nat) returns (e: Edge)
    requires Walk(DepLinks(db), p) && i + 1 < |p|
    ensures e in db.deps && e.task == p[i] && e.dep == p[i + 1]
    ensures Rows(db) ==> SameOrder(db, p[i], p[i + 1])
    ensures Rows(db) ==> SameOrder(db, p[i], p[i])
  {
    assert Graphs.Hop(DepLinks(db), p, i);
    e :| e in db.deps && Link(e.task, e.dep) == Link(p[i], p[i + 1]);
  }

  /** The task a task on a cycle depends on is on a cycle too. */
  lemma CycleDep(db: Database, t: TaskId) returns (d: TaskId)
    requires Rows(db) && OnCycle(DepLinks(db), t)
    ensures Edge(t, d) in db.deps && d in db.tasks && OnCycle(DepLinks(db), d)
  {
    var y := CycleSuccessor(DepLinks(db), t);
    var e :| e in db.deps && Link(e.task, e.dep) == Link(t, y);
    d := e.dep;
    assert e == Edge(t, d);
  }

  /** A task on a cycle is never assigned: what it depends on is not completed. */
  lemma CycleBlocksAssign(k: State, t: TaskId, s: StaffId, now: Time)
    requires Gate(k) && HeldLive(k) && CyclesIdle(k) && Enabled(k, Assign(t, s, now))
    ensures !OnCycle(DepLinks(k.db), t)
  {
    assert Held(k, t);
    WaitingIsUnblocked(k, t);
    if OnCycle(DepLinks(k.db), t) {
      var d := CycleDep(k.db, t);
    }
  }

  /** New edges close no cycle through another order. */
  lemma OldCycle(k: State, o: OrderId, t: TaskId)
    requires Gate(k) && Enabled(k, InsertEdges(o)) && Gate(Apply(k, InsertEdges(o)))
    requires t in k.db.tasks && k.db.tasks[t].order != o && OnCycle(DepLinks(Apply(k, InsertEdges(o)).db), t)
    ensures OnCycle(DepLinks(k.db), t)
  {
    var db' := Apply(k, InsertEdges(o)).db;
    var p :| Cycle(DepLinks(db'), p) && p[0] == t;
    forall i: nat | i + 1 < |p| ensures Graphs.Hop(DepLinks(k.db), p, i) {
      WalkInOneOrder(db', p, i);
      var e := HopIsEdge(db', p, i);
      assert e !in k.confirms[o].edges;
      assert Link(e.task, e.dep) in DepLinks(k.db);
    }
    assert Cycle(DepLinks(k.db), p);
  }

  lemma SameCycles(k: State, k': State)
    requires CyclesIdle(k) && k'.db.deps == k.db.deps
    requires forall t :: t in k'.db.tasks && !k'.db.tasks[t].status.TaskUnassigned? ==>
      t in k.db.tasks && !k.db.tasks[t].status.TaskUnassigned?
    ensures CyclesIdle(k')
  {
    assert DepLinks(k'.db) == DepLinks(k.db);
  }

  lemma CreateCycles(k: State, o: OrderId, ids: seq<TaskId>, rows: seq<NewTask>, links: seq<Link>)
    requires Inv(k) && CyclesIdle(k) && Enabled(k, CreateOrder(o, ids, rows, links))
    ensures CyclesIdle(Apply(k, CreateOrder(o, ids, rows, links)))
  {
    CreateAddsOrder(k.db, o, ids, rows);
    SameCycles(k, Apply(k, CreateOrder(o, ids, rows, links)));
  }

  lemma InsertCycles(k: State, o: OrderId)
    requires Gate(k) && CyclesIdle(k) && Enabled(k, InsertEdges(o))
    ensures CyclesIdle(Apply(k, InsertEdges(o)))
  {
    InsertEdgesGate(k, o);
    var k' := Apply(k, InsertEdges(o));
    forall t | t in k'.db.tasks && OnCycle(DepLinks(k'.db), t) ensures k'.db.tasks[t].status.TaskUnassigned? {
      if k.db.tasks[t].order != o { OldCycle(k, o, t); }
    }
  }

  lemma AssignCycles(k: State, t: TaskId, s: StaffId, now: Time)
    requires Gate(k) && HeldLive(k) && CyclesIdle(k) && Enabled(k, Assign(t, s, now))
    ensures CyclesIdle(Apply(k, Assign(t, s, now)))
  {
    CycleBlocksAssign(k, t, s, now);
    AssignOneRow(k.db, t, s, now);
    assert DepLinks(Apply(k, Assign(t, s, now)).db) == DepLinks(k.db);
  }

  lemma CommitCycles(k: State, t: TaskId, now: Time)
    requires Gate(k) && CompletionsOk(k) && CyclesIdle(k) && Enabled(k, CommitComplete(t, now))
    ensures CyclesIdle(Apply(k, CommitComplete(t, now)))
  {
    assert CompletionOk(k, t, k.completions[t]);
    CompleteFinishes(k, t, k.completions[t].children, now);
    FinishedCycles(k, Apply(k, CommitComplete(t, now)), t);
  }

  lemma FinishedCycles(k: State, k': State, t: TaskId)
    requires CyclesIdle(k) && HasStatus(k.db, t, TaskStarted) && Finished(k.db, k'.db, t)
    ensures CyclesIdle(k')
  {
    SameCycles(k, k');
  }

  lemma OtherCycles(k: State, step: Step)
    requires CyclesIdle(k) && Enabled(k, step)
    requires !step.CreateOrder? && !step.InsertEdges? && !step.Assign? && !step.CommitComplete?
    ensures CyclesIdle(Apply(k, step))
  {
    SameCycles(k, Apply(k, step));
  }

  lemma CyclesStep(k: State, step: Step)
    requires Inv(k) && CyclesIdle(k) && Enabled(k, step)
    ensures CyclesIdle(Apply(k, step))
  {
    match step
    case CreateOrder(o, ids, rows, links) => CreateCycles(k, o, ids, rows, links);
    case InsertEdges(o) => InsertCycles(k, o);
    case Assign(t, s, now) => AssignCycles(k, t, s, now);
    case CommitComplete(t, now) => CommitCycles(k, t, now);
    case _ => OtherCycles(k, step);
  }

  lemma {:induction false} CyclesRun(k: State, steps: seq<Step>, k': State)
    requires Inv(k) && CyclesIdle(k) && Run(k, steps, k')
    ensures CyclesIdle(k')
    decreases |steps|
  {
    if steps != [] {
      StepInv(k, steps[0]);
      CyclesStep(k, steps[0]);
      CyclesRun(Apply(k, steps[0]), steps[1..], k');
    }
  }

  lemma ReachableCycles(k: State)
    requires Reachable(k)
    ensures CyclesIdle(k)
  {
    var k0, steps :| Init(k0) && Run(k0, steps, k);
    InitInv(k0);
    CyclesRun(k0, steps, k);
  }

  /** A task on a dependency cycle is never assigned, and its order is never completed. */
  lemma CycleNeverRuns(k: State, t: TaskId)
    requires Reachable(k) && t in k.db.tasks && OnCycle(DepLinks(k.db), t)
    ensures k.db.tasks[t].status.TaskUnassigned?
    ensures k.db.tasks[t].order in k.db.orders && !k.db.orders[k.db.tasks[t].order].OrderCompleted?
  {
    ReachableCycles(k);
    assert !AllDone(k.db, k.db.tasks[t].order);
    OrderOfTask(k, t);
  }
}
