/**
 * How the ready queue can be full of finished tasks. A completion enqueues its children one by one
 * and then rolls back. As soon as a child is queued an allocator pops it, finds it not ready, and
 * is held up before it enqueues the child again: one allocator and one id for each child. Meanwhile
 * the completion is repeated, and the children are assigned and finished through their second ids.
 * A new order is confirmed, and the allocators go on: the first ids return, ahead of the new task,
 * and the next AllocateOnce pops nothing else. Every pop of the story is one of 20 ids, as in the
 * code, and no allocator holds more than the one id that it has looked at.
 */
module StaleIds {
  import opened Wrappers
  import opened Model
  import opened Collections
  import opened Transactions
  import opened ResourceAccounting
  import opened ReadyOrder
  import opened KitchenMachine
  import opened DependencyGate
  import opened ReadyFlow
  import opened KitchenTheorems
  import opened ServiceEffects
  import opened ServiceRuns
  import opened Progress
  import opened OrderGraph
  import opened OrderCompletion

  const NOON: Time := 50

  // ---------------------------------------------------------------- the first order

  /** Task 1, and n tasks that wait for it. */
  function RushIds(n: nat): seq<TaskId> {
    seq(n + 1, i => i + 1)
  }

  function RushRows(n: nat): seq<NewTask> {
    seq(n + 1, i => NewTask(1, Some(1), 60, 1.0, 0))
  }

  function RushLinks(n: nat): seq<Link> {
    seq(n, i => Link(i + 1, 0))
  }

  predicate Follower(t: TaskId) {
    t >= 2
  }

  function Late(n: nat): set<TaskId> {
    set t: TaskId | t < n + 2 && Follower(t)
  }

  lemma {:induction false} LateSize(n: nat)
    ensures |Late(n)| == n
  {
    if n == 0 {
      assert Late(0) == {};
    } else {
      LateSize(n - 1);
      assert Late(n) == Late(n - 1) + {n + 1};
    }
  }

  /** The fixed part of every state of the story, until the second order comes. */
  ghost predicate Scene(k: State, n: nat) {
    && Reachable(k) && FullyPublished(k, 1) && Staffed(k.db, NOON)
    && 1 in k.db.counters && 1 in k.db.machines && k.db.machines[1].counter == 1
    && (forall t :: t in k.db.tasks <==> 1 <= t < n + 2)
    && (forall e :: e in k.db.deps <==> e.task in Late(n) && e.dep == 1)
    && (forall t :: t in k.db.tasks ==>
          k.db.tasks[t].order == 1 && k.db.tasks[t].createdAt == 0 && k.db.tasks[t].basePriority == 1.0)
  }

  lemma SceneKept(k: State, k': State, n: nat)
    requires Scene(k, n) && Leads(k, k') && k'.confirms == k.confirms && SameSetup(k.db, k'.db) && k'.db.deps == k.db.deps
    ensures Scene(k', n)
  {
    LeadsReachable(k, k');
    StaffedKept(k.db, k'.db, NOON);
  }

  lemma SameSetupRefl(db: Database)
    ensures SameSetup(db, db)
  {
  }

  // ---------------------------------------------------------------- the queue

  /** If the keys of `low` score lower than all others, they are popped first. */
  lemma LowScoresFirst(q: map<TaskId, real>, low: set<TaskId>)
    requires low <= q.Keys && forall a, b :: a in low && b in q && b !in low ==> q[a] < q[b]
    ensures NoDuplicates(TopN(q, |low|)) && forall t :: t in TopN(q, |low|) <==> t in low
  {
    var out := TopN(q, |low|);
    var popped := set t | t in out;
    TopNIsLeast(q, |low|);
    SubsetSize(low, q.Keys);
    ListingSize(out, popped);
    assert forall a :: a in low && a !in popped ==> a in Without(q, out);
    forall b | b in popped ensures b in low {
      if b !in low {
        SomeLeftOut(low, popped, b);
      }
    }
    SubsetSize(popped, low);
  }

  lemma SomeLeftOut(low: set<TaskId>, popped: set<TaskId>, b: TaskId)
    requires |popped| == |low| && b in popped && b !in low
    ensures exists a :: a in low && a !in popped
  {
    if low <= popped {
      SubsetSize(low, popped);
    }
  }

  lemma LateScore(db: Database, t: TaskId)
    requires t in db.tasks && db.tasks[t].basePriority == 1.0 && db.tasks[t].createdAt == 0
    ensures ScoreOf(db, t, 0.0, NOON) < 0.0
  {
  }

  /** A pop of 20 from a queue with one id. */
  lemma PopSingle(k: State, t: TaskId)
    requires k.queue.Keys == {t} && k.popped == multiset{}
    ensures Leads(k, k.(queue := map[], popped := multiset{t}))
  {
    var out := TopN(k.queue, 20);
    assert |k.queue| == |k.queue.Keys| == 1;
    TopNIsLeast(k.queue, 20);
    assert out[0] in out && out == [t];
    LeadsRefl(k);
    LeadsThen(k, k, Pop);
    assert Apply(k, Pop).queue == map[];
    assert Apply(k, Pop).popped == multiset{t};
  }

  // ---------------------------------------------------------------- opening

  lemma RushOk(n: nat)
    ensures Enabled(Opening(), CreateOrder(1, RushIds(n), RushRows(n), RushLinks(n)))
  {
    var rows, links := RushRows(n), RushLinks(n);
    forall r | r in rows ensures r.counter == 1 && r.machine == Some(1) {
      var i :| 0 <= i < |rows| && rows[i] == r;
    }
    forall l | l in links ensures 0 <= l.task < n + 1 && 0 <= l.dep < n + 1 && l.task != l.dep {
      var i :| 0 <= i < |links| && links[i] == l;
    }
  }

  /** A row that the confirmation starts from. */
  lemma RushInserted(n: nat, t: TaskId)
    requires |RushIds(n)| == |RushRows(n)|
    ensures t in InsertRows(map[], 1, RushIds(n), RushRows(n)) <==> 1 <= t < n + 2
    ensures var tasks := InsertRows(map[], 1, RushIds(n), RushRows(n));
      t in tasks ==>
        tasks[t].order == 1 && tasks[t].createdAt == 0 && tasks[t].status.TaskUnassigned? && tasks[t].basePriority == 1.0
  {
    InsertRowsEffect(map[], 1, RushIds(n), RushRows(n));
    if 1 <= t < n + 2 { assert RushIds(n)[t - 1] == t; }
  }

  /** The tables after the confirmation. */
  lemma RushTables(n: nat)
    requires |RushIds(n)| == |RushRows(n)| && LinksOk(RushLinks(n), |RushIds(n)|)
    ensures var db := Confirmed(Bistro(), 1, RushIds(n), RushRows(n), RushLinks(n));
      && (forall t :: t in db.tasks <==> 1 <= t < n + 2)
      && (forall e :: e in db.deps <==> e.task in Late(n) && e.dep == 1)
      && (forall t :: t in db.tasks ==>
            && db.tasks[t].order == 1 && db.tasks[t].createdAt == 0 && db.tasks[t].status.TaskUnassigned?
            && db.tasks[t].basePriority == 1.0)
  {
    var ids, rows, links := RushIds(n), RushRows(n), RushLinks(n);
    var db := Confirmed(Bistro(), 1, ids, rows, links);
    ConfirmedTables(Bistro(), 1, ids, rows, links);
    forall t ensures t in db.tasks <==> 1 <= t < n + 2 {
      if t >= 0 { RushInserted(n, t); }
    }
    forall t | t in db.tasks
      ensures db.tasks[t].order == 1 && db.tasks[t].createdAt == 0 && db.tasks[t].status.TaskUnassigned?
      ensures db.tasks[t].basePriority == 1.0
    {
      RushInserted(n, t);
    }
    RushDeps(n);
  }

  lemma RushDeps(n: nat)
    requires LinksOk(RushLinks(n), |RushIds(n)|)
    ensures forall e :: e in LinkEdges(RushIds(n), RushLinks(n)) <==> e.task in Late(n) && e.dep == 1
  {
    var ids, links := RushIds(n), RushLinks(n);
    forall e ensures e in LinkEdges(ids, links) <==> e.task in Late(n) && e.dep == 1 {
      if e.task in Late(n) && e.dep == 1 {
        var l := links[e.task - 2];
        assert l in links && Edge(ids[l.task], ids[l.dep]) == e;
      }
      if e in LinkEdges(ids, links) {
        var l :| l in links && e == Edge(ids[l.task], ids[l.dep]);
        var i :| 0 <= i < |links| && links[i] == l;
      }
    }
  }

  /** After the confirmation the root is queued alone. */
  lemma Opened(n: nat) returns (k: State)
    ensures Scene(k, n) && Idle(k) && forall t :: t in k.db.tasks ==> k.db.tasks[t].status.TaskUnassigned?
    ensures k.queue.Keys == {1}
  {
    var ids, rows, links := RushIds(n), RushRows(n), RushLinks(n);
    RushOk(n);
    RushTables(n);
    var ready := SomeListing(OrderReady(Confirmed(Bistro(), 1, ids, rows, links), 1));
    CreateAndPublishLeads(Opening(), 1, ids, rows, links, ready, 0);
    k := AfterConfirm(Opening(), 1, ids, rows, links, ready, 0);
    OpeningReady();
    LeadsReachable(Opening(), k);
    RushStaffed(n, k);
    RootQueued(k, n);
  }

  lemma RushStaffed(n: nat, k: State)
    requires |RushIds(n)| == |RushRows(n)| && NoDuplicates(RushIds(n)) && LinksOk(RushLinks(n), |RushIds(n)|)
    requires k.db == Confirmed(Bistro(), 1, RushIds(n), RushRows(n), RushLinks(n)).(log := k.db.log)
    ensures Staffed(k.db, NOON)
  {
    OpeningReady();
    CreatedStaffed(Bistro(), 1, RushIds(n), RushRows(n), NOON);
    ConfirmedSetup(Bistro(), 1, RushIds(n), RushRows(n), RushLinks(n));
    StaffedKept(CreateTx(Bistro(), 1, RushIds(n), RushRows(n)), k.db, NOON);
  }

  /** Linking an order that was created changes no place and no capacity. */
  lemma ConfirmedSetup(db: Database, o: OrderId, ids: seq<TaskId>, rows: seq<NewTask>, links: seq<Link>)
    requires |ids| == |rows| && LinksOk(links, |ids|)
    ensures SameSetup(CreateTx(db, o, ids, rows), Confirmed(db, o, ids, rows, links))
  {
    ConfirmedTables(db, o, ids, rows, links);
  }

  lemma RootQueued(k: State, n: nat)
    requires Scene(k, n) && Idle(k) && forall t :: t in k.db.tasks ==> k.db.tasks[t].status.TaskUnassigned?
    ensures k.queue.Keys == {1}
  {
    Unblocked(k, n, 1);
    NoLostTask(k, 1);
    forall t | t in k.queue ensures t == 1 {
      NoLateQueued(k, n, t);
    }
  }

  lemma NoLateQueued(k: State, n: nat, t: TaskId)
    requires Scene(k, n) && t in k.queue && forall u :: u in k.db.tasks ==> k.db.tasks[u].status.TaskUnassigned?
    ensures t in k.db.tasks && t !in Late(n)
  {
    QueuedEarly(k, t);
    if t in Late(n) {
      LateBlocked(k, n, t);
    }
  }

  lemma QueuedEarly(k: State, t: TaskId)
    requires Reachable(k) && t in k.queue
    ensures t in k.db.tasks
    ensures k.db.tasks[t].status.TaskUnassigned? && k.db.tasks[t].pendingDeps != 0 ==> exists d :: StartedDep(k.db, t, d)
  {
    ReachableInv(k);
    assert Held(k, t);
  }

  /** A task whose dependencies are completed is ready. */
  lemma Unblocked(k: State, n: nat, t: TaskId)
    requires Scene(k, n) && t in k.db.tasks && k.db.tasks[t].status.TaskUnassigned?
    requires t in Late(n) ==> HasStatus(k.db, 1, TaskCompleted)
    ensures Waiting(k.db, t)
  {
    UnblockedWaits(k, t);
  }

  /** Before that, a late task waits for the first root alone. */
  lemma LateBlocked(k: State, n: nat, t: TaskId)
    requires Scene(k, n) && t in Late(n) && !HasStatus(k.db, 1, TaskCompleted)
    ensures t in k.db.tasks && k.db.tasks[t].pendingDeps == 1
  {
    PendingCountExact(k, t);
    var open := set e | e in k.db.deps && e.task == t && e.dep in k.db.tasks && !k.db.tasks[e.dep].status.TaskCompleted?;
    assert Edge(t, 1).task == t && Edge(t, 1).dep == 1;
    assert open == {Edge(t, 1)};
  }

  // ---------------------------------------------------------------- the completion that rolls back

  lemma Quietness(k: State)
    requires Reachable(k) && NoneBusy(k.db) && Staffed(k.db, NOON)
    ensures Takeable(k.db, NOON)
  {
    ReachableInv(k);
    CalmTakeable(k.db, NOON);
  }

  lemma Taker(k: State, t: TaskId) returns (s: StaffId)
    requires Reachable(k) && NoneBusy(k.db) && Staffed(k.db, NOON) && Waiting(k.db, t)
    ensures CanAssign(k.db, t, s, NOON)
  {
    Quietness(k);
    assert !PickOk(k.db, t, None, NOON);
    s :| CanAssign(k.db, t, s, NOON);
  }

  lemma RootStarted(n: nat) returns (k: State)
    ensures Scene(k, n) && Idle(k) && k.queue == map[] && HasStatus(k.db, 1, TaskStarted)
    ensures forall t :: t in k.db.tasks && t != 1 ==> k.db.tasks[t].status.TaskUnassigned?
  {
    var k0 := Opened(n);
    Unblocked(k0, n, 1);
    var s := Taker(k0, 1);
    PopSingle(k0, 1);
    var k1 := k0.(queue := map[], popped := multiset{1});
    LeadsReachable(k0, k1);
    k := AssignAndStart(k1, 1, s, NOON);
    LeadsTransitive(k0, k1, k);
    SceneKept(k0, k, n);
  }

  lemma LateChildren(k: State, n: nat, children: seq<TaskId>)
    requires Scene(k, n) && HasStatus(k.db, 1, TaskStarted) && Enumerates(children, Unlocked(k.db, 1))
    ensures forall t :: t in children <==> t in Late(n)
  {
    ReachableInv(k);
    BeginReadsLastDeps(k, 1);
    forall t ensures t in LastDeps(k.db, 1) <==> t in Late(n) {
      if t in Late(n) {
        LateBlocked(k, n, t);
        assert Edge(t, 1).task == t && Edge(t, 1).dep == 1;
      }
      if t in LastDeps(k.db, 1) {
        assert Edge(t, 1).task == t;
      }
    }
  }

  /** The completion of task 1 has enqueued j children, and j allocators hold one of them each. */
  function Stalled(k: State, children: seq<TaskId>, j: nat): State
    requires j <= |children|
  {
    k.(returning := multiset(children[..j]), completions := map[1 := Completion(children, j)])
  }

  /** The next child is enqueued, popped by the next allocator, and found not to be ready. */
  lemma StallOne(k: State, children: seq<TaskId>, j: nat)
    requires k.queue == map[] && k.popped == multiset{} && j < |children| && HasStatus(k.db, children[j], TaskUnassigned)
    ensures Leads(Stalled(k, children, j), Stalled(k, children, j + 1))
  {
    var k0 := Stalled(k, children, j);
    ChildQueued(k, children, j);
    var k1 := JustQueued(k, children, j);
    PopSingle(k1, children[j]);
    var k2 := k1.(queue := map[], popped := multiset{children[j]});
    LeadsTransitive(k0, k1, k2);
    ChildGivenUp(k, children, j, k2);
    LeadsTransitive(k0, k2, Stalled(k, children, j + 1));
  }

  /** One child more is enqueued, and nobody has popped it yet. */
  function JustQueued(k: State, children: seq<TaskId>, j: nat): State
    requires j < |children|
  {
    k.(queue := map[children[j] := ScoreOf(k.db, children[j], 0.0, NOON)],
       returning := multiset(children[..j]), completions := map[1 := Completion(children, j + 1)])
  }

  lemma ChildQueued(k: State, children: seq<TaskId>, j: nat)
    requires k.queue == map[] && j < |children|
    ensures Leads(Stalled(k, children, j), JustQueued(k, children, j))
  {
    var k0, step := Stalled(k, children, j), EnqueueChild(1, ScoreOf(k.db, children[j], 0.0, NOON));
    LeadsRefl(k0);
    LeadsThen(k0, k0, step);
    assert k0.completions[1 := Completion(children, j + 1)] == map[1 := Completion(children, j + 1)];
  }

  lemma ChildGivenUp(k: State, children: seq<TaskId>, j: nat, k2: State)
    requires k.queue == map[] && k.popped == multiset{} && j < |children| && HasStatus(k.db, children[j], TaskUnassigned)
    requires k2 == JustQueued(k, children, j).(queue := map[], popped := multiset{children[j]})
    ensures Leads(k2, Stalled(k, children, j + 1))
  {
    LeadsRefl(k2);
    LeadsThen(k2, k2, GiveUp(children[j]));
    OneMoreHeld(children, j);
    assert k2.popped - multiset{children[j]} == multiset{};
  }

  lemma OneMoreHeld(children: seq<TaskId>, j: nat)
    requires j < |children|
    ensures multiset(children[..j + 1]) == multiset(children[..j]) + multiset{children[j]}
  {
    assert children[..j + 1] == children[..j] + [children[j]];
  }

  lemma {:induction false} StallAll(k: State, children: seq<TaskId>, j: nat)
    requires k.queue == map[] && k.popped == multiset{} && j <= |children|
    requires forall i :: 0 <= i < |children| ==> HasStatus(k.db, children[i], TaskUnassigned)
    ensures Leads(Stalled(k, children, 0), Stalled(k, children, j))
    decreases j
  {
    if j == 0 {
      LeadsRefl(Stalled(k, children, 0));
    } else {
      StallAll(k, children, j - 1);
      StallOne(k, children, j - 1);
      LeadsTransitive(Stalled(k, children, 0), Stalled(k, children, j - 1), Stalled(k, children, j));
    }
  }

  lemma RolledBack(k: State, children: seq<TaskId>)
    requires Idle(k) && k.queue == map[] && Enabled(k, BeginComplete(1, children))
    requires forall t :: t in children ==> HasStatus(k.db, t, TaskUnassigned)
    ensures Leads(k, k.(returning := multiset(children)))
  {
    LeadsRefl(k);
    LeadsThen(k, k, BeginComplete(1, children));
    assert children[..0] == [];
    assert Apply(k, BeginComplete(1, children)) == Stalled(k, children, 0);
    StallAll(k, children, |children|);
    var k1 := Stalled(k, children, |children|);
    LeadsTransitive(k, Stalled(k, children, 0), k1);
    LeadsThen(k, k1, RollbackComplete(1));
    assert children[..|children|] == children;
    assert Apply(k1, RollbackComplete(1)).completions == map[];
  }

  /** The first, rolled back completion: allocators hold the ids of all late tasks, one each. */
  lemma EarlyRound(n: nat) returns (k: State, early: seq<TaskId>)
    ensures Scene(k, n) && k.queue == map[] && HasStatus(k.db, 1, TaskStarted)
    ensures k.popped == multiset{} && k.completions == map[] && k.returning == multiset(early)
    ensures forall t :: t in early <==> t in Late(n)
    ensures forall t :: t in k.db.tasks && t != 1 ==> k.db.tasks[t].status.TaskUnassigned?
  {
    var k0 := RootStarted(n);
    early := SomeListing(Unlocked(k0.db, 1));
    LateChildren(k0, n, early);
    forall t | t in early ensures HasStatus(k0.db, t, TaskUnassigned) {
      assert t in Late(n) && t in k0.db.tasks;
    }
    RolledBack(k0, early);
    k := k0.(returning := multiset(early));
    SameSetupRefl(k0.db);
    SceneKept(k0, k, n);
  }

  // ---------------------------------------------------------------- the completion that commits

  lemma SecondRound(n: nat) returns (k: State, early: seq<TaskId>)
    ensures Scene(k, n) && HasStatus(k.db, 1, TaskCompleted) && k.queue.Keys == Late(n)
    ensures k.popped == multiset{} && k.completions == map[] && k.returning == multiset(early)
    ensures forall t :: t in early <==> t in Late(n)
    ensures forall t :: t in k.db.tasks && t != 1 ==> k.db.tasks[t].status.TaskUnassigned?
  {
    var k0;
    k0, early := EarlyRound(n);
    k := CommitFirst(k0, n);
    SceneKept(k0, k, n);
  }

  lemma CommitFirst(k: State, n: nat) returns (k': State)
    requires Scene(k, n) && k.queue == map[] && HasStatus(k.db, 1, TaskStarted) && k.completions == map[]
    requires forall t :: t in k.db.tasks && t != 1 ==> k.db.tasks[t].status.TaskUnassigned?
    ensures Leads(k, k') && k' == k.(db := k'.db, queue := k'.queue) && SameSetup(k.db, k'.db) && k'.db.deps == k.db.deps
    ensures HasStatus(k'.db, 1, TaskCompleted) && k'.queue.Keys == Late(n)
    ensures forall t :: t in k'.db.tasks && t != 1 ==> k'.db.tasks[t].status.TaskUnassigned?
  {
    StartedRows(k, 1);
    var children;
    k', children := CompletionLeads(k, 1, NOON);
    StartedFinishes(k, 1, children, NOON);
    FinishedNotDone(k.db, k'.db, 1);
    CompleteSetup(k.db, 1, children, NOON);
    LateChildren(k, n, children);
    QueueScores(k.queue, k.db, children, 0.0, NOON);
  }

  /** Each popped late task is assigned, started and completed. */
  lemma {:induction false} ServeAll(k: State, n: nat, ids: seq<TaskId>) returns (k': State)
    requires Scene(k, n) && k.completions == map[] && k.popped == multiset(ids) && NoneBusy(k.db)
    requires HasStatus(k.db, 1, TaskCompleted) && NoDuplicates(ids)
    requires forall t :: t in ids ==> t in Late(n) && HasStatus(k.db, t, TaskUnassigned)
    ensures Scene(k', n) && Leads(k, k') && k' == k.(db := k'.db, popped := multiset{}) && NoneBusy(k'.db)
    ensures forall t :: t in k.db.tasks ==>
      t in k'.db.tasks && k'.db.tasks[t].status == if t in ids then TaskCompleted else k.db.tasks[t].status
    decreases |ids|
  {
    if ids == [] {
      LeadsRefl(k);
      k' := k;
    } else {
      var m := |ids| - 1;
      SplitLast(ids);
      var k1 := ServeOne(k, n, ids[m]);
      k' := ServeAll(k1, n, ids[..m]);
      LeadsTransitive(k, k1, k');
      ServedStatuses(k.db, k1.db, k'.db, ids);
    }
  }

  lemma ServedStatuses(db: Database, db1: Database, db2: Database, ids: seq<TaskId>)
    requires ids != [] && db1.tasks.Keys == db.tasks.Keys <= db2.tasks.Keys
    requires forall t :: t in db.tasks ==> db1.tasks[t].status == if t == ids[|ids| - 1] then TaskCompleted else db.tasks[t].status
    requires forall t :: t in db.tasks ==> db2.tasks[t].status == if t in ids[..|ids| - 1] then TaskCompleted else db1.tasks[t].status
    ensures forall t :: t in db.tasks ==> db2.tasks[t].status == if t in ids then TaskCompleted else db.tasks[t].status
  {
    SplitLast(ids);
  }

  lemma ServeOne(k: State, n: nat, t: TaskId) returns (k': State)
    requires Scene(k, n) && k.completions == map[] && t in k.popped && NoneBusy(k.db)
    requires HasStatus(k.db, 1, TaskCompleted) && t in Late(n) && HasStatus(k.db, t, TaskUnassigned)
    ensures Scene(k', n) && Leads(k, k') && k' == k.(db := k'.db, popped := k.popped - multiset{t}) && NoneBusy(k'.db)
    ensures k'.db.tasks.Keys == k.db.tasks.Keys && HasStatus(k'.db, t, TaskCompleted)
    ensures forall u :: u in k.db.tasks && u != t ==> k'.db.tasks[u].status == k.db.tasks[u].status
  {
    Unblocked(k, n, t);
    var s := Taker(k, t);
    k' := FinishWaiting(k, t, s, NOON);
    assert forall e :: e in k.db.deps ==> e.dep != t;
    SceneKept(k, k', n);
    assert t in k'.db.tasks && t !in NotDone(k'.db);
  }

  /** Allocation after allocation, until the queue is empty. */
  lemma {:induction false} ServeQueue(k: State, n: nat) returns (k': State)
    requires Scene(k, n) && k.completions == map[] && k.popped == multiset{} && NoneBusy(k.db)
    requires HasStatus(k.db, 1, TaskCompleted)
    requires forall t :: t in k.queue ==> t in Late(n) && HasStatus(k.db, t, TaskUnassigned)
    ensures Scene(k', n) && Leads(k, k') && k' == k.(db := k'.db, queue := map[]) && NoneBusy(k'.db)
    ensures forall t :: t in k.db.tasks ==>
      t in k'.db.tasks && k'.db.tasks[t].status == if t in k.queue then TaskCompleted else k.db.tasks[t].status
    decreases |k.queue|
  {
    LeadsRefl(k);
    if k.queue == map[] {
      k' := k;
    } else {
      var ids, k1 := PopBatch(k, n);
      var k2 := ServeAll(k1, n, ids);
      k' := ServeQueue(k2, n);
      LeadsTransitive(k, k1, k2);
      LeadsTransitive(k, k2, k');
    }
  }

  lemma PopBatch(k: State, n: nat) returns (ids: seq<TaskId>, k': State)
    requires Scene(k, n) && k.popped == multiset{} && k.queue != map[]
    ensures Scene(k', n) && Leads(k, k') && k' == k.(queue := Without(k.queue, ids), popped := multiset(ids))
    ensures NoDuplicates(ids) && (forall t :: t in ids ==> t in k.queue) && |k'.queue| < |k.queue|
  {
    ids := TopN(k.queue, 20);
    TopNIsLeast(k.queue, 20);
    LeadsRefl(k);
    LeadsThen(k, k, Pop);
    k' := Apply(k, Pop);
    assert k.popped + multiset(ids) == multiset(ids);
    WithoutSize(k.queue, ids);
    SameSetupRefl(k.db);
    SceneKept(k, k', n);
  }

  // ---------------------------------------------------------------- the end

  /** All late tasks are finished, the kitchen is at rest, and the held ids are back in the queue. */
  lemma Returned(n: nat) returns (k: State)
    ensures Scene(k, n) && Idle(k) && NoneBusy(k.db) && k.queue.Keys == Late(n)
    ensures forall t :: t in Late(n) ==> HasStatus(k.db, t, TaskCompleted) && k.queue[t] < 0.0
  {
    var k0, early := SecondRound(n);
    var k1 := ServeQueue(k0, n);
    assert k1.returning == multiset(early) + multiset{};
    EnqueueLeads(k1, early, 0.0, NOON, multiset{});
    k := k1.(queue := EnqueueAll(k1.queue, k1.db, early, 0.0, NOON), returning := multiset{});
    SameSetupRefl(k1.db);
    SceneKept(k1, k, n);
    LateScores(k1, n, early);
  }

  lemma LateScores(k: State, n: nat, early: seq<TaskId>)
    requires Scene(k, n) && k.queue.Keys <= Late(n) && forall t :: t in early <==> t in Late(n)
    ensures var queue := EnqueueAll(k.queue, k.db, early, 0.0, NOON);
      queue.Keys == Late(n) && forall t :: t in Late(n) ==> queue[t] < 0.0
  {
    QueueScores(k.queue, k.db, early, 0.0, NOON);
    forall t | t in Late(n) ensures ScoreOf(k.db, t, 0.0, NOON) < 0.0 {
      assert t in k.db.tasks;
      LateScore(k.db, t);
    }
  }

  function NewTaskId(n: nat): TaskId {
    n + 2
  }

  function LowPriority(): NewTask {
    NewTask(1, Some(1), 60, 0.0, NOON)
  }

  /**
   * A reachable, idle, staffed kitchen with a ready task in the queue and n finished ones ahead of it.
   */
  lemma FullOfStaleIds(n: nat) returns (k: State)
    ensures Reachable(k) && Idle(k) && NoneBusy(k.db) && Staffed(k.db, NOON)
    ensures NewTaskId(n) in k.queue && Waiting(k.db, NewTaskId(n)) && k.queue.Keys == Late(n) + {NewTaskId(n)}
    ensures forall t :: t in TopN(k.queue, n) <==> t in Late(n)
    ensures forall t :: t in Late(n) ==> HasStatus(k.db, t, TaskCompleted)
  {
    var k0 := Returned(n);
    k := SecondOrder(k0, n);
    forall a, b | a in Late(n) && b in k.queue && b !in Late(n) ensures k.queue[a] < k.queue[b] {
      assert a in k0.queue.Keys;
    }
    LowScoresFirst(k.queue, Late(n));
    LateSize(n);
  }

  /** A new order of one task of low priority is confirmed. */
  lemma SecondOrder(k: State, n: nat) returns (k': State)
    requires Scene(k, n) && Idle(k) && NoneBusy(k.db) && k.queue.Keys == Late(n)
    ensures Reachable(k') && Idle(k') && NoneBusy(k'.db) && Staffed(k'.db, NOON)
    ensures NewTaskId(n) in k'.queue && k'.queue[NewTaskId(n)] == 0.0 && Waiting(k'.db, NewTaskId(n))
    ensures k'.queue.Keys == k.queue.Keys + {NewTaskId(n)}
    ensures forall t :: t in k.queue ==> k'.queue[t] == k.queue[t]
    ensures forall t :: t in k.db.tasks ==> t in k'.db.tasks && k'.db.tasks[t] == k.db.tasks[t]
  {
    var u := NewTaskId(n);
    var o := FreshId(k.db.orders);
    var ids, rows := [u], [LowPriority()];
    var ready := SecondAccepted(k, n, o);
    CreateAndPublishLeads(k, o, ids, rows, [], ready, NOON);
    k' := AfterConfirm(k, o, ids, rows, [], ready, NOON);
    LeadsReachable(k, k');
    SecondTables(k.db, o, u);
    SecondStaffed(k, k', o, u);
    SecondQueue(k, k', o, u, ready);
  }

  lemma SecondQueue(k: State, k': State, o: OrderId, u: TaskId, ready: seq<TaskId>)
    requires u !in k.queue && u !in k.db.tasks && forall t :: t in ready <==> t == u
    requires k'.queue == EnqueueAll(k.queue, Confirmed(k.db, o, [u], [LowPriority()], []), ready, 0.0, NOON)
    ensures k'.queue.Keys == k.queue.Keys + {u} && k'.queue[u] == 0.0
    ensures forall t :: t in k.queue ==> k'.queue[t] == k.queue[t]
  {
    SecondTables(k.db, o, u);
    QueueScores(k.queue, Confirmed(k.db, o, [u], [LowPriority()], []), ready, 0.0, NOON);
  }

  lemma SecondAccepted(k: State, n: nat, o: OrderId) returns (ready: seq<TaskId>)
    requires Scene(k, n) && o !in k.db.orders
    ensures Enabled(k, CreateOrder(o, [NewTaskId(n)], [LowPriority()], []))
    ensures Enumerates(ready, OrderReady(Confirmed(k.db, o, [NewTaskId(n)], [LowPriority()], []), o))
    ensures forall t :: t in ready <==> t == NewTaskId(n)
  {
    var u := NewTaskId(n);
    SecondTables(k.db, o, u);
    OtherOrders(k, n, o);
    ready := SomeListing(OrderReady(Confirmed(k.db, o, [u], [LowPriority()], []), o));
    assert OrderReady(Confirmed(k.db, o, [u], [LowPriority()], []), o) == {u};
  }

  lemma OtherOrders(k: State, n: nat, o: OrderId)
    requires Scene(k, n) && o !in k.db.orders
    ensures o != 1
  {
    ReachableInv(k);
  }

  lemma SecondTables(db: Database, o: OrderId, u: TaskId)
    requires u !in db.tasks
    ensures Confirmed(db, o, [u], [LowPriority()], []) == CreateTx(db, o, [u], [LowPriority()])
    ensures CreateTx(db, o, [u], [LowPriority()]).tasks == db.tasks[u := NewRow(o, LowPriority())]
  {
    assert InsertRows(db.tasks, o, [], []) == db.tasks;
    assert [u][..0] == [] && [LowPriority()][..0] == [];
  }

  lemma SecondStaffed(k: State, k': State, o: OrderId, u: TaskId)
    requires Staffed(k.db, NOON) && NoneBusy(k.db) && u !in k.db.tasks && 1 in k.db.machines && k.db.machines[1].counter == 1
    requires k'.db == CreateTx(k.db, o, [u], [LowPriority()]).(log := k'.db.log)
    ensures Staffed(k'.db, NOON) && NoneBusy(k'.db)
  {
    CreatedStaffed(k.db, o, [u], [LowPriority()], NOON);
    StaffedKept(CreateTx(k.db, o, [u], [LowPriority()]), k'.db, NOON);
    SecondTables(k.db, o, u);
  }

  /** So a single AllocateOnce, which pops 20 ids, can come back empty although a ready task is queued. */
  lemma OneAllocationIsNotEnough() returns (k: State, u: TaskId)
    ensures Reachable(k) && Idle(k) && NoneBusy(k.db) && Staffed(k.db, NOON) && u in k.queue && Waiting(k.db, u)
    ensures exists ids, picks :: Round(DeskOf(k), ids, picks, NOON)
    ensures forall ids, picks :: Round(DeskOf(k), ids, picks, NOON) ==> !Assigns(picks)
  {
    k := FullOfStaleIds(20);
    u := NewTaskId(20);
    EmptyRound(DeskOf(k));
    forall ids, picks | Round(DeskOf(k), ids, picks, NOON) ensures !Assigns(picks) {
      RoundAssignsIff(DeskOf(k), ids, picks, NOON);
      assert forall t :: t in TopN(k.queue, 20) ==> !Waiting(k.db, t);
    }
  }

  /** Trying finished tasks one after the other is a round in which nobody is picked. */
  lemma EmptyRound(d: Desk)
    requires forall t :: t in TopN(d.queue, 20) ==> HasStatus(d.db, t, TaskCompleted)
    ensures exists ids, picks :: Round(d, ids, picks, NOON)
  {
    var ids := TopN(d.queue, 20);
    var picks := seq(|ids|, _ => None);
    var d' := d.(queue := Without(d.queue, ids));
    forall i | 0 <= i < |ids| ensures PickOk(AfterBatch(d', ids[..i], picks[..i], NOON).db, ids[i], picks[i], NOON) {
      NoPickKeepsTables(d', ids[..i], picks[..i], NOON);
      assert ids[i] in ids;
    }
    assert Round(d, ids, picks, NOON);
  }
}
