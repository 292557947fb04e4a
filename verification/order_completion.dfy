/**
 * Which orders can be finished at all: in a staffed kitchen, from any reachable state, a published
 * order can still be completed if and only if its dependency graph, and so the graph of each of
 * its recipes, has no cycle.
 */
module OrderCompletion {
  import opened Wrappers
  import opened Model
  import opened Collections
  import opened Transactions
  import opened ResourceAccounting
  import opened Graphs
  import opened ReadyOrder
  import opened KitchenMachine
  import opened DependencyGate
  import opened ReadyFlow
  import opened KitchenTheorems
  import opened DependencyAnalyzer
  import opened OrderExpansion
  import opened ServiceEffects
  import opened ServiceRuns
  import opened Progress
  import opened OrderGraph

  /** Some continuation completes every task of the order. */
  ghost predicate Finishable(k: State, o: OrderId) {
    exists steps, k' :: Run(k, steps, k') && AllDone(k'.db, o)
  }

  predicate FullyPublished(k: State, o: OrderId) {
    o in k.confirms && k.confirms[o] == Publishing([], false)
  }

  function NotDone(db: Database): set<TaskId> {
    set t | t in db.tasks && !db.tasks[t].status.TaskCompleted?
  }

  // ---------------------------------------------------------------- what work leaves alone

  /** Rosters, capacities and the places of the tasks are the same. */
  ghost predicate SameSetup(db: Database, db': Database) {
    SameCounters(db, db') && SameMachines(db, db') && SameRoster(db, db') && SamePlaces(db, db') && db'.skills == db.skills
  }

  ghost predicate SameCounters(db: Database, db': Database) {
    db'.counters.Keys == db.counters.Keys &&
    forall c :: c in db.counters ==> db'.counters[c] == db.counters[c].(inUse := db'.counters[c].inUse)
  }

  ghost predicate SameMachines(db: Database, db': Database) {
    db'.machines.Keys == db.machines.Keys &&
    forall m :: m in db.machines ==> db'.machines[m] == db.machines[m].(inUse := db'.machines[m].inUse)
  }

  ghost predicate SameRoster(db: Database, db': Database) {
    db'.staff.Keys == db.staff.Keys &&
    forall s :: s in db.staff ==>
      && db'.staff[s].shiftStart == db.staff[s].shiftStart && db'.staff[s].shiftEnd == db.staff[s].shiftEnd
      && db'.staff[s].maxParallel == db.staff[s].maxParallel && db'.staff[s].onBreak == db.staff[s].onBreak
  }

  ghost predicate SamePlaces(db: Database, db': Database) {
    db'.tasks.Keys == db.tasks.Keys &&
    forall t :: t in db.tasks ==>
      && db'.tasks[t].order == db.tasks[t].order && db'.tasks[t].createdAt == db.tasks[t].createdAt
      && db'.tasks[t].machine == db.tasks[t].machine && db'.tasks[t].counter == db.tasks[t].counter
      && db'.tasks[t].basePriority == db.tasks[t].basePriority
  }

  lemma SetupTrans(a: Database, b: Database, c: Database)
    requires SameSetup(a, b) && SameSetup(b, c)
    ensures SameSetup(a, c)
  {
  }

  lemma StaffedKept(db: Database, db': Database, now: Time)
    requires Staffed(db, now) && SameSetup(db, db')
    ensures Staffed(db', now)
  {
    forall c | c in db'.counters ensures db'.counters[c].capacity >= 1 && HasWorker(db', c, now) {
      assert HasWorker(db, c, now);
      var s :| s in db.staff && (s, c) in db.skills && !db.staff[s].onBreak
               && db.staff[s].shiftStart <= now <= db.staff[s].shiftEnd && db.staff[s].maxParallel >= 1;
      assert s in db'.staff;
    }
  }

  lemma AssignSetup(db: Database, t: TaskId, s: StaffId, now: Time)
    requires t in db.tasks && db.tasks[t].machine.Some?
    ensures SameSetup(db, AssignTo(db, t, s, now))
  {
  }

  lemma ReleaseSetup(db: Database, t: TaskId, now: Time)
    requires t in db.tasks && HasRunMetadata(db.tasks[t])
    ensures SameSetup(db, ReleaseStarted(db, t, now))
  {
  }

  lemma AfterReleaseSetup(db: Database, t: TaskId, children: seq<TaskId>, now: Time)
    requires t in db.tasks && HasRunMetadata(db.tasks[t])
    ensures SameSetup(ReleaseStarted(db, t, now), CompleteTx(db, t, children, now))
  {
    AfterRelease(db, t, children, now);
  }

  lemma CompleteSetup(db: Database, t: TaskId, children: seq<TaskId>, now: Time)
    requires t in db.tasks && HasRunMetadata(db.tasks[t])
    ensures SameSetup(db, CompleteTx(db, t, children, now))
  {
    ReleaseSetup(db, t, now);
    AfterReleaseSetup(db, t, children, now);
    SetupTrans(db, ReleaseStarted(db, t, now), CompleteTx(db, t, children, now));
  }

  // ---------------------------------------------------------------- one task more

  /** `k'` follows `k`, and one task more is completed. */
  ghost predicate OneTaskMore(k: State, k': State, t: TaskId) {
    && Leads(k, k') && k'.confirms == k.confirms && SameSetup(k.db, k'.db)
    && t in NotDone(k.db) && NotDone(k'.db) == NotDone(k.db) - {t}
  }

  /** Nothing else happened: no other task changed status, and only dependents of `t` were enqueued. */
  ghost predicate NothingElse(k: State, k': State, t: TaskId) {
    && k' == k.(db := k'.db, queue := k'.queue, popped := k'.popped)
    && k'.db.deps == k.db.deps && k'.db.tasks.Keys == k.db.tasks.Keys
    && (forall u :: u in k.db.tasks && u != t ==> k'.db.tasks[u].status == k.db.tasks[u].status)
    && ((forall e :: e in k.db.deps ==> e.dep != t) ==> k'.queue == k.queue)
  }

  lemma FinishedNotDone(db: Database, db': Database, t: TaskId)
    requires Finished(db, db', t)
    ensures NotDone(db') == NotDone(db) - {t}
    ensures forall u :: u in db.tasks && u != t ==> db'.tasks[u].status == db.tasks[u].status
  {
    forall u | u in db.tasks && u != t ensures db'.tasks[u].status == db.tasks[u].status {}
  }

  lemma NoChildren(db: Database, t: TaskId, children: seq<TaskId>)
    requires Enumerates(children, Unlocked(db, t)) && forall e :: e in db.deps ==> e.dep != t
    ensures children == []
  {
    ListingSize(children, Unlocked(db, t));
    forall c | c in db.tasks ensures Edge(c, t) !in db.deps {
      assert Edge(c, t).dep == t;
    }
    assert Unlocked(db, t) == {};
  }

  lemma FinishStarted(k: State, t: TaskId, now: Time) returns (k': State)
    requires Reachable(k) && k.completions == map[] && HasStatus(k.db, t, TaskStarted)
    ensures OneTaskMore(k, k', t) && NothingElse(k, k', t) && k'.popped == k.popped
  {
    StartedRows(k, t);
    var children;
    k', children := CompletionLeads(k, t, now);
    StartedFinishes(k, t, children, now);
    FinishedNotDone(k.db, k'.db, t);
    CompleteSetup(k.db, t, children, now);
    if forall e :: e in k.db.deps ==> e.dep != t { NoChildren(k.db, t, children); }
  }

  lemma FinishAssigned(k: State, t: TaskId, now: Time) returns (k': State)
    requires Reachable(k) && k.completions == map[] && HasStatus(k.db, t, TaskAssigned)
    ensures OneTaskMore(k, k', t) && NothingElse(k, k', t) && k'.popped == k.popped
  {
    var k1 := k.(db := StartTx(k.db, t, now));
    StartLeads(k, t, now);
    LeadsReachable(k, k1);
    StartSetup(k.db, t, now);
    k' := FinishStarted(k1, t, now);
    MoreAfter(k, k1, k', t);
  }

  /** A first step that only moves `t` itself on. */
  lemma MoreAfter(k: State, k1: State, k': State, t: TaskId)
    requires Leads(k, k1) && SameSetup(k.db, k1.db) && NotDone(k1.db) == NotDone(k.db)
    requires k1 == k.(db := k1.db, popped := k1.popped) && k1.db.deps == k.db.deps
    requires forall u :: u in k.db.tasks && u != t ==> k1.db.tasks[u].status == k.db.tasks[u].status
    requires OneTaskMore(k1, k', t) && NothingElse(k1, k', t)
    ensures OneTaskMore(k, k', t) && NothingElse(k, k', t)
  {
    LeadsTransitive(k, k1, k');
    SetupTrans(k.db, k1.db, k'.db);
  }

  lemma StartSetup(db: Database, t: TaskId, now: Time)
    requires HasStatus(db, t, TaskAssigned)
    ensures SameSetup(db, StartTx(db, t, now)) && NotDone(StartTx(db, t, now)) == NotDone(db)
  {
  }

  lemma FinishWaiting(k: State, t: TaskId, s: StaffId, now: Time) returns (k': State)
    requires Reachable(k) && k.completions == map[] && t in k.popped && CanAssign(k.db, t, s, now)
    ensures OneTaskMore(k, k', t) && NothingElse(k, k', t) && k'.popped == k.popped - multiset{t}
  {
    var k1 := AssignLeads(k, t, s, now);
    LeadsReachable(k, k1);
    k' := FinishAssigned(k1, t, now);
    MoreAfter(k, k1, k', t);
  }

  lemma AssignLeads(k: State, t: TaskId, s: StaffId, now: Time) returns (k': State)
    requires t in k.popped && CanAssign(k.db, t, s, now)
    ensures Leads(k, k') && k' == k.(db := k'.db, popped := k.popped - multiset{t})
    ensures HasStatus(k'.db, t, TaskAssigned) && NotDone(k'.db) == NotDone(k.db) && SameSetup(k.db, k'.db)
    ensures k'.db.deps == k.db.deps
    ensures k'.db.tasks == k.db.tasks[t := AssignRow(k.db.tasks[t], s, k.db.tasks[t].machine.value, now)]
  {
    LeadsRefl(k);
    LeadsThen(k, k, Assign(t, s, now));
    k' := Apply(k, Assign(t, s, now));
    AssignedRow(k.db, t, s, now);
    AssignSetup(k.db, t, s, now);
  }

  lemma AssignedRow(db: Database, t: TaskId, s: StaffId, now: Time)
    requires CanAssign(db, t, s, now)
    ensures var db' := AssignTo(db, t, s, now);
      && HasStatus(db', t, TaskAssigned) && NotDone(db') == NotDone(db) && db'.deps == db.deps
      && db'.tasks == db.tasks[t := AssignRow(db.tasks[t], s, db.tasks[t].machine.value, now)]
  {
    var db' := AssignTo(db, t, s, now);
    assert db'.tasks == db.tasks[t := AssignRow(db.tasks[t], s, db.tasks[t].machine.value, now)];
  }

  lemma AssignAndStart(k: State, t: TaskId, s: StaffId, now: Time) returns (k': State)
    requires t in k.popped && CanAssign(k.db, t, s, now)
    ensures Leads(k, k') && k' == k.(db := k'.db, popped := k.popped - multiset{t})
    ensures SameSetup(k.db, k'.db) && k'.db.deps == k.db.deps && HasStatus(k'.db, t, TaskStarted)
    ensures k'.db.tasks == k.db.tasks[t := k'.db.tasks[t]]
    ensures k'.db.tasks[t].staff == Some(s) && k'.db.tasks[t].onMachine == k.db.tasks[t].machine
  {
    var k1 := AssignLeads(k, t, s, now);
    StartLeads(k1, t, now);
    k' := k1.(db := StartTx(k1.db, t, now));
    StartSetup(k1.db, t, now);
    LeadsTransitive(k, k1, k');
    SetupTrans(k.db, k1.db, k'.db);
  }

  /** A task of a published order whose dependencies are all completed is ready. */
  lemma UnblockedWaits(k: State, t: TaskId)
    requires Reachable(k) && HasStatus(k.db, t, TaskUnassigned) && FullyPublished(k, k.db.tasks[t].order)
    requires forall e :: e in k.db.deps && e.task == t ==> HasStatus(k.db, e.dep, TaskCompleted)
    ensures Waiting(k.db, t)
  {
    PendingCountExact(k, t);
    assert OpenEdges(k.db, t) ==
      set e | e in k.db.deps && e.task == t && e.dep in k.db.tasks && !k.db.tasks[e.dep].status.TaskCompleted?;
    assert OpenEdges(k.db, t) == {};
  }

  /** Allocation after allocation pops, until the queue is empty. */
  lemma {:induction false} PopAll(k: State) returns (k': State)
    ensures Leads(k, k') && k' == k.(queue := map[], popped := k'.popped)
    ensures forall t :: t in k.queue || t in k.popped ==> t in k'.popped
    decreases |k.queue|
  {
    LeadsRefl(k);
    if k.queue == map[] {
      k' := k;
    } else {
      PopShrinks(k);
      LeadsThen(k, k, Pop);
      k' := PopAll(Apply(k, Pop));
      LeadsTransitive(k, Apply(k, Pop), k');
    }
  }

  lemma PopShrinks(k: State)
    requires k.queue != map[]
    ensures |Apply(k, Pop).queue| < |k.queue|
    ensures forall t :: t in k.queue ==> t in Apply(k, Pop).queue || t in Apply(k, Pop).popped
  {
    TopNIsLeast(k.queue, POP_SIZE);
    WithoutSize(k.queue, TopN(k.queue, POP_SIZE));
  }

  /** In a resting, staffed kitchen some task can be completed. */
  lemma OneMore(k: State, o: OrderId, now: Time) returns (k': State, t: TaskId)
    requires Reachable(k) && Idle(k) && FullyPublished(k, o) && Staffed(k.db, now)
    requires Acyclic(OrderLinks(k.db, o)) && !AllDone(k.db, o)
    ensures OneTaskMore(k, k', t)
  {
    if u :| HasStatus(k.db, u, TaskAssigned) {
      t := u;
      k' := FinishAssigned(k, t, now);
    } else if u :| HasStatus(k.db, u, TaskStarted) {
      t := u;
      k' := FinishStarted(k, t, now);
    } else {
      NobodyBusy(k.db);
      t := RestingKitchen(k, o);
      k' := FinishQueued(k, t, now);
    }
  }

  lemma FinishQueued(k: State, t: TaskId, now: Time) returns (k': State)
    requires Reachable(k) && Idle(k) && t in k.queue && Waiting(k.db, t) && Takeable(k.db, now)
    ensures OneTaskMore(k, k', t)
  {
    assert !PickOk(k.db, t, None, now);
    var s :| CanAssign(k.db, t, s, now);
    var k1 := PopAll(k);
    LeadsReachable(k, k1);
    k' := FinishWaiting(k1, t, s, now);
    LeadsTransitive(k, k1, k');
  }

  // ---------------------------------------------------------------- finishing the order

  lemma SettledGraph(k: State, k': State, o: OrderId)
    requires Reachable(k) && Settled(k, o) && Leads(k, k')
    ensures OrderLinks(k'.db, o) == OrderLinks(k.db, o)
  {
    ReachableInv(k);
    var steps :| Run(k, steps, k');
    GraphStaysOverRuns(k, steps, k', o);
  }

  lemma {:induction false} FinishOrder(k: State, o: OrderId, now: Time) returns (k': State)
    requires Reachable(k) && FullyPublished(k, o) && Staffed(k.db, now) && Acyclic(OrderLinks(k.db, o))
    ensures Leads(k, k') && AllDone(k'.db, o)
    decreases |NotDone(k.db)|
  {
    if AllDone(k.db, o) {
      LeadsRefl(k);
      k' := k;
    } else {
      var r := Drain(k);
      LeadsReachable(k, r);
      var k1, t := OneMore(r, o, now);
      LeadsTransitive(k, r, k1);
      LeadsReachable(k, k1);
      SettledGraph(k, k1, o);
      StaffedKept(r.db, k1.db, now);
      k' := FinishOrder(k1, o, now);
      LeadsTransitive(k, k1, k');
    }
  }

  // ---------------------------------------------------------------- cyclic orders

  /** A cycle of the order's graph goes through one of its tasks. */
  lemma CycleInOrder(db: Database, o: OrderId) returns (t: TaskId)
    requires !Acyclic(OrderLinks(db, o))
    ensures t in db.tasks && db.tasks[t].order == o && OnCycle(DepLinks(db), t)
  {
    var p :| Cycle(OrderLinks(db, o), p);
    assert Graphs.Hop(OrderLinks(db, o), p, 0);
    var e :| e in db.deps && e.task in db.tasks && db.tasks[e.task].order == o && Link(e.task, e.dep) == Link(p[0], p[1]);
    t := e.task;
    forall i: nat | i + 1 < |p| ensures Graphs.Hop(DepLinks(db), p, i) {
      assert Graphs.Hop(OrderLinks(db, o), p, i);
    }
    assert Cycle(DepLinks(db), p);
  }

  lemma CyclicNeverDone(k: State, o: OrderId)
    requires Reachable(k) && !Acyclic(OrderLinks(k.db, o))
    ensures !AllDone(k.db, o)
  {
    var t := CycleInOrder(k.db, o);
    CycleNeverRuns(k, t);
  }

  // ---------------------------------------------------------------- main results

  /** From any reachable state, whatever its processes are doing, a published order can be finished iff its graph has no cycle. */
  lemma FinishableIff(k: State, o: OrderId, now: Time)
    requires Reachable(k) && FullyPublished(k, o) && Staffed(k.db, now)
    ensures Finishable(k, o) <==> Acyclic(OrderLinks(k.db, o))
  {
    if Acyclic(OrderLinks(k.db, o)) {
      var k' := FinishOrder(k, o, now);
      var steps :| Run(k, steps, k');
    }
    if Finishable(k, o) {
      var steps, k' :| Run(k, steps, k') && AllDone(k'.db, o);
      assert Leads(k, k');
      LeadsReachable(k, k');
      SettledGraph(k, k', o);
      if !Acyclic(OrderLinks(k'.db, o)) { CyclicNeverDone(k', o); }
    }
  }

  // ---------------------------------------------------------------- the rest of a confirmation

  /** ConfirmOrder can always go on to its end, and changes nothing that work depends on. */
  lemma PublishList(k: State, o: OrderId) returns (k': State)
    requires o in k.confirms && k.confirms[o].Publishing? && !k.confirms[o].enqueued
    ensures Leads(k, k') && FullyPublished(k', o) && SameSetup(k.db, k'.db)
  {
    var rest := k.confirms[o].rest;
    PublishLeads(k, o, rest, k.db, 0, |rest|);
    k' := ServiceRuns.Published(k, o, rest, k.db, 0, |rest|);
    assert rest[|rest|..] == [];
  }

  lemma PublishRest(k: State, o: OrderId) returns (k': State)
    requires Reachable(k) && o in k.confirms && k.confirms[o].Publishing?
    ensures Leads(k, k') && FullyPublished(k', o) && SameSetup(k.db, k'.db)
  {
    if k.confirms[o].enqueued {
      EnqueuedHasRest(k, o);
      k' := StepThenPublish(k, PublishEvent(o), o);
    } else {
      k' := PublishList(k, o);
    }
  }

  lemma EnqueuedHasRest(k: State, o: OrderId)
    requires Reachable(k) && o in k.confirms && k.confirms[o].Publishing? && k.confirms[o].enqueued
    ensures k.confirms[o].rest != []
  {
    ReachableInv(k);
    assert ListOk(k.db, o, k.confirms[o]);
  }

  lemma StepThenPublish(k: State, step: Step, o: OrderId) returns (k': State)
    requires Enabled(k, step) && o in Apply(k, step).confirms && SameSetup(k.db, Apply(k, step).db)
    requires Apply(k, step).confirms[o].Publishing? && !Apply(k, step).confirms[o].enqueued
    ensures Leads(k, k') && FullyPublished(k', o) && SameSetup(k.db, k'.db)
  {
    var mid := Apply(k, step);
    LeadsRefl(k);
    LeadsThen(k, k, step);
    k' := PublishList(mid, o);
    LeadsTransitive(k, mid, k');
    SetupTrans(k.db, mid.db, k'.db);
  }

  lemma FromList(k: State, o: OrderId) returns (k': State)
    requires o in k.confirms && k.confirms[o].AwaitList?
    ensures Leads(k, k') && FullyPublished(k', o) && SameSetup(k.db, k'.db)
  {
    var ready := SomeListing(OrderReady(k.db, o));
    k' := StepThenPublish(k, ListReady(o, ready), o);
  }

  lemma FromRecalc(k: State, o: OrderId) returns (k': State)
    requires o in k.confirms && k.confirms[o].AwaitRecalc?
    ensures Leads(k, k') && FullyPublished(k', o) && SameSetup(k.db, k'.db)
  {
    var mid := Apply(k, Recalculate(o));
    LeadsRefl(k);
    LeadsThen(k, k, Recalculate(o));
    k' := FromList(mid, o);
    LeadsTransitive(k, mid, k');
    assert SameSetup(k.db, mid.db);
    SetupTrans(k.db, mid.db, k'.db);
  }

  lemma FromEdges(k: State, o: OrderId) returns (k': State)
    requires o in k.confirms && k.confirms[o].AwaitEdges?
    ensures Leads(k, k') && FullyPublished(k', o) && SameSetup(k.db, k'.db)
  {
    var mid := Apply(k, InsertEdges(o));
    LeadsRefl(k);
    LeadsThen(k, k, InsertEdges(o));
    k' := FromRecalc(mid, o);
    LeadsTransitive(k, mid, k');
    SetupTrans(k.db, mid.db, k'.db);
  }

  /** From wherever ConfirmOrder stands with an order it can be published. */
  lemma ToPublished(k: State, o: OrderId) returns (k': State)
    requires Reachable(k) && o in k.confirms
    ensures Leads(k, k') && FullyPublished(k', o) && SameSetup(k.db, k'.db)
  {
    match k.confirms[o]
    case AwaitEdges(_) => k' := FromEdges(k, o);
    case AwaitRecalc => k' := FromRecalc(k, o);
    case AwaitList => k' := FromList(k, o);
    case Publishing(_, _) => k' := PublishRest(k, o);
  }

  // ---------------------------------------------------------------- from the recipes

  /** Nothing of an order is done before its tasks were listed. */
  lemma DoneMeansSettled(k: State, o: OrderId, t: TaskId)
    requires Reachable(k) && t in k.db.tasks && k.db.tasks[t].order == o && o in k.confirms && AllDone(k.db, o)
    ensures Settled(k, o)
  {
    ReachableInv(k);
    assert k.db.tasks[t].status.TaskCompleted?;
  }

  lemma LeadsFrom(k: State, mid: State, steps: seq<Step>, k': State) returns (all: seq<Step>)
    requires Run(k, steps, mid) && Leads(mid, k')
    ensures Run(k, all, k')
  {
    assert Leads(k, mid);
    LeadsTransitive(k, mid, k');
    all :| Run(k, all, k');
  }

  /**
   * An order that ConfirmOrder accepted can be finished, in whatever state and phase a later run
   * with any interleaving finds it, as long as the kitchen is staffed, if and only if none of its
   * recipes has a cycle.
   */
  lemma RecipesDecide(k: State, items: map<string, int>, book: Book, order: seq<string>, o: OrderId, ids: seq<TaskId>,
                      exp: Expansion, now: Time, steps: seq<Step>, later: State, when: Time)
    requires Reachable(k) && StepsKnown(k.db, items, book) && Expandable(items, book)
    requires Built(book, Units(items, order), now, exp.rows, exp.links) && exp.rows != []
    requires |ids| == |exp.rows| && NoDuplicates(ids) && LinksOk(exp.links, |ids|)
    requires o !in k.db.orders && forall t :: t in ids ==> t !in k.db.tasks
    ensures Enabled(k, CreateOrder(o, ids, exp.rows, exp.links))
    ensures Run(Apply(k, CreateOrder(o, ids, exp.rows, exp.links)), steps, later) && Staffed(later.db, when) ==>
      (Finishable(later, o) <==> forall u :: u in Units(items, order) ==> Acyclic(RecipeGraph(book, u)))
  {
    BuiltRowsOk(k.db, items, book, order, now, exp.rows, exp.links);
    if Run(Apply(k, CreateOrder(o, ids, exp.rows, exp.links)), steps, later) && Staffed(later.db, when) {
      RecipesDecideAfter(k, o, ids, exp, book, Units(items, order), now, steps, later, when);
    }
  }

  lemma RecipesDecideAfter(k: State, o: OrderId, ids: seq<TaskId>, exp: Expansion, book: Book, units: seq<string>, now: Time,
                           steps: seq<Step>, later: State, when: Time)
    requires Reachable(k) && Enabled(k, CreateOrder(o, ids, exp.rows, exp.links)) && Built(book, units, now, exp.rows, exp.links)
    requires Run(Apply(k, CreateOrder(o, ids, exp.rows, exp.links)), steps, later) && Staffed(later.db, when)
    ensures Finishable(later, o) <==> forall u :: u in units ==> Acyclic(RecipeGraph(book, u))
  {
    var k1 := Apply(k, CreateOrder(o, ids, exp.rows, exp.links));
    CreatedFacts(k, o, ids, exp, steps, later);
    if forall u :: u in units ==> Acyclic(RecipeGraph(book, u)) {
      var done := ToPublished(later, o);
      var all := LeadsFrom(k1, later, steps, done);
      StoredFollowsRecipes(k, o, ids, exp.rows, exp.links, book, units, now, all, done);
      StaffedKept(later.db, done.db, when);
      LeadsReachable(later, done);
      FinishableIff(done, o, when);
      FinishableBefore(later, done, o);
    }
    if Finishable(later, o) {
      var more, end :| Run(later, more, end) && AllDone(end.db, o);
      assert Leads(later, end);
      LeadsReachable(later, end);
      var all := LeadsFrom(k1, later, steps, end);
      CreatedFacts(k, o, ids, exp, all, end);
      DoneMeansSettled(end, o, ids[0]);
      StoredFollowsRecipes(k, o, ids, exp.rows, exp.links, book, units, now, all, end);
      if !Acyclic(OrderLinks(end.db, o)) { CyclicNeverDone(end, o); }
    }
  }

  lemma CreatedFacts(k: State, o: OrderId, ids: seq<TaskId>, exp: Expansion, steps: seq<Step>, later: State)
    requires Reachable(k) && Enabled(k, CreateOrder(o, ids, exp.rows, exp.links))
    requires Run(Apply(k, CreateOrder(o, ids, exp.rows, exp.links)), steps, later)
    ensures Reachable(later) && o in later.confirms
    ensures ids[0] in later.db.tasks && later.db.tasks[ids[0]].order == o
  {
    var step := CreateOrder(o, ids, exp.rows, exp.links);
    var k1 := Apply(k, step);
    LeadsRefl(k);
    LeadsThen(k, k, step);
    assert Leads(k1, later);
    LeadsReachable(k, k1);
    LeadsReachable(k1, later);
    StoredLater(k, o, ids, exp.rows, exp.links, steps, later);
    InsertRowsEffect(k.db.tasks, o, ids, exp.rows);
    RunKeepsOrders(k1, steps, later);
  }

  lemma FinishableBefore(k: State, mid: State, o: OrderId)
    requires Leads(k, mid) && Finishable(mid, o)
    ensures Finishable(k, o)
  {
    var steps, end :| Run(mid, steps, end) && AllDone(end.db, o);
    assert Leads(mid, end);
    LeadsTransitive(k, mid, end);
    var all :| Run(k, all, end);
  }

  // ---------------------------------------------------------------- a recipe that can never be served

  /** One counter, one machine, one person. */
  function Bistro(): Database {
    Database(map[], {}, map[1 := Counter(1, 0)], map[1 := Machine(1, 1, 0, true)],
             map[1 := Staff(0, 100, 1, 1.0, 0, 0, false)], {(1, 1)}, map[], [])
  }

  function Opening(): State {
    State(Bistro(), map[], multiset{}, multiset{}, map[], map[])
  }

  /** Two steps that each wait for the other, as recipe_step_dependencies allows. */
  function Knot(): Book {
    Book(map["knot" := [RecipeStep(1, false, 1, Some(1), 60, 0.0), RecipeStep(2, false, 1, Some(1), 60, 0.0)]],
         map["knot" := map[1 := [2], 2 := [1]]], map[1 := 1])
  }

  lemma KnotIsCyclic()
    ensures !Acyclic(RecipeGraph(Knot(), "knot"))
  {
    var links := RecipeGraph(Knot(), "knot");
    var explicit := ExplicitOf(Knot(), "knot");
    assert explicit[1][0] == 2 && explicit[2][0] == 1;
    var steps := StepsOf(Knot(), "knot");
    assert steps[0] in steps && steps[1] in steps;
    assert Link(1, 2) in ExplicitPairs(explicit) && Link(2, 1) in ExplicitPairs(explicit);
    assert Link(1, 2) in links && Link(2, 1) in links;
    var p := [1, 2, 1];
    forall i: nat | i + 1 < |p| ensures Graphs.Hop(links, p, i) {}
    assert Cycle(links, p);
  }

  /** Creating an order whose rows name machines of their own counters leaves a staffed kitchen staffed. */
  lemma CreatedStaffed(db: Database, o: OrderId, ids: seq<TaskId>, rows: seq<NewTask>, now: Time)
    requires Staffed(db, now) && |ids| == |rows| && NoDuplicates(ids)
    requires forall t :: t in ids ==> t !in db.tasks
    requires forall r :: r in rows && r.machine.Some? && r.machine.value in db.machines ==>
      db.machines[r.machine.value].counter == r.counter
    ensures Staffed(CreateTx(db, o, ids, rows), now)
  {
    var db' := CreateTx(db, o, ids, rows);
    InsertRowsEffect(db.tasks, o, ids, rows);
    forall c | c in db'.counters ensures HasWorker(db', c, now) {
      assert HasWorker(db, c, now);
    }
    forall t | t in db'.tasks && db'.tasks[t].machine.Some? && db'.tasks[t].machine.value in db'.machines
      ensures db'.machines[db'.tasks[t].machine.value].counter == db'.tasks[t].counter
    {
      if t !in db.tasks {
        var i :| 0 <= i < |ids| && ids[i] == t;
        assert rows[i] in rows;
      }
    }
  }

  lemma OpeningReady()
    ensures Reachable(Opening()) && Staffed(Bistro(), 50)
  {
    assert Init(Opening()) && Run(Opening(), [], Opening());
    assert HasWorker(Bistro(), 1, 50);
  }

  lemma KnotAccepted()
    ensures StepsKnown(Bistro(), map["knot" := 1], Knot()) && Expandable(map["knot" := 1], Knot())
  {
    var items: map<string, int> := map["knot" := 1];
    assert "knot" in items && items["knot"] > 0;
  }

  lemma KnotUnits()
    ensures Units(map["knot" := 1], ["knot"]) == ["knot"]
  {
    var items: map<string, int> := map["knot" := 1];
    assert ["knot"][..0] == [] && Units(items, []) == [];
    assert Times("knot", 1) == ["knot"];
  }

  lemma KnotRows()
    ensures var rows := RowsFor(Knot(), ["knot"], 0);
      |rows| == 2 && forall r :: r in rows ==> r.counter == 1 && r.machine == Some(1)
  {
    var units := ["knot"];
    var rows := RowsFor(Knot(), units, 0);
    RowsForLength(Knot(), units, 0);
    assert units[..0] == [];
    forall r | r in rows ensures r.counter == 1 && r.machine == Some(1) {
      RowOrigin(Knot(), units, 0, r);
    }
  }

  lemma KnotExpands() returns (exp: Expansion)
    ensures Built(Knot(), ["knot"], 0, exp.rows, exp.links)
    ensures |exp.rows| == 2 && LinksOk(exp.links, 2)
    ensures forall r :: r in exp.rows ==> r.counter == 1 && r.machine == Some(1)
  {
    KnotRows();
    var links := SomeListing(LinksFor(Knot(), ["knot"]));
    exp := Expansion(RowsFor(Knot(), ["knot"], 0), links);
    BuiltLinksOk(Knot(), ["knot"], 0, exp.rows, links);
    forall l | l in links ensures 0 <= l.task < 2 && 0 <= l.dep < 2 && l.task != l.dep {
      assert LinkOk(l, |exp.rows|);
    }
  }

  /** ConfirmOrder accepts the recipe, publishes the order, and nothing can ever finish it. */
  lemma KnotNeverFinishes() returns (k: State)
    ensures Reachable(k) && FullyPublished(k, 1) && Staffed(k.db, 50) && !Finishable(k, 1)
  {
    OpeningReady();
    KnotAccepted();
    var exp := KnotExpands();
    KnotUnits();
    var items: map<string, int>, ids: seq<TaskId> := map["knot" := 1], [1, 2];
    var step := CreateOrder(1, ids, exp.rows, exp.links);
    RecipesDecide(Opening(), items, Knot(), ["knot"], 1, ids, exp, 0, [], Opening(), 50);
    var k1 := Apply(Opening(), step);
    LeadsRefl(Opening());
    LeadsThen(Opening(), Opening(), step);
    LeadsReachable(Opening(), k1);
    k := ToPublished(k1, 1);
    var steps :| Run(k1, steps, k);
    LeadsReachable(k1, k);
    CreatedStaffed(Bistro(), 1, ids, exp.rows, 50);
    StaffedKept(k1.db, k.db, 50);
    RecipesDecide(Opening(), items, Knot(), ["knot"], 1, ids, exp, 0, steps, k, 50);
    KnotIsCyclic();
    assert "knot" in ["knot"];
  }
}
