/**
 * From the recipes to the stored dependency graph: ConfirmOrder stores a renaming of the links it
 * derived, later steps never change it, and so acyclic recipes are all that progress asks for.
 */
module OrderGraph {
  import opened Model
  import opened Transactions
  import opened ResourceAccounting
  import opened Graphs
  import opened KitchenMachine
  import opened DependencyGate
  import opened OrderExpansion
  import opened KitchenTheorems
  import opened ServiceEffects
  import opened KitchenService
  import opened Progress

  function LinkSet(links: seq<Link>): set<Link> {
    set l | l in links
  }

  function StoredLinks(edges: set<Edge>): set<Link> {
    set e | e in edges :: Link(e.task, e.dep)
  }

  /** Position to id, and back. */
  function IdAt(ids: seq<TaskId>): map<int, int> {
    map i: int | 0 <= i < |ids| :: ids[i] as int
  }

  ghost predicate Inverse(ids: seq<TaskId>, back: map<int, int>) {
    forall i :: 0 <= i < |ids| ==> ids[i] as int in back && back[ids[i] as int] == i
  }

  lemma {:induction false} InverseExists(ids: seq<TaskId>) returns (back: map<int, int>)
    requires NoDuplicates(ids)
    ensures Inverse(ids, back)
    decreases |ids|
  {
    back := map[];
    if ids != [] {
      var n := |ids| - 1;
      var before := InverseExists(ids[..n]);
      back := before[ids[n] as int := n];
      forall i | 0 <= i < |ids| ensures ids[i] as int in back && back[ids[i] as int] == i {
        if i < n {
          assert ids[..n][i] == ids[i];
        }
      }
    }
  }

  /** The rows of task_dependencies have a cycle exactly when the derived links have one. */
  lemma StoredAcyclic(ids: seq<TaskId>, links: seq<Link>)
    requires NoDuplicates(ids) && LinksOk(links, |ids|)
    ensures Acyclic(StoredLinks(LinkEdges(ids, links))) <==> Acyclic(LinkSet(links))
  {
    var from, to := LinkSet(links), StoredLinks(LinkEdges(ids, links));
    var back := InverseExists(ids);
    forall l | l in from ensures l.task in IdAt(ids) && l.dep in IdAt(ids) && Link(IdAt(ids)[l.task], IdAt(ids)[l.dep]) in to {
      assert Edge(ids[l.task], ids[l.dep]) in LinkEdges(ids, links);
    }
    forall s | s in to ensures s.task in back && s.dep in back && Link(back[s.task], back[s.dep]) in from {
      var e :| e in LinkEdges(ids, links) && s == Link(e.task, e.dep);
      var l :| l in links && e == Edge(ids[l.task], ids[l.dep]);
      assert back[ids[l.task] as int] == l.task;
    }
    if Acyclic(to) { RenamedCycle(from, to, IdAt(ids)); }
    if Acyclic(from) { RenamedCycle(to, from, back); }
  }

  lemma ConfirmedTables(db: Database, o: OrderId, ids: seq<TaskId>, rows: seq<NewTask>, links: seq<Link>)
    requires |ids| == |rows| && LinksOk(links, |ids|)
    ensures var db' := Confirmed(db, o, ids, rows, links);
      db'.deps == db.deps + LinkEdges(ids, links) && SameButPending(db'.tasks, InsertRows(db.tasks, o, ids, rows))
  {
    assert links == [] ==> LinkEdges(ids, links) == {};
  }

  // ---------------------------------------------------------------- the stored graph does not change

  ghost predicate Settled(k: State, o: OrderId) {
    o in k.confirms && !k.confirms[o].AwaitEdges?
  }

  lemma SameGraph(db: Database, db': Database, o: OrderId)
    requires Rows(db) && db'.deps == db.deps && db.tasks.Keys <= db'.tasks.Keys
    requires forall t :: t in db.tasks ==> db'.tasks[t].order == db.tasks[t].order
    ensures OrderLinks(db', o) == OrderLinks(db, o)
  {
  }

  lemma InsertGraph(k: State, p: OrderId, o: OrderId)
    requires Phases(k) && Enabled(k, InsertEdges(p)) && o != p
    ensures OrderLinks(Apply(k, InsertEdges(p)).db, o) == OrderLinks(k.db, o)
  {
    assert forall e :: e in k.confirms[p].edges ==> k.db.tasks[e.task].order != o;
  }

  lemma CommitGraph(k: State, t: TaskId, now: Time, o: OrderId)
    requires Rows(k.db) && Enabled(k, CommitComplete(t, now))
    ensures OrderLinks(Apply(k, CommitComplete(t, now)).db, o) == OrderLinks(k.db, o)
  {
    ReleaseTables(k.db, t, now);
    CompleteTables(k.db, t, k.completions[t].children, now);
    SameGraph(k.db, Apply(k, CommitComplete(t, now)).db, o);
  }

  lemma CreateGraph(k: State, step: Step, o: OrderId)
    requires Rows(k.db) && Enabled(k, step) && step.CreateOrder?
    ensures OrderLinks(Apply(k, step).db, o) == OrderLinks(k.db, o)
  {
    InsertRowsEffect(k.db.tasks, step.o, step.ids, step.rows);
    SameGraph(k.db, Apply(k, step).db, o);
  }

  lemma TaskGraph(k: State, step: Step, o: OrderId)
    requires Rows(k.db) && Enabled(k, step) && (step.Assign? || step.RequeueExpired? || step.Start?)
    ensures OrderLinks(Apply(k, step).db, o) == OrderLinks(k.db, o)
  {
    SameGraph(k.db, Apply(k, step).db, o);
  }

  lemma OtherGraph(k: State, step: Step, o: OrderId)
    requires Rows(k.db) && Enabled(k, step) && !step.CreateOrder? && !step.InsertEdges? && !step.CommitComplete?
    requires !step.Assign? && !step.RequeueExpired? && !step.Start?
    ensures OrderLinks(Apply(k, step).db, o) == OrderLinks(k.db, o)
  {
    SameGraph(k.db, Apply(k, step).db, o);
  }

  /** Once an order's edges are in, no step changes them. */
  lemma GraphStays(k: State, step: Step, o: OrderId)
    requires Gate(k) && Enabled(k, step) && Settled(k, o)
    ensures Settled(Apply(k, step), o) && OrderLinks(Apply(k, step).db, o) == OrderLinks(k.db, o)
  {
    SameLinks(k, step, o);
    SamePhase(k, step, o);
  }

  lemma {:induction false} GraphStaysOverRuns(k: State, steps: seq<Step>, k': State, o: OrderId)
    requires Inv(k) && Run(k, steps, k') && Settled(k, o)
    ensures Settled(k', o) && OrderLinks(k'.db, o) == OrderLinks(k.db, o)
    decreases |steps|
  {
    if steps != [] {
      GraphStays(k, steps[0], o);
      StepInv(k, steps[0]);
      GraphStaysOverRuns(Apply(k, steps[0]), steps[1..], k', o);
    }
  }

  // ---------------------------------------------------------------- from the order's creation on

  /** The links of `o` wait in its confirmation, or they are what is stored. */
  ghost predicate Graphed(k: State, o: OrderId, edges: set<Edge>) {
    && o in k.confirms
    && if k.confirms[o].AwaitEdges? then k.confirms[o].edges == edges && OrderLinks(k.db, o) == {}
       else OrderLinks(k.db, o) == StoredLinks(edges)
  }

  lemma CreatedGraph(k: State, o: OrderId, ids: seq<TaskId>, rows: seq<NewTask>, links: seq<Link>)
    requires Gate(k) && Enabled(k, CreateOrder(o, ids, rows, links))
    ensures Graphed(Apply(k, CreateOrder(o, ids, rows, links)), o, LinkEdges(ids, links))
  {
    InsertRowsEffect(k.db.tasks, o, ids, rows);
    var db' := CreateTx(k.db, o, ids, rows);
    forall e | e in db'.deps ensures e.task in db'.tasks && db'.tasks[e.task].order != o {}
    assert OrderLinks(db', o) == {};
    assert links == [] ==> LinkEdges(ids, links) == {};
  }

  lemma InsertedGraph(k: State, o: OrderId)
    requires Phases(k) && Enabled(k, InsertEdges(o)) && OrderLinks(k.db, o) == {}
    ensures OrderLinks(Apply(k, InsertEdges(o)).db, o) == StoredLinks(k.confirms[o].edges)
  {
    var db' := Apply(k, InsertEdges(o)).db;
    forall e | e in k.db.deps && e.task in k.db.tasks ensures k.db.tasks[e.task].order != o {
      assert k.db.tasks[e.task].order == o ==> Link(e.task, e.dep) in OrderLinks(k.db, o);
    }
  }

  lemma SameLinks(k: State, step: Step, o: OrderId)
    requires Gate(k) && Enabled(k, step) && o in k.confirms && step != InsertEdges(o)
    ensures OrderLinks(Apply(k, step).db, o) == OrderLinks(k.db, o)
  {
    match step
    case CreateOrder(_, _, _, _) => CreateGraph(k, step, o);
    case InsertEdges(p) => InsertGraph(k, p, o);
    case CommitComplete(t, now) => CommitGraph(k, t, now, o);
    case Assign(_, _, _) => TaskGraph(k, step, o);
    case RequeueExpired(_, _) => TaskGraph(k, step, o);
    case Start(_, _) => TaskGraph(k, step, o);
    case _ => OtherGraph(k, step, o);
  }

  lemma SamePhase(k: State, step: Step, o: OrderId)
    requires Phases(k) && Enabled(k, step) && o in k.confirms && step != InsertEdges(o)
    ensures o in Apply(k, step).confirms
    ensures k.confirms[o].AwaitEdges? ==> Apply(k, step).confirms[o] == k.confirms[o]
    ensures !k.confirms[o].AwaitEdges? ==> !Apply(k, step).confirms[o].AwaitEdges?
  {
  }

  lemma GraphedStep(k: State, step: Step, o: OrderId, edges: set<Edge>)
    requires Gate(k) && Enabled(k, step) && Graphed(k, o, edges)
    ensures Graphed(Apply(k, step), o, edges)
  {
    if step == InsertEdges(o) {
      InsertedGraph(k, o);
    } else {
      SameLinks(k, step, o);
      SamePhase(k, step, o);
    }
  }

  lemma {:induction false} GraphedRun(k: State, steps: seq<Step>, k': State, o: OrderId, edges: set<Edge>)
    requires Inv(k) && Run(k, steps, k') && Graphed(k, o, edges)
    ensures Graphed(k', o, edges)
    decreases |steps|
  {
    if steps != [] {
      GraphedStep(k, steps[0], o, edges);
      StepInv(k, steps[0]);
      GraphedRun(Apply(k, steps[0]), steps[1..], k', o, edges);
    }
  }

  lemma StoredLater(k: State, o: OrderId, ids: seq<TaskId>, rows: seq<NewTask>, links: seq<Link>, steps: seq<Step>, later: State)
    requires Reachable(k) && Enabled(k, CreateOrder(o, ids, rows, links))
    requires Run(Apply(k, CreateOrder(o, ids, rows, links)), steps, later)
    ensures Graphed(later, o, LinkEdges(ids, links))
  {
    ReachableInv(k);
    var step := CreateOrder(o, ids, rows, links);
    CreatedGraph(k, o, ids, rows, links);
    StepInv(k, step);
    GraphedRun(Apply(k, step), steps, later, o, LinkEdges(ids, links));
  }

  /**
   * However the rest of ConfirmOrder is interleaved with other steps: once the edges of the order
   * are in, its stored graph is acyclic exactly when the graphs of all its recipes are.
   */
  lemma StoredFollowsRecipes(k: State, o: OrderId, ids: seq<TaskId>, rows: seq<NewTask>, links: seq<Link>,
                             book: Book, units: seq<string>, now: Time, steps: seq<Step>, later: State)
    requires Reachable(k) && Enabled(k, CreateOrder(o, ids, rows, links)) && Built(book, units, now, rows, links)
    requires Run(Apply(k, CreateOrder(o, ids, rows, links)), steps, later) && Settled(later, o)
    ensures Acyclic(OrderLinks(later.db, o)) <==> forall u :: u in units ==> Acyclic(RecipeGraph(book, u))
  {
    StoredLater(k, o, ids, rows, links, steps, later);
    StoredAcyclic(ids, links);
    assert LinkSet(links) == LinksFor(book, units);
    OrderAcyclic(book, units);
  }

  // ---------------------------------------------------------------- tasks stay in their order

  ghost predicate OrdersKept(db: Database, db': Database) {
    forall t :: t in db.tasks ==> t in db'.tasks && db'.tasks[t].order == db.tasks[t].order
  }

  lemma CommitKeepsOrders(k: State, t: TaskId, now: Time)
    requires Enabled(k, CommitComplete(t, now))
    ensures OrdersKept(k.db, Apply(k, CommitComplete(t, now)).db)
  {
    ReleaseTables(k.db, t, now);
    CompleteTables(k.db, t, k.completions[t].children, now);
  }

  lemma StepKeepsOrders(k: State, step: Step)
    requires Enabled(k, step)
    ensures OrdersKept(k.db, Apply(k, step).db)
  {
    match step
    case CreateOrder(o, ids, rows, _) => InsertRowsEffect(k.db.tasks, o, ids, rows);
    case CommitComplete(t, now) => CommitKeepsOrders(k, t, now);
    case _ =>
  }

  lemma {:induction false} RunKeepsOrders(k: State, steps: seq<Step>, k': State)
    requires Run(k, steps, k')
    ensures OrdersKept(k.db, k'.db)
    decreases |steps|
  {
    if steps != [] {
      StepKeepsOrders(k, steps[0]);
      RunKeepsOrders(Apply(k, steps[0]), steps[1..], k');
    }
  }
}
