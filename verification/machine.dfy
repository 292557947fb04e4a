/**
 * The engine as a transition system. A transaction is one step, except that a completion is
 * split where it touches the queue before it commits, and ConfirmOrder is split at each of its
 * commits. Any number of processes run at once: `popped` holds the ids that allocators took
 * from the queue and have not tried yet, `returning` the ids some process is about to enqueue.
 * A process that crashes is one that takes no further step.
 */
module KitchenMachine {
  import opened Wrappers
  import opened Model
  import opened Transactions
  import opened ReadyOrder

  /** AllocateOnce, the only caller, pops this many ids. */
  const POP_SIZE: nat := 20

  /** Where ConfirmOrder stands for one order. */
  datatype Confirm =
    | AwaitEdges(edges: set<Edge>)
    | AwaitRecalc
    | AwaitList
    | Publishing(rest: seq<TaskId>, enqueued: bool)

  /** An open completion: it holds the row locks and has enqueued children[..next]. */
  datatype Completion = Completion(children: seq<TaskId>, next: nat)

  datatype State = State(
    db: Database,
    queue: map<TaskId, real>,
    popped: multiset<TaskId>,
    returning: multiset<TaskId>,
    confirms: map<OrderId, Confirm>,
    completions: map<TaskId, Completion>)

  datatype Step =
    | CreateOrder(o: OrderId, ids: seq<TaskId>, rows: seq<NewTask>, links: seq<Link>)
    | InsertEdges(o: OrderId)
    | Recalculate(o: OrderId)
    | ListReady(o: OrderId, ready: seq<TaskId>)
    | PublishEnqueue(o: OrderId, score: real)
    | PublishEvent(o: OrderId)
    | Pop
    | Assign(t: TaskId, s: StaffId, now: Time)
    | GiveUp(t: TaskId)
    | Reenqueue(t: TaskId, score: real)
    | RequeueExpired(t: TaskId, cutoff: Time)
    | Start(t: TaskId, now: Time)
    | BeginComplete(t: TaskId, children: seq<TaskId>)
    | EnqueueChild(t: TaskId, score: real)
    | CommitComplete(t: TaskId, now: Time)
    | RollbackComplete(t: TaskId)

  function LinkEdges(ids: seq<TaskId>, links: seq<Link>): set<Edge>
    requires forall l :: l in links ==> 0 <= l.task < |ids| && 0 <= l.dep < |ids|
  {
    set l | l in links :: Edge(ids[l.task], ids[l.dep])
  }

  predicate RowsOk(db: Database, rows: seq<NewTask>) {
    forall r :: r in rows ==> r.counter in db.counters && r.machine.Some? && r.machine.value in db.machines
  }

  predicate LinksOk(links: seq<Link>, n: nat) {
    forall l :: l in links ==> 0 <= l.task < n && 0 <= l.dep < n && l.task != l.dep
  }

  /** Two completions cannot both hold the row of a common dependent. */
  predicate ShareDependent(db: Database, t: TaskId, u: TaskId) {
    exists c :: c in db.tasks && Edge(c, t) in db.deps && Edge(c, u) in db.deps
  }

  ghost predicate Enabled(k: State, step: Step) {
    match step
    case CreateOrder(o, ids, rows, links) =>
      && o !in k.db.orders
      && |ids| == |rows| > 0
      && NoDuplicates(ids)
      && (forall t :: t in ids ==> t !in k.db.tasks)
      && RowsOk(k.db, rows)
      && LinksOk(links, |ids|)
    case InsertEdges(o) => o in k.confirms && k.confirms[o].AwaitEdges?
    case Recalculate(o) => o in k.confirms && k.confirms[o].AwaitRecalc?
    case ListReady(o, ready) =>
      o in k.confirms && k.confirms[o].AwaitList? && Enumerates(ready, OrderReady(k.db, o))
    case PublishEnqueue(o, _) =>
      o in k.confirms && k.confirms[o].Publishing? && k.confirms[o].rest != [] && !k.confirms[o].enqueued
    case PublishEvent(o) =>
      o in k.confirms && k.confirms[o].Publishing? && k.confirms[o].rest != [] && k.confirms[o].enqueued
    case Pop => true
    case Assign(t, s, now) => t in k.popped && CanAssign(k.db, t, s, now)
    case GiveUp(t) => t in k.popped
    case Reenqueue(t, _) => t in k.returning
    case RequeueExpired(t, cutoff) => Expired(k.db, t, cutoff)
    case Start(t, _) => HasStatus(k.db, t, TaskAssigned)
    case BeginComplete(t, children) =>
      && HasStatus(k.db, t, TaskStarted)
      && t !in k.completions
      && (forall u :: u in k.completions ==> !ShareDependent(k.db, t, u))
      && Enumerates(children, ReadyChildren(DecrementDependents(k.db, t), t))
    case EnqueueChild(t, _) => t in k.completions && k.completions[t].next < |k.completions[t].children|
    case CommitComplete(t, _) =>
      && t in k.completions
      && k.completions[t].next == |k.completions[t].children|
      && t in k.db.tasks && HasRunMetadata(k.db.tasks[t])
    case RollbackComplete(t) => t in k.completions
  }

  ghost function Apply(k: State, step: Step): State
    requires Enabled(k, step)
  {
    match step
    case CreateOrder(o, ids, rows, links) =>
      var phase := if links == [] then AwaitList else AwaitEdges(LinkEdges(ids, links));
      k.(db := CreateTx(k.db, o, ids, rows), confirms := k.confirms[o := phase])
    case InsertEdges(o) =>
      k.(db := k.db.(deps := k.db.deps + k.confirms[o].edges), confirms := k.confirms[o := AwaitRecalc])
    case Recalculate(o) =>
      k.(db := RecalculateTx(k.db, o), confirms := k.confirms[o := AwaitList])
    case ListReady(o, ready) =>
      k.(confirms := k.confirms[o := Publishing(ready, false)])
    case PublishEnqueue(o, score) =>
      k.(queue := k.queue[k.confirms[o].rest[0] := score],
         confirms := k.confirms[o := Publishing(k.confirms[o].rest, true)])
    case PublishEvent(o) =>
      k.(db := AppendEvent(k.db, Event(EventTaskReady, k.confirms[o].rest[0])),
         confirms := k.confirms[o := Publishing(k.confirms[o].rest[1..], false)])
    case Pop =>
      var ids := TopN(k.queue, POP_SIZE);
      k.(queue := Without(k.queue, ids), popped := k.popped + multiset(ids))
    case Assign(t, s, now) =>
      k.(db := AssignTo(k.db, t, s, now), popped := k.popped - multiset{t})
    case GiveUp(t) =>
      k.(popped := k.popped - multiset{t},
         returning := if HasStatus(k.db, t, TaskUnassigned) then k.returning + multiset{t} else k.returning)
    case Reenqueue(t, score) =>
      k.(queue := k.queue[t := score], returning := k.returning - multiset{t})
    case RequeueExpired(t, _) =>
      k.(db := RequeueOne(k.db, t), returning := k.returning + multiset{t})
    case Start(t, now) =>
      k.(db := StartTx(k.db, t, now))
    case BeginComplete(t, children) =>
      k.(completions := k.completions[t := Completion(children, 0)])
    case EnqueueChild(t, score) =>
      var c := k.completions[t];
      k.(queue := k.queue[c.children[c.next] := score],
         completions := k.completions[t := Completion(c.children, c.next + 1)])
    case CommitComplete(t, now) =>
      k.(db := CompleteTx(k.db, t, k.completions[t].children, now), completions := k.completions - {t})
    case RollbackComplete(t) =>
      k.(completions := k.completions - {t})
  }

  /** Steps that only move ids between the queue and the processes. */
  predicate Quiet(step: Step) {
    step.ListReady? || step.PublishEnqueue? || step.Pop? || step.GiveUp? || step.Reenqueue?
    || step.BeginComplete? || step.EnqueueChild? || step.RollbackComplete?
  }

  lemma QuietKeepsTables(k: State, step: Step)
    requires Enabled(k, step) && Quiet(step)
    ensures Apply(k, step).db == k.db
  {
  }

  /** Before the first order: every resource is free and nothing is in flight. */
  ghost predicate Init(k: State) {
    && k.db.tasks == map[] && k.db.deps == {} && k.db.orders == map[] && k.db.log == []
    && k.queue == map[] && k.popped == multiset{} && k.returning == multiset{}
    && k.confirms == map[] && k.completions == map[]
    && (forall c :: c in k.db.counters ==> k.db.counters[c].inUse == 0)
    && (forall m :: m in k.db.machines ==> k.db.machines[m].inUse == 0)
    && (forall s :: s in k.db.staff ==> k.db.staff[s].activeTasks == 0)
  }

  /** `steps` leads from `k` to `k'`, every step being possible where it is taken. */
  ghost predicate Run(k: State, steps: seq<Step>, k': State)
    decreases |steps|
  {
    if steps == [] then k == k'
    else Enabled(k, steps[0]) && Run(Apply(k, steps[0]), steps[1..], k')
  }

  ghost predicate Reachable(k: State) {
    exists k0, steps :: Init(k0) && Run(k0, steps, k)
  }
}
