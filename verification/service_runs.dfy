/**
 * Every call of the service, left alone from start to end, is a run of the transition system.
 * So all invariants of its runs hold for the imperative code as well.
 */
module ServiceRuns {
  import opened Wrappers
  import opened Model
  import opened Transactions
  import opened ReadyOrder
  import opened KitchenMachine
  import opened KitchenTheorems
  import opened Repository
  import opened OrderExpansion
  import opened ServiceEffects
  import opened KitchenService

  ghost predicate Leads(k: State, k': State) {
    exists steps :: Run(k, steps, k')
  }

  lemma {:induction false} RunThen(k: State, steps: seq<Step>, mid: State, step: Step)
    requires Run(k, steps, mid) && Enabled(mid, step)
    ensures Run(k, steps + [step], Apply(mid, step))
    decreases |steps|
  {
    var all := steps + [step];
    if steps == [] {
      assert all[1..] == [] && all[0] == step;
      assert Run(Apply(mid, step), [], Apply(mid, step));
    } else {
      RunThen(Apply(k, steps[0]), steps[1..], mid, step);
      assert all[0] == steps[0] && all[1..] == steps[1..] + [step];
    }
  }

  lemma LeadsThen(k: State, mid: State, step: Step)
    requires Leads(k, mid) && Enabled(mid, step)
    ensures Leads(k, Apply(mid, step))
  {
    var steps :| Run(k, steps, mid);
    RunThen(k, steps, mid, step);
  }

  lemma LeadsRefl(k: State)
    ensures Leads(k, k)
  {
    assert Run(k, [], k);
  }

  lemma {:induction false} LeadsAlong(k: State, mid: State, steps: seq<Step>, k': State)
    requires Leads(k, mid) && Run(mid, steps, k')
    ensures Leads(k, k')
    decreases |steps|
  {
    if steps != [] {
      LeadsThen(k, mid, steps[0]);
      LeadsAlong(k, Apply(mid, steps[0]), steps[1..], k');
    }
  }

  lemma LeadsTransitive(a: State, b: State, c: State)
    requires Leads(a, b) && Leads(b, c)
    ensures Leads(a, c)
  {
    var steps :| Run(b, steps, c);
    LeadsAlong(a, b, steps, c);
  }

  lemma LeadsKeepsInv(k: State, k': State)
    requires Leads(k, k') && Inv(k)
    ensures Inv(k')
  {
    var steps :| Run(k, steps, k');
    RunInv(k, steps, k');
  }

  function DeskOf(k: State): Desk {
    Desk(k.db, k.queue)
  }

  function WithDesk(k: State, d: Desk): State {
    k.(db := d.db, queue := d.queue)
  }

  // ---------------------------------------------------------------- allocation

  /** One popped id: an Assign step, or GiveUp and, if the task is unassigned, Reenqueue. */
  lemma TryLeads(k: State, t: TaskId, pick: Option<StaffId>, now: Time)
    requires t in k.popped && PickOk(k.db, t, pick, now)
    ensures Leads(k, WithDesk(k, TryOne(DeskOf(k), t, pick, now)).(popped := k.popped - multiset{t}))
  {
    LeadsRefl(k);
    if pick.Some? {
      LeadsThen(k, k, Assign(t, pick.value, now));
    } else {
      var given := Apply(k, GiveUp(t));
      LeadsThen(k, k, GiveUp(t));
      if HasStatus(k.db, t, TaskUnassigned) {
        var score := ScoreOf(k.db, t, 0.0, now);
        LeadsThen(k, given, Reenqueue(t, score));
        assert Apply(given, Reenqueue(t, score)).returning == k.returning;
      }
    }
  }

  /** The state with desk `d` and the ids from the i-th on still to try, beside those other allocators hold. */
  function Midway(k: State, d: Desk, ids: seq<TaskId>, i: nat): State
    requires i <= |ids|
  {
    WithDesk(k, d).(popped := multiset(ids[i..]) + k.popped)
  }

  ghost predicate Hop(k: State, ds: seq<Desk>, ids: seq<TaskId>, i: nat)
    requires i < |ids| && |ds| == |ids| + 1
  {
    Leads(Midway(k, ds[i], ids, i), Midway(k, ds[i + 1], ids, i + 1))
  }

  lemma {:induction false} ChainLeads(k: State, ds: seq<Desk>, ids: seq<TaskId>, n: nat)
    requires |ds| == |ids| + 1 && n <= |ids|
    requires forall i: nat :: i < |ids| ==> Hop(k, ds, ids, i)
    ensures Leads(Midway(k, ds[0], ids, 0), Midway(k, ds[n], ids, n))
    decreases n
  {
    if n == 0 {
      LeadsRefl(Midway(k, ds[0], ids, 0));
    } else {
      ChainLeads(k, ds, ids, n - 1);
      assert Hop(k, ds, ids, n - 1);
      LeadsTransitive(Midway(k, ds[0], ids, 0), Midway(k, ds[n - 1], ids, n - 1), Midway(k, ds[n], ids, n));
    }
  }

  lemma OneTry(k: State, d: Desk, ids: seq<TaskId>, i: nat, pick: Option<StaffId>, now: Time)
    requires i < |ids| && PickOk(d.db, ids[i], pick, now)
    ensures Leads(Midway(k, d, ids, i), Midway(k, TryOne(d, ids[i], pick, now), ids, i + 1))
  {
    assert ids[i..] == [ids[i]] + ids[i + 1..];
    TryLeads(Midway(k, d, ids, i), ids[i], pick, now);
    assert multiset(ids[i..]) + k.popped - multiset{ids[i]} == multiset(ids[i + 1..]) + k.popped;
  }

  function Desks(d: Desk, ids: seq<TaskId>, picks: seq<Option<StaffId>>, now: Time): seq<Desk>
    requires |ids| == |picks|
  {
    seq(|ids| + 1, i requires 0 <= i <= |ids| => AfterBatch(d, ids[..i], picks[..i], now))
  }

  lemma NextDesk(d: Desk, ids: seq<TaskId>, picks: seq<Option<StaffId>>, now: Time, i: nat)
    requires |ids| == |picks| && i < |ids|
    ensures AfterBatch(d, ids[..i + 1], picks[..i + 1], now) == TryOne(AfterBatch(d, ids[..i], picks[..i], now), ids[i], picks[i], now)
  {
    assert ids[..i + 1][..i] == ids[..i] && picks[..i + 1][..i] == picks[..i];
  }

  lemma PickAt(d: Desk, ids: seq<TaskId>, picks: seq<Option<StaffId>>, now: Time, i: nat)
    requires |ids| == |picks| && PicksOk(d, ids, picks, now) && i < |ids|
    ensures PickOk(AfterBatch(d, ids[..i], picks[..i], now).db, ids[i], picks[i], now)
  {
  }

  lemma BatchHop(k: State, ids: seq<TaskId>, picks: seq<Option<StaffId>>, now: Time, i: nat)
    requires |ids| == |picks| && i < |ids|
    requires PickOk(AfterBatch(DeskOf(k), ids[..i], picks[..i], now).db, ids[i], picks[i], now)
    ensures Hop(k, Desks(DeskOf(k), ids, picks, now), ids, i)
  {
    NextDesk(DeskOf(k), ids, picks, now, i);
    OneTry(k, AfterBatch(DeskOf(k), ids[..i], picks[..i], now), ids, i, picks[i], now);
  }

  lemma BatchHops(k: State, ids: seq<TaskId>, picks: seq<Option<StaffId>>, now: Time)
    requires |ids| == |picks| && PicksOk(DeskOf(k), ids, picks, now)
    ensures forall i: nat :: i < |ids| ==> Hop(k, Desks(DeskOf(k), ids, picks, now), ids, i)
  {
    forall i: nat | i < |ids| ensures Hop(k, Desks(DeskOf(k), ids, picks, now), ids, i) {
      PickAt(DeskOf(k), ids, picks, now, i);
      BatchHop(k, ids, picks, now, i);
    }
  }

  lemma BatchLeads(k: State, ids: seq<TaskId>, picks: seq<Option<StaffId>>, now: Time)
    requires |ids| == |picks| && PicksOk(DeskOf(k), ids, picks, now)
    ensures Leads(k.(popped := k.popped + multiset(ids)), WithDesk(k, AfterBatch(DeskOf(k), ids, picks, now)))
  {
    var ds := Desks(DeskOf(k), ids, picks, now);
    BatchHops(k, ids, picks, now);
    ChainLeads(k, ds, ids, |ids|);
    assert ids[..|ids|] == ids && picks[..|ids|] == picks && ids[0..] == ids;
    assert Midway(k, ds[0], ids, 0) == k.(popped := k.popped + multiset(ids));
    assert Midway(k, ds[|ids|], ids, |ids|) == WithDesk(k, AfterBatch(DeskOf(k), ids, picks, now)) by {
      assert multiset(ids[|ids|..]) + k.popped == k.popped;
    }
  }

  // ---------------------------------------------------------------- requeue

  /** Requeuing some tasks leaves the rows of all others alone. */
  lemma {:induction false} RequeueRows(db: Database, ids: seq<TaskId>, u: TaskId)
    requires forall t :: t in ids ==> t in db.tasks
    requires u in db.tasks && u !in ids
    ensures RequeueAll(db, ids).tasks[u] == db.tasks[u]
  {
    if ids != [] {
      var n := |ids| - 1;
      assert ids == ids[..n] + [ids[n]];
      RequeueRows(db, ids[..n], u);
    }
  }

  lemma {:induction false} RequeueLeads(k: State, ids: seq<TaskId>, cutoff: Time)
    requires NoDuplicates(ids) && forall t :: t in ids ==> t in k.db.tasks && Expired(k.db, t, cutoff)
    ensures Leads(k, k.(db := RequeueAll(k.db, ids), returning := k.returning + multiset(ids)))
    decreases |ids|
  {
    if ids == [] {
      LeadsRefl(k);
      assert k.returning + multiset(ids) == k.returning;
    } else {
      var n := |ids| - 1;
      assert ids == ids[..n] + [ids[n]];
      RequeueLeads(k, ids[..n], cutoff);
      assert ids[n] !in ids[..n];
      assert ids[n] in ids;
      RequeueRows(k.db, ids[..n], ids[n]);
      var mid := k.(db := RequeueAll(k.db, ids[..n]), returning := k.returning + multiset(ids[..n]));
      LeadsThen(k, mid, RequeueExpired(ids[n], cutoff));
      assert k.returning + multiset(ids) == mid.returning + multiset{ids[n]};
    }
  }

  lemma {:induction false} EnqueueLeads(k: State, ids: seq<TaskId>, boost: real, now: Time, rest: multiset<TaskId>)
    requires k.returning == multiset(ids) + rest
    ensures Leads(k, k.(queue := EnqueueAll(k.queue, k.db, ids, boost, now), returning := rest))
    decreases |ids|
  {
    if ids == [] {
      LeadsRefl(k);
      assert k.returning == rest;
    } else {
      var n := |ids| - 1;
      assert ids == ids[..n] + [ids[n]];
      EnqueueLeads(k, ids[..n], boost, now, multiset{ids[n]} + rest);
      var mid := k.(queue := EnqueueAll(k.queue, k.db, ids[..n], boost, now), returning := multiset{ids[n]} + rest);
      LeadsThen(k, mid, Reenqueue(ids[n], ScoreOf(k.db, ids[n], boost, now)));
      assert mid.returning - multiset{ids[n]} == rest;
    }
  }

  lemma RequeueAndEnqueueLeads(k: State, ids: seq<TaskId>, now: Time, cutoff: Time)
    requires NoDuplicates(ids) && forall t :: t in ids ==> t in k.db.tasks && Expired(k.db, t, cutoff)
    ensures Leads(k, WithDesk(k, AfterRequeue(DeskOf(k), ids, now)))
  {
    RequeueLeads(k, ids, cutoff);
    var mid := k.(db := RequeueAll(k.db, ids), returning := k.returning + multiset(ids));
    EnqueueLeads(mid, ids, REQUEUE_BOOST, now, k.returning);
    LeadsTransitive(k, mid, WithDesk(k, AfterRequeue(DeskOf(k), ids, now)));
  }

  /** Popping up to 20 ids and trying each of them. */
  lemma PopAndTryLeads(k: State, ids: seq<TaskId>, picks: seq<Option<StaffId>>, now: Time)
    requires ids == TopN(k.queue, 20) && |picks| == |ids|
    requires PicksOk(Desk(k.db, Without(k.queue, ids)), ids, picks, now)
    ensures Leads(k, WithDesk(k, AfterBatch(Desk(k.db, Without(k.queue, ids)), ids, picks, now)))
  {
    LeadsRefl(k);
    LeadsThen(k, k, Pop);
    var k2 := k.(queue := Without(k.queue, ids));
    BatchLeads(k2, ids, picks, now);
    assert Apply(k, Pop) == k2.(popped := k.popped + multiset(ids));
    LeadsTransitive(k, k2.(popped := k.popped + multiset(ids)), WithDesk(k, AfterBatch(DeskOf(k2), ids, picks, now)));
  }

  /** AllocateOnce, with the outcome its contract states, is a run, whatever other processes hold meanwhile. */
  lemma AllocateLeads(k: State, requeued: seq<TaskId>, ids: seq<TaskId>, picks: seq<Option<StaffId>>, now: Time)
    requires OldestExpired(k.db, now - ASSIGN_TTL, 50, requeued) && forall t :: t in requeued ==> t in k.db.tasks
    requires var d := AfterRequeue(DeskOf(k), requeued, now);
      && ids == TopN(d.queue, 20) && |picks| == |ids|
      && PicksOk(d.(queue := Without(d.queue, ids)), ids, picks, now)
    ensures var d := AfterRequeue(DeskOf(k), requeued, now);
      Leads(k, WithDesk(k, AfterBatch(d.(queue := Without(d.queue, ids)), ids, picks, now)))
  {
    var d := AfterRequeue(DeskOf(k), requeued, now);
    assert forall t :: t in requeued ==> t in ExpiredTasks(k.db, now - ASSIGN_TTL);
    RequeueAndEnqueueLeads(k, requeued, now, now - ASSIGN_TTL);
    PopAndTryLeads(WithDesk(k, d), ids, picks, now);
    LeadsTransitive(k, WithDesk(k, d), WithDesk(k, AfterBatch(d.(queue := Without(d.queue, ids)), ids, picks, now)));
  }

  // ---------------------------------------------------------------- start

  /** A successful StartTask is a single step. */
  lemma StartLeads(k: State, t: TaskId, now: Time)
    requires HasStatus(k.db, t, TaskAssigned)
    ensures Leads(k, k.(db := StartTx(k.db, t, now)))
  {
    LeadsRefl(k);
    LeadsThen(k, k, Start(t, now));
  }

  // ---------------------------------------------------------------- completion

  /** The state after an open completion enqueued its first n children. */
  function ChildrenEnqueued(k: State, t: TaskId, now: Time, n: nat): State
    requires t in k.completions && n <= |k.completions[t].children|
  {
    var children := k.completions[t].children;
    k.(queue := EnqueueAll(k.queue, k.db, children[..n], 0.0, now),
       completions := k.completions[t := Completion(children, n)])
  }

  lemma NoChildYet(k: State, t: TaskId, now: Time)
    requires t in k.completions && k.completions[t].next == 0
    ensures ChildrenEnqueued(k, t, now, 0) == k
  {
    var c := k.completions[t];
    assert c == Completion(c.children, 0) && k.completions[t := c] == k.completions;
    assert c.children[..0] == [];
  }

  lemma NextChild(k: State, t: TaskId, now: Time, n: nat)
    requires t in k.completions && n < |k.completions[t].children|
    ensures Leads(ChildrenEnqueued(k, t, now, n), ChildrenEnqueued(k, t, now, n + 1))
  {
    var children := k.completions[t].children;
    var mid, step := ChildrenEnqueued(k, t, now, n), EnqueueChild(t, ScoreOf(k.db, children[n], 0.0, now));
    EnqueueNext(k.queue, k.db, children, n, now);
    assert mid.completions[t := Completion(children, n + 1)] == k.completions[t := Completion(children, n + 1)];
    LeadsRefl(mid);
    LeadsThen(mid, mid, step);
  }

  lemma EnqueueNext(q: map<TaskId, real>, db: Database, ids: seq<TaskId>, n: nat, now: Time)
    requires n < |ids|
    ensures EnqueueAll(q, db, ids[..n + 1], 0.0, now) == EnqueueAll(q, db, ids[..n], 0.0, now)[ids[n] := ScoreOf(db, ids[n], 0.0, now)]
  {
    assert ids[..n + 1][..n] == ids[..n];
  }

  lemma {:induction false} EnqueueChildrenLeads(k: State, t: TaskId, now: Time, n: nat)
    requires t in k.completions && k.completions[t].next == 0 && n <= |k.completions[t].children|
    ensures Leads(k, ChildrenEnqueued(k, t, now, n))
    decreases n
  {
    if n == 0 {
      LeadsRefl(k);
      NoChildYet(k, t, now);
    } else {
      EnqueueChildrenLeads(k, t, now, n - 1);
      NextChild(k, t, now, n - 1);
      LeadsTransitive(k, ChildrenEnqueued(k, t, now, n - 1), ChildrenEnqueued(k, t, now, n));
    }
  }

  /**
   * A successful CompleteTask is a run. Other completions may be open, as long as the row locks let
   * this one go ahead: none is of the same task and none shares a dependent with it.
   */
  lemma CompleteLeads(k: State, t: TaskId, children: seq<TaskId>, now: Time)
    requires HasStatus(k.db, t, TaskStarted) && HasRunMetadata(k.db.tasks[t])
    requires t !in k.completions && forall u :: u in k.completions ==> !ShareDependent(k.db, t, u)
    requires Enumerates(children, Unlocked(k.db, t))
    ensures Leads(k, k.(db := CompleteTx(k.db, t, children, now), queue := EnqueueAll(k.queue, k.db, children, 0.0, now)))
  {
    var k2 := AllChildrenEnqueued(k, t, children, now);
    CommitLeads(k, k2, t, children, now);
  }

  /** A completion up to its commit. */
  lemma AllChildrenEnqueued(k: State, t: TaskId, children: seq<TaskId>, now: Time) returns (k': State)
    requires Enabled(k, BeginComplete(t, children))
    ensures Leads(k, k')
    ensures k' == k.(queue := EnqueueAll(k.queue, k.db, children, 0.0, now),
                     completions := k.completions[t := Completion(children, |children|)])
  {
    var k1 := Begun(k, t, children);
    EnqueueChildrenLeads(k1, t, now, |children|);
    k' := ChildrenEnqueued(k1, t, now, |children|);
    LeadsTransitive(k, k1, k');
    assert children[..|children|] == children;
  }

  lemma Begun(k: State, t: TaskId, children: seq<TaskId>) returns (k': State)
    requires Enabled(k, BeginComplete(t, children))
    ensures Leads(k, k') && k' == k.(completions := k.completions[t := Completion(children, 0)])
  {
    LeadsRefl(k);
    LeadsThen(k, k, BeginComplete(t, children));
    k' := Apply(k, BeginComplete(t, children));
  }

  lemma CommitLeads(k: State, k2: State, t: TaskId, children: seq<TaskId>, now: Time)
    requires t in k.db.tasks && HasRunMetadata(k.db.tasks[t]) && t !in k.completions && Leads(k, k2)
    requires k2 == k.(queue := k2.queue, completions := k.completions[t := Completion(children, |children|)])
    ensures Leads(k, k.(db := CompleteTx(k.db, t, children, now), queue := k2.queue))
  {
    LeadsThen(k, k2, CommitComplete(t, now));
    assert Apply(k2, CommitComplete(t, now)).completions == k.completions;
  }

  // ---------------------------------------------------------------- confirmation

  /** Enqueue and event of the first id of the list. */
  lemma PublishOne(k: State, o: OrderId, score: real)
    requires o in k.confirms && k.confirms[o].Publishing? && k.confirms[o].rest != [] && !k.confirms[o].enqueued
    ensures var rest := k.confirms[o].rest;
      Leads(k, k.(db := AppendEvent(k.db, Event(EventTaskReady, rest[0])), queue := k.queue[rest[0] := score],
                  confirms := k.confirms[o := Publishing(rest[1..], false)]))
  {
    LeadsRefl(k);
    LeadsThen(k, k, PublishEnqueue(o, score));
    var mid := Apply(k, PublishEnqueue(o, score));
    LeadsThen(k, mid, PublishEvent(o));
    assert Apply(mid, PublishEvent(o)).confirms == k.confirms[o := Publishing(k.confirms[o].rest[1..], false)];
  }

  /** The state after the first n ids of the list were published. */
  function Published(k: State, o: OrderId, ready: seq<TaskId>, scores: Database, now: Time, n: nat): State
    requires n <= |ready|
  {
    k.(db := k.db.(log := k.db.log + ReadyEvents(ready[..n])),
       queue := EnqueueAll(k.queue, scores, ready[..n], 0.0, now),
       confirms := k.confirms[o := Publishing(ready[n..], false)])
  }

  lemma PublishedNext(k: State, o: OrderId, ready: seq<TaskId>, scores: Database, now: Time, n: nat)
    requires n < |ready|
    ensures Leads(Published(k, o, ready, scores, now, n), Published(k, o, ready, scores, now, n + 1))
  {
    var mid := Published(k, o, ready, scores, now, n);
    PublishOne(mid, o, ScoreOf(scores, ready[n], 0.0, now));
    assert ready[..n + 1][..n] == ready[..n] && ready[n..][1..] == ready[n + 1..];
    assert ReadyEvents(ready[..n + 1]) == ReadyEvents(ready[..n]) + [Event(EventTaskReady, ready[n])];
    assert k.db.log + ReadyEvents(ready[..n + 1]) == mid.db.log + [Event(EventTaskReady, ready[n])];
    assert mid.confirms[o := Publishing(ready[n + 1..], false)] == k.confirms[o := Publishing(ready[n + 1..], false)];
  }

  lemma {:induction false} PublishLeads(k: State, o: OrderId, ready: seq<TaskId>, scores: Database, now: Time, n: nat)
    requires o in k.confirms && k.confirms[o] == Publishing(ready, false) && n <= |ready|
    ensures Leads(k, Published(k, o, ready, scores, now, n))
    decreases n
  {
    if n == 0 {
      LeadsRefl(k);
      assert k.confirms[o := Publishing(ready[0..], false)] == k.confirms;
      assert k.db.log + ReadyEvents(ready[..0]) == k.db.log;
    } else {
      PublishLeads(k, o, ready, scores, now, n - 1);
      PublishedNext(k, o, ready, scores, now, n - 1);
      LeadsTransitive(k, Published(k, o, ready, scores, now, n - 1), Published(k, o, ready, scores, now, n));
    }
  }

  /** Creating, linking and recalculating, in their separate commits. */
  lemma LinkLeads(k: State, o: OrderId, ids: seq<TaskId>, rows: seq<NewTask>, links: seq<Link>)
    requires Enabled(k, CreateOrder(o, ids, rows, links))
    ensures Leads(k, k.(db := Confirmed(k.db, o, ids, rows, links), confirms := k.confirms[o := AwaitList]))
  {
    LeadsRefl(k);
    var k1 := Apply(k, CreateOrder(o, ids, rows, links));
    LeadsThen(k, k, CreateOrder(o, ids, rows, links));
    if links != [] {
      var k2 := Apply(k1, InsertEdges(o));
      LeadsThen(k, k1, InsertEdges(o));
      LeadsThen(k, k2, Recalculate(o));
      assert Apply(k2, Recalculate(o)).confirms == k.confirms[o := AwaitList];
    }
  }

  /** What a ConfirmOrder that nothing interrupts leaves behind. */
  function AfterConfirm(k: State, o: OrderId, ids: seq<TaskId>, rows: seq<NewTask>, links: seq<Link>, ready: seq<TaskId>, now: Time): State
    requires |ids| == |rows| && LinksOk(links, |ids|)
  {
    var db := Confirmed(k.db, o, ids, rows, links);
    k.(db := db.(log := db.log + ReadyEvents(ready)),
       queue := EnqueueAll(k.queue, db, ready, 0.0, now),
       confirms := k.confirms[o := Publishing([], false)])
  }

  /** Creating the rows and links of a new order, and all that follows. */
  lemma CreateAndPublishLeads(k: State, o: OrderId, ids: seq<TaskId>, rows: seq<NewTask>, links: seq<Link>, ready: seq<TaskId>, now: Time)
    requires Enabled(k, CreateOrder(o, ids, rows, links))
    requires Enumerates(ready, OrderReady(Confirmed(k.db, o, ids, rows, links), o))
    ensures Leads(k, AfterConfirm(k, o, ids, rows, links, ready, now))
  {
    var db := Confirmed(k.db, o, ids, rows, links);
    LinkLeads(k, o, ids, rows, links);
    var k1 := k.(db := db, confirms := k.confirms[o := AwaitList]);
    LeadsThen(k, k1, ListReady(o, ready));
    var k2 := Apply(k1, ListReady(o, ready));
    PublishLeads(k2, o, ready, db, now, |ready|);
    assert ready[..|ready|] == ready && ready[|ready|..] == [];
    assert k2.confirms[o := Publishing([], false)] == k.confirms[o := Publishing([], false)];
    LeadsTransitive(k, k2, AfterConfirm(k, o, ids, rows, links, ready, now));
  }

  /** The rows ConfirmOrder builds name existing counters and machines. */
  lemma BuiltRowsOk(db: Database, items: map<string, int>, book: Book, order: seq<string>, now: Time, rows: seq<NewTask>, links: seq<Link>)
    requires StepsKnown(db, items, book) && Expandable(items, book) && Built(book, Units(items, order), now, rows, links)
    ensures RowsOk(db, rows)
  {
    forall r | r in rows ensures r.counter in db.counters && r.machine.Some? && r.machine.value in db.machines {
      RowOrigin(book, Units(items, order), now, r);
      var u, st :| u in Units(items, order) && st in StepsOf(book, u) && r == RowOf(st, now);
      UnitOrigin(items, order, u);
    }
  }

  /** A successful ConfirmOrder is a run: from what the call requires and what its contract states. */
  lemma ConfirmLeads(k: State, items: map<string, int>, book: Book, order: seq<string>, o: OrderId, ids: seq<TaskId>,
                     exp: Expansion, ready: seq<TaskId>, now: Time)
    requires StepsKnown(k.db, items, book) && Expandable(items, book)
    requires Built(book, Units(items, order), now, exp.rows, exp.links) && exp.rows != []
    requires |ids| == |exp.rows| && NoDuplicates(ids) && LinksOk(exp.links, |ids|)
    requires o !in k.db.orders && forall t :: t in ids ==> t !in k.db.tasks
    requires Enumerates(ready, OrderReady(Confirmed(k.db, o, ids, exp.rows, exp.links), o))
    ensures Leads(k, AfterConfirm(k, o, ids, exp.rows, exp.links, ready, now))
  {
    BuiltRowsOk(k.db, items, book, order, now, exp.rows, exp.links);
    CreateAndPublishLeads(k, o, ids, exp.rows, exp.links, ready, now);
  }
}
