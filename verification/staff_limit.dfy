/**
 * When the staff limit holds although allocators race. It depends on the kitchen alone: from empty
 * tables, some interleaving gives a person more tasks than their limit if and only if they can be
 * on duty, can work at two counters or more, and these have room for more tasks than the limit.
 * This is so whoever of the eligible people is picked; with picks by the least score, it is so for
 * everybody who is at some moment not outdone by a competitor.
 */
module StaffLimit {
  import opened Wrappers
  import opened Model
  import opened Collections
  import opened Transactions
  import opened ResourceAccounting
  import opened KitchenMachine
  import opened DependencyGate
  import opened StaffMetrics
  import opened ServiceEffects
  import opened OrderCompletion
  import opened AssignRace

  // ---------------------------------------------------------------- the condition

  /** At some moment the person is in shift, not on break and allowed to work. */
  predicate EverEligible(db: Database, s: StaffId) {
    s in db.staff && !db.staff[s].onBreak && db.staff[s].shiftStart <= db.staff[s].shiftEnd && db.staff[s].maxParallel >= 1
  }

  /** How many tasks a counter can hold: as many as it has slots, and as its machines have. */
  ghost function Room(db: Database, c: CounterId): nat
    requires c in db.counters
  {
    var slots := Greatest(db.counters[c].capacity);
    if slots < Sum(UpMachines(db, c)) then slots else Sum(UpMachines(db, c))
  }

  ghost function Rooms(db: Database, s: StaffId): map<CounterId, nat> {
    map c | c in Usable(db, s) :: Room(db, c)
  }

  /** What decides: two counters to race at, and room for one task too many. */
  ghost predicate CanExceed(db: Database, s: StaffId) {
    EverEligible(db, s) && |Usable(db, s)| >= 2 && Sum(Rooms(db, s)) >= db.staff[s].maxParallel + 1
  }

  predicate WithinLimit(db: Database, s: StaffId) {
    s in db.staff && (db.staff[s].activeTasks == 0 || db.staff[s].activeTasks <= db.staff[s].maxParallel)
  }

  // ---------------------------------------------------------------- what no step changes

  ghost predicate SameHouse(db: Database, db': Database) {
    SameCounters(db, db') && SameMachines(db, db') && SameRoster(db, db') && db'.skills == db.skills
  }

  lemma HouseTrans(a: Database, b: Database, c: Database)
    requires SameHouse(a, b) && SameHouse(b, c)
    ensures SameHouse(a, c)
  {
  }

  lemma RequeueHouse(db: Database, t: TaskId)
    requires t in db.tasks
    ensures SameHouse(db, RequeueOne(db, t))
  {
    RequeueCounters(db, t);
    RequeueMachines(db, t);
    RequeueStaff(db, t);
  }

  lemma HouseStep(r: Race, step: RaceStep)
    requires Possible(r, step)
    ensures SameHouse(r.db, Next(r, step).db)
  {
    match step
    case CommitPick(c) => AssignSetup(r.db, r.open[c].task, r.open[c].staff, r.open[c].now);
    case Finish(t, children, now) => CompleteSetup(r.db, t, children, now);
    case TakeBack(t, _) => RequeueHouse(r.db, t);
    case _ =>
  }

  lemma {:induction false} HouseRun(r: Race, steps: seq<RaceStep>, r': Race)
    requires RaceRun(r, steps, r')
    ensures SameHouse(r.db, r'.db)
    decreases |steps|
  {
    if steps != [] {
      HouseStep(r, steps[0]);
      HouseRun(Next(r, steps[0]), steps[1..], r');
      HouseTrans(r.db, Next(r, steps[0]).db, r'.db);
    }
  }

  lemma HouseMachines(db: Database, db': Database, c: CounterId)
    requires SameMachines(db, db')
    ensures UpMachines(db', c) == UpMachines(db, c)
  {
  }

  lemma HouseIsRooms(db: Database, db': Database)
    requires SameHouse(db, db')
    ensures SameRooms(db, db')
  {
  }

  lemma HouseRooms(db: Database, db': Database, s: StaffId)
    requires SameHouse(db, db')
    ensures Usable(db', s) == Usable(db, s) && Rooms(db', s) == Rooms(db, s)
    ensures EverEligible(db', s) <==> EverEligible(db, s)
  {
    HouseIsRooms(db, db');
    SameUsable(db, db', s);
    forall c | c in Usable(db, s) ensures Rooms(db', s)[c] == Rooms(db, s)[c] {
      HouseMachines(db, db', c);
    }
  }

  // ---------------------------------------------------------------- where busy tasks are

  /** A busy task is with a person who can be on duty, at a counter they know, on a machine of it that is up. */
  predicate InPlace(db: Database, task: Task) {
    && task.staff.Some? && task.onMachine.Some? && EverEligible(db, task.staff.value)
    && (task.staff.value, task.counter) in db.skills
    && task.onMachine.value in db.machines
    && db.machines[task.onMachine.value].counter == task.counter && db.machines[task.onMachine.value].isUp
  }

  ghost predicate Placed(r: Race) {
    && (forall t :: t in r.db.tasks && r.db.tasks[t].Busy() ==> InPlace(r.db, r.db.tasks[t]))
    && (forall c :: c in r.open ==> EverEligible(r.db, r.open[c].staff))
  }

  /** Every busy task was busy before, with the same resources. */
  ghost predicate NoNewWork(db: Database, db': Database) {
    forall t :: t in db'.tasks && db'.tasks[t].Busy() ==>
      && t in db.tasks && db.tasks[t].Busy() && db'.tasks[t].counter == db.tasks[t].counter
      && db'.tasks[t].staff == db.tasks[t].staff && db'.tasks[t].onMachine == db.tasks[t].onMachine
  }

  lemma PlacedKept(r: Race, r': Race)
    requires Placed(r) && SameHouse(r.db, r'.db) && NoNewWork(r.db, r'.db)
    requires forall c :: c in r'.open ==> c in r.open && r'.open[c] == r.open[c]
    ensures Placed(r')
  {
    forall t | t in r'.db.tasks && r'.db.tasks[t].Busy() ensures InPlace(r'.db, r'.db.tasks[t]) {
      assert InPlace(r.db, r.db.tasks[t]);
    }
  }

  lemma CommitPlaced(r: Race, c: CounterId)
    requires RaceInv(r) && Placed(r) && Possible(r, CommitPick(c))
    ensures Placed(Next(r, CommitPick(c)))
  {
    var r' := Next(r, CommitPick(c));
    var p := r.open[c];
    assert Valid(r.db, c, p);
    HouseStep(r, CommitPick(c));
    AssignOneRow(r.db, p.task, p.staff, p.now);
    forall t | t in r'.db.tasks && r'.db.tasks[t].Busy() ensures InPlace(r'.db, r'.db.tasks[t]) {
      if t != p.task {
        assert InPlace(r.db, r.db.tasks[t]);
      }
    }
  }

  lemma FinishWork(db: Database, t: TaskId, children: seq<TaskId>, now: Time)
    requires t in db.tasks && HasRunMetadata(db.tasks[t])
    ensures NoNewWork(db, CompleteTx(db, t, children, now))
  {
    ReleaseTables(db, t, now);
    CompleteTables(db, t, children, now);
  }

  lemma CreateWork(db: Database, o: OrderId, ids: seq<TaskId>, rows: seq<NewTask>)
    requires |ids| == |rows| && NoDuplicates(ids) && forall t :: t in ids ==> t !in db.tasks
    ensures NoNewWork(db, CreateTx(db, o, ids, rows))
  {
    InsertRowsEffect(db.tasks, o, ids, rows);
    forall t | t in InsertRows(db.tasks, o, ids, rows) && t !in db.tasks
      ensures !InsertRows(db.tasks, o, ids, rows)[t].Busy()
    {
      var i :| 0 <= i < |ids| && ids[i] == t;
    }
  }

  lemma RequeueWork(db: Database, t: TaskId)
    requires t in db.tasks
    ensures NoNewWork(db, RequeueOne(db, t))
  {
    assert RequeueOne(db, t).tasks == db.tasks[t := ResetRow(db.tasks[t])];
  }

  lemma OtherWork(r: Race, step: RaceStep)
    requires Possible(r, step) && !step.CommitPick?
    ensures NoNewWork(r.db, Next(r, step).db)
  {
    match step
    case Finish(t, children, now) => FinishWork(r.db, t, children, now);
    case TakeBack(t, _) => RequeueWork(r.db, t);
    case Create(o, ids, rows) => CreateWork(r.db, o, ids, rows);
    case _ =>
  }

  lemma PlacedStep(r: Race, step: RaceStep)
    requires RaceInv(r) && Placed(r) && Possible(r, step)
    ensures Placed(Next(r, step))
  {
    if step.CommitPick? {
      CommitPlaced(r, step.c);
    } else {
      HouseStep(r, step);
      OtherWork(r, step);
      if step.Choose? {
        UsageNonNegative(r.db);
        assert EverEligible(r.db, step.s);
      } else {
        PlacedKept(r, Next(r, step));
      }
    }
  }

  lemma {:induction false} PlacedRun(r: Race, steps: seq<RaceStep>, r': Race)
    requires RaceInv(r) && Placed(r) && RaceRun(r, steps, r')
    ensures Placed(r')
    decreases |steps|
  {
    if steps != [] {
      PlacedStep(r, steps[0]);
      RaceStepInv(r, steps[0]);
      PlacedRun(Next(r, steps[0]), steps[1..], r');
    }
  }

  // ---------------------------------------------------------------- room bounds the work

  function CountersOf(tasks: map<TaskId, Task>): map<nat, nat> {
    map t | t in tasks :: tasks[t].counter
  }

  function MachinesOf(tasks: map<TaskId, Task>): map<nat, nat> {
    map t | t in tasks && tasks[t].onMachine.Some? :: tasks[t].onMachine.value
  }

  /** A busy task shows that its counter and its machine can take tasks. */
  lemma BusyIsUsable(r: Race, t: TaskId)
    requires RaceInv(r) && Placed(r) && t in r.db.tasks && r.db.tasks[t].Busy()
    ensures InPlace(r.db, r.db.tasks[t]) && r.db.tasks[t].onMachine.value in UpMachines(r.db, r.db.tasks[t].counter)
    ensures r.db.tasks[t].counter in Usable(r.db, r.db.tasks[t].staff.value)
  {
    BusyIsCounted(r.db, t);
  }

  /** The tasks of one person at one counter fit into its room. */
  lemma CounterBound(r: Race, s: StaffId, c: CounterId)
    requires RaceInv(r) && Placed(r) && c in Usable(r.db, s)
    ensures |Group(OfStaff(r.db.tasks, s), CountersOf(r.db.tasks), c)| <= Room(r.db, c)
  {
    var here := Group(OfStaff(r.db.tasks, s), CountersOf(r.db.tasks), c);
    assert here <= OnCounter(r.db.tasks, c);
    SubsetSize(here, OnCounter(r.db.tasks, c));
    var on := MachinesOf(r.db.tasks);
    forall t | t in here ensures t in on && on[t] in UpMachines(r.db, c) {
      BusyIsUsable(r, t);
    }
    forall m | m in UpMachines(r.db, c) ensures |Group(here, on, m)| <= UpMachines(r.db, c)[m] {
      assert Group(here, on, m) <= OnMachine(r.db.tasks, m);
      SubsetSize(Group(here, on, m), OnMachine(r.db.tasks, m));
    }
    GroupsFit(here, on, UpMachines(r.db, c));
  }

  /** A person never has more tasks than the counters they can work at have room for. */
  lemma RoomBound(r: Race, s: StaffId)
    requires RaceInv(r) && Placed(r) && s in r.db.staff
    ensures r.db.staff[s].activeTasks <= Sum(Rooms(r.db, s))
  {
    var mine := OfStaff(r.db.tasks, s);
    forall t | t in mine ensures t in CountersOf(r.db.tasks) && CountersOf(r.db.tasks)[t] in Rooms(r.db, s) {
      BusyIsUsable(r, t);
    }
    forall c | c in Rooms(r.db, s) ensures |Group(mine, CountersOf(r.db.tasks), c)| <= Rooms(r.db, s)[c] {
      CounterBound(r, s, c);
    }
    GroupsFit(mine, CountersOf(r.db.tasks), Rooms(r.db, s));
  }

  lemma WorkMeansEligible(r: Race, s: StaffId)
    requires RaceInv(r) && Placed(r) && s in r.db.staff && r.db.staff[s].activeTasks != 0
    ensures EverEligible(r.db, s)
  {
    assert |OfStaff(r.db.tasks, s)| != 0;
    var t :| t in OfStaff(r.db.tasks, s);
    BusyIsUsable(r, t);
  }

  lemma LimitHolds(r0: Race, r: Race, s: StaffId)
    requires RaceInit(r0) && RaceLeads(r0, r) && s in r0.db.staff && !CanExceed(r0.db, s)
    ensures WithinLimit(r.db, s)
  {
    var steps :| RaceRun(r0, steps, r);
    RaceInitInv(r0);
    PlacedRun(r0, steps, r);
    RaceRunInv(r0, steps, r);
    HouseRun(r0, steps, r);
    HouseRooms(r0.db, r.db, s);
    RoomBound(r, s);
    if r.db.staff[s].activeTasks != 0 { WorkMeansEligible(r, s); }
    assert Limited(r, s);
  }

  // ---------------------------------------------------------------- planning one task too many

  /** A place for a task. */
  datatype Slot = Slot(c: CounterId, m: MachineId)

  function AtCounter(plan: map<TaskId, Slot>, c: CounterId): set<TaskId> {
    set t | t in plan && plan[t].c == c
  }

  function AtMachine(plan: map<TaskId, Slot>, m: MachineId): set<TaskId> {
    set t | t in plan && plan[t].m == m
  }

  ghost predicate Numbered(plan: map<TaskId, Slot>, n: nat) {
    forall t :: t in plan <==> 1 <= t <= n
  }

  ghost predicate Suited(db: Database, s: StaffId, plan: map<TaskId, Slot>) {
    forall t :: t in plan ==> plan[t].c in Usable(db, s) && plan[t].m in UpMachines(db, plan[t].c)
  }

  ghost predicate CountersFit(db: Database, plan: map<TaskId, Slot>) {
    forall c {:trigger AtCounter(plan, c)} :: c in db.counters ==> |AtCounter(plan, c)| <= Greatest(db.counters[c].capacity)
  }

  ghost predicate MachinesFit(db: Database, plan: map<TaskId, Slot>) {
    forall m {:trigger AtMachine(plan, m)} :: m in db.machines ==> |AtMachine(plan, m)| <= Greatest(db.machines[m].capacity)
  }

  /** Places for the tasks 1 to n that `s` could work on all at once. */
  ghost predicate Fits(db: Database, s: StaffId, plan: map<TaskId, Slot>, n: nat) {
    Numbered(plan, n) && Suited(db, s, plan) && CountersFit(db, plan) && MachinesFit(db, plan)
  }

  lemma {:induction false} PlanSize(plan: map<TaskId, Slot>, n: nat)
    requires forall t :: t in plan <==> 1 <= t <= n
    ensures |plan.Keys| == n
    decreases n
  {
    if n == 0 {
      assert plan.Keys == {};
    } else {
      assert (plan - {n}).Keys == plan.Keys - {n};
      PlanSize(plan - {n}, n - 1);
    }
  }

  function CounterMap(plan: map<TaskId, Slot>): map<nat, nat> {
    map t | t in plan :: plan[t].c
  }

  function MachineMap(plan: map<TaskId, Slot>): map<nat, nat> {
    map t | t in plan :: plan[t].m
  }

  predicate Free(db: Database, s: StaffId, plan: map<TaskId, Slot>, x: Slot) {
    && x.c in Usable(db, s) && x.m in UpMachines(db, x.c)
    && |AtCounter(plan, x.c)| < db.counters[x.c].capacity && |AtMachine(plan, x.m)| < db.machines[x.m].capacity
  }

  lemma FreeCounter(db: Database, s: StaffId, plan: map<TaskId, Slot>) returns (c: CounterId)
    requires |plan.Keys| < Sum(Rooms(db, s))
    ensures c in Usable(db, s) && |AtCounter(plan, c)| < Room(db, c)
  {
    c := SomeGroupHasRoom(plan.Keys, CounterMap(plan), Rooms(db, s));
    assert Group(plan.Keys, CounterMap(plan), c) == AtCounter(plan, c);
  }

  /** All tasks on a machine are at its counter. */
  lemma MachineAtCounter(db: Database, s: StaffId, plan: map<TaskId, Slot>, c: CounterId, m: MachineId)
    requires Suited(db, s, plan) && m in UpMachines(db, c)
    ensures Group(AtCounter(plan, c), MachineMap(plan), m) == AtMachine(plan, m)
  {
    forall t | t in AtMachine(plan, m) ensures t in AtCounter(plan, c) {
      assert plan[t].m in UpMachines(db, plan[t].c);
    }
    assert forall t :: t in AtMachine(plan, m) ==> t in MachineMap(plan) && MachineMap(plan)[t] == m;
  }

  lemma FreeMachine(db: Database, s: StaffId, plan: map<TaskId, Slot>, c: CounterId) returns (m: MachineId)
    requires Suited(db, s, plan) && |AtCounter(plan, c)| < Sum(UpMachines(db, c))
    ensures m in UpMachines(db, c) && |AtMachine(plan, m)| < UpMachines(db, c)[m]
  {
    m := SomeGroupHasRoom(AtCounter(plan, c), MachineMap(plan), UpMachines(db, c));
    MachineAtCounter(db, s, plan, c, m);
  }

  /** As long as the plan is below the room there is another place. */
  lemma FreeSlot(db: Database, s: StaffId, plan: map<TaskId, Slot>, n: nat) returns (x: Slot)
    requires Numbered(plan, n) && Suited(db, s, plan) && n < Sum(Rooms(db, s))
    ensures Free(db, s, plan, x)
  {
    PlanSize(plan, n);
    var c := FreeCounter(db, s, plan);
    var m := FreeMachine(db, s, plan, c);
    x := Slot(c, m);
  }

  lemma ExtendCounters(db: Database, plan: map<TaskId, Slot>, t: TaskId, x: Slot)
    requires CountersFit(db, plan) && t !in plan && (x.c in db.counters ==> |AtCounter(plan, x.c)| < db.counters[x.c].capacity)
    ensures CountersFit(db, plan[t := x])
  {
    forall c | c in db.counters ensures |AtCounter(plan[t := x], c)| <= Greatest(db.counters[c].capacity) {
      assert AtCounter(plan[t := x], c) == AtCounter(plan, c) + if c == x.c then {t} else {};
    }
  }

  lemma ExtendMachines(db: Database, plan: map<TaskId, Slot>, t: TaskId, x: Slot)
    requires MachinesFit(db, plan) && t !in plan && (x.m in db.machines ==> |AtMachine(plan, x.m)| < db.machines[x.m].capacity)
    ensures MachinesFit(db, plan[t := x])
  {
    forall m | m in db.machines ensures |AtMachine(plan[t := x], m)| <= Greatest(db.machines[m].capacity) {
      assert AtMachine(plan[t := x], m) == AtMachine(plan, m) + if m == x.m then {t} else {};
    }
  }

  lemma Extend(db: Database, s: StaffId, plan: map<TaskId, Slot>, n: nat, x: Slot)
    requires Fits(db, s, plan, n) && Free(db, s, plan, x)
    ensures Fits(db, s, plan[n + 1 := x], n + 1)
  {
    ExtendCounters(db, plan, n + 1, x);
    ExtendMachines(db, plan, n + 1, x);
  }

  lemma {:induction false} FillPlan(db: Database, s: StaffId, plan: map<TaskId, Slot>, n: nat, size: nat) returns (plan': map<TaskId, Slot>)
    requires Fits(db, s, plan, n) && n <= size <= Sum(Rooms(db, s))
    ensures Fits(db, s, plan', size) && forall t :: t in plan ==> t in plan' && plan'[t] == plan[t]
    decreases size - n
  {
    if n == size {
      plan' := plan;
    } else {
      var more := NextPlace(db, s, plan, n);
      plan' := FillPlan(db, s, more, n + 1, size);
    }
  }

  lemma NextPlace(db: Database, s: StaffId, plan: map<TaskId, Slot>, n: nat) returns (plan': map<TaskId, Slot>)
    requires Fits(db, s, plan, n) && n < Sum(Rooms(db, s))
    ensures Fits(db, s, plan', n + 1) && forall t :: t in plan ==> t in plan' && plan'[t] == plan[t]
  {
    var x := FreeSlot(db, s, plan, n);
    Extend(db, s, plan, n, x);
    plan' := plan[n + 1 := x];
  }

  lemma TwoCounters(xs: set<CounterId>) returns (x: CounterId, y: CounterId)
    requires |xs| >= 2
    ensures x in xs && y in xs && x != y
  {
    x :| x in xs;
    assert xs == (xs - {x}) + {x};
    assert |xs - {x}| >= 1;
    y :| y in xs - {x};
  }

  /** A plan for one task more than the limit, whose first two tasks are at different counters. */
  lemma OverfullPlan(db: Database, s: StaffId) returns (plan: map<TaskId, Slot>)
    requires CanExceed(db, s)
    ensures Fits(db, s, plan, db.staff[s].maxParallel + 1) && plan[1].c != plan[2].c
  {
    var x, y := TwoCounters(Usable(db, s));
    var two := TwoPlaces(db, s, x, y);
    plan := FillPlan(db, s, two, 2, db.staff[s].maxParallel + 1);
    assert 1 in two && 2 in two;
  }

  lemma TwoPlaces(db: Database, s: StaffId, x: CounterId, y: CounterId) returns (plan: map<TaskId, Slot>)
    requires x in Usable(db, s) && y in Usable(db, s) && x != y
    ensures Fits(db, s, plan, 2) && 1 in plan && 2 in plan && plan[1].c == x && plan[2].c == y
  {
    EmptyFits(db, s);
    var sx := FirstSlot(db, s, map[], x);
    Extend(db, s, map[], 0, sx);
    var one: map<TaskId, Slot> := map[1 := sx];
    OtherCounterEmpty(db, sx, y);
    var sy := FirstSlot(db, s, one, y);
    Extend(db, s, one, 1, sy);
    plan := one[2 := sy];
  }

  /** A usable counter at which nothing is planned yet has a free place. */
  lemma FirstSlot(db: Database, s: StaffId, plan: map<TaskId, Slot>, c: CounterId) returns (x: Slot)
    requires c in Usable(db, s) && AtCounter(plan, c) == {}
    requires forall m :: m in UpMachines(db, c) ==> AtMachine(plan, m) == {}
    ensures x.c == c && Free(db, s, plan, x)
  {
    var m :| m in UpMachines(db, c);
    x := Slot(c, m);
  }

  lemma OtherCounterEmpty(db: Database, x: Slot, y: CounterId)
    requires x.c != y && x.m in UpMachines(db, x.c)
    ensures AtCounter(map[1 := x], y) == {}
    ensures forall m :: m in UpMachines(db, y) ==> AtMachine(map[1 := x], m) == {}
  {
  }

  lemma EmptyFits(db: Database, s: StaffId)
    ensures Fits(db, s, map[], 0)
    ensures forall c :: AtCounter(map[], c) == {}
    ensures forall m :: AtMachine(map[], m) == {}
  {
  }

  // ---------------------------------------------------------------- carrying the plan out

  function PlanIds(n: nat): seq<TaskId> {
    seq(n, i => i + 1)
  }

  function PlanRows(plan: map<TaskId, Slot>, n: nat): seq<NewTask>
    requires forall t :: 1 <= t <= n ==> t in plan
  {
    seq(n, i requires 0 <= i < n => NewTask(plan[i + 1].c, Some(plan[i + 1].m), 1, 0.0, 0))
  }

  predicate PlannedRow(task: Task, x: Slot) {
    task.counter == x.c && task.machine == Some(x.m) && task.pendingDeps == 0
  }

  /** The tasks from 3 to before k are assigned to `s`, all others still wait. */
  predicate AssignedSoFar(task: Task, x: Slot, s: StaffId, busy: bool) {
    if busy then task.status.TaskAssigned? && task.staff == Some(s) && task.onMachine == Some(x.m)
    else task.status.TaskUnassigned?
  }

  /** The tables once the tasks from 3 to before k are assigned: `s` has k - 3 tasks, and nobody else was given any. */
  ghost predicate Worked(db0: Database, db: Database, s: StaffId, plan: map<TaskId, Slot>, k: nat) {
    && 3 <= k && db.tasks.Keys == plan.Keys
    && s in db0.staff && db.staff == db0.staff[s := db0.staff[s].(activeTasks := k - 3)]
    && forall t :: t in plan ==>
         PlannedRow(db.tasks[t], plan[t]) && AssignedSoFar(db.tasks[t], plan[t], s, 3 <= t < k)
  }

  /** A state on the way. */
  ghost predicate Filled(best: bool, r0: Race, r: Race, s: StaffId, plan: map<TaskId, Slot>, n: nat, k: nat) {
    && RaceInit(r0) && LeadsBy(best, r0, r) && r.open == map[] && SameHouse(r0.db, r.db)
    && Fits(r0.db, s, plan, n) && Worked(r0.db, r.db, s, plan, k)
  }

  lemma LeadsFromInit(best: bool, r0: Race, r: Race)
    requires RaceInit(r0) && LeadsBy(best, r0, r)
    ensures RaceReachable(r) && RaceInv(r)
  {
    ByLeads(best, r0, r);
    var steps :| RaceRun(r0, steps, r);
    RaceInitInv(r0);
    RaceRunInv(r0, steps, r);
  }

  /** The order with all the planned tasks. */
  lemma Ordered(best: bool, r0: Race, s: StaffId, plan: map<TaskId, Slot>, n: nat) returns (r: Race)
    requires RaceInit(r0) && s in r0.db.staff && Fits(r0.db, s, plan, n) && n > 0
    ensures Filled(best, r0, r, s, plan, n, 3)
  {
    var ids, rows := PlanIds(n), PlanRows(plan, n);
    var step := Create(1, ids, rows);
    PlanRowsOk(r0.db, s, plan, n);
    r := Next(r0, step);
    StayBy(best, r);
    StepThen(best, r0, step, r);
    HouseStep(r0, step);
    PlanTasks(plan, n);
  }

  lemma PlanRowsOk(db: Database, s: StaffId, plan: map<TaskId, Slot>, n: nat)
    requires Numbered(plan, n) && Suited(db, s, plan)
    ensures RowsOk(db, PlanRows(plan, n)) && NoDuplicates(PlanIds(n))
  {
    var rows := PlanRows(plan, n);
    forall r | r in rows ensures r.counter in db.counters && r.machine.Some? && r.machine.value in db.machines {
      var i :| 0 <= i < |rows| && rows[i] == r;
      assert plan[i + 1].c in Usable(db, s) && plan[i + 1].m in UpMachines(db, plan[i + 1].c);
    }
  }

  lemma PlanTask(plan: map<TaskId, Slot>, n: nat, t: TaskId)
    requires Numbered(plan, n)
    ensures var tasks := InsertRows(map[], 1, PlanIds(n), PlanRows(plan, n));
      t in tasks <==> t in plan
    ensures t in plan ==> InsertRows(map[], 1, PlanIds(n), PlanRows(plan, n))[t] == NewRow(1, PlanRows(plan, n)[t - 1])
  {
    var ids, rows := PlanIds(n), PlanRows(plan, n);
    InsertRowsEffect(map[], 1, ids, rows);
    if t in plan {
      var i: nat := t - 1;
      assert ids[i] == t;
    }
  }

  lemma PlanTasks(plan: map<TaskId, Slot>, n: nat)
    requires Numbered(plan, n)
    ensures var tasks := InsertRows(map[], 1, PlanIds(n), PlanRows(plan, n));
      && tasks.Keys == plan.Keys
      && forall t :: t in plan ==> PlannedRow(tasks[t], plan[t]) && tasks[t].status.TaskUnassigned?
  {
    var tasks := InsertRows(map[], 1, PlanIds(n), PlanRows(plan, n));
    forall t ensures t in tasks <==> t in plan {
      PlanTask(plan, n, t);
    }
    forall t | t in plan ensures PlannedRow(tasks[t], plan[t]) && tasks[t].status.TaskUnassigned? {
      PlanTask(plan, n, t);
    }
  }

  /** A planned task that still waits can be assigned: its place is not among those taken. */
  lemma PlaceIsFree(best: bool, r0: Race, r: Race, s: StaffId, plan: map<TaskId, Slot>, n: nat, k: nat, t: TaskId)
    requires Filled(best, r0, r, s, plan, n, k) && t in plan && !(3 <= t < k)
    ensures plan[t].c in r.db.counters && r.db.counters[plan[t].c].inUse < r.db.counters[plan[t].c].capacity
    ensures MachineFree(r.db, plan[t].m, plan[t].c)
  {
    LeadsFromInit(best, r0, r);
    var x := plan[t];
    assert x.c in Usable(r0.db, s) && x.m in UpMachines(r0.db, x.c);
    TakenPlaces(r.db, s, plan, k, t);
  }

  /** The tasks at the counter and on the machine of `t` are planned there, and are other tasks. */
  lemma TakenPlaces(db: Database, s: StaffId, plan: map<TaskId, Slot>, k: nat, t: TaskId)
    requires t in plan && !(3 <= t < k) && db.tasks.Keys == plan.Keys
    requires forall u :: u in plan ==> PlannedRow(db.tasks[u], plan[u]) && AssignedSoFar(db.tasks[u], plan[u], s, 3 <= u < k)
    ensures |OnCounter(db.tasks, plan[t].c)| < |AtCounter(plan, plan[t].c)|
    ensures |OnMachine(db.tasks, plan[t].m)| < |AtMachine(plan, plan[t].m)|
  {
    var on, at := OnCounter(db.tasks, plan[t].c), AtCounter(plan, plan[t].c);
    assert on <= at - {t};
    SubsetSize(on, at - {t});
    var onM, atM := OnMachine(db.tasks, plan[t].m), AtMachine(plan, plan[t].m);
    assert onM <= atM - {t};
    SubsetSize(onM, atM - {t});
  }

  /** The person is on duty. */
  predicate OnDuty(st: Staff, now: Time) {
    !st.onBreak && st.shiftStart <= now <= st.shiftEnd && st.maxParallel >= 1
  }

  /** `u` can be picked for a task at a counter where `s` can work. */
  ghost predicate Competes(db: Database, u: StaffId, s: StaffId, now: Time) {
    u != s && u in db.staff && OnDuty(db.staff[u], now) && exists c :: c in Usable(db, s) && (u, c) in db.skills
  }

  /** At `now`, one task short of the limit, `s` still scores no higher than any idle competitor. */
  ghost predicate Favoured(db: Database, s: StaffId, now: Time) {
    && s in db.staff && OnDuty(db.staff[s], now)
    && forall u :: Competes(db, u, s, now) ==>
         StaffScore(db.staff[s].(activeTasks := db.staff[s].maxParallel - 1), now) <= StaffScore(db.staff[u], now)
  }

  lemma FewerTasksScoreLess(st: Staff, few: int, many: int, now: Time)
    requires few <= many
    ensures StaffScore(st.(activeTasks := few), now) <= StaffScore(st.(activeTasks := many), now)
  {
    var base := StaffScore(st.(activeTasks := 0), now);
    assert StaffScore(st.(activeTasks := few), now) == base + WEIGHT_LOAD * few as real;
    assert StaffScore(st.(activeTasks := many), now) == base + WEIGHT_LOAD * many as real;
  }

  lemma PlannedCanAssign(best: bool, r0: Race, r: Race, s: StaffId, plan: map<TaskId, Slot>, n: nat, k: nat, t: TaskId, now: Time)
    requires Filled(best, r0, r, s, plan, n, k) && t in plan && !(3 <= t < k)
    requires OnDuty(r0.db.staff[s], now) && k - 3 < r0.db.staff[s].maxParallel
    ensures CanAssign(r.db, t, s, now) && r.db.tasks[t].counter == plan[t].c
  {
    PlaceIsFree(best, r0, r, s, plan, n, k, t);
    assert PlannedRow(r.db.tasks[t], plan[t]);
    assert plan[t].c in Usable(r0.db, s);
  }

  lemma PlannedBest(best: bool, r0: Race, r: Race, s: StaffId, plan: map<TaskId, Slot>, n: nat, k: nat, t: TaskId, now: Time)
    requires Filled(best, r0, r, s, plan, n, k) && t in plan && !(3 <= t < k)
    requires Favoured(r0.db, s, now) && k - 3 < r0.db.staff[s].maxParallel
    ensures BestPick(r.db, t, s, now)
  {
    PlannedCanAssign(best, r0, r, s, plan, n, k, t, now);
    FewerTasksScoreLess(r0.db.staff[s], k - 3, r0.db.staff[s].maxParallel - 1, now);
    assert plan[t].c in Usable(r0.db, s);
    forall u | CanAssign(r.db, t, u, now) ensures StaffScore(r.db.staff[s], now) <= StaffScore(r.db.staff[u], now) {
      if u != s {
        assert r.db.staff[u] == r0.db.staff[u] && r0.db.staff[u].activeTasks == 0;
        assert Competes(r0.db, u, s, now);
      }
    }
  }

  /** Choose and commit in one go. */
  lemma AssignAtOnce(best: bool, r: Race, t: TaskId, s: StaffId, now: Time) returns (r': Race)
    requires RaceInv(r) && r.open == map[] && CanAssign(r.db, t, s, now) && (best ==> BestPick(r.db, t, s, now))
    ensures LeadsBy(best, r, r') && r'.open == map[] && r'.db == AssignTo(r.db, t, s, now) && SameHouse(r.db, r'.db)
  {
    var c := r.db.tasks[t].counter;
    var mid := Next(r, Choose(t, s, now));
    r' := Next(mid, CommitPick(c));
    assert r'.open == map[];
    StayBy(best, r');
    StepThen(best, mid, CommitPick(c), r');
    StepThen(best, r, Choose(t, s, now), r');
    AssignSetup(r.db, t, s, now);
  }

  /** The moment is one at which `s` can be picked, by the least score if `best` asks for that. */
  ghost predicate GoodMoment(best: bool, db: Database, s: StaffId, now: Time) {
    s in db.staff && OnDuty(db.staff[s], now) && (best ==> Favoured(db, s, now))
  }

  lemma PlannedPick(best: bool, r0: Race, r: Race, s: StaffId, plan: map<TaskId, Slot>, n: nat, k: nat, t: TaskId, now: Time)
    requires Filled(best, r0, r, s, plan, n, k) && t in plan && !(3 <= t < k)
    requires GoodMoment(best, r0.db, s, now) && k - 3 < r0.db.staff[s].maxParallel
    ensures CanAssign(r.db, t, s, now) && r.db.tasks[t].counter == plan[t].c && (best ==> BestPick(r.db, t, s, now))
  {
    PlannedCanAssign(best, r0, r, s, plan, n, k, t, now);
    if best { PlannedBest(best, r0, r, s, plan, n, k, t, now); }
  }

  lemma FillOne(best: bool, r0: Race, r: Race, s: StaffId, plan: map<TaskId, Slot>, n: nat, k: nat, now: Time) returns (r': Race)
    requires Filled(best, r0, r, s, plan, n, k) && k <= n && GoodMoment(best, r0.db, s, now) && k - 3 < r0.db.staff[s].maxParallel
    ensures Filled(best, r0, r', s, plan, n, k + 1)
  {
    PlannedPick(best, r0, r, s, plan, n, k, k, now);
    LeadsFromInit(best, r0, r);
    r' := AssignAtOnce(best, r, k, s, now);
    LeadsTransitively(best, r0, r, r');
    HouseTrans(r0.db, r.db, r'.db);
    WorkedNext(r0.db, r.db, s, plan, k, now);
  }

  lemma AssignedTables(db: Database, t: TaskId, s: StaffId, now: Time, x: Slot)
    requires Rows(db) && Accounts(db) && CanAssign(db, t, s, now) && PlannedRow(db.tasks[t], x)
    ensures AssignTo(db, t, s, now).tasks == db.tasks[t := AssignRow(db.tasks[t], s, x.m, now)]
    ensures AssignTo(db, t, s, now).staff == db.staff[s := db.staff[s].(activeTasks := db.staff[s].activeTasks + 1)]
  {
    AssignStaff(db, t, s, now);
    AssignedRow(db, t, s, now);
  }

  lemma WorkedNext(db0: Database, db: Database, s: StaffId, plan: map<TaskId, Slot>, k: nat, now: Time)
    requires Rows(db) && Accounts(db) && CanAssign(db, k, s, now) && k in plan && Worked(db0, db, s, plan, k)
    ensures Worked(db0, AssignTo(db, k, s, now), s, plan, k + 1)
  {
    AssignedTables(db, k, s, now, plan[k]);
  }

  lemma {:induction false} FillUp(best: bool, r0: Race, r: Race, s: StaffId, plan: map<TaskId, Slot>, n: nat, k: nat, now: Time) returns (r': Race)
    requires Filled(best, r0, r, s, plan, n, k) && k <= n + 1 && GoodMoment(best, r0.db, s, now)
    requires n == r0.db.staff[s].maxParallel + 1
    ensures Filled(best, r0, r', s, plan, n, n + 1)
    decreases n + 1 - k
  {
    if k == n + 1 {
      r' := r;
    } else {
      var more := FillOne(best, r0, r, s, plan, n, k, now);
      r' := FillUp(best, r0, more, s, plan, n, k + 1, now);
    }
  }

  /** The last two tasks are chosen side by side, and both commit. */
  lemma LastTwoTogether(best: bool, r0: Race, r: Race, s: StaffId, plan: map<TaskId, Slot>, n: nat, now: Time) returns (r': Race)
    requires Filled(best, r0, r, s, plan, n, n + 1) && GoodMoment(best, r0.db, s, now) && n == r0.db.staff[s].maxParallel + 1
    requires 1 in plan && 2 in plan && plan[1].c != plan[2].c
    ensures LeadsBy(best, r0, r') && s in r'.db.staff && r'.db.staff[s].activeTasks == n
  {
    PlannedPick(best, r0, r, s, plan, n, n + 1, 1, now);
    PlannedPick(best, r0, r, s, plan, n, n + 1, 2, now);
    LeadsFromInit(best, r0, r);
    r' := BothAssigned(best, r, s, now, 1, 2);
    LeadsTransitively(best, r0, r, r');
  }

  lemma BothAssigned(best: bool, r: Race, s: StaffId, now: Time, t: TaskId, u: TaskId) returns (r': Race)
    requires RaceReachable(r) && r.open == map[] && CanAssign(r.db, t, s, now) && CanAssign(r.db, u, s, now)
    requires best ==> BestPick(r.db, t, s, now) && BestPick(r.db, u, s, now)
    requires r.db.tasks[t].counter != r.db.tasks[u].counter
    ensures LeadsBy(best, r, r') && s in r'.db.staff && r'.db.staff[s].activeTasks == r.db.staff[s].activeTasks + 2
  {
    var c, d := r.db.tasks[t].counter, r.db.tasks[u].counter;
    var work: map<CounterId, TaskId> := map[c := t, d := u];
    var mid := AllChosen(best, r, s, now, work);
    assert work.Keys == {c, d} && |work.Keys| == 2;
    r' := CommitEach(best, mid, s);
    LeadsTransitively(best, r, mid, r');
  }

  /** An order and an interleaving that give `s` one task too many, all at the moment `now`. */
  lemma LimitBroken(best: bool, r0: Race, s: StaffId, now: Time) returns (r: Race)
    requires RaceInit(r0) && CanExceed(r0.db, s) && GoodMoment(best, r0.db, s, now)
    ensures LeadsBy(best, r0, r) && s in r.db.staff && r.db.staff[s].activeTasks == r0.db.staff[s].maxParallel + 1
  {
    var n := r0.db.staff[s].maxParallel + 1;
    var plan := OverfullPlan(r0.db, s);
    r := Ordered(best, r0, s, plan, n);
    r := FillUp(best, r0, r, s, plan, n, 3, now);
    r := LastTwoTogether(best, r0, r, s, plan, n, now);
  }

  // ---------------------------------------------------------------- the main result

  ghost predicate LimitAlwaysKept(best: bool, r0: Race, s: StaffId) {
    forall r :: LeadsBy(best, r0, r) ==> WithinLimit(r.db, s)
  }

  lemma LimitKept(best: bool, r0: Race, s: StaffId)
    requires RaceInit(r0) && s in r0.db.staff && !CanExceed(r0.db, s)
    ensures LimitAlwaysKept(best, r0, s)
  {
    forall r | LeadsBy(best, r0, r) ensures WithinLimit(r.db, s) {
      ByLeads(best, r0, r);
      LimitHolds(r0, r, s);
    }
  }

  lemma LimitNotKept(best: bool, r0: Race, s: StaffId, now: Time)
    requires RaceInit(r0) && CanExceed(r0.db, s) && GoodMoment(best, r0.db, s, now)
    ensures !LimitAlwaysKept(best, r0, s)
  {
    var r := LimitBroken(best, r0, s, now);
    ByLeads(best, r0, r);
    SameLimit(r0, r, s);
    assert !WithinLimit(r.db, s);
  }

  /**
   * However allocators, completions and requeues interleave, and whoever of the eligible people is
   * picked, a person stays within max_parallel if and only if they can never be on duty, or can
   * work at one counter at most, or the counters they can work at have no room for
   * max_parallel + 1 tasks.
   */
  lemma LimitKeptIff(r0: Race, s: StaffId)
    requires RaceInit(r0) && s in r0.db.staff
    ensures LimitAlwaysKept(false, r0, s) <==> !CanExceed(r0.db, s)
  {
    if CanExceed(r0.db, s) {
      LimitNotKept(false, r0, s, r0.db.staff[s].shiftStart);
    } else {
      LimitKept(false, r0, s);
    }
  }

  /**
   * The same with every pick made by the least score: that condition always keeps the limit, and
   * it is needed wherever there is a moment at which the person is not outdone by a competitor,
   * above all when nobody else is on duty at their counters.
   */
  lemma LimitKeptByScoreIff(r0: Race, s: StaffId)
    requires RaceInit(r0) && s in r0.db.staff
    ensures !CanExceed(r0.db, s) ==> LimitAlwaysKept(true, r0, s)
    ensures (exists now :: Favoured(r0.db, s, now)) ==> (LimitAlwaysKept(true, r0, s) <==> !CanExceed(r0.db, s))
  {
    if !CanExceed(r0.db, s) {
      LimitKept(true, r0, s);
    } else if now :| Favoured(r0.db, s, now) {
      LimitNotKept(true, r0, s, now);
    }
  }

  /** Nobody outdoes a person who is alone on duty at their counters: then the condition decides. */
  lemma LimitKeptAloneIff(r0: Race, s: StaffId, now: Time)
    requires RaceInit(r0) && s in r0.db.staff && OnDuty(r0.db.staff[s], now)
    requires forall u :: !Competes(r0.db, u, s, now)
    ensures LimitAlwaysKept(true, r0, s) <==> !CanExceed(r0.db, s)
  {
    assert Favoured(r0.db, s, now);
    LimitKeptByScoreIff(r0, s);
  }

  lemma SameLimit(r0: Race, r: Race, s: StaffId)
    requires RaceLeads(r0, r) && s in r0.db.staff
    ensures s in r.db.staff && r.db.staff[s].maxParallel == r0.db.staff[s].maxParallel
  {
    var steps :| RaceRun(r0, steps, r);
    HouseRun(r0, steps, r);
  }
}
