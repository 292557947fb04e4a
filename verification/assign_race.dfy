/**
 * Allocators under Read Committed. An assign transaction locks the task, counter and machine
 * rows, checks them, reads the staff without locking them and picks one; some time later it
 * writes and commits. The counter row stays locked in between, the choice of staff may go stale:
 * the staff row is locked only after the choice and its limit is not looked at again.
 */
module AssignRace {
  import opened Wrappers
  import opened Model
  import opened Collections
  import opened Transactions
  import opened ResourceAccounting
  import opened KitchenMachine
  import opened DependencyGate
  import opened ServiceEffects

  /** An open transaction: it holds the rows of its task, counter and machine. */
  datatype Pick = Pick(task: TaskId, staff: StaffId, now: Time)

  /** Committed tables, and the open assign transactions by the counter row they hold. */
  datatype Race = Race(db: Database, open: map<CounterId, Pick>)

  datatype RaceStep =
    | Choose(t: TaskId, s: StaffId, now: Time)
    | CommitPick(c: CounterId)
    | AbortPick(c: CounterId)
    | Begin(t: TaskId, now: Time)
    | Finish(t: TaskId, children: seq<TaskId>, now: Time)
    | TakeBack(t: TaskId, cutoff: Time)
    | Create(o: OrderId, ids: seq<TaskId>, rows: seq<NewTask>)
    | Insert(o: OrderId, edges: set<Edge>)
    | Recount(o: OrderId)

  ghost predicate Possible(r: Race, step: RaceStep) {
    match step
    case Choose(t, s, now) => CanAssign(r.db, t, s, now) && r.db.tasks[t].counter !in r.open
    case CommitPick(c) => c in r.open && r.open[c].task in r.db.tasks && r.db.tasks[r.open[c].task].machine.Some?
    case AbortPick(c) => c in r.open
    case Begin(t, _) => HasStatus(r.db, t, TaskAssigned)
    case Finish(t, children, _) =>
      && HasStatus(r.db, t, TaskStarted) && HasRunMetadata(r.db.tasks[t]) && r.db.tasks[t].counter !in r.open
      && Enumerates(children, ReadyChildren(DecrementDependents(r.db, t), t))
    case TakeBack(t, cutoff) => Expired(r.db, t, cutoff) && r.db.tasks[t].counter !in r.open
    case Create(o, ids, rows) =>
      && o !in r.db.orders && |ids| == |rows| > 0 && NoDuplicates(ids) && (forall t :: t in ids ==> t !in r.db.tasks)
      && RowsOk(r.db, rows)
    case Insert(o, edges) => EdgesWithin(r.db, o, edges)
    case Recount(o) => true
  }

  ghost function Next(r: Race, step: RaceStep): Race
    requires Possible(r, step)
  {
    match step
    case Choose(t, s, now) => r.(open := r.open[r.db.tasks[t].counter := Pick(t, s, now)])
    case CommitPick(c) => Race(AssignTo(r.db, r.open[c].task, r.open[c].staff, r.open[c].now), r.open - {c})
    case AbortPick(c) => r.(open := r.open - {c})
    case Begin(t, now) => r.(db := StartTx(r.db, t, now))
    case Finish(t, children, now) => r.(db := CompleteTx(r.db, t, children, now))
    case TakeBack(t, _) => r.(db := RequeueOne(r.db, t))
    case Create(o, ids, rows) => r.(db := CreateTx(r.db, o, ids, rows))
    case Insert(_, edges) => r.(db := r.db.(deps := r.db.deps + edges))
    case Recount(o) => r.(db := RecalculateTx(r.db, o))
  }

  ghost predicate RaceInit(r: Race) {
    && r.open == map[] && r.db.tasks == map[] && r.db.deps == {} && r.db.orders == map[]
    && (forall c :: c in r.db.counters ==> r.db.counters[c].inUse == 0)
    && (forall m :: m in r.db.machines ==> r.db.machines[m].inUse == 0)
    && (forall s :: s in r.db.staff ==> r.db.staff[s].activeTasks == 0)
  }

  ghost predicate RaceRun(r: Race, steps: seq<RaceStep>, r': Race)
    decreases |steps|
  {
    if steps == [] then r == r' else Possible(r, steps[0]) && RaceRun(Next(r, steps[0]), steps[1..], r')
  }

  ghost predicate RaceReachable(r: Race) {
    exists r0, steps :: RaceInit(r0) && RaceRun(r0, steps, r)
  }

  // ---------------------------------------------------------------- the invariant

  /** The counters at which `s` is in an open transaction. */
  function InFlight(open: map<CounterId, Pick>, s: StaffId): set<CounterId> {
    set c | c in open && open[c].staff == s
  }

  /** The counters `s` is skilled in. */
  function Skilled(db: Database, s: StaffId): set<CounterId> {
    set c | c in db.counters && (s, c) in db.skills
  }

  /** The machines of a counter that can take a task at all, with their capacities. */
  function UpMachines(db: Database, c: CounterId): map<MachineId, nat> {
    map m | m in db.machines && db.machines[m].counter == c && db.machines[m].isUp && db.machines[m].capacity >= 1 ::
      db.machines[m].capacity
  }

  /** The counters at which `s` can be given a task at all. */
  function Usable(db: Database, s: StaffId): set<CounterId> {
    set c | c in Skilled(db, s) && db.counters[c].capacity >= 1 && UpMachines(db, c) != map[]
  }

  /** Capacities, machines and skills are the same. */
  ghost predicate SameRooms(db: Database, db': Database) {
    && db'.skills == db.skills && db'.counters.Keys == db.counters.Keys && db'.machines.Keys == db.machines.Keys
    && (forall c :: c in db.counters ==> db'.counters[c].capacity == db.counters[c].capacity)
    && (forall m :: m in db.machines ==> SameMachine(db.machines[m], db'.machines[m]))
  }

  predicate SameMachine(x: Machine, y: Machine) {
    y == x.(inUse := y.inUse)
  }

  lemma SameUsable(db: Database, db': Database, s: StaffId)
    requires SameRooms(db, db')
    ensures Usable(db', s) == Usable(db, s)
  {
    forall c ensures UpMachines(db', c) == UpMachines(db, c) {
      assert forall m :: m in db.machines ==> SameMachine(db.machines[m], db'.machines[m]);
    }
    assert Skilled(db', s) == Skilled(db, s);
  }

  /** What the locks keep true of an open transaction. */
  ghost predicate Valid(db: Database, c: CounterId, p: Pick) {
    && HasStatus(db, p.task, TaskUnassigned) && db.tasks[p.task].counter == c && CounterFree(db, c)
    && p.staff in db.staff && (p.staff, c) in db.skills
    && db.tasks[p.task].machine.Some? && Roomy(db, db.tasks[p.task].machine.value, c)
  }

  predicate Roomy(db: Database, m: MachineId, c: CounterId) {
    m in db.machines && db.machines[m].counter == c && db.machines[m].isUp && db.machines[m].inUse < db.machines[m].capacity
  }

  ghost predicate AllValid(r: Race) {
    forall c :: c in r.open ==> Valid(r.db, c, r.open[c])
  }

  /** Active and in-flight tasks of `s` together. */
  ghost predicate Limited(r: Race, s: StaffId)
    requires s in r.db.staff
  {
    || (r.db.staff[s].activeTasks == 0 && InFlight(r.open, s) == {})
    || r.db.staff[s].activeTasks + |InFlight(r.open, s)| <= r.db.staff[s].maxParallel - 1 + |Usable(r.db, s)|
  }

  ghost predicate AllLimited(r: Race) {
    forall s :: s in r.db.staff ==> Limited(r, s)
  }

  ghost predicate RaceInv(r: Race) {
    Rows(r.db) && Accounts(r.db) && WithinCapacity(r.db) && AllValid(r) && AllLimited(r)
  }

  // ---------------------------------------------------------------- what a transaction leaves alone

  /** Seen from a transaction that holds counter `c`, nothing it checked got worse. */
  ghost predicate Undisturbed(db: Database, db': Database, c: CounterId) {
    && db'.skills == db.skills && db'.staff.Keys == db.staff.Keys
    && (c in db.counters ==> c in db'.counters && db'.counters[c] == db.counters[c])
    && (forall m :: m in db.machines && db.machines[m].counter == c ==>
          m in db'.machines && db'.machines[m] == db.machines[m].(inUse := db'.machines[m].inUse)
          && db'.machines[m].inUse <= db.machines[m].inUse)
    && (forall t :: HasStatus(db, t, TaskUnassigned) && db.tasks[t].counter == c ==>
          && HasStatus(db', t, TaskUnassigned) && db'.tasks[t].counter == c
          && db'.tasks[t].machine == db.tasks[t].machine)
  }

  lemma ValidKept(db: Database, db': Database, c: CounterId, p: Pick)
    requires Valid(db, c, p) && Undisturbed(db, db', c)
    ensures Valid(db', c, p)
  {
  }

  lemma AllValidKept(r: Race, r': Race)
    requires AllValid(r)
    requires forall c :: c in r'.open ==> c in r.open && r'.open[c] == r.open[c] && Undisturbed(r.db, r'.db, c)
    ensures AllValid(r')
  {
    forall c | c in r'.open ensures Valid(r'.db, c, r'.open[c]) {
      ValidKept(r.db, r'.db, c, r'.open[c]);
    }
  }

  lemma AssignUndisturbed(db: Database, t: TaskId, s: StaffId, now: Time, c: CounterId)
    requires Rows(db) && HasStatus(db, t, TaskUnassigned) && s in db.staff
    requires db.tasks[t].counter != c && db.machines[db.tasks[t].machine.value].counter == db.tasks[t].counter
    ensures Undisturbed(db, AssignTo(db, t, s, now), c)
  {
  }

  lemma ReleaseUndisturbed(db: Database, t: TaskId, now: Time, c: CounterId)
    requires Rows(db) && Accounts(db) && HasStatus(db, t, TaskStarted) && HasRunMetadata(db.tasks[t]) && db.tasks[t].counter != c
    ensures Undisturbed(db, ReleaseStarted(db, t, now), c)
  {
    BusyIsCounted(db, t);
  }

  lemma CompleteUndisturbed(db: Database, t: TaskId, children: seq<TaskId>, now: Time, c: CounterId)
    requires Rows(db) && Accounts(db) && HasStatus(db, t, TaskStarted) && HasRunMetadata(db.tasks[t]) && db.tasks[t].counter != c
    ensures Undisturbed(db, CompleteTx(db, t, children, now), c)
  {
    ReleaseUndisturbed(db, t, now, c);
    CompleteTables(db, t, children, now);
    CompleteResources(db, t, children, now);
  }

  lemma CompleteResources(db: Database, t: TaskId, children: seq<TaskId>, now: Time)
    requires t in db.tasks && HasRunMetadata(db.tasks[t])
    ensures var a, b := ReleaseStarted(db, t, now), CompleteTx(db, t, children, now);
      b.counters == a.counters && b.machines == a.machines && b.staff == a.staff && b.skills == db.skills && b.orders.Keys == db.orders.Keys
  {
  }

  lemma RequeueUndisturbed(db: Database, t: TaskId, c: CounterId)
    requires Rows(db) && Accounts(db) && HasStatus(db, t, TaskAssigned) && db.tasks[t].counter != c
    ensures Undisturbed(db, RequeueOne(db, t), c)
  {
    BusyIsCounted(db, t);
  }

  lemma CreateUndisturbed(db: Database, o: OrderId, ids: seq<TaskId>, rows: seq<NewTask>, c: CounterId)
    requires |ids| == |rows| && NoDuplicates(ids) && forall t :: t in ids ==> t !in db.tasks
    ensures Undisturbed(db, CreateTx(db, o, ids, rows), c)
  {
    InsertRowsEffect(db.tasks, o, ids, rows);
  }

  // ---------------------------------------------------------------- tables over one step

  ghost predicate Tables(db: Database) {
    Rows(db) && Accounts(db) && WithinCapacity(db)
  }

  lemma CommitTables(r: Race, c: CounterId)
    requires RaceInv(r) && Possible(r, CommitPick(c))
    ensures Tables(Next(r, CommitPick(c)).db)
  {
    var p := r.open[c];
    var db' := AssignTo(r.db, p.task, p.staff, p.now);
    assert Valid(r.db, c, p);
    AssignAccounts(r.db, p.task, p.staff, p.now);
    AssignOneRow(r.db, p.task, p.staff, p.now);
    OneRowRows(r.db, db', p.task);
    CommitCapacity(r.db, c, p);
  }

  lemma CommitCapacity(db: Database, c: CounterId, p: Pick)
    requires WithinCapacity(db) && Valid(db, c, p)
    ensures WithinCapacity(AssignTo(db, p.task, p.staff, p.now))
  {
  }

  /** Usage only falls. */
  ghost predicate Lowered(db: Database, db': Database) {
    CountersLowered(db, db') && MachinesLowered(db, db') && StaffLowered(db, db') && db'.skills == db.skills
  }

  ghost predicate CountersLowered(db: Database, db': Database) {
    db'.counters.Keys == db.counters.Keys && forall c :: c in db.counters ==>
      db'.counters[c].capacity == db.counters[c].capacity && db'.counters[c].inUse <= db.counters[c].inUse
  }

  ghost predicate MachinesLowered(db: Database, db': Database) {
    db'.machines.Keys == db.machines.Keys && forall m :: m in db.machines ==>
      SameMachine(db.machines[m], db'.machines[m]) && db'.machines[m].inUse <= db.machines[m].inUse
  }

  ghost predicate StaffLowered(db: Database, db': Database) {
    db'.staff.Keys == db.staff.Keys && forall s :: s in db.staff ==>
      db'.staff[s].maxParallel == db.staff[s].maxParallel && db'.staff[s].activeTasks <= db.staff[s].activeTasks
  }

  lemma CounterLowered(db: Database, db': Database, c: CounterId)
    requires c in db.counters && db.counters[c].inUse >= 1 && db'.counters == UseCounter(db, c, -1).counters
    ensures CountersLowered(db, db')
  {
  }

  lemma MachineLowered(db: Database, db': Database, m: MachineId)
    requires m in db.machines && db.machines[m].inUse >= 1 && db'.machines == UseMachine(db, m, -1).machines
    ensures MachinesLowered(db, db')
  {
  }

  lemma OneStaffLowered(db: Database, db': Database, s: StaffId)
    requires s in db.staff && db.staff[s].activeTasks >= 1 && db'.staff == UseStaff(db, s, -1).staff
    ensures StaffLowered(db, db')
  {
  }

  lemma ReleaseLowered(db: Database, t: TaskId, now: Time)
    requires Rows(db) && Accounts(db) && HasStatus(db, t, TaskStarted) && HasRunMetadata(db.tasks[t])
    ensures Lowered(db, ReleaseStarted(db, t, now))
  {
    BusyIsCounted(db, t);
  }

  lemma RequeueLowered(db: Database, t: TaskId)
    requires Rows(db) && Accounts(db) && HasStatus(db, t, TaskAssigned)
    ensures Lowered(db, RequeueOne(db, t))
  {
    BusyIsCounted(db, t);
    RequeueCounters(db, t);
    RequeueMachines(db, t);
    RequeueStaff(db, t);
    CounterLowered(db, RequeueOne(db, t), db.tasks[t].counter);
    MachineLowered(db, RequeueOne(db, t), db.tasks[t].onMachine.value);
    OneStaffLowered(db, RequeueOne(db, t), db.tasks[t].staff.value);
  }

  lemma CapacityLowered(db: Database, db': Database)
    requires WithinCapacity(db) && Lowered(db, db') && Accounts(db')
    ensures WithinCapacity(db')
  {
    UsageNonNegative(db');
  }

  lemma CompleteRows(db: Database, t: TaskId, children: seq<TaskId>, now: Time)
    requires Rows(db) && HasStatus(db, t, TaskStarted) && HasRunMetadata(db.tasks[t])
    ensures Rows(CompleteTx(db, t, children, now))
  {
    ReleaseRows(db, t, now);
    CompleteTables(db, t, children, now);
    ReleaseTables(db, t, now);
    SameButPendingRows(ReleaseStarted(db, t, now), CompleteTx(db, t, children, now));
  }

  lemma ReleaseRows(db: Database, t: TaskId, now: Time)
    requires Rows(db) && HasStatus(db, t, TaskStarted) && HasRunMetadata(db.tasks[t])
    ensures Rows(ReleaseStarted(db, t, now))
  {
    ReleaseTables(db, t, now);
    OneRowRows(db, ReleaseStarted(db, t, now), t);
  }

  lemma FinishTables(r: Race, step: RaceStep)
    requires RaceInv(r) && Possible(r, step) && step.Finish?
    ensures Tables(Next(r, step).db) && Lowered(r.db, Next(r, step).db)
  {
    CompleteAccounts(r.db, step.t, step.children, step.now);
    CompleteRows(r.db, step.t, step.children, step.now);
    ReleaseLowered(r.db, step.t, step.now);
    CompleteResources(r.db, step.t, step.children, step.now);
    CapacityLowered(r.db, Next(r, step).db);
  }

  lemma TakeBackTables(r: Race, step: RaceStep)
    requires RaceInv(r) && Possible(r, step) && step.TakeBack?
    ensures Tables(Next(r, step).db) && Lowered(r.db, Next(r, step).db)
  {
    RequeueAccounts(r.db, step.t);
    RequeueRows(r.db, step.t);
    RequeueLowered(r.db, step.t);
    CapacityLowered(r.db, Next(r, step).db);
  }

  lemma RequeueRows(db: Database, t: TaskId)
    requires Rows(db) && HasStatus(db, t, TaskAssigned)
    ensures Rows(RequeueOne(db, t))
  {
    OneRowRows(db, RequeueOne(db, t), t);
  }

  lemma StartRows(db: Database, t: TaskId, now: Time)
    requires Rows(db) && HasStatus(db, t, TaskAssigned)
    ensures Rows(StartTx(db, t, now))
  {
    OneRowRows(db, StartTx(db, t, now), t);
  }

  lemma AddedRows(db: Database, db': Database, o: OrderId)
    requires Rows(db) && OrderAdded(db, db', o)
    ensures Rows(db')
  {
  }

  lemma BeginTables(db: Database, t: TaskId, now: Time)
    requires Tables(db) && HasStatus(db, t, TaskAssigned)
    ensures Tables(StartTx(db, t, now)) && Lowered(db, StartTx(db, t, now))
  {
    StartAccounts(db, t, now);
    StartRows(db, t, now);
  }

  lemma CreateTables(db: Database, o: OrderId, ids: seq<TaskId>, rows: seq<NewTask>)
    requires Tables(db) && o !in db.orders && |ids| == |rows| && NoDuplicates(ids) && RowsOk(db, rows)
    requires forall t :: t in ids ==> t !in db.tasks
    ensures Tables(CreateTx(db, o, ids, rows)) && Lowered(db, CreateTx(db, o, ids, rows))
  {
    CreateAccounts(db, o, ids, rows);
    CreateAddsOrder(db, o, ids, rows);
    AddedRows(db, CreateTx(db, o, ids, rows), o);
  }

  lemma RecountTables(db: Database, o: OrderId)
    requires Tables(db)
    ensures Tables(RecalculateTx(db, o)) && Lowered(db, RecalculateTx(db, o))
  {
    RecountAccounts(db, o);
    SameButPendingRows(db, RecalculateTx(db, o));
  }

  lemma RecountAccounts(db: Database, o: OrderId)
    requires Accounts(db)
    ensures Accounts(RecalculateTx(db, o)) && SameButPending(RecalculateTx(db, o).tasks, db.tasks)
  {
    SameButPendingAccounts(db, RecalculateTx(db, o));
  }

  lemma InsertTables(db: Database, o: OrderId, edges: set<Edge>)
    requires Tables(db) && EdgesWithin(db, o, edges)
    ensures Tables(db.(deps := db.deps + edges)) && Lowered(db, db.(deps := db.deps + edges))
  {
    SameButPendingAccounts(db, db.(deps := db.deps + edges));
  }

  lemma OtherTables(r: Race, step: RaceStep)
    requires Tables(r.db) && Possible(r, step) && (step.Begin? || step.Create? || step.Insert? || step.Recount?)
    ensures Tables(Next(r, step).db) && Lowered(r.db, Next(r, step).db)
  {
    match step
    case Begin(t, now) => BeginTables(r.db, t, now);
    case Create(o, ids, rows) => CreateTables(r.db, o, ids, rows);
    case Insert(o, edges) => InsertTables(r.db, o, edges);
    case Recount(o) => RecountTables(r.db, o);
  }

  // ---------------------------------------------------------------- limits over one step

  lemma LoweredLimits(r: Race, r': Race)
    requires AllLimited(r) && Accounts(r'.db) && Lowered(r.db, r'.db) && r'.open == r.open
    ensures AllLimited(r')
  {
    UsageNonNegative(r'.db);
    forall s | s in r'.db.staff ensures Limited(r', s) {
      SameUsable(r.db, r'.db, s);
    }
  }

  lemma FewerInFlight(r: Race, c: CounterId, s: StaffId)
    requires c in r.open
    ensures InFlight(r.open - {c}, s) == InFlight(r.open, s) - {c}
  {
  }

  lemma ChooseValid(r: Race, step: RaceStep)
    requires AllValid(r) && Possible(r, step) && step.Choose?
    ensures AllValid(Next(r, step))
  {
    var c := r.db.tasks[step.t].counter;
    assert Valid(r.db, c, Next(r, step).open[c]);
  }

  lemma ChooseLimits(r: Race, step: RaceStep)
    requires Accounts(r.db) && AllValid(r) && AllLimited(r) && Possible(r, step) && step.Choose?
    ensures AllLimited(Next(r, step)) && AllValid(Next(r, step))
  {
    var r' := Next(r, step);
    ChooseValid(r, step);
    forall s | s in r'.db.staff ensures Limited(r', s) {
      assert Limited(r, s);
      InFlightUsable(r', s);
      assert s != step.s ==> InFlight(r'.open, s) == InFlight(r.open, s);
    }
  }

  /** Open transactions of one staff member hold different counters, all of them ones they can work at. */
  lemma InFlightUsable(r: Race, s: StaffId)
    requires Accounts(r.db) && AllValid(r)
    ensures InFlight(r.open, s) <= Usable(r.db, s) && |InFlight(r.open, s)| <= |Usable(r.db, s)|
  {
    UsageNonNegative(r.db);
    forall c | c in InFlight(r.open, s) ensures c in Usable(r.db, s) {
      assert Valid(r.db, c, r.open[c]);
      assert r.db.tasks[r.open[c].task].machine.value in UpMachines(r.db, c);
    }
    SubsetSize(InFlight(r.open, s), Usable(r.db, s));
  }

  lemma AssignStaff(db: Database, t: TaskId, s: StaffId, now: Time)
    requires Rows(db) && Accounts(db) && HasStatus(db, t, TaskUnassigned) && s in db.staff
    ensures var db' := AssignTo(db, t, s, now);
      && db'.staff == db.staff[s := db.staff[s].(activeTasks := db.staff[s].activeTasks + 1)]
      && SameRooms(db, db')
  {
    UsageNonNegative(db);
  }

  lemma CommitLimits(r: Race, c: CounterId)
    requires RaceInv(r) && Possible(r, CommitPick(c))
    ensures AllLimited(Next(r, CommitPick(c)))
  {
    var r' := Next(r, CommitPick(c));
    var p := r.open[c];
    assert Valid(r.db, c, p);
    AssignStaff(r.db, p.task, p.staff, p.now);
    forall s | s in r'.db.staff ensures Limited(r', s) {
      assert Limited(r, s);
      CommitLimit(r, r', c, s);
    }
  }

  /** One more active, one less in flight. */
  lemma CommitLimit(r: Race, r': Race, c: CounterId, s: StaffId)
    requires c in r.open && r'.open == r.open - {c} && s in r.db.staff && Limited(r, s)
    requires SameRooms(r.db, r'.db)
    requires s in r'.db.staff && r'.db.staff[s].maxParallel == r.db.staff[s].maxParallel
    requires r'.db.staff[s].activeTasks == r.db.staff[s].activeTasks + if s == r.open[c].staff then 1 else 0
    ensures Limited(r', s)
  {
    SameUsable(r.db, r'.db, s);
    FewerInFlight(r, c, s);
    assert c in InFlight(r.open, s) <==> s == r.open[c].staff;
  }

  lemma AbortLimits(r: Race, c: CounterId)
    requires AllLimited(r) && c in r.open
    ensures AllLimited(r.(open := r.open - {c}))
  {
    var r' := r.(open := r.open - {c});
    forall s | s in r'.db.staff ensures Limited(r', s) {
      FewerInFlight(r, c, s);
      assert Limited(r, s);
      assert |InFlight(r.open, s) - {c}| <= |InFlight(r.open, s)|;
    }
  }

  // ---------------------------------------------------------------- every step, every run

  lemma CommitValid(r: Race, c: CounterId)
    requires RaceInv(r) && Possible(r, CommitPick(c))
    ensures AllValid(Next(r, CommitPick(c)))
  {
    var r' := Next(r, CommitPick(c));
    var p := r.open[c];
    assert Valid(r.db, c, p);
    forall d | d in r'.open ensures Undisturbed(r.db, r'.db, d) {
      AssignUndisturbed(r.db, p.task, p.staff, p.now, d);
    }
    AllValidKept(r, r');
  }

  lemma OtherValid(r: Race, step: RaceStep)
    requires RaceInv(r) && Possible(r, step) && !step.Choose? && !step.CommitPick? && !step.AbortPick?
    ensures AllValid(Next(r, step))
  {
    var r' := Next(r, step);
    forall d | d in r'.open ensures Undisturbed(r.db, r'.db, d) {
      StepUndisturbed(r, step, d);
    }
    AllValidKept(r, r');
  }

  lemma StepUndisturbed(r: Race, step: RaceStep, d: CounterId)
    requires Rows(r.db) && Accounts(r.db) && Possible(r, step) && d in r.open
    requires !step.Choose? && !step.CommitPick? && !step.AbortPick?
    ensures Undisturbed(r.db, Next(r, step).db, d)
  {
    match step
    case Finish(t, children, now) => CompleteUndisturbed(r.db, t, children, now, d);
    case TakeBack(t, _) => RequeueUndisturbed(r.db, t, d);
    case Create(o, ids, rows) => CreateUndisturbed(r.db, o, ids, rows, d);
    case Begin(t, now) => BeginUndisturbed(r.db, t, now, d);
    case Insert(_, _) => CountsUndisturbed(r.db, Next(r, step).db, d);
    case Recount(_) => CountsUndisturbed(r.db, Next(r, step).db, d);
  }

  lemma BeginUndisturbed(db: Database, t: TaskId, now: Time, c: CounterId)
    requires HasStatus(db, t, TaskAssigned)
    ensures Undisturbed(db, StartTx(db, t, now), c)
  {
  }

  lemma CountsUndisturbed(db: Database, db': Database, c: CounterId)
    requires SameButPending(db'.tasks, db.tasks)
    requires db'.counters == db.counters && db'.machines == db.machines && db'.staff == db.staff && db'.skills == db.skills
    ensures Undisturbed(db, db', c)
  {
  }

  lemma RaceStepInv(r: Race, step: RaceStep)
    requires RaceInv(r) && Possible(r, step)
    ensures RaceInv(Next(r, step))
  {
    match step
    case Choose(_, _, _) => ChooseLimits(r, step);
    case CommitPick(c) => CommitTables(r, c); CommitLimits(r, c); CommitValid(r, c);
    case AbortPick(c) => AbortLimits(r, c);
    case Finish(_, _, _) => FinishTables(r, step); LoweredLimits(r, Next(r, step)); OtherValid(r, step);
    case TakeBack(_, _) => TakeBackTables(r, step); LoweredLimits(r, Next(r, step)); OtherValid(r, step);
    case _ => OtherTables(r, step); LoweredLimits(r, Next(r, step)); OtherValid(r, step);
  }

  lemma {:induction false} RaceRunInv(r: Race, steps: seq<RaceStep>, r': Race)
    requires RaceInv(r) && RaceRun(r, steps, r')
    ensures RaceInv(r')
    decreases |steps|
  {
    if steps != [] {
      RaceStepInv(r, steps[0]);
      RaceRunInv(Next(r, steps[0]), steps[1..], r');
    }
  }

  lemma RaceInitInv(r: Race)
    requires RaceInit(r)
    ensures RaceInv(r)
  {
    assert forall c: CounterId :: OnCounter(r.db.tasks, c) == {};
    assert forall m: MachineId :: OnMachine(r.db.tasks, m) == {};
    assert forall s: StaffId :: OfStaff(r.db.tasks, s) == {};
    assert forall s: StaffId :: InFlight(r.open, s) == {};
  }

  lemma RaceReachableInv(r: Race)
    requires RaceReachable(r)
    ensures RaceInv(r)
  {
    var r0, steps :| RaceInit(r0) && RaceRun(r0, steps, r);
    RaceInitInv(r0);
    RaceRunInv(r0, steps, r);
  }

  // ---------------------------------------------------------------- main results

  /** Usage numbers stay exact and capacities are kept under any interleaving: their rows are locked. */
  lemma CapacityUnderInterleaving(r: Race)
    requires RaceReachable(r)
    ensures forall c :: c in r.db.counters ==>
      && r.db.counters[c].inUse == |OnCounter(r.db.tasks, c)|
      && (r.db.counters[c].inUse == 0 || r.db.counters[c].inUse <= r.db.counters[c].capacity)
    ensures forall m :: m in r.db.machines ==>
      && r.db.machines[m].inUse == |OnMachine(r.db.tasks, m)|
      && (r.db.machines[m].inUse == 0 || r.db.machines[m].inUse <= r.db.machines[m].capacity)
    ensures forall s :: s in r.db.staff ==> r.db.staff[s].activeTasks == |OfStaff(r.db.tasks, s)|
  {
    RaceReachableInv(r);
  }

  /** The staff limit can be passed, by at most the number of counters the person can work at less one. */
  lemma OvershootBound(r: Race, s: StaffId)
    requires RaceReachable(r) && s in r.db.staff
    ensures r.db.staff[s].activeTasks == 0 ||
            r.db.staff[s].activeTasks + |InFlight(r.open, s)| <= r.db.staff[s].maxParallel - 1 + |Usable(r.db, s)|
    ensures |Usable(r.db, s)| <= |Skilled(r.db, s)|
    ensures |Skilled(r.db, s)| == 1 ==> r.db.staff[s].activeTasks == 0 || r.db.staff[s].activeTasks <= r.db.staff[s].maxParallel
  {
    RaceReachableInv(r);
    assert Limited(r, s);
    SubsetSize(Usable(r.db, s), Skilled(r.db, s));
  }

  // ---------------------------------------------------------------- the bound is reached

  /** One task short of the limit, with a task waiting at every counter where `s` can work. */
  ghost predicate Poised(r: Race, s: StaffId, now: Time, work: map<CounterId, TaskId>) {
    && s in r.db.staff && r.db.staff[s].activeTasks == r.db.staff[s].maxParallel - 1
    && r.open == map[] && work.Keys == Usable(r.db, s)
    && forall c :: c in work ==> CanAssign(r.db, work[c], s, now) && r.db.tasks[work[c]].counter == c
  }

  ghost predicate RaceLeads(r: Race, r': Race) {
    exists steps :: RaceRun(r, steps, r')
  }

  /** If `best` is asked for, a chosen person has the least score of all who could take the task. */
  ghost predicate Picked(best: bool, r: Race, step: RaceStep) {
    best && step.Choose? ==> BestPick(r.db, step.t, step.s, step.now)
  }

  /** A run in which every choice is as pickStaff makes it, or, without `best`, any eligible one. */
  ghost predicate RunBy(best: bool, r: Race, steps: seq<RaceStep>, r': Race)
    decreases |steps|
  {
    if steps == [] then r == r'
    else Possible(r, steps[0]) && Picked(best, r, steps[0]) && RunBy(best, Next(r, steps[0]), steps[1..], r')
  }

  ghost predicate LeadsBy(best: bool, r: Race, r': Race) {
    exists steps :: RunBy(best, r, steps, r')
  }

  lemma {:induction false} RunByIsRun(best: bool, r: Race, steps: seq<RaceStep>, r': Race)
    requires RunBy(best, r, steps, r')
    ensures RaceRun(r, steps, r')
    decreases |steps|
  {
    if steps != [] {
      RunByIsRun(best, Next(r, steps[0]), steps[1..], r');
    }
  }

  lemma ByLeads(best: bool, r: Race, r': Race)
    requires LeadsBy(best, r, r')
    ensures RaceLeads(r, r')
  {
    var steps :| RunBy(best, r, steps, r');
    RunByIsRun(best, r, steps, r');
  }

  lemma StayBy(best: bool, r: Race)
    ensures LeadsBy(best, r, r)
  {
    assert RunBy(best, r, [], r);
  }

  lemma StepThen(best: bool, r: Race, step: RaceStep, r': Race)
    requires Possible(r, step) && Picked(best, r, step) && LeadsBy(best, Next(r, step), r')
    ensures LeadsBy(best, r, r')
  {
    var steps :| RunBy(best, Next(r, step), steps, r');
    var all := [step] + steps;
    assert all[0] == step && all[1..] == steps;
    assert RunBy(best, r, all, r');
  }

  /** Choices do not see each other: all counters of `todo` can be chosen for, one after the other. */
  lemma {:induction false} ChooseAll(best: bool, r: Race, s: StaffId, now: Time, work: map<CounterId, TaskId>, todo: set<CounterId>, r': Race)
    requires todo <= work.Keys && todo !! r.open.Keys
    requires forall c :: c in work ==> CanAssign(r.db, work[c], s, now) && r.db.tasks[work[c]].counter == c
    requires best ==> forall c :: c in work ==> BestPick(r.db, work[c], s, now)
    requires r'.db == r.db && r'.open == r.open + map c | c in todo :: Pick(work[c], s, now)
    ensures LeadsBy(best, r, r')
    decreases |todo|
  {
    if todo == {} {
      assert r'.open == r.open;
      StayBy(best, r);
    } else {
      var c :| c in todo;
      var step := Choose(work[c], s, now);
      ChooseAll(best, Next(r, step), s, now, work, todo - {c}, r');
      StepThen(best, r, step, r');
    }
  }

  /** And all of them commit. */
  lemma {:induction false} CommitEach(best: bool, r: Race, s: StaffId) returns (r': Race)
    requires RaceReachable(r) && s in r.db.staff
    ensures RaceReachable(r') && LeadsBy(best, r, r') && s in r'.db.staff
    ensures r'.db.staff[s].activeTasks == r.db.staff[s].activeTasks + |InFlight(r.open, s)|
    ensures r'.db.staff[s].maxParallel == r.db.staff[s].maxParallel
    decreases |InFlight(r.open, s)|
  {
    if InFlight(r.open, s) == {} {
      r' := r;
      StayBy(best, r);
    } else {
      var c :| c in InFlight(r.open, s);
      var mid := CommitCounts(best, r, s, c);
      r' := CommitEach(best, mid, s);
      LeadsTransitively(best, r, mid, r');
    }
  }

  lemma LeadsTransitively(best: bool, r: Race, mid: Race, r': Race)
    requires LeadsBy(best, r, mid) && LeadsBy(best, mid, r')
    ensures LeadsBy(best, r, r')
  {
    var steps :| RunBy(best, r, steps, mid);
    var more :| RunBy(best, mid, more, r');
    JoinRunsBy(best, r, steps, mid, more, r');
  }

  lemma {:induction false} JoinRunsBy(best: bool, r0: Race, steps: seq<RaceStep>, r: Race, more: seq<RaceStep>, r': Race)
    requires RunBy(best, r0, steps, r) && RunBy(best, r, more, r')
    ensures RunBy(best, r0, steps + more, r')
    decreases |steps|
  {
    if steps == [] {
      assert steps + more == more;
    } else {
      JoinRunsBy(best, Next(r0, steps[0]), steps[1..], r, more, r');
      assert (steps + more)[1..] == steps[1..] + more;
    }
  }

  lemma CommitCounts(best: bool, r: Race, s: StaffId, c: CounterId) returns (r': Race)
    requires RaceReachable(r) && c in InFlight(r.open, s)
    ensures RaceReachable(r') && LeadsBy(best, r, r') && InFlight(r'.open, s) == InFlight(r.open, s) - {c}
    ensures s in r.db.staff && s in r'.db.staff
    ensures r'.db.staff[s].activeTasks == r.db.staff[s].activeTasks + 1
    ensures r'.db.staff[s].maxParallel == r.db.staff[s].maxParallel
  {
    RaceReachableInv(r);
    assert Valid(r.db, c, r.open[c]);
    r' := Next(r, CommitPick(c));
    AssignStaff(r.db, r.open[c].task, s, r.open[c].now);
    FewerInFlight(r, c, s);
    StayBy(best, r');
    StepThen(best, r, CommitPick(c), r');
    LeadsReachable(best, r, r');
  }

  /**
   * The bound is exact: from any such state the allocators can fill it. If the person is the best
   * pick for each of the waiting tasks, they do so although every choice is one of least score.
   */
  lemma OvershootReached(r: Race, s: StaffId, now: Time, work: map<CounterId, TaskId>) returns (r': Race)
    requires RaceReachable(r) && Poised(r, s, now, work)
    ensures RaceReachable(r') && s in r'.db.staff
    ensures LeadsBy(forall c :: c in work ==> BestPick(r.db, work[c], s, now), r, r')
    ensures r'.db.staff[s].activeTasks == r.db.staff[s].maxParallel - 1 + |Usable(r.db, s)|
    ensures r'.db.staff[s].maxParallel == r.db.staff[s].maxParallel
  {
    var best := forall c :: c in work ==> BestPick(r.db, work[c], s, now);
    var mid := AllChosen(best, r, s, now, work);
    r' := CommitEach(best, mid, s);
    LeadsTransitively(best, r, mid, r');
  }

  lemma AllChosen(best: bool, r: Race, s: StaffId, now: Time, work: map<CounterId, TaskId>) returns (mid: Race)
    requires RaceReachable(r) && r.open == map[]
    requires forall c :: c in work ==> CanAssign(r.db, work[c], s, now) && r.db.tasks[work[c]].counter == c
    requires best ==> forall c :: c in work ==> BestPick(r.db, work[c], s, now)
    ensures RaceReachable(mid) && LeadsBy(best, r, mid) && mid.db == r.db && InFlight(mid.open, s) == work.Keys
  {
    mid := Race(r.db, map c | c in work :: Pick(work[c], s, now));
    assert mid.open == r.open + map c | c in work.Keys :: Pick(work[c], s, now);
    ChooseAll(best, r, s, now, work, work.Keys, mid);
    LeadsReachable(best, r, mid);
  }

  lemma LeadsReachable(best: bool, r: Race, r': Race)
    requires RaceReachable(r) && LeadsBy(best, r, r')
    ensures RaceReachable(r')
  {
    var r0, steps :| RaceInit(r0) && RaceRun(r0, steps, r);
    ByLeads(best, r, r');
    var more :| RaceRun(r, more, r');
    JoinRuns(r0, steps, r, more, r');
  }

  lemma {:induction false} JoinRuns(r0: Race, steps: seq<RaceStep>, r: Race, more: seq<RaceStep>, r': Race)
    requires RaceRun(r0, steps, r) && RaceRun(r, more, r')
    ensures RaceRun(r0, steps + more, r')
    decreases |steps|
  {
    if steps == [] {
      assert steps + more == more;
    } else {
      JoinRuns(Next(r0, steps[0]), steps[1..], r, more, r');
      assert (steps + more)[1..] == steps[1..] + more;
    }
  }

  // ---------------------------------------------------------------- a kitchen where it happens

  /** Two counters with one machine each, and one person skilled in both who may do one task at a time. */
  function SmallKitchen(): Database {
    Database(
      map[], {}, map[1 := Counter(1, 0), 2 := Counter(1, 0)],
      map[1 := Machine(1, 1, 0, true), 2 := Machine(2, 1, 0, true)],
      map[1 := Staff(0, 100, 1, 1.0, 0, 0, false)], {(1, 1), (1, 2)}, map[], [])
  }

  function SmallOrder(): seq<NewTask> {
    [NewTask(1, Some(1), 1, 0.0, 0), NewTask(2, Some(2), 1, 0.0, 0)]
  }

  /** Two allocators give the one person two tasks at once, each by the least score. */
  lemma LimitPassed() returns (r0: Race, r: Race)
    ensures RaceInit(r0) && LeadsBy(true, r0, r) && RaceReachable(r) && 1 in r.db.staff
    ensures r.db.staff[1].maxParallel == 1 && r.db.staff[1].activeTasks == 2
  {
    r0 := Race(SmallKitchen(), map[]);
    var r1 := SmallReachable();
    OnlyOne();
    r := TwoAtOnce(r1, map[1 := 1, 2 := 2]);
    LeadsTransitively(true, r0, r1, r);
  }

  lemma TwoAtOnce(r: Race, work: map<CounterId, TaskId>) returns (r': Race)
    requires RaceReachable(r) && Poised(r, 1, 50, work) && |work.Keys| == 2 && r.db.staff[1].maxParallel == 1
    requires forall c :: c in work ==> BestPick(r.db, work[c], 1, 50)
    ensures LeadsBy(true, r, r') && RaceReachable(r') && 1 in r'.db.staff
    ensures r'.db.staff[1].maxParallel == 1 && r'.db.staff[1].activeTasks == 2
  {
    r' := OvershootReached(r, 1, 50, work);
  }

  /** Two counters, and nobody else to be picked. */
  lemma OnlyOne()
    ensures |map[1 := 1, 2 := 2].Keys| == 2 && SmallStart().staff[1].maxParallel == 1
    ensures BestPick(SmallStart(), 1, 1, 50) && BestPick(SmallStart(), 2, 1, 50)
  {
    SmallTasks();
    assert map[1 := 1, 2 := 2].Keys == {1, 2};
    assert SmallStart().staff.Keys == {1};
    AloneIsBest(SmallStart(), 1, 1, 50);
    AloneIsBest(SmallStart(), 2, 1, 50);
  }

  lemma AloneIsBest(db: Database, t: TaskId, s: StaffId, now: Time)
    requires CanAssign(db, t, s, now) && db.staff.Keys == {s}
    ensures BestPick(db, t, s, now)
  {
  }

  function SmallStart(): Database {
    CreateTx(SmallKitchen(), 1, [1, 2], SmallOrder())
  }

  lemma SmallTasks()
    ensures SmallStart().tasks == map[1 := NewRow(1, SmallOrder()[0]), 2 := NewRow(1, SmallOrder()[1])]
    ensures CanAssign(SmallStart(), 1, 1, 50) && CanAssign(SmallStart(), 2, 1, 50)
    ensures Usable(SmallStart(), 1) == {1, 2}
  {
    InsertRowsEffect(map[], 1, [1, 2], SmallOrder());
    assert [1, 2][0] == 1 && [1, 2][1] == 2;
    assert CanAssign(SmallStart(), 1, 1, 50) && CanAssign(SmallStart(), 2, 1, 50);
    assert 1 in UpMachines(SmallStart(), 1) && 2 in UpMachines(SmallStart(), 2);
  }

  lemma SmallAccepted()
    ensures RaceInit(Race(SmallKitchen(), map[]))
    ensures Possible(Race(SmallKitchen(), map[]), Create(1, [1, 2], SmallOrder()))
  {
    assert RowsOk(SmallKitchen(), SmallOrder());
  }

  lemma SmallReachable() returns (r: Race)
    ensures RaceReachable(r) && Poised(r, 1, 50, map[1 := 1, 2 := 2]) && r.db == SmallStart()
    ensures RaceInit(Race(SmallKitchen(), map[])) && LeadsBy(true, Race(SmallKitchen(), map[]), r)
  {
    var r0 := Race(SmallKitchen(), map[]);
    SmallAccepted();
    r := Next(r0, Create(1, [1, 2], SmallOrder()));
    StayBy(true, r);
    StepThen(true, r0, Create(1, [1, 2], SmallOrder()), r);
    assert RaceRun(r0, [], r0);
    LeadsReachable(true, r0, r);
    SmallTasks();
    SmallPoised(r);
  }

  lemma SmallPoised(r: Race)
    requires r == Race(SmallStart(), map[])
    ensures Poised(r, 1, 50, map[1 := 1, 2 := 2])
  {
    SmallTasks();
    var work: map<CounterId, TaskId> := map[1 := 1, 2 := 2];
    assert work.Keys == {1, 2};
  }
}
