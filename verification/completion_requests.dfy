/**
 * Completions are requested at least once: a timer fires again, a message is delivered again.
 * A request that comes when the task is not started changes nothing, so repeats are harmless.
 */
module CompletionRequests {
  import opened Wrappers
  import opened Model
  import opened StaffMetrics
  import opened Transactions
  import opened KitchenMachine
  import opened DependencyGate
  import opened ReadyFlow
  import opened KitchenTheorems

  /** An attempt that is not possible fails and changes nothing. */
  ghost function Perform(k: State, step: Step): State {
    if Enabled(k, step) then Apply(k, step) else k
  }

  ghost function PerformAll(k: State, steps: seq<Step>): State
    decreases |steps|
  {
    if steps == [] then k else PerformAll(Perform(k, steps[0]), steps[1..])
  }

  lemma PerformInv(k: State, step: Step)
    requires Inv(k)
    ensures Inv(Perform(k, step))
  {
    if Enabled(k, step) {
      StepInv(k, step);
    }
  }

  predicate CompletionStep(step: Step) {
    step.BeginComplete? || step.EnqueueChild? || step.CommitComplete? || step.RollbackComplete?
  }

  // ---------------------------------------------------------------- repeats

  /** A part of a completion request for a task that is not started. */
  predicate Redundant(k: State, step: Step) {
    CompletionStep(step) && !HasStatus(k.db, step.t, TaskStarted)
  }

  /** The steps without the redundant requests. */
  ghost function WithoutRepeats(k: State, steps: seq<Step>): (r: seq<Step>)
    decreases |steps|
  {
    if steps == [] then []
    else
      (if Redundant(k, steps[0]) then [] else [steps[0]]) + WithoutRepeats(Perform(k, steps[0]), steps[1..])
  }

  lemma RedundantDoesNothing(k: State, step: Step)
    requires CompletionsOk(k) && Redundant(k, step)
    ensures Perform(k, step) == k
  {
    assert step.t in k.completions ==> CompletionOk(k, step.t, k.completions[step.t]);
  }

  lemma PerformCons(k: State, step: Step, steps: seq<Step>)
    ensures PerformAll(k, [step] + steps) == PerformAll(Perform(k, step), steps)
  {
    assert ([step] + steps)[1..] == steps;
  }

  /** Tables, metrics, log and queue end the same with all requests as with the effective ones only. */
  lemma {:induction false} RepeatsAreHarmless(k: State, steps: seq<Step>)
    requires Inv(k)
    ensures PerformAll(k, WithoutRepeats(k, steps)) == PerformAll(k, steps)
    decreases |steps|
  {
    if steps != [] {
      PerformInv(k, steps[0]);
      var rest := WithoutRepeats(Perform(k, steps[0]), steps[1..]);
      RepeatsAreHarmless(Perform(k, steps[0]), steps[1..]);
      if Redundant(k, steps[0]) {
        RedundantDoesNothing(k, steps[0]);
        assert WithoutRepeats(k, steps) == rest;
      } else {
        assert WithoutRepeats(k, steps) == [steps[0]] + rest;
        PerformCons(k, steps[0], rest);
      }
    }
  }

  // ---------------------------------------------------------------- once is enough

  /** A step that neither creates tasks nor commits a completion. */
  predicate Ordinary(step: Step) {
    !step.CreateOrder? && !step.CommitComplete?
  }

  lemma OrdinaryStatus(k: State, step: Step, t: TaskId)
    requires Enabled(k, step) && Ordinary(step)
    ensures HasStatus(Apply(k, step).db, t, TaskCompleted) <==> HasStatus(k.db, t, TaskCompleted)
  {
    if Quiet(step) {
      QuietKeepsTables(k, step);
    } else {
      TableStatus(k, step, t);
    }
  }

  lemma TableStatus(k: State, step: Step, t: TaskId)
    requires Enabled(k, step) && Ordinary(step) && !Quiet(step)
    ensures HasStatus(Apply(k, step).db, t, TaskCompleted) <==> HasStatus(k.db, t, TaskCompleted)
  {
    match step
    case Assign(u, s, now) => AssignStatus(k.db, u, s, now);
    case RequeueExpired(u, _) => RequeueStatus(k.db, u);
    case _ =>
  }

  lemma AssignStatus(db: Database, t: TaskId, s: StaffId, now: Time)
    requires t in db.tasks && db.tasks[t].machine.Some?
    ensures AssignTo(db, t, s, now).tasks == db.tasks[t := AssignRow(db.tasks[t], s, db.tasks[t].machine.value, now)]
  {
  }

  lemma RequeueStatus(db: Database, t: TaskId)
    requires t in db.tasks
    ensures RequeueOne(db, t).tasks == db.tasks[t := ResetRow(db.tasks[t])]
  {
  }

  lemma CreateStatus(k: State, step: Step, t: TaskId)
    requires Gate(k) && Enabled(k, step) && step.CreateOrder?
    ensures HasStatus(Apply(k, step).db, t, TaskCompleted) <==> HasStatus(k.db, t, TaskCompleted)
  {
    CreateAddsOrder(k.db, step.o, step.ids, step.rows);
  }

  lemma CommitStatus(k: State, u: TaskId, now: Time, t: TaskId)
    requires Gate(k) && CompletionsOk(k) && Enabled(k, CommitComplete(u, now)) && t in k.db.tasks
    ensures HasStatus(k.db, u, TaskStarted)
    ensures var db' := Apply(k, CommitComplete(u, now)).db;
      t in db'.tasks && db'.tasks[t].status == if t == u then TaskCompleted else k.db.tasks[t].status
  {
    assert CompletionOk(k, u, k.completions[u]);
    CompleteFinishes(k, u, k.completions[u].children, now);
  }

  /** How many of the attempts commit a completion of `t`. */
  ghost function EffectiveCommits(k: State, steps: seq<Step>, t: TaskId): nat
    decreases |steps|
  {
    if steps == [] then 0
    else
      (if steps[0].CommitComplete? && steps[0].t == t && Enabled(k, steps[0]) then 1 else 0)
      + EffectiveCommits(Perform(k, steps[0]), steps[1..], t)
  }

  lemma CommitKeys(k: State, u: TaskId, now: Time, t: TaskId)
    requires Gate(k) && CompletionsOk(k) && Enabled(k, CommitComplete(u, now))
    requires t in Apply(k, CommitComplete(u, now)).db.tasks
    ensures t in k.db.tasks
  {
    ReleaseTables(k.db, u, now);
    CompleteTables(k.db, u, k.completions[u].children, now);
  }

  /** However often it is requested, a task completes once, and then stays completed. */
  lemma {:induction false} CompletesOnce(k: State, steps: seq<Step>, t: TaskId)
    requires Inv(k)
    ensures EffectiveCommits(k, steps, t) ==
      if HasStatus(PerformAll(k, steps).db, t, TaskCompleted) && !HasStatus(k.db, t, TaskCompleted) then 1 else 0
    ensures HasStatus(k.db, t, TaskCompleted) ==> HasStatus(PerformAll(k, steps).db, t, TaskCompleted)
    decreases |steps|
  {
    if steps != [] {
      PerformInv(k, steps[0]);
      CompletesOnce(Perform(k, steps[0]), steps[1..], t);
      CompletesOnceStep(k, steps[0], t);
    }
  }

  lemma CommitOnce(k: State, step: Step, t: TaskId)
    requires Inv(k) && Enabled(k, step) && step.CommitComplete?
    ensures step.t == t ==> !HasStatus(k.db, t, TaskCompleted) && HasStatus(Apply(k, step).db, t, TaskCompleted)
    ensures step.t != t ==> (HasStatus(Apply(k, step).db, t, TaskCompleted) <==> HasStatus(k.db, t, TaskCompleted))
  {
    if t in Apply(k, step).db.tasks {
      CommitKeys(k, step.t, step.now, t);
    }
    if t in k.db.tasks {
      CommitStatus(k, step.t, step.now, t);
    }
    if t == step.t {
      CommitStatus(k, step.t, step.now, t);
    }
  }

  lemma CompletesOnceStep(k: State, step: Step, t: TaskId)
    requires Inv(k)
    ensures step.CommitComplete? && step.t == t && Enabled(k, step) <==>
      !HasStatus(k.db, t, TaskCompleted) && HasStatus(Perform(k, step).db, t, TaskCompleted)
    ensures HasStatus(k.db, t, TaskCompleted) ==> HasStatus(Perform(k, step).db, t, TaskCompleted)
  {
    if Enabled(k, step) {
      match step
      case CreateOrder(_, _, _, _) => CreateStatus(k, step, t);
      case CommitComplete(_, _) => CommitOnce(k, step, t);
      case _ => OrdinaryStatus(k, step, t);
    }
  }

  // ---------------------------------------------------------------- staff metrics over a run

  /** What a step adds to the record of `s`: the sample of the task it completes. */
  ghost function StepSample(k: State, step: Step, s: StaffId): seq<Sample> {
    if Enabled(k, step) && step.CommitComplete? && k.db.tasks[step.t].staff == Some(s) then
      [Sample(k.db.tasks[step.t].estimateSecs, step.now - k.db.tasks[step.t].startedAt.value)]
    else []
  }

  /** The samples of the committed completions of `s`, oldest first. */
  ghost function Samples(k: State, steps: seq<Step>, s: StaffId): seq<Sample>
    decreases |steps|
  {
    if steps == [] then [] else StepSample(k, steps[0], s) + Samples(Perform(k, steps[0]), steps[1..], s)
  }

  /** Efficiency and active seconds are those of `st` after the samples. */
  predicate Credited(st: Staff, xs: seq<Sample>, st': Staff) {
    st'.efficiency == CreditAll(st, xs).efficiency && st'.activeSeconds == CreditAll(st, xs).activeSeconds
  }

  lemma {:induction false} CreditJoin(st: Staff, xs: seq<Sample>, mid: Staff, ys: seq<Sample>, st': Staff)
    requires Credited(st, xs, mid) && Credited(mid, ys, st')
    ensures Credited(st, xs + ys, st')
    decreases |ys|
  {
    if ys == [] {
      assert xs + ys == xs;
    } else {
      var n := |ys| - 1;
      CreditJoin(st, xs, mid, ys[..n], CreditAll(mid, ys[..n]));
      assert (xs + ys)[..|xs + ys| - 1] == xs + ys[..n];
    }
  }

  lemma StepCredits(k: State, step: Step, s: StaffId)
    requires Enabled(k, step) && s in k.db.staff
    ensures s in Apply(k, step).db.staff && Credited(k.db.staff[s], StepSample(k, step, s), Apply(k, step).db.staff[s])
  {
    if step.CommitComplete? {
      CommitCredits(k.db, step.t, k.completions[step.t].children, step.now, s);
      var xs := StepSample(k, step, s);
      assert xs != [] ==> xs[..|xs| - 1] == [];
    } else {
      OtherCredits(k, step, s);
    }
  }

  lemma OtherCredits(k: State, step: Step, s: StaffId)
    requires Enabled(k, step) && s in k.db.staff && !step.CommitComplete?
    ensures s in Apply(k, step).db.staff && Credited(k.db.staff[s], [], Apply(k, step).db.staff[s])
  {
    match step
    case Assign(u, v, now) => AssignCredits(k.db, u, v, now, s);
    case RequeueExpired(u, _) => RequeueCredits(k.db, u, s);
    case _ =>
  }

  predicate SameMetrics(st: Staff, st': Staff) {
    st'.efficiency == st.efficiency && st'.activeSeconds == st.activeSeconds
  }

  lemma AssignCredits(db: Database, t: TaskId, v: StaffId, now: Time, s: StaffId)
    requires t in db.tasks && db.tasks[t].machine.Some? && s in db.staff
    ensures s in AssignTo(db, t, v, now).staff && SameMetrics(db.staff[s], AssignTo(db, t, v, now).staff[s])
  {
  }

  lemma RequeueCredits(db: Database, t: TaskId, s: StaffId)
    requires t in db.tasks && s in db.staff
    ensures s in RequeueOne(db, t).staff && SameMetrics(db.staff[s], RequeueOne(db, t).staff[s])
  {
  }

  lemma CommitCredits(db: Database, t: TaskId, children: seq<TaskId>, now: Time, s: StaffId)
    requires t in db.tasks && HasRunMetadata(db.tasks[t]) && s in db.staff
    ensures var db' := CompleteTx(db, t, children, now);
      s in db'.staff
      && (db.tasks[t].staff == Some(s) ==>
           var x := Sample(db.tasks[t].estimateSecs, now - db.tasks[t].startedAt.value);
           db'.staff[s].efficiency == Credit(db.staff[s], x).efficiency
           && db'.staff[s].activeSeconds == Credit(db.staff[s], x).activeSeconds)
      && (db.tasks[t].staff != Some(s) ==> db'.staff[s] == db.staff[s])
  {
  }

  lemma {:induction false} RunCredits(k: State, steps: seq<Step>, s: StaffId)
    requires s in k.db.staff
    ensures s in PerformAll(k, steps).db.staff
    ensures Credited(k.db.staff[s], Samples(k, steps, s), PerformAll(k, steps).db.staff[s])
    decreases |steps|
  {
    if steps != [] {
      var k1 := Perform(k, steps[0]);
      if Enabled(k, steps[0]) {
        StepCredits(k, steps[0], s);
      }
      RunCredits(k1, steps[1..], s);
      CreditJoin(k.db.staff[s], StepSample(k, steps[0], s), k1.db.staff[s],
                 Samples(k1, steps[1..], s), PerformAll(k1, steps[1..]).db.staff[s]);
    }
  }

  /**
   * After any attempts, in any order, a staff member's efficiency is the weighted average of the
   * value at the start and the samples of the completions in between, and the active seconds
   * grew by the clamped durations.
   */
  lemma MetricsOverRuns(k: State, steps: seq<Step>, s: StaffId)
    requires s in k.db.staff
    ensures s in PerformAll(k, steps).db.staff
    ensures Averaged(k.db.staff[s], Samples(k, steps, s), PerformAll(k, steps).db.staff[s])
  {
    RunCredits(k, steps, s);
    CreditedAveraged(k.db.staff[s], Samples(k, steps, s), PerformAll(k, steps).db.staff[s]);
  }

  predicate Averaged(st: Staff, xs: seq<Sample>, st': Staff) {
    && st'.efficiency == Decay(|xs|) * st.efficiency + Weighted(xs, |xs|, |xs|)
    && st'.activeSeconds == st.activeSeconds + TotalSeconds(xs)
  }

  lemma CreditedAveraged(st: Staff, xs: seq<Sample>, st': Staff)
    requires Credited(st, xs, st')
    ensures Averaged(st, xs, st')
  {
    EfficiencyClosedForm(st, xs);
  }

  /** So it never leaves the range of the value at the start and the samples. */
  lemma EfficiencyInRange(k: State, steps: seq<Step>, s: StaffId, lo: real, hi: real)
    requires s in k.db.staff && lo <= k.db.staff[s].efficiency <= hi
    requires forall x :: x in Samples(k, steps, s) ==> lo <= Performance(x) <= hi
    ensures s in PerformAll(k, steps).db.staff && lo <= PerformAll(k, steps).db.staff[s].efficiency <= hi
  {
    RunCredits(k, steps, s);
    EfficiencyBounded(k.db.staff[s], Samples(k, steps, s), lo, hi);
  }

  /** Repeated requests add no samples. */
  lemma {:induction false} RepeatsAddNoSamples(k: State, steps: seq<Step>, s: StaffId)
    requires Inv(k)
    ensures Samples(k, WithoutRepeats(k, steps), s) == Samples(k, steps, s)
    decreases |steps|
  {
    if steps != [] {
      PerformInv(k, steps[0]);
      var k1 := Perform(k, steps[0]);
      var rest := WithoutRepeats(k1, steps[1..]);
      RepeatsAddNoSamples(k1, steps[1..], s);
      if Redundant(k, steps[0]) {
        RedundantDoesNothing(k, steps[0]);
        RedundantSample(k, steps[0], s);
        assert WithoutRepeats(k, steps) == rest;
      } else {
        assert WithoutRepeats(k, steps) == [steps[0]] + rest;
        assert ([steps[0]] + rest)[1..] == rest;
      }
    }
  }

  lemma RedundantSample(k: State, step: Step, s: StaffId)
    requires CompletionsOk(k) && Redundant(k, step)
    ensures StepSample(k, step, s) == []
  {
    assert step.t in k.completions ==> CompletionOk(k, step.t, k.completions[step.t]);
  }
}
