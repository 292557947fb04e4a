/** Staff scoring, the choice among eligible staff, and the metrics that completions feed. */
module StaffMetrics {
  import opened Model

  const SECOND: int := 1_000_000_000
  const WEIGHT_LOAD: real := 1.2
  const WEIGHT_UTIL: real := 0.9
  const WEIGHT_EFF: real := 1.1

  /** int(d.Seconds()), at least 1: shift time and task time are both read this way. */
  function ClampedSeconds(d: Time): (s: int)
    ensures s >= 1
  {
    if d < SECOND then 1 else d / SECOND
  }

  // ---------------------------------------------------------------- picking

  /** A staff row as the eligibility query returns it. */
  datatype Candidate = Candidate(id: StaffId, row: Staff)

  function StaffScore(st: Staff, now: Time): real {
    var util := st.activeSeconds as real / ClampedSeconds(now - st.shiftStart) as real;
    WEIGHT_LOAD * st.activeTasks as real + WEIGHT_UTIL * util - WEIGHT_EFF * st.efficiency
  }

  /**
   * What the score prefers, in the numbers of the rows: a task more weighs 1.2, a shift worked
   * through without a pause 0.9, and a point of efficiency makes up for 1.1.
   */
  lemma ScoreCompares(a: Staff, b: Staff, now: Time)
    ensures var sa := if now - a.shiftStart < 1_000_000_000 then 1 else (now - a.shiftStart) / 1_000_000_000;
      var sb := if now - b.shiftStart < 1_000_000_000 then 1 else (now - b.shiftStart) / 1_000_000_000;
      StaffScore(a, now) < StaffScore(b, now) <==>
        1.2 * (a.activeTasks - b.activeTasks) as real
        + 0.9 * (a.activeSeconds as real / sa as real - b.activeSeconds as real / sb as real)
        < 1.1 * (a.efficiency - b.efficiency)
  {
    assert 1.2 * (a.activeTasks - b.activeTasks) as real == 1.2 * a.activeTasks as real - 1.2 * b.activeTasks as real;
  }

  /** Of two people on the same shift, nobody scores higher for less load, less use or more efficiency. */
  lemma BetterScoresLess(a: Staff, b: Staff, now: Time)
    requires a.shiftStart == b.shiftStart
    requires a.activeTasks <= b.activeTasks && a.activeSeconds <= b.activeSeconds && a.efficiency >= b.efficiency
    ensures StaffScore(a, now) <= StaffScore(b, now)
    ensures a.activeTasks < b.activeTasks || a.activeSeconds < b.activeSeconds || a.efficiency > b.efficiency ==>
      StaffScore(a, now) < StaffScore(b, now)
  {
    var secs := if now - a.shiftStart < 1_000_000_000 then 1 else (now - a.shiftStart) / 1_000_000_000;
    ScoreCompares(a, b, now);
    ScoreCompares(b, a, now);
    ShareGrows(a.activeSeconds, b.activeSeconds, secs);
  }

  lemma ShareGrows(a: int, b: int, secs: int)
    requires a <= b && secs >= 1
    ensures a as real / secs as real <= b as real / secs as real
    ensures a < b ==> a as real / secs as real < b as real / secs as real
  {
    var k, x, y := secs as real, a as real / secs as real, b as real / secs as real;
    assert x * k == a as real && y * k == b as real;
    assert x >= y ==> x * k >= y * k;
  }

  /** The i-th candidate has the least score, and every earlier one a greater score. */
  ghost predicate LeastAt(staff: seq<Candidate>, i: nat, now: Time)
    requires i < |staff|
  {
    && (forall j :: 0 <= j < |staff| ==> StaffScore(staff[i].row, now) <= StaffScore(staff[j].row, now))
    && (forall j :: 0 <= j < i ==> StaffScore(staff[i].row, now) < StaffScore(staff[j].row, now))
  }

  /** The earliest of the candidates with the least score. */
  method PickStaff(staff: seq<Candidate>, now: Time) returns (best: Candidate)
    requires staff != []
    ensures exists i :: 0 <= i < |staff| && best == staff[i] && LeastAt(staff, i, now)
    ensures forall x :: x in staff && x.row.shiftStart == best.row.shiftStart && x.row.activeTasks <= best.row.activeTasks
                        && x.row.activeSeconds <= best.row.activeSeconds && x.row.efficiency >= best.row.efficiency ==>
      && x.row.activeTasks == best.row.activeTasks
      && x.row.activeSeconds == best.row.activeSeconds && x.row.efficiency == best.row.efficiency
  {
    best := staff[0];
    var bestScore := StaffScore(best.row, now);
    ghost var at := 0;
    for i := 1 to |staff|
      invariant 0 <= at < i && best == staff[at] && bestScore == StaffScore(best.row, now)
      invariant forall j :: 0 <= j < i ==> bestScore <= StaffScore(staff[j].row, now)
      invariant forall j :: 0 <= j < at ==> bestScore < StaffScore(staff[j].row, now)
    {
      var score := StaffScore(staff[i].row, now);
      if score < bestScore {
        best := staff[i];
        bestScore := score;
        at := i;
      }
    }
    assert LeastAt(staff, at, now);
    LeastIsUnbeaten(staff, at, now);
  }

  /** Nobody on the same shift has as little load, as little use and as much efficiency, unless all three are equal. */
  lemma LeastIsUnbeaten(staff: seq<Candidate>, i: nat, now: Time)
    requires i < |staff| && LeastAt(staff, i, now)
    ensures forall x :: x in staff && x.row.shiftStart == staff[i].row.shiftStart && x.row.activeTasks <= staff[i].row.activeTasks
                        && x.row.activeSeconds <= staff[i].row.activeSeconds && x.row.efficiency >= staff[i].row.efficiency ==>
      && x.row.activeTasks == staff[i].row.activeTasks
      && x.row.activeSeconds == staff[i].row.activeSeconds && x.row.efficiency == staff[i].row.efficiency
  {
    forall x | x in staff && x.row.shiftStart == staff[i].row.shiftStart && x.row.activeTasks <= staff[i].row.activeTasks
               && x.row.activeSeconds <= staff[i].row.activeSeconds && x.row.efficiency >= staff[i].row.efficiency
      ensures x.row.activeTasks == staff[i].row.activeTasks
      ensures x.row.activeSeconds == staff[i].row.activeSeconds && x.row.efficiency == staff[i].row.efficiency
    {
      BetterScoresLess(x.row, staff[i].row, now);
    }
  }

  // ---------------------------------------------------------------- crediting

  /** What one completion contributes: the estimate and the time the task really took. */
  datatype Sample = Sample(estimateSecs: int, duration: Time)

  function Performance(x: Sample): real {
    x.estimateSecs as real / ClampedSeconds(x.duration) as real
  }

  function Credit(st: Staff, x: Sample): Staff {
    st.(activeSeconds := st.activeSeconds + ClampedSeconds(x.duration),
        efficiency := st.efficiency * 0.85 + Performance(x) * 0.15)
  }

  /**
   * A task that took n whole seconds, at least one, adds n to active_seconds; the efficiency keeps
   * 0.85 of itself and takes 0.15 of estimate / n.
   */
  predicate Measured(row: Staff, row': Staff, took: Time, estimateSecs: int) {
    var n := if took < 1_000_000_000 then 1 else took / 1_000_000_000;
    && row'.activeSeconds == row.activeSeconds + n
    && (row'.efficiency - 0.85 * row.efficiency) * n as real == 0.15 * estimateSecs as real
  }

  lemma CreditMeasures(st: Staff, x: Sample)
    ensures Measured(st, Credit(st, x), x.duration, x.estimateSecs)
    ensures Performance(x) * (if x.duration < 1_000_000_000 then 1 else x.duration / 1_000_000_000) as real == x.estimateSecs as real
  {
    var n := (if x.duration < 1_000_000_000 then 1 else x.duration / 1_000_000_000) as real;
    var p := Performance(x);
    assert p * n == x.estimateSecs as real;
    assert (st.efficiency * 0.85 + p * 0.15 - 0.85 * st.efficiency) * n == 0.15 * (p * n);
  }

  /** The same with the number of seconds given. */
  lemma CreditNumbers(st: Staff, x: Sample, n: int)
    requires n >= 1 && x.duration < (n + 1) * 1_000_000_000 && (n == 1 || n * 1_000_000_000 <= x.duration)
    ensures Credit(st, x).activeSeconds == st.activeSeconds + n
    ensures (Credit(st, x).efficiency - 0.85 * st.efficiency) * n as real == 0.15 * x.estimateSecs as real
    ensures Credit(st, x).activeTasks == st.activeTasks && Credit(st, x).maxParallel == st.maxParallel
  {
    CreditMeasures(st, x);
  }

  /** A faster completion of the same task never leaves a lower efficiency, and a higher one if it saves a whole second. */
  lemma FasterIsNoWorse(st: Staff, x: Sample, y: Sample)
    requires x.estimateSecs == y.estimateSecs >= 0 && x.duration <= y.duration
    ensures Credit(st, x).efficiency >= Credit(st, y).efficiency
    ensures x.estimateSecs > 0 && y.duration - x.duration >= 1_000_000_000 && y.duration >= 2_000_000_000 ==>
      Credit(st, x).efficiency > Credit(st, y).efficiency
  {
    var n, m := ClampedSeconds(x.duration), ClampedSeconds(y.duration);
    assert n <= m;
    MoreSecondsLess(x.estimateSecs, n, m);
  }

  lemma MoreSecondsLess(e: int, n: int, m: int)
    requires e >= 0 && 1 <= n <= m
    ensures e as real / n as real >= e as real / m as real
    ensures e > 0 && n < m ==> e as real / n as real > e as real / m as real
  {
    var p, q := e as real / n as real, e as real / m as real;
    assert p * n as real == q * m as real;
    assert q >= 0.0;
    assert q * m as real >= q * n as real;
    assert p < q ==> p * n as real < q * n as real;
    assert e > 0 && n < m ==> q * m as real > q * n as real;
    assert p <= q ==> p * n as real <= q * n as real;
  }

  /** The effect of a list of completions, oldest first. */
  function CreditAll(st: Staff, xs: seq<Sample>): Staff {
    if xs == [] then st else Credit(CreditAll(st, xs[..|xs| - 1]), xs[|xs| - 1])
  }

  /** 0.85 to the power n. */
  function Decay(n: nat): real {
    if n == 0 then 1.0 else Decay(n - 1) * 0.85
  }

  /** Sum of the first k samples, the i-th weighted by 0.15 * 0.85^(n-1-i). */
  function Weighted(xs: seq<Sample>, n: nat, k: nat): real
    requires k <= n && k <= |xs|
  {
    if k == 0 then 0.0 else Weighted(xs, n, k - 1) + 0.15 * Decay(n - k) * Performance(xs[k - 1])
  }

  /** The weights of n samples. */
  function Weights(n: nat, k: nat): real
    requires k <= n
  {
    if k == 0 then 0.0 else Weights(n, k - 1) + 0.15 * Decay(n - k)
  }

  function TotalSeconds(xs: seq<Sample>): int {
    if xs == [] then 0 else TotalSeconds(xs[..|xs| - 1]) + ClampedSeconds(xs[|xs| - 1].duration)
  }

  lemma {:induction false} WeightedDecays(xs: seq<Sample>, ys: seq<Sample>, n: nat, k: nat)
    requires k <= n && k <= |xs| <= |ys| && ys[..|xs|] == xs
    ensures Weighted(ys, n + 1, k) == 0.85 * Weighted(xs, n, k)
  {
    if k > 0 {
      WeightedDecays(xs, ys, n, k - 1);
      assert ys[k - 1] == ys[..|xs|][k - 1];
      assert Decay(n + 1 - k) == Decay(n - k) * 0.85;
      var d, p := Decay(n - k), Performance(xs[k - 1]);
      assert 0.15 * (d * 0.85) * p == 0.85 * (0.15 * d * p);
    }
  }

  /** Closed form: the initial value and every sample enter with exponentially decaying weights. */
  lemma {:induction false} EfficiencyClosedForm(st: Staff, xs: seq<Sample>)
    ensures CreditAll(st, xs).efficiency == Decay(|xs|) * st.efficiency + Weighted(xs, |xs|, |xs|)
    ensures CreditAll(st, xs).activeSeconds == st.activeSeconds + TotalSeconds(xs)
  {
    if xs != [] {
      var n := |xs| - 1;
      EfficiencyClosedForm(st, xs[..n]);
      WeightedDecays(xs[..n], xs, n, n);
      var d := Decay(n);
      assert (d * st.efficiency) * 0.85 == (d * 0.85) * st.efficiency;
      assert 0.15 * Decay(0) * Performance(xs[n]) == Performance(xs[n]) * 0.15;
    }
  }

  lemma {:induction false} WeightsDecay(n: nat, k: nat)
    requires k <= n
    ensures Weights(n + 1, k) == 0.85 * Weights(n, k)
  {
    if k > 0 {
      WeightsDecay(n, k - 1);
      assert Decay(n + 1 - k) == Decay(n - k) * 0.85;
    }
  }

  /** The weights are an average: together with the initial value's they add up to one. */
  lemma {:induction false} WeightsSumToOne(n: nat)
    ensures Decay(n) + Weights(n, n) == 1.0
  {
    if n > 0 {
      WeightsSumToOne(n - 1);
      WeightsDecay(n - 1, n - 1);
    }
  }

  /** So the efficiency never leaves the range of its initial value and its samples. */
  lemma {:induction false} EfficiencyBounded(st: Staff, xs: seq<Sample>, lo: real, hi: real)
    requires lo <= st.efficiency <= hi
    requires forall x :: x in xs ==> lo <= Performance(x) <= hi
    ensures lo <= CreditAll(st, xs).efficiency <= hi
  {
    if xs != [] {
      var n := |xs| - 1;
      assert xs[n] in xs;
      EfficiencyBounded(st, xs[..n], lo, hi);
    }
  }
}
