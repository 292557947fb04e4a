/**
 * The compiler from a recipe to a dependency graph: explicit rows when there are any, otherwise
 * an inferred graph of assembly fan-in and single-capacity machine chains.
 */
module DependencyAnalyzer {
  import opened Wrappers
  import opened Model
  import opened Graphs
  import opened Sorting

  /** A row of recipe_steps; `assembly` is the verdict of isAssemblyLike on its description. */
  datatype RecipeStep = RecipeStep(
    stepOrder: int, assembly: bool, counter: CounterId, machine: Option<MachineId>,
    estimateSecs: int, basePriority: real)

  /** stepByOrder: the last step of each step order. */
  function ByOrder(steps: seq<RecipeStep>): (m: map<int, RecipeStep>)
    ensures forall st :: st in steps ==> st.stepOrder in m
    ensures forall so :: so in m ==> m[so] in steps && m[so].stepOrder == so
  {
    if steps == [] then map[]
    else
      var n := |steps| - 1;
      assert steps == steps[..n] + [steps[n]];
      ByOrder(steps[..n])[steps[n].stepOrder := steps[n]]
  }

  /** machineCapByID of a machine the table lacks is 0. */
  function CapacityOf(capacity: map<MachineId, int>, m: MachineId): int {
    if m in capacity then capacity[m] else 0
  }

  // ---------------------------------------------------------------- what the edges must be

  /** An assembly step waits for every earlier step that is not one. */
  predicate AssemblyPair(table: map<int, RecipeStep>, a: int, b: int) {
    a in table && b in table && b < a && table[a].assembly && !table[b].assembly
  }

  predicate OnSameMachine(table: map<int, RecipeStep>, a: int, b: int) {
    a in table && b in table && table[a].machine.Some? && table[a].machine == table[b].machine
  }

  /** A step waits for the previous step on its machine when the machine has room for one. */
  predicate MachinePair(table: map<int, RecipeStep>, capacity: map<MachineId, int>, a: int, b: int) {
    && OnSameMachine(table, a, b) && b < a
    && CapacityOf(capacity, table[a].machine.value) <= 1
    && forall c :: c in table && b < c < a ==> !OnSameMachine(table, a, c)
  }

  /** Pairs of step orders (waiting step, awaited step) of the inferred graph. */
  function FallbackPairs(table: map<int, RecipeStep>, capacity: map<MachineId, int>): set<Link> {
    set a, b | a in table && b in table && (AssemblyPair(table, a, b) || MachinePair(table, capacity, a, b)) :: Link(a, b)
  }

  function ExplicitPairs(explicit: map<int, seq<int>>): set<Link> {
    set a, i: nat | a in explicit && i < |explicit[a]| :: Link(a, explicit[a][i])
  }

  function StepPairs(steps: seq<RecipeStep>, explicit: map<int, seq<int>>, capacity: map<MachineId, int>): set<Link> {
    if explicit == map[] then FallbackPairs(ByOrder(steps), capacity) else ExplicitPairs(explicit)
  }

  /** addEdge keeps a pair when both steps are known and are different tasks. */
  predicate Kept(index: map<int, int>, p: Link) {
    p.task in index && p.dep in index && index[p.task] != index[p.dep]
  }

  function Mapped(index: map<int, int>, p: Link): Link
    requires Kept(index, p)
  {
    Link(index[p.task], index[p.dep])
  }

  /** The links between task positions that a set of step pairs stands for. */
  function Image(index: map<int, int>, pairs: set<Link>): set<Link> {
    set p | p in pairs && Kept(index, p) :: Mapped(index, p)
  }

  // ---------------------------------------------------------------- the loops

  /** `edges` lists the image of `pairs` without repetition; `seen` is its set. */
  ghost predicate Collected(index: map<int, int>, pairs: set<Link>, edges: seq<Link>, seen: set<Link>) {
    && NoDuplicates(edges) && seen == Image(index, pairs)
    && forall l :: l in edges <==> l in seen
  }

  /** The closure addEdge. */
  method AddEdge(index: map<int, int>, edges: seq<Link>, seen: set<Link>, taskStep: int, depStep: int, ghost pairs: set<Link>)
    returns (edges': seq<Link>, seen': set<Link>)
    requires Collected(index, pairs, edges, seen)
    ensures Collected(index, pairs + {Link(taskStep, depStep)}, edges', seen')
  {
    var p := Link(taskStep, depStep);
    assert Image(index, pairs + {p}) == Image(index, pairs) + if Kept(index, p) then {Mapped(index, p)} else {};
    edges', seen' := edges, seen;
    if taskStep !in index || depStep !in index || index[taskStep] == index[depStep] {
      return;
    }
    var key := Link(index[taskStep], index[depStep]);
    if key in seen {
      return;
    }
    seen' := seen + {key};
    edges' := edges + [key];
  }

  /** The pairs of the first `i` assembly steps, and of the i-th one the first `j` steps. */
  ghost function AssemblyPrefix(table: map<int, RecipeStep>, asm: seq<int>, i: nat): set<Link>
    requires i <= |asm|
  {
    set a, b | a in asm[..i] && b in table && AssemblyPair(table, a, b) :: Link(a, b)
  }

  ghost function RowPrefix(table: map<int, RecipeStep>, a: int, orders: seq<int>, j: nat): set<Link>
    requires j <= |orders|
  {
    set b | b in orders[..j] && AssemblyPair(table, a, b) :: Link(a, b)
  }

  ghost function MachinePrefix(table: map<int, RecipeStep>, capacity: map<MachineId, int>, orders: seq<int>, j: nat): set<Link>
    requires j <= |orders|
  {
    set a, b | a in orders[..j] && b in table && MachinePair(table, capacity, a, b) :: Link(a, b)
  }

  lemma PrefixGrows<T>(s: seq<T>, i: nat)
    requires i < |s|
    ensures forall x :: x in s[..i + 1] <==> x in s[..i] || x == s[i]
  {
    assert s[..i + 1] == s[..i] + [s[i]];
  }

  method AddAssemblyRow(table: map<int, RecipeStep>, orders: seq<int>, index: map<int, int>, a: int,
                        edges: seq<Link>, seen: set<Link>, ghost pairs: set<Link>)
    returns (edges': seq<Link>, seen': set<Link>)
    requires Collected(index, pairs, edges, seen)
    requires (forall so :: so in orders <==> so in table) && a in table && table[a].assembly
    ensures Collected(index, pairs + RowPrefix(table, a, orders, |orders|), edges', seen')
  {
    edges', seen' := edges, seen;
    assert pairs + RowPrefix(table, a, orders, 0) == pairs;
    for j := 0 to |orders|
      invariant Collected(index, pairs + RowPrefix(table, a, orders, j), edges', seen')
    {
      var so := orders[j];
      assert so in orders;
      PrefixGrows(orders, j);
      ghost var before := pairs + RowPrefix(table, a, orders, j);
      ghost var after := pairs + RowPrefix(table, a, orders, j + 1);
      if so >= a {
        assert after == before;
        continue;
      }
      if table[so].assembly {
        assert after == before;
        continue;
      }
      assert after == before + {Link(a, so)};
      edges', seen' := AddEdge(index, edges', seen', a, so, before);
    }
  }

  method AddAssemblyEdges(table: map<int, RecipeStep>, orders: seq<int>, index: map<int, int>)
    returns (edges: seq<Link>, seen: set<Link>)
    requires forall so :: so in orders <==> so in table
    ensures Collected(index, set a, b | a in table && b in table && AssemblyPair(table, a, b) :: Link(a, b), edges, seen)
  {
    var assemblySteps: seq<int> := [];
    for i := 0 to |orders|
      invariant forall so :: so in assemblySteps <==> so in table && so in orders[..i] && table[so].assembly
    {
      var so := orders[i];
      assert so in orders;
      assert so in table;
      PrefixGrows(orders, i);
      if table[so].assembly {
        assemblySteps := assemblySteps + [so];
      }
    }
    assert orders[..|orders|] == orders;
    edges, seen := [], {};
    assert AssemblyPrefix(table, assemblySteps, 0) == {};
    for i := 0 to |assemblySteps|
      invariant Collected(index, AssemblyPrefix(table, assemblySteps, i), edges, seen)
    {
      var a := assemblySteps[i];
      assert a in assemblySteps;
      ghost var before := AssemblyPrefix(table, assemblySteps, i);
      edges, seen := AddAssemblyRow(table, orders, index, a, edges, seen, before);
      PrefixGrows(assemblySteps, i);
      AssemblyRowAdds(table, assemblySteps, orders, i);
    }
    assert assemblySteps[..|assemblySteps|] == assemblySteps;
    assert AssemblyPrefix(table, assemblySteps, |assemblySteps|) ==
      set a, b | a in table && b in table && AssemblyPair(table, a, b) :: Link(a, b);
  }

  lemma AssemblyRowAdds(table: map<int, RecipeStep>, asm: seq<int>, orders: seq<int>, i: nat)
    requires i < |asm| && forall so :: so in orders <==> so in table
    ensures AssemblyPrefix(table, asm, i + 1) == AssemblyPrefix(table, asm, i) + RowPrefix(table, asm[i], orders, |orders|)
  {
    PrefixGrows(asm, i);
    assert orders[..|orders|] == orders;
  }

  /** `prev` holds the latest step so far on each machine. */
  ghost predicate Latest(table: map<int, RecipeStep>, done: seq<int>, prev: map<MachineId, int>) {
    && (forall m :: m in prev ==> prev[m] in done && prev[m] in table && table[prev[m]].machine == Some(m))
    && (forall so :: so in done && so in table && table[so].machine.Some? ==>
          table[so].machine.value in prev && so <= prev[table[so].machine.value])
  }

  ghost function MachineRow(table: map<int, RecipeStep>, capacity: map<MachineId, int>, a: int): set<Link> {
    set b | b in table && MachinePair(table, capacity, a, b) :: Link(a, b)
  }

  lemma MachineRowAdds(table: map<int, RecipeStep>, capacity: map<MachineId, int>, orders: seq<int>, j: nat)
    requires j < |orders|
    ensures MachinePrefix(table, capacity, orders, j + 1) ==
              MachinePrefix(table, capacity, orders, j) + MachineRow(table, capacity, orders[j])
    ensures orders[j] in orders[..j] ==> MachineRow(table, capacity, orders[j]) <= MachinePrefix(table, capacity, orders, j)
  {
    PrefixGrows(orders, j);
  }

  lemma EarlierProcessed(orders: seq<int>, j: nat)
    requires j < |orders| && Sorted(orders)
    ensures forall b :: b in orders && b < orders[j] ==> b in orders[..j]
    ensures forall b :: b in orders[..j] ==> b <= orders[j]
  {
    forall b | b in orders && b < orders[j] ensures b in orders[..j] {
      var i :| 0 <= i < |orders| && orders[i] == b;
      assert i < j;
    }
  }

  /** A step seen for the first time has one row entry at most: the latest step on its machine. */
  lemma NewMachineRow(table: map<int, RecipeStep>, capacity: map<MachineId, int>, done: seq<int>, so: int, prev: map<MachineId, int>)
    requires so in table && so !in done && Latest(table, done, prev)
    requires (forall b :: b in table && b < so ==> b in done) && forall b :: b in done ==> b <= so
    ensures MachineRow(table, capacity, so) ==
      if table[so].machine.Some? && CapacityOf(capacity, table[so].machine.value) <= 1 && table[so].machine.value in prev
      then {Link(so, prev[table[so].machine.value])} else {}
  {
    var m := table[so].machine;
    if m.Some? && m.value in prev {
      var p := prev[m.value];
      assert OnSameMachine(table, so, p) && p < so;
      assert forall b :: MachinePair(table, capacity, so, b) ==> b == p;
      assert CapacityOf(capacity, m.value) <= 1 ==> MachinePair(table, capacity, so, p);
    }
  }

  lemma LatestGrows(table: map<int, RecipeStep>, orders: seq<int>, j: nat, prev: map<MachineId, int>)
    requires j < |orders| && orders[j] in table && Latest(table, orders[..j], prev)
    requires forall b :: b in orders[..j] ==> b <= orders[j]
    ensures table[orders[j]].machine.None? ==> Latest(table, orders[..j + 1], prev)
    ensures table[orders[j]].machine.Some? ==> Latest(table, orders[..j + 1], prev[table[orders[j]].machine.value := orders[j]])
  {
    PrefixGrows(orders, j);
  }

  lemma Regroup(a: set<Link>, b: set<Link>, c: set<Link>)
    ensures a + b + c == a + (b + c)
  {
  }

  /** What the loop body adds for the j-th step. */
  lemma MachineStep(table: map<int, RecipeStep>, capacity: map<MachineId, int>, orders: seq<int>, j: nat, prev: map<MachineId, int>)
    requires j < |orders| && Sorted(orders) && (forall so :: so in orders <==> so in table)
    requires orders[j] in table && Latest(table, orders[..j], prev)
    ensures var so := orders[j];
      MachinePrefix(table, capacity, orders, j + 1) == MachinePrefix(table, capacity, orders, j) +
        if table[so].machine.Some? && CapacityOf(capacity, table[so].machine.value) <= 1
           && table[so].machine.value in prev && prev[table[so].machine.value] != so
        then {Link(so, prev[table[so].machine.value])} else {}
    ensures table[orders[j]].machine.None? ==> Latest(table, orders[..j + 1], prev)
    ensures table[orders[j]].machine.Some? ==> Latest(table, orders[..j + 1], prev[table[orders[j]].machine.value := orders[j]])
  {
    var so := orders[j];
    EarlierProcessed(orders, j);
    MachineRowAdds(table, capacity, orders, j);
    LatestGrows(table, orders, j, prev);
    if so !in orders[..j] {
      assert forall b :: b in table && b < so ==> b in orders;
      NewMachineRow(table, capacity, orders[..j], so, prev);
    }
  }

  method AddMachineEdges(table: map<int, RecipeStep>, orders: seq<int>, index: map<int, int>, capacity: map<MachineId, int>,
                         edges: seq<Link>, seen: set<Link>, ghost pairs: set<Link>)
    returns (edges': seq<Link>, seen': set<Link>)
    requires Sorted(orders) && (forall so :: so in orders <==> so in table) && Collected(index, pairs, edges, seen)
    ensures Collected(index, pairs + MachinePrefix(table, capacity, orders, |orders|), edges', seen')
  {
    edges', seen' := edges, seen;
    var previousByMachine: map<MachineId, int> := map[];
    ghost var chain: set<Link> := {};
    assert MachinePrefix(table, capacity, orders, 0) == {} && pairs + {} == pairs;
    for j := 0 to |orders|
      invariant Latest(table, orders[..j], previousByMachine)
      invariant chain == MachinePrefix(table, capacity, orders, j)
      invariant Collected(index, pairs + chain, edges', seen')
    {
      var so := orders[j];
      assert so in orders;
      assert so in table;
      MachineStep(table, capacity, orders, j, previousByMachine);
      if table[so].machine.None? {
        continue;
      }
      var mid := table[so].machine.value;
      if CapacityOf(capacity, mid) <= 1 && mid in previousByMachine && previousByMachine[mid] != so {
        edges', seen' := AddEdge(index, edges', seen', so, previousByMachine[mid], pairs + chain);
        Regroup(pairs, chain, {Link(so, previousByMachine[mid])});
        chain := chain + {Link(so, previousByMachine[mid])};
      }
      previousByMachine := previousByMachine[mid := so];
    }
  }

  function RowPairs(a: int, deps: seq<int>): set<Link> {
    set d | d in deps :: Link(a, d)
  }

  method AddExplicitRow(index: map<int, int>, a: int, deps: seq<int>, edges: seq<Link>, seen: set<Link>, ghost pairs: set<Link>)
    returns (edges': seq<Link>, seen': set<Link>)
    requires Collected(index, pairs, edges, seen)
    ensures Collected(index, pairs + RowPairs(a, deps), edges', seen')
  {
    edges', seen' := edges, seen;
    assert pairs + RowPairs(a, deps[..0]) == pairs;
    for i := 0 to |deps|
      invariant Collected(index, pairs + RowPairs(a, deps[..i]), edges', seen')
    {
      PrefixGrows(deps, i);
      assert RowPairs(a, deps[..i + 1]) == RowPairs(a, deps[..i]) + {Link(a, deps[i])};
      assert pairs + RowPairs(a, deps[..i + 1]) == pairs + RowPairs(a, deps[..i]) + {Link(a, deps[i])};
      edges', seen' := AddEdge(index, edges', seen', a, deps[i], pairs + RowPairs(a, deps[..i]));
    }
    assert deps[..|deps|] == deps;
  }

  lemma ExplicitGrows(m: map<int, seq<int>>, a: int, deps: seq<int>)
    requires a !in m
    ensures ExplicitPairs(m[a := deps]) == ExplicitPairs(m) + RowPairs(a, deps)
  {
    var y := m[a := deps];
    forall l | l in ExplicitPairs(m) ensures l in ExplicitPairs(y) {
      var c, j: nat :| c in m && j < |m[c]| && l == Link(c, m[c][j]);
      assert c in y && j < |y[c]| && y[c][j] == m[c][j];
    }
    forall l | l in RowPairs(a, deps) ensures l in ExplicitPairs(y) {
      var d :| d in deps && l == Link(a, d);
      var j: nat :| j < |deps| && deps[j] == d;
      assert a in y && j < |y[a]| && l == Link(a, y[a][j]);
    }
  }

  method AddExplicitEdges(explicit: map<int, seq<int>>, index: map<int, int>) returns (edges: seq<Link>, seen: set<Link>)
    ensures Collected(index, ExplicitPairs(explicit), edges, seen)
  {
    edges, seen := [], {};
    var left := explicit.Keys;
    ghost var done: map<int, seq<int>> := map[];
    ghost var pairs: set<Link> := {};
    assert pairs == ExplicitPairs(done);
    while left != {}
      invariant left <= explicit.Keys && done == explicit - left
      invariant pairs == ExplicitPairs(done) && Collected(index, pairs, edges, seen)
      decreases |left|
    {
      assert (forall x :: x !in left) ==> left == {};
      var a :| a in left;
      edges, seen := AddExplicitRow(index, a, explicit[a], edges, seen, pairs);
      ExplicitGrows(done, a, explicit[a]);
      MoveKey(explicit, left, a);
      pairs := pairs + RowPairs(a, explicit[a]);
      done := done[a := explicit[a]];
      left := left - {a};
    }
    assert done == explicit;
  }

  lemma MoveKey(m: map<int, seq<int>>, left: set<int>, a: int)
    requires a in left && left <= m.Keys
    ensures a !in m - left && m - (left - {a}) == (m - left)[a := m[a]]
  {
  }

  /** The edges are exactly the image of the step pairs, each once. */
  method InferRecipeTaskDeps(steps: seq<RecipeStep>, index: map<int, int>, explicit: map<int, seq<int>>, capacity: map<MachineId, int>)
    returns (edges: seq<Link>)
    ensures NoDuplicates(edges)
    ensures forall l :: l in edges <==> l in Image(index, StepPairs(steps, explicit, capacity))
    ensures explicit != map[] ==> forall l :: l in edges <==>
      exists a, k: nat :: a in explicit && k < |explicit[a]| && a in index && explicit[a][k] in index
                          && index[a] != index[explicit[a][k]] && l == Link(index[a], index[explicit[a][k]])
    ensures explicit == map[] ==> forall l :: l in edges <==>
      exists i: nat, j: nat :: WaitsFor(steps, capacity, i, j) && steps[i].stepOrder in index && steps[j].stepOrder in index
                               && index[steps[i].stepOrder] != index[steps[j].stepOrder]
                               && l == Link(index[steps[i].stepOrder], index[steps[j].stepOrder])
  {
    var seen;
    if explicit != map[] {
      edges, seen := AddExplicitEdges(explicit, index);
      ExplicitEdges(index, explicit, edges);
      return;
    }
    var stepByOrder, stepOrders := IndexSteps(steps);
    edges, seen := AddAssemblyEdges(stepByOrder, stepOrders, index);
    ghost var asm := set a, b | a in stepByOrder && b in stepByOrder && AssemblyPair(stepByOrder, a, b) :: Link(a, b);
    edges, seen := AddMachineEdges(stepByOrder, stepOrders, index, capacity, edges, seen, asm);
    assert stepOrders[..|stepOrders|] == stepOrders;
    assert asm + MachinePrefix(stepByOrder, capacity, stepOrders, |stepOrders|) == FallbackPairs(stepByOrder, capacity);
    InferredEdges(steps, index, capacity, edges);
  }

  /** The steps by their order, and the sorted orders. */
  method IndexSteps(steps: seq<RecipeStep>) returns (stepByOrder: map<int, RecipeStep>, stepOrders: seq<int>)
    ensures stepByOrder == ByOrder(steps)
    ensures Sorted(stepOrders) && forall so :: so in stepOrders <==> so in stepByOrder
  {
    stepOrders, stepByOrder := [], map[];
    for i := 0 to |steps|
      invariant stepByOrder == ByOrder(steps[..i])
      invariant forall so :: so in stepOrders <==> so in stepByOrder
    {
      assert steps[..i + 1][..i] == steps[..i];
      stepOrders := stepOrders + [steps[i].stepOrder];
      stepByOrder := stepByOrder[steps[i].stepOrder := steps[i]];
    }
    assert steps[..|steps|] == steps;
    SortIntsSorts(stepOrders);
    stepOrders := SortInts(stepOrders);
  }

  // ---------------------------------------------------------------- the inferred pairs on the rows of the recipe

  /** Of several steps with one step order the last counts. */
  predicate Current(steps: seq<RecipeStep>, i: nat) {
    i < |steps| && forall k :: i < k < |steps| ==> steps[k].stepOrder != steps[i].stepOrder
  }

  /**
   * In a recipe without explicit rows the i-th step waits for the j-th: an assembly step for every
   * earlier other step, and any step for the previous one on its machine if that has no second slot.
   */
  ghost predicate WaitsFor(steps: seq<RecipeStep>, capacity: map<MachineId, int>, i: nat, j: nat) {
    && Current(steps, i) && Current(steps, j) && steps[j].stepOrder < steps[i].stepOrder
    && (|| (steps[i].assembly && !steps[j].assembly)
        || (&& steps[i].machine.Some? && steps[j].machine == steps[i].machine
            && (steps[i].machine.value in capacity ==> capacity[steps[i].machine.value] <= 1)
            && forall k: nat :: Current(steps, k) && steps[j].stepOrder < steps[k].stepOrder < steps[i].stepOrder ==>
                 steps[k].machine != steps[i].machine))
  }

  lemma {:induction false} ByOrderCurrent(steps: seq<RecipeStep>, i: nat)
    requires Current(steps, i)
    ensures steps[i].stepOrder in ByOrder(steps) && ByOrder(steps)[steps[i].stepOrder] == steps[i]
  {
    ByOrderNext(steps);
    if i < |steps| - 1 {
      CurrentBefore(steps, i);
      ByOrderCurrent(steps[..|steps| - 1], i);
    }
  }

  lemma ByOrderNext(steps: seq<RecipeStep>)
    requires steps != []
    ensures var n := |steps| - 1;
      ByOrder(steps) == ByOrder(steps[..n])[steps[n].stepOrder := steps[n]]
  {
  }

  lemma CurrentBefore(steps: seq<RecipeStep>, i: nat)
    requires Current(steps, i) && i < |steps| - 1
    ensures Current(steps[..|steps| - 1], i) && steps[..|steps| - 1][i] == steps[i]
    ensures steps[|steps| - 1].stepOrder != steps[i].stepOrder
  {
  }

  lemma {:induction false} CurrentOf(steps: seq<RecipeStep>, so: int) returns (i: nat)
    requires so in ByOrder(steps)
    ensures Current(steps, i) && steps[i].stepOrder == so
  {
    var n := |steps| - 1;
    if steps[n].stepOrder == so {
      i := n;
    } else {
      i := CurrentOf(steps[..n], so);
    }
  }

  /** The pairs of the inferred graph are those of the rows. */
  lemma FallbackMeans(steps: seq<RecipeStep>, capacity: map<MachineId, int>, i: nat, j: nat)
    requires Current(steps, i) && Current(steps, j)
    ensures Link(steps[i].stepOrder, steps[j].stepOrder) in FallbackPairs(ByOrder(steps), capacity) <==> WaitsFor(steps, capacity, i, j)
  {
    var table, a, b := ByOrder(steps), steps[i].stepOrder, steps[j].stepOrder;
    ByOrderCurrent(steps, i);
    ByOrderCurrent(steps, j);
    if WaitsFor(steps, capacity, i, j) && !AssemblyPair(table, a, b) {
      forall c | c in table && b < c < a ensures !OnSameMachine(table, a, c) {
        var k := CurrentOf(steps, c);
        ByOrderCurrent(steps, k);
      }
    }
    if MachinePair(table, capacity, a, b) {
      forall k: nat | Current(steps, k) && b < steps[k].stepOrder < a ensures steps[k].machine != steps[i].machine {
        ByOrderCurrent(steps, k);
        assert !OnSameMachine(table, a, steps[k].stepOrder);
      }
    }
  }

  lemma ExplicitEdge(index: map<int, int>, explicit: map<int, seq<int>>, l: Link)
    ensures l in Image(index, ExplicitPairs(explicit)) <==>
      exists a, k: nat :: a in explicit && k < |explicit[a]| && a in index && explicit[a][k] in index
                          && index[a] != index[explicit[a][k]] && l == Link(index[a], index[explicit[a][k]])
  {
    if l in Image(index, ExplicitPairs(explicit)) {
      var p :| p in ExplicitPairs(explicit) && Kept(index, p) && l == Mapped(index, p);
      var a, k: nat :| a in explicit && k < |explicit[a]| && p == Link(a, explicit[a][k]);
    }
    if a, k: nat :| a in explicit && k < |explicit[a]| && a in index && explicit[a][k] in index
                    && index[a] != index[explicit[a][k]] && l == Link(index[a], index[explicit[a][k]]) {
      var p := Link(a, explicit[a][k]);
      assert p in ExplicitPairs(explicit) && Kept(index, p) && l == Mapped(index, p);
    }
  }

  lemma ExplicitEdges(index: map<int, int>, explicit: map<int, seq<int>>, edges: seq<Link>)
    requires forall l :: l in edges <==> l in Image(index, ExplicitPairs(explicit))
    ensures forall l :: l in edges <==>
      exists a, k: nat :: a in explicit && k < |explicit[a]| && a in index && explicit[a][k] in index
                          && index[a] != index[explicit[a][k]] && l == Link(index[a], index[explicit[a][k]])
  {
    forall l { ExplicitEdge(index, explicit, l); }
  }

  lemma InferredEdges(steps: seq<RecipeStep>, index: map<int, int>, capacity: map<MachineId, int>, edges: seq<Link>)
    requires forall l :: l in edges <==> l in Image(index, FallbackPairs(ByOrder(steps), capacity))
    ensures forall l :: l in edges <==>
      exists i: nat, j: nat :: WaitsFor(steps, capacity, i, j) && steps[i].stepOrder in index && steps[j].stepOrder in index
                               && index[steps[i].stepOrder] != index[steps[j].stepOrder]
                               && l == Link(index[steps[i].stepOrder], index[steps[j].stepOrder])
  {
    forall l { InferredEdge(steps, index, capacity, l); }
  }

  lemma InferredEdge(steps: seq<RecipeStep>, index: map<int, int>, capacity: map<MachineId, int>, l: Link)
    ensures l in Image(index, FallbackPairs(ByOrder(steps), capacity)) <==>
      exists i: nat, j: nat :: WaitsFor(steps, capacity, i, j) && steps[i].stepOrder in index && steps[j].stepOrder in index
                               && index[steps[i].stepOrder] != index[steps[j].stepOrder]
                               && l == Link(index[steps[i].stepOrder], index[steps[j].stepOrder])
  {
    var pairs := FallbackPairs(ByOrder(steps), capacity);
    if l in Image(index, pairs) {
      var p :| p in pairs && Kept(index, p) && l == Mapped(index, p);
      var i := CurrentOf(steps, p.task);
      var j := CurrentOf(steps, p.dep);
      FallbackMeans(steps, capacity, i, j);
    }
    if i: nat, j: nat :| WaitsFor(steps, capacity, i, j) && steps[i].stepOrder in index && steps[j].stepOrder in index
                         && index[steps[i].stepOrder] != index[steps[j].stepOrder]
                         && l == Link(index[steps[i].stepOrder], index[steps[j].stepOrder]) {
      FallbackMeans(steps, capacity, i, j);
      var p := Link(steps[i].stepOrder, steps[j].stepOrder);
      assert p in pairs && Kept(index, p) && l == Mapped(index, p);
    }
  }

  // ---------------------------------------------------------------- the inferred graph

  /** Every inferred pair goes from a later step to an earlier one, so the inferred graph has no cycle. */
  lemma FallbackAcyclic(table: map<int, RecipeStep>, capacity: map<MachineId, int>)
    ensures Acyclic(FallbackPairs(table, capacity))
  {
    DescendingAcyclic(FallbackPairs(table, capacity));
  }

  /** The latest step on the machine of `a` before `a`. */
  lemma {:induction false} PreviousOnMachine(table: map<int, RecipeStep>, a: int, b: int) returns (p: int)
    requires OnSameMachine(table, a, b) && b < a
    ensures b <= p < a && OnSameMachine(table, a, p)
    ensures forall c :: c in table && p < c < a ==> !OnSameMachine(table, a, c)
    decreases a - b
  {
    if c :| c in table && b < c < a && OnSameMachine(table, a, c) {
      p := PreviousOnMachine(table, a, c);
    } else {
      p := b;
    }
  }

  /** All steps on a machine without a second slot are totally ordered: the later always waits for the earlier. */
  lemma {:induction false} MachineSerialized(table: map<int, RecipeStep>, capacity: map<MachineId, int>, a: int, b: int)
    requires a in table && b in table && b < a && table[a].machine.Some? && table[b].machine == table[a].machine
    requires table[a].machine.value in capacity ==> capacity[table[a].machine.value] <= 1
    ensures Reaches(FallbackPairs(table, capacity), a, b)
    decreases a - b
  {
    var links := FallbackPairs(table, capacity);
    var p := PreviousOnMachine(table, a, b);
    assert MachinePair(table, capacity, a, p) && Link(a, p) in links;
    var hop := [a, p];
    assert Walk(links, hop);
    if p == b {
      assert hop[|hop| - 1] == b;
    } else {
      MachineSerialized(table, capacity, p, b);
      var rest :| Walk(links, rest) && rest[0] == p && rest[|rest| - 1] == b;
      JoinWalks(links, hop, rest);
    }
  }

  /** With a second slot the machine orders nothing, and an assembly step waits for every earlier other step. */
  lemma RoomyMachine(table: map<int, RecipeStep>, capacity: map<MachineId, int>, a: int, b: int)
    requires a in table && b in table && table[a].machine.Some? && table[b].machine == table[a].machine
    requires table[a].machine.value in capacity && capacity[table[a].machine.value] >= 2
    ensures Link(a, b) in FallbackPairs(table, capacity) <==> b < a && table[a].assembly && !table[b].assembly
  {
  }
}
