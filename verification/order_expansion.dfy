/**
 * ConfirmOrder's expansion: every unit of every item becomes a block of tasks, one per recipe
 * step, with the dependency links of its recipe.
 */
module OrderExpansion {
  import opened Wrappers
  import opened Model
  import opened Graphs
  import opened DependencyAnalyzer

  /** What ConfirmOrder reads before it expands. */
  datatype Book = Book(
    steps: map<string, seq<RecipeStep>>,
    explicit: map<string, map<int, seq<int>>>,
    capacity: map<MachineId, int>)

  function StepsOf(book: Book, item: string): seq<RecipeStep> {
    if item in book.steps then book.steps[item] else []
  }

  function ExplicitOf(book: Book, item: string): map<int, seq<int>> {
    if item in book.explicit then book.explicit[item] else map[]
  }

  datatype ExpandError = ItemsRequired | RecipeNotFound | MissingMachine | InvalidLink | NoTasks

  datatype Expansion = Expansion(rows: seq<NewTask>, links: seq<Link>)

  // ---------------------------------------------------------------- one unit of one item

  function RowOf(st: RecipeStep, now: Time): NewTask {
    NewTask(st.counter, st.machine, st.estimateSecs, st.basePriority, now)
  }

  function RowsOf(steps: seq<RecipeStep>, now: Time): (rows: seq<NewTask>)
    ensures |rows| == |steps|
    ensures forall i :: 0 <= i < |rows| ==> rows[i] == RowOf(steps[i], now)
  {
    seq(|steps|, i requires 0 <= i < |steps| => RowOf(steps[i], now))
  }

  /** stepToTaskIdx of a block that starts at position `start`. */
  function IndexOf(steps: seq<RecipeStep>, start: nat): map<int, int> {
    if steps == [] then map[]
    else
      var n := |steps| - 1;
      IndexOf(steps[..n], start)[steps[n].stepOrder := start + n]
  }

  /** Every step order is at the position of one of its steps. */
  lemma {:induction false} IndexPosition(steps: seq<RecipeStep>, start: nat, so: int)
    ensures so in IndexOf(steps, start) <==> so in ByOrder(steps)
    ensures so in IndexOf(steps, start) ==>
      && start <= IndexOf(steps, start)[so] < start + |steps|
      && steps[IndexOf(steps, start)[so] - start].stepOrder == so
  {
    if steps != [] {
      IndexPosition(steps[..|steps| - 1], start, so);
    }
  }

  function BlockLinks(book: Book, item: string, start: nat): set<Link> {
    var steps := StepsOf(book, item);
    Image(IndexOf(steps, start), StepPairs(steps, ExplicitOf(book, item), book.capacity))
  }

  /** The links of a block stay inside it and never point to themselves. */
  lemma BlockLinksInside(book: Book, item: string, start: nat)
    ensures forall l :: l in BlockLinks(book, item, start) ==>
      && start <= l.task < start + |StepsOf(book, item)|
      && start <= l.dep < start + |StepsOf(book, item)|
      && l.task != l.dep
  {
    var steps := StepsOf(book, item);
    var index := IndexOf(steps, start);
    forall l | l in BlockLinks(book, item, start)
      ensures start <= l.task < start + |steps| && start <= l.dep < start + |steps| && l.task != l.dep
    {
      var p :| p in StepPairs(steps, ExplicitOf(book, item), book.capacity) && Kept(index, p) && l == Mapped(index, p);
      IndexPosition(steps, start, p.task);
      IndexPosition(steps, start, p.dep);
    }
  }

  /** The step orders of a recipe are distinct, as the schema demands. */
  predicate DistinctOrders(steps: seq<RecipeStep>) {
    forall i, j :: 0 <= i < j < |steps| ==> steps[i].stepOrder != steps[j].stepOrder
  }

  lemma {:induction false} IndexAt(steps: seq<RecipeStep>, start: nat, i: nat)
    requires Current(steps, i)
    ensures steps[i].stepOrder in IndexOf(steps, start) && IndexOf(steps, start)[steps[i].stepOrder] == start + i
  {
    var n := |steps| - 1;
    if i < n {
      CurrentBefore(steps, i);
      IndexAt(steps[..n], start, i);
    }
  }

  lemma IndexInverse(steps: seq<RecipeStep>, start: nat, so: int, i: nat)
    requires DistinctOrders(steps) && i < |steps| && so in IndexOf(steps, start) && IndexOf(steps, start)[so] == start + i
    ensures so == steps[i].stepOrder
  {
    IndexPosition(steps, start, so);
  }

  /**
   * Whether the i-th task of a unit waits for the j-th, read off the rows of the recipe: what its
   * dependency rows say if it has any, and otherwise what its assembly steps and machines say.
   */
  ghost predicate TaskWaits(book: Book, item: string, i: nat, j: nat)
    requires item in book.steps && i < |book.steps[item]| && j < |book.steps[item]|
  {
    var steps := book.steps[item];
    if item in book.explicit && book.explicit[item] != map[]
    then i != j && steps[i].stepOrder in book.explicit[item] && steps[j].stepOrder in book.explicit[item][steps[i].stepOrder]
    else WaitsFor(steps, book.capacity, i, j)
  }

  lemma UnitLinks(book: Book, item: string, start: nat, i: nat, j: nat)
    requires item in book.steps && DistinctOrders(book.steps[item]) && i < |book.steps[item]| && j < |book.steps[item]|
    ensures Link(start + i, start + j) in BlockLinks(book, item, start) <==> TaskWaits(book, item, i, j)
  {
    var steps := book.steps[item];
    var index, l := IndexOf(steps, start), Link(start + i, start + j);
    assert Current(steps, i) && Current(steps, j);
    IndexAt(steps, start, i);
    IndexAt(steps, start, j);
    if item in book.explicit && book.explicit[item] != map[] {
      ExplicitUnitLink(steps, start, book.explicit[item], i, j);
    } else {
      InferredUnitLink(steps, start, book.capacity, i, j);
    }
  }

  lemma ExplicitUnitLink(steps: seq<RecipeStep>, start: nat, explicit: map<int, seq<int>>, i: nat, j: nat)
    requires DistinctOrders(steps) && i < |steps| && j < |steps|
    ensures Link(start + i, start + j) in Image(IndexOf(steps, start), ExplicitPairs(explicit)) <==>
      i != j && steps[i].stepOrder in explicit && steps[j].stepOrder in explicit[steps[i].stepOrder]
  {
    var index, l := IndexOf(steps, start), Link(start + i, start + j);
    assert Current(steps, i) && Current(steps, j);
    IndexAt(steps, start, i);
    IndexAt(steps, start, j);
    ExplicitEdge(index, explicit, l);
    if a, k: nat :| a in explicit && k < |explicit[a]| && a in index && explicit[a][k] in index
                    && index[a] != index[explicit[a][k]] && l == Link(index[a], index[explicit[a][k]]) {
      IndexInverse(steps, start, a, i);
      IndexInverse(steps, start, explicit[a][k], j);
    }
  }

  lemma InferredUnitLink(steps: seq<RecipeStep>, start: nat, capacity: map<MachineId, int>, i: nat, j: nat)
    requires DistinctOrders(steps) && i < |steps| && j < |steps|
    ensures Link(start + i, start + j) in Image(IndexOf(steps, start), FallbackPairs(ByOrder(steps), capacity)) <==>
      WaitsFor(steps, capacity, i, j)
  {
    var index, l := IndexOf(steps, start), Link(start + i, start + j);
    assert Current(steps, i) && Current(steps, j);
    IndexAt(steps, start, i);
    IndexAt(steps, start, j);
    var pairs := FallbackPairs(ByOrder(steps), capacity);
    var p := Link(steps[i].stepOrder, steps[j].stepOrder);
    FallbackMeans(steps, capacity, i, j);
    if p in pairs {
      assert Kept(index, p) && l == Mapped(index, p);
    }
    if l in Image(index, pairs) {
      var p' :| p' in pairs && Kept(index, p') && l == Mapped(index, p');
      IndexInverse(steps, start, p'.task, i);
      IndexInverse(steps, start, p'.dep, j);
    }
  }

  /** Within a unit, a machine known to hold more than one task makes no other step than an assembly step wait. */
  lemma RoomyUnit(book: Book, item: string, start: nat, i: nat, j: nat, m: MachineId)
    requires item in book.steps && DistinctOrders(book.steps[item]) && i < |book.steps[item]| && j < |book.steps[item]|
    requires item !in book.explicit || book.explicit[item] == map[]
    requires book.steps[item][i].machine == Some(m) && book.steps[item][j].machine == Some(m)
    requires m in book.capacity && book.capacity[m] >= 2 && !book.steps[item][i].assembly
    ensures Link(start + i, start + j) !in BlockLinks(book, item, start)
  {
    UnitLinks(book, item, start, i, j);
  }

  /** Within a unit, the tasks on any other machine run in the order of their steps. */
  lemma SerializedUnit(book: Book, item: string, start: nat, i: nat, j: nat, m: MachineId)
    requires item in book.steps && DistinctOrders(book.steps[item]) && i < |book.steps[item]| && j < |book.steps[item]|
    requires item !in book.explicit || book.explicit[item] == map[]
    requires book.steps[item][i].machine == Some(m) && book.steps[item][j].machine == Some(m)
    requires (m in book.capacity ==> book.capacity[m] <= 1) && book.steps[item][j].stepOrder < book.steps[item][i].stepOrder
    ensures Reaches(BlockLinks(book, item, start), start + i, start + j)
  {
    var steps := book.steps[item];
    assert Current(steps, i) && Current(steps, j);
    ByOrderCurrent(steps, i);
    ByOrderCurrent(steps, j);
    MachineSerialized(ByOrder(steps), book.capacity, steps[i].stepOrder, steps[j].stepOrder);
    PairsToBlock(book, item, start);
    IndexAt(steps, start, i);
    IndexAt(steps, start, j);
    RenamedReaches(FallbackPairs(ByOrder(steps), book.capacity), BlockLinks(book, item, start), IndexOf(steps, start),
                   steps[i].stepOrder, steps[j].stepOrder);
  }

  /** The inferred pairs of a recipe become links of each of its blocks. */
  lemma PairsToBlock(book: Book, item: string, start: nat)
    requires item in book.steps && (item !in book.explicit || book.explicit[item] == map[])
    ensures Renamed(FallbackPairs(ByOrder(book.steps[item]), book.capacity), BlockLinks(book, item, start),
                    IndexOf(book.steps[item], start))
  {
    RecipeToBlock(book, item, start);
    forall l | l in FallbackPairs(ByOrder(book.steps[item]), book.capacity) ensures l in RecipeGraph(book, item) {}
  }

  // ---------------------------------------------------------------- the whole order

  function Times(item: string, n: nat): seq<string> {
    seq(n, _ => item)
  }

  function Quantity(items: map<string, int>, item: string): nat {
    if item in items && items[item] > 0 then items[item] else 0
  }

  /** The units of the order, item after item in the order in which the map yields them. */
  function Units(items: map<string, int>, order: seq<string>): seq<string> {
    if order == [] then []
    else Units(items, order[..|order| - 1]) + Times(order[|order| - 1], Quantity(items, order[|order| - 1]))
  }

  function Offset(book: Book, units: seq<string>): nat {
    if units == [] then 0 else Offset(book, units[..|units| - 1]) + |StepsOf(book, units[|units| - 1])|
  }

  function RowsFor(book: Book, units: seq<string>, now: Time): seq<NewTask> {
    if units == [] then []
    else RowsFor(book, units[..|units| - 1], now) + RowsOf(StepsOf(book, units[|units| - 1]), now)
  }

  function LinksFor(book: Book, units: seq<string>): set<Link> {
    if units == [] then {}
    else
      var before := units[..|units| - 1];
      LinksFor(book, before) + BlockLinks(book, units[|units| - 1], Offset(book, before))
  }

  lemma {:induction false} RowsForLength(book: Book, units: seq<string>, now: Time)
    ensures |RowsFor(book, units, now)| == Offset(book, units)
  {
    if units != [] { RowsForLength(book, units[..|units| - 1], now); }
  }

  lemma {:induction false} LinksForInside(book: Book, units: seq<string>)
    ensures forall l :: l in LinksFor(book, units) ==>
      0 <= l.task < Offset(book, units) && 0 <= l.dep < Offset(book, units) && l.task != l.dep
  {
    if units != [] {
      var before := units[..|units| - 1];
      LinksForInside(book, before);
      BlockLinksInside(book, units[|units| - 1], Offset(book, before));
    }
  }

  predicate AllMachines(steps: seq<RecipeStep>) {
    forall st :: st in steps ==> st.machine.Some?
  }

  /** An order can be confirmed. */
  predicate Expandable(items: map<string, int>, book: Book) {
    && (forall item :: item in items ==> StepsOf(book, item) != [])
    && (forall item :: item in items && items[item] > 0 ==> AllMachines(StepsOf(book, item)))
    && exists item :: item in items && items[item] > 0
  }

  /** What the loops have built for the units so far. */
  ghost predicate Built(book: Book, units: seq<string>, now: Time, rows: seq<NewTask>, links: seq<Link>) {
    && rows == RowsFor(book, units, now)
    && NoDuplicates(links)
    && forall l :: l in links <==> l in LinksFor(book, units)
  }

  /** The loop over the steps of one unit. */
  method AppendUnit(steps: seq<RecipeStep>, rows: seq<NewTask>, now: Time)
    returns (ok: bool, rows': seq<NewTask>, index: map<int, int>)
    ensures ok <==> AllMachines(steps)
    ensures ok ==> rows' == rows + RowsOf(steps, now) && index == IndexOf(steps, |rows|)
  {
    rows', index, ok := rows, map[], true;
    for i := 0 to |steps|
      invariant AllMachines(steps[..i])
      invariant rows' == rows + RowsOf(steps[..i], now) && index == IndexOf(steps[..i], |rows|)
    {
      if steps[i].machine.None? {
        assert steps[i] in steps;
        ok := false;
        return;
      }
      assert steps[..i + 1] == steps[..i] + [steps[i]] && steps[..i + 1][..i] == steps[..i];
      rows' := rows' + [RowOf(steps[i], now)];
      index := index[steps[i].stepOrder := |rows'| - 1];
    }
    assert steps[..|steps|] == steps;
  }

  lemma AppendLinks(book: Book, units: seq<string>, item: string, links: seq<Link>, edges: seq<Link>)
    requires NoDuplicates(links) && (forall l :: l in links <==> l in LinksFor(book, units))
    requires NoDuplicates(edges) && (forall l :: l in edges <==> l in BlockLinks(book, item, Offset(book, units)))
    ensures NoDuplicates(links + edges) && forall l :: l in links + edges <==> l in LinksFor(book, units + [item])
  {
    LinksForInside(book, units);
    BlockLinksInside(book, item, Offset(book, units));
    assert (units + [item])[..|units|] == units;
    forall i, j | 0 <= i < j < |links + edges| ensures (links + edges)[i] != (links + edges)[j] {
      if i < |links| <= j {
        assert links[i] in links && edges[j - |links|] in edges;
      }
    }
  }

  /** One unit: its rows, then the links of its recipe. */
  method ExpandUnit(book: Book, item: string, now: Time, rows: seq<NewTask>, links: seq<Link>, ghost units: seq<string>)
    returns (ok: bool, rows': seq<NewTask>, links': seq<Link>)
    requires Built(book, units, now, rows, links)
    ensures ok <==> AllMachines(StepsOf(book, item))
    ensures ok ==> Built(book, units + [item], now, rows', links')
  {
    var steps := StepsOf(book, item);
    var index;
    links' := links;
    ok, rows', index := AppendUnit(steps, rows, now);
    if !ok {
      return;
    }
    var edges := InferRecipeTaskDeps(steps, index, ExplicitOf(book, item), book.capacity);
    links' := links + edges;
    RowsForLength(book, units, now);
    AppendLinks(book, units, item, links, edges);
    assert (units + [item])[..|units|] == units;
  }

  /** The loop over the quantity of one item. */
  method ExpandItem(book: Book, item: string, qty: nat, now: Time, rows: seq<NewTask>, links: seq<Link>, ghost units: seq<string>)
    returns (ok: bool, rows': seq<NewTask>, links': seq<Link>)
    requires Built(book, units, now, rows, links) && qty > 0
    ensures ok <==> AllMachines(StepsOf(book, item))
    ensures ok ==> Built(book, units + Times(item, qty), now, rows', links')
  {
    rows', links', ok := rows, links, true;
    assert units + Times(item, 0) == units;
    for i := 0 to qty
      invariant i > 0 ==> AllMachines(StepsOf(book, item))
      invariant Built(book, units + Times(item, i), now, rows', links')
    {
      ok, rows', links' := ExpandUnit(book, item, now, rows', links', units + Times(item, i));
      if !ok {
        return;
      }
      assert units + Times(item, i) + [item] == units + Times(item, i + 1);
    }
  }

  /** The loop over the items. */
  method ExpandItems(items: map<string, int>, book: Book, now: Time)
    returns (r: Result<Expansion, ExpandError>, ghost order: seq<string>)
    ensures r.Success? ==>
      && Enumerates(order, items.Keys)
      && Built(book, Units(items, order), now, r.value.rows, r.value.links)
      && (forall item :: item in items ==> StepsOf(book, item) != [] && (items[item] > 0 ==> AllMachines(StepsOf(book, item))))
      && (r.value.rows == [] <==> forall item :: item in items ==> items[item] <= 0)
    ensures r.Failure? ==>
      || (r.error == RecipeNotFound && exists item :: item in items && StepsOf(book, item) == [])
      || (r.error == MissingMachine && exists item :: item in items && items[item] > 0 && !AllMachines(StepsOf(book, item)))
  {
    order := [];
    var rows: seq<NewTask>, links: seq<Link> := [], [];
    var left := items.Keys;
    while left != {}
      invariant left <= items.Keys && Enumerates(order, items.Keys - left)
      invariant Built(book, Units(items, order), now, rows, links)
      invariant forall item :: item in order ==> StepsOf(book, item) != [] && (items[item] > 0 ==> AllMachines(StepsOf(book, item)))
      invariant rows == [] ==> forall item :: item in order ==> items[item] <= 0
      invariant rows != [] ==> exists item :: item in items && items[item] > 0
      decreases |left|
    {
      assert (forall x :: x !in left) ==> left == {};
      var item :| item in left;
      if StepsOf(book, item) == [] {
        return Failure(RecipeNotFound), order;
      }
      left := left - {item};
      assert (order + [item])[..|order|] == order;
      UnitsGrow(items, order, item);
      if items[item] <= 0 {
        assert Units(items, order) + Times(item, 0) == Units(items, order);
        order := order + [item];
        continue;
      }
      var ok;
      ok, rows, links := ExpandItem(book, item, items[item], now, rows, links, Units(items, order));
      if !ok {
        return Failure(MissingMachine), order;
      }
      RowsNonempty(book, Units(items, order), item, items[item], now);
      order := order + [item];
    }
    r := Success(Expansion(rows, links));
  }

  /** The order of the map iteration is `order`; the outcome depends on it only in the numbering of the blocks. */
  method ExpandOrder(items: map<string, int>, book: Book, now: Time)
    returns (r: Result<Expansion, ExpandError>, ghost order: seq<string>)
    ensures r.Success? <==> Expandable(items, book)
    ensures r.Success? <==>
      && (forall x :: x in items ==> x in book.steps && book.steps[x] != [])
      && (forall x, st :: x in items && items[x] > 0 && x in book.steps && st in book.steps[x] ==> st.machine.Some?)
      && (exists x :: x in items && items[x] > 0)
    ensures r.Success? ==>
      && Enumerates(order, items.Keys)
      && Built(book, Units(items, order), now, r.value.rows, r.value.links)
      && r.value.rows != []
      && (forall x :: x in items ==> multiset(Units(items, order))[x] == if items[x] > 0 then items[x] else 0)
      && |r.value.rows| == TaskTotal(items, book, order)
    ensures r.Failure? ==> r.error != InvalidLink
    ensures r == Failure(ItemsRequired) <==> items == map[]
    ensures r == Failure(RecipeNotFound) ==> exists item :: item in items && StepsOf(book, item) == []
    ensures r == Failure(MissingMachine) ==> exists item :: item in items && items[item] > 0 && !AllMachines(StepsOf(book, item))
    ensures r == Failure(NoTasks) ==> forall item :: item in items ==> items[item] <= 0
  {
    order := [];
    if items == map[] {
      return Failure(ItemsRequired), order;
    }
    var expanded;
    expanded, order := ExpandItems(items, book, now);
    if expanded.Failure? {
      return expanded, order;
    }
    var rows, links := expanded.value.rows, expanded.value.links;
    var valid := LinksValid(links, |rows|);
    if !valid {
      BuiltLinksOk(book, Units(items, order), now, rows, links);
      assert false;
    }
    if |rows| == 0 {
      return Failure(NoTasks), order;
    }
    OrderedUnits(items, order);
    TaskCount(items, book, order, now);
    r := Success(Expansion(rows, links));
  }

  predicate LinkOk(l: Link, n: nat) {
    0 <= l.task < n && 0 <= l.dep < n && l.task != l.dep
  }

  /** The range and self-dependency checks on the derived links. */
  method LinksValid(links: seq<Link>, n: nat) returns (ok: bool)
    ensures ok <==> forall l :: l in links ==> LinkOk(l, n)
  {
    for i := 0 to |links|
      invariant forall j :: 0 <= j < i ==> LinkOk(links[j], n)
    {
      if !LinkOk(links[i], n) {
        assert links[i] in links;
        return false;
      }
    }
    return true;
  }

  /** The links that the loops build never fail the checks. */
  lemma BuiltLinksOk(book: Book, units: seq<string>, now: Time, rows: seq<NewTask>, links: seq<Link>)
    requires Built(book, units, now, rows, links)
    ensures forall l :: l in links ==> LinkOk(l, |rows|)
  {
    RowsForLength(book, units, now);
    LinksForInside(book, units);
  }

  lemma UnitsGrow(items: map<string, int>, order: seq<string>, item: string)
    ensures Units(items, order + [item]) == Units(items, order) + Times(item, Quantity(items, item))
  {
    assert (order + [item])[..|order|] == order;
  }

  lemma RowsNonempty(book: Book, units: seq<string>, item: string, n: nat, now: Time)
    requires n > 0 && StepsOf(book, item) != []
    ensures RowsFor(book, units + Times(item, n), now) != []
  {
    var u := units + Times(item, n);
    assert u[|u| - 1] == item;
  }

  ghost predicate InBlock(book: Book, units: seq<string>, l: Link, i: nat)
    requires i < |units|
  {
    l in BlockLinks(book, units[i], Offset(book, units[..i]))
  }

  lemma {:induction false} LinkInBlock(book: Book, units: seq<string>, l: Link) returns (i: nat)
    requires l in LinksFor(book, units)
    ensures i < |units| && InBlock(book, units, l, i)
  {
    var n := |units| - 1;
    var before := units[..n];
    if l in LinksFor(book, before) {
      i := LinkInBlock(book, before, l);
      assert before[..i] == units[..i] && before[i] == units[i];
    } else {
      i := n;
    }
  }

  /** Every link belongs to one unit and joins two tasks of that unit's block. */
  lemma LinkHasBlock(book: Book, units: seq<string>, l: Link) returns (i: nat)
    requires l in LinksFor(book, units)
    ensures i < |units| && InBlock(book, units, l, i)
    ensures Offset(book, units[..i]) <= l.task < Offset(book, units[..i]) + |StepsOf(book, units[i])|
    ensures Offset(book, units[..i]) <= l.dep < Offset(book, units[..i]) + |StepsOf(book, units[i])|
  {
    i := LinkInBlock(book, units, l);
    BlockLinksInside(book, units[i], Offset(book, units[..i]));
  }

  /** The rows of the i-th unit are its recipe's steps in order. */
  lemma {:induction false} BlockRows(book: Book, units: seq<string>, now: Time, i: nat, j: nat)
    requires i < |units| && units[i] in book.steps && j < |book.steps[units[i]]|
    ensures Offset(book, units[..i]) + j < |RowsFor(book, units, now)|
    ensures var st := book.steps[units[i]][j];
      RowsFor(book, units, now)[Offset(book, units[..i]) + j] ==
        NewTask(st.counter, st.machine, st.estimateSecs, st.basePriority, now)
  {
    var n := |units| - 1;
    var before := units[..n];
    RowsForLength(book, before, now);
    assert RowsFor(book, units, now) == RowsFor(book, before, now) + RowsOf(StepsOf(book, units[n]), now);
    assert before[..i] == units[..i];
    if i < n {
      assert before[i] == units[i];
      BlockRows(book, before, now, i, j);
    }
  }

  lemma LastLinks(book: Book, units: seq<string>, l: Link)
    requires units != []
    ensures var before, item := units[..|units| - 1], units[|units| - 1];
      && (l.task < Offset(book, before) ==> (l in LinksFor(book, units) <==> l in LinksFor(book, before)))
      && (l.task >= Offset(book, before) ==> (l in LinksFor(book, units) <==> l in BlockLinks(book, item, Offset(book, before))))
  {
    LinksForInside(book, units[..|units| - 1]);
    BlockLinksInside(book, units[|units| - 1], Offset(book, units[..|units| - 1]));
  }

  lemma {:induction false} OffsetInside(book: Book, units: seq<string>, i: nat)
    requires i < |units|
    ensures Offset(book, units[..i]) + |StepsOf(book, units[i])| <= Offset(book, units)
  {
    var before := units[..|units| - 1];
    assert before[..i] == units[..i];
    if i < |before| { OffsetInside(book, before, i); }
  }

  lemma {:induction false} LinksOfUnit(book: Book, units: seq<string>, i: nat, l: Link)
    requires i < |units| && Offset(book, units[..i]) <= l.task < Offset(book, units[..i]) + |StepsOf(book, units[i])|
    ensures l in LinksFor(book, units) <==> l in BlockLinks(book, units[i], Offset(book, units[..i]))
  {
    var before := units[..|units| - 1];
    assert before[..i] == units[..i];
    LastLinks(book, units, l);
    if i < |before| {
      OffsetInside(book, before, i);
      LinksOfUnit(book, before, i, l);
    }
  }

  /**
   * The links of the whole order, on the recipes: within the i-th unit a task waits for another
   * as its recipe says (and by LinkHasBlock there are no links between units).
   */
  lemma OrderLinksMean(book: Book, units: seq<string>, i: nat, start: nat, a: nat, b: nat)
    requires i < |units| && start == Offset(book, units[..i])
    requires units[i] in book.steps && DistinctOrders(book.steps[units[i]])
    requires a < |book.steps[units[i]]| && b < |book.steps[units[i]]|
    ensures Link(start + a, start + b) in LinksFor(book, units) <==> TaskWaits(book, units[i], a, b)
  {
    LinksOfUnit(book, units, i, Link(start + a, start + b));
    UnitLinks(book, units[i], start, a, b);
  }

  /** Every unit is one of an item that was ordered at least once. */
  lemma {:induction false} UnitOrigin(items: map<string, int>, order: seq<string>, u: string)
    requires u in Units(items, order)
    ensures u in items && items[u] > 0
  {
    var before, item := order[..|order| - 1], order[|order| - 1];
    if u in Units(items, before) {
      UnitOrigin(items, before, u);
    } else {
      assert u in Times(item, Quantity(items, item));
    }
  }

  /** Every row is a step of the recipe of one of the units. */
  lemma {:induction false} RowOrigin(book: Book, units: seq<string>, now: Time, r: NewTask)
    requires r in RowsFor(book, units, now)
    ensures exists u, st :: u in units && st in StepsOf(book, u) && r == RowOf(st, now)
  {
    var before, item := units[..|units| - 1], units[|units| - 1];
    if r in RowsFor(book, before, now) {
      RowOrigin(book, before, now, r);
      var u, st :| u in before && st in StepsOf(book, u) && r == RowOf(st, now);
      assert u in units;
    } else {
      var rows := RowsOf(StepsOf(book, item), now);
      var i :| 0 <= i < |rows| && rows[i] == r;
      assert item in units && StepsOf(book, item)[i] in StepsOf(book, item);
    }
  }

  // ---------------------------------------------------------------- how many tasks

  lemma {:induction false} UnitsCount(items: map<string, int>, order: seq<string>, item: string)
    requires NoDuplicates(order) && forall x :: x in order ==> x in items
    ensures multiset(Units(items, order))[item] == if item in order && items[item] > 0 then items[item] else 0
  {
    if order != [] {
      var n := |order| - 1;
      var before, last := order[..n], order[n];
      assert order == before + [last];
      UnitsCount(items, before, item);
      TimesCount(last, Quantity(items, last), item);
    }
  }

  lemma {:induction false} TimesCount(x: string, n: nat, item: string)
    ensures multiset(Times(x, n))[item] == if item == x then n else 0
  {
    if n > 0 {
      TimesCount(x, n - 1, item);
      assert Times(x, n) == Times(x, n - 1) + [x];
    }
  }

  /** Every item gets as many units as were ordered, and none if that is not positive. */
  lemma OrderedUnits(items: map<string, int>, order: seq<string>)
    requires Enumerates(order, items.Keys)
    ensures forall x :: x in items ==> multiset(Units(items, order))[x] == if items[x] > 0 then items[x] else 0
    ensures forall x :: x in Units(items, order) ==> x in items
  {
    forall x | x in items ensures multiset(Units(items, order))[x] == if items[x] > 0 then items[x] else 0 {
      UnitsCount(items, order, x);
    }
    forall x | x in Units(items, order) ensures x in items {
      UnitOrigin(items, order, x);
    }
  }

  /** The tasks of the listed items: for each, the ordered quantity times the steps of its recipe. */
  function TaskTotal(items: map<string, int>, book: Book, order: seq<string>): nat {
    if order == [] then 0
    else
      var item := order[|order| - 1];
      TaskTotal(items, book, order[..|order| - 1])
      + if item in items && items[item] > 0 && item in book.steps then items[item] * |book.steps[item]| else 0
  }

  lemma {:induction false} TaskTotalAdds(items: map<string, int>, book: Book, a: seq<string>, b: seq<string>)
    ensures TaskTotal(items, book, a + b) == TaskTotal(items, book, a) + TaskTotal(items, book, b)
    decreases |b|
  {
    if b == [] {
      assert a + b == a;
    } else {
      TaskTotalAdds(items, book, a, b[..|b| - 1]);
      assert (a + b)[..|a + b| - 1] == a + b[..|b| - 1];
    }
  }

  lemma {:induction false} OffsetTimes(book: Book, units: seq<string>, item: string, n: nat)
    ensures Offset(book, units + Times(item, n)) == Offset(book, units) + n * |StepsOf(book, item)|
  {
    if n == 0 {
      assert units + Times(item, 0) == units;
    } else {
      OffsetTimes(book, units, item, n - 1);
      var u, k := units + Times(item, n), |StepsOf(book, item)|;
      assert u[..|u| - 1] == units + Times(item, n - 1) && u[|u| - 1] == item;
      assert Offset(book, u) == Offset(book, units + Times(item, n - 1)) + k;
      assert (n - 1) * k + k == n * k;
    }
  }

  lemma {:induction false} TaskCount(items: map<string, int>, book: Book, order: seq<string>, now: Time)
    ensures |RowsFor(book, Units(items, order), now)| == TaskTotal(items, book, order)
  {
    RowsForLength(book, Units(items, order), now);
    if order != [] {
      var before, item := order[..|order| - 1], order[|order| - 1];
      TaskCount(items, book, before, now);
      RowsForLength(book, Units(items, before), now);
      OffsetTimes(book, Units(items, before), item, Quantity(items, item));
    }
  }

  /** An order of one item makes quantity times steps tasks; for more items the tasks add up. */
  lemma TasksOfOneItem(items: map<string, int>, book: Book, item: string, now: Time)
    requires item in items && items[item] >= 0 && item in book.steps
    ensures |RowsFor(book, Units(items, [item]), now)| == items[item] * |book.steps[item]|
  {
    TaskCount(items, book, [item], now);
    assert [item][..0] == [] && TaskTotal(items, book, []) == 0;
  }

  lemma TasksAddUp(items: map<string, int>, book: Book, a: seq<string>, b: seq<string>, now: Time)
    ensures |RowsFor(book, Units(items, a + b), now)| == |RowsFor(book, Units(items, a), now)| + |RowsFor(book, Units(items, b), now)|
  {
    TaskCount(items, book, a + b, now);
    TaskCount(items, book, a, now);
    TaskCount(items, book, b, now);
    TaskTotalAdds(items, book, a, b);
  }

  // ---------------------------------------------------------------- cycles

  /** The pairs of a recipe that become links: both steps known and different. */
  function RecipeGraph(book: Book, item: string): set<Link> {
    var steps := StepsOf(book, item);
    set p | p in StepPairs(steps, ExplicitOf(book, item), book.capacity)
            && p.task in ByOrder(steps) && p.dep in ByOrder(steps) && p.task != p.dep
  }

  /** A one-to-one renaming of the nodes carries links over and back. */
  ghost predicate Renamed(from: set<Link>, to: set<Link>, f: map<int, int>) {
    && (forall l :: l in from ==> l.task in f && l.dep in f && Link(f[l.task], f[l.dep]) in to)
  }

  lemma RenamedCycle(from: set<Link>, to: set<Link>, f: map<int, int>)
    requires Renamed(from, to, f) && Acyclic(to)
    ensures Acyclic(from)
  {
    forall p ensures !Cycle(from, p) {
      if Cycle(from, p) {
        forall i: nat | i < |p| ensures p[i] in f {
          assert i + 1 < |p| ==> Hop(from, p, i);
          assert i > 0 ==> Hop(from, p, i - 1);
        }
        var q := seq(|p|, i requires 0 <= i < |p| => f[p[i]]);
        forall i: nat | i + 1 < |q| ensures Hop(to, q, i) {
          assert Hop(from, p, i);
        }
        assert Cycle(to, q);
      }
    }
  }

  lemma RenamedReaches(from: set<Link>, to: set<Link>, f: map<int, int>, x: int, y: int)
    requires Renamed(from, to, f) && Reaches(from, x, y) && x in f && y in f
    ensures Reaches(to, f[x], f[y])
  {
    var p :| Walk(from, p) && p[0] == x && p[|p| - 1] == y;
    forall i: nat | i < |p| ensures p[i] in f {
      assert i > 0 ==> Hop(from, p, i - 1);
    }
    var q := seq(|p|, i requires 0 <= i < |p| => f[p[i]]);
    forall i: nat | i + 1 < |q| ensures Hop(to, q, i) {
      assert Hop(from, p, i);
    }
    assert Walk(to, q);
  }

  /** The step order at each position of a block. */
  function StepAt(steps: seq<RecipeStep>, start: nat): map<int, int> {
    map i: int | start <= i < start + |steps| :: OrderAt(steps, start, i)
  }

  function OrderAt(steps: seq<RecipeStep>, start: nat, i: int): int
    requires start <= i < start + |steps|
  {
    steps[i - start].stepOrder
  }

  lemma RecipeToBlock(book: Book, item: string, start: nat)
    ensures Renamed(RecipeGraph(book, item), BlockLinks(book, item, start), IndexOf(StepsOf(book, item), start))
  {
    var steps := StepsOf(book, item);
    var index := IndexOf(steps, start);
    forall p | p in RecipeGraph(book, item)
      ensures p.task in index && p.dep in index && Link(index[p.task], index[p.dep]) in BlockLinks(book, item, start)
    {
      IndexPosition(steps, start, p.task);
      IndexPosition(steps, start, p.dep);
      assert Kept(index, p) && Mapped(index, p) == Link(index[p.task], index[p.dep]);
    }
  }

  lemma PairBack(steps: seq<RecipeStep>, start: nat, p: Link)
    requires Kept(IndexOf(steps, start), p)
    ensures var l, back := Mapped(IndexOf(steps, start), p), StepAt(steps, start);
      l.task in back && l.dep in back && Link(back[l.task], back[l.dep]) == p
  {
    PositionBack(steps, start, p.task);
    PositionBack(steps, start, p.dep);
  }

  lemma PositionBack(steps: seq<RecipeStep>, start: nat, so: int)
    requires so in IndexOf(steps, start)
    ensures IndexOf(steps, start)[so] in StepAt(steps, start)
    ensures StepAt(steps, start)[IndexOf(steps, start)[so]] == so
  {
    IndexPosition(steps, start, so);
  }

  lemma BlockToRecipe(book: Book, item: string, start: nat)
    ensures Renamed(BlockLinks(book, item, start), RecipeGraph(book, item), StepAt(StepsOf(book, item), start))
  {
    var steps := StepsOf(book, item);
    var index, back := IndexOf(steps, start), StepAt(steps, start);
    var pairs := StepPairs(steps, ExplicitOf(book, item), book.capacity);
    forall l | l in Image(index, pairs)
      ensures l.task in back && l.dep in back && Link(back[l.task], back[l.dep]) in RecipeGraph(book, item)
    {
      var p :| p in pairs && Kept(index, p) && l == Mapped(index, p);
      PairBack(steps, start, p);
    }
  }

  /** The block of an item has a cycle exactly when its recipe has one. */
  lemma BlockAcyclic(book: Book, item: string, start: nat)
    ensures Acyclic(BlockLinks(book, item, start)) <==> Acyclic(RecipeGraph(book, item))
  {
    RecipeToBlock(book, item, start);
    BlockToRecipe(book, item, start);
    if Acyclic(BlockLinks(book, item, start)) {
      RenamedCycle(RecipeGraph(book, item), BlockLinks(book, item, start), IndexOf(StepsOf(book, item), start));
    }
    if Acyclic(RecipeGraph(book, item)) {
      RenamedCycle(BlockLinks(book, item, start), RecipeGraph(book, item), StepAt(StepsOf(book, item), start));
    }
  }

  lemma {:induction false} WalkStaysLow(low: set<Link>, high: set<Link>, n: int, p: seq<int>)
    requires Walk(low + high, p) && p[0] < n
    requires (forall l :: l in low ==> l.task < n && l.dep < n) && forall l :: l in high ==> l.task >= n && l.dep >= n
    ensures Walk(low, p)
    ensures forall i :: 0 <= i < |p| ==> p[i] < n
    decreases |p|
  {
    if |p| > 1 {
      SubWalk(low + high, p, 0, |p| - 1);
      WalkStaysLow(low, high, n, p[0..|p| - 1]);
      assert Hop(low + high, p, |p| - 2);
      assert p[0..|p| - 1][|p| - 2] < n;
      forall i: nat | i + 1 < |p| ensures Hop(low, p, i) {
        if i + 1 < |p| - 1 { assert Hop(low, p[0..|p| - 1], i); }
      }
      forall i | 0 <= i < |p| ensures p[i] < n {
        if i < |p| - 1 { assert p[0..|p| - 1][i] < n; }
      }
    }
  }

  lemma {:induction false} WalkStaysHigh(low: set<Link>, high: set<Link>, n: int, p: seq<int>)
    requires Walk(low + high, p) && p[0] >= n
    requires (forall l :: l in low ==> l.task < n && l.dep < n) && forall l :: l in high ==> l.task >= n && l.dep >= n
    ensures Walk(high, p)
    ensures forall i :: 0 <= i < |p| ==> p[i] >= n
    decreases |p|
  {
    if |p| > 1 {
      SubWalk(low + high, p, 0, |p| - 1);
      WalkStaysHigh(low, high, n, p[0..|p| - 1]);
      assert Hop(low + high, p, |p| - 2);
      assert p[0..|p| - 1][|p| - 2] >= n;
      forall i: nat | i + 1 < |p| ensures Hop(high, p, i) {
        if i + 1 < |p| - 1 { assert Hop(high, p[0..|p| - 1], i); }
      }
      forall i | 0 <= i < |p| ensures p[i] >= n {
        if i < |p| - 1 { assert p[0..|p| - 1][i] >= n; }
      }
    }
  }

  lemma BiggerGraph(small: set<Link>, big: set<Link>)
    requires small <= big && Acyclic(big)
    ensures Acyclic(small)
  {
    forall p ensures !Cycle(small, p) {
      if Cycle(small, p) {
        forall i: nat | i + 1 < |p| ensures Hop(big, p, i) { assert Hop(small, p, i); }
        assert Cycle(big, p);
      }
    }
  }

  /** Two graphs on disjoint ranges of nodes. */
  lemma SplitAcyclic(low: set<Link>, high: set<Link>, n: int)
    requires (forall l :: l in low ==> l.task < n && l.dep < n) && forall l :: l in high ==> l.task >= n && l.dep >= n
    ensures Acyclic(low + high) <==> Acyclic(low) && Acyclic(high)
  {
    if Acyclic(low + high) {
      BiggerGraph(low, low + high);
      BiggerGraph(high, low + high);
    }
    if Acyclic(low) && Acyclic(high) {
      forall p ensures !Cycle(low + high, p) {
        if Cycle(low + high, p) {
          if p[0] < n {
            WalkStaysLow(low, high, n, p);
            assert Cycle(low, p);
          } else {
            WalkStaysHigh(low, high, n, p);
            assert Cycle(high, p);
          }
        }
      }
    }
  }

  /** The graph of a whole order has no cycle exactly when no recipe in it has one. */
  lemma {:induction false} OrderAcyclic(book: Book, units: seq<string>)
    ensures Acyclic(LinksFor(book, units)) <==> forall u :: u in units ==> Acyclic(RecipeGraph(book, u))
  {
    if units == [] {
      DescendingAcyclic({});
    } else {
      var before, item := units[..|units| - 1], units[|units| - 1];
      OrderAcyclic(book, before);
      OneMoreUnit(book, before, item);
      assert units == before + [item];
    }
  }

  lemma OneMoreUnit(book: Book, before: seq<string>, item: string)
    ensures Acyclic(LinksFor(book, before + [item])) <==>
      Acyclic(LinksFor(book, before)) && Acyclic(RecipeGraph(book, item))
  {
    var units := before + [item];
    assert units[..|units| - 1] == before && units[|units| - 1] == item;
    LinksForInside(book, before);
    BlockLinksInside(book, item, Offset(book, before));
    SplitAcyclic(LinksFor(book, before), BlockLinks(book, item, Offset(book, before)), Offset(book, before));
    BlockAcyclic(book, item, Offset(book, before));
  }

  /** An order whose items have no explicit dependency rows always gets an acyclic graph. */
  lemma InferredOrderAcyclic(book: Book, units: seq<string>)
    requires forall u :: u in units ==> ExplicitOf(book, u) == map[]
    ensures Acyclic(LinksFor(book, units))
  {
    OrderAcyclic(book, units);
    forall u | u in units ensures Acyclic(RecipeGraph(book, u)) {
      FallbackAcyclic(ByOrder(StepsOf(book, u)), book.capacity);
      BiggerGraph(RecipeGraph(book, u), FallbackPairs(ByOrder(StepsOf(book, u)), book.capacity));
    }
  }
}
