/** The in-memory ready queue: a map from task id to score, popped in (score, id text) order. */
module ReadyQueue {
  import opened Model
  import opened TaskKeys
  import opened ReadyOrder

  // ---------------------------------------------------------------- sorting the entries

  ghost predicate SortedEntries(list: seq<Entry>) {
    forall i, j :: 0 <= i < j < |list| ==> EntryLess(list[i], list[j])
  }

  /** `list` has one entry for every key of `q`, with its score. */
  ghost predicate Lists(q: map<TaskId, real>, list: seq<Entry>) {
    && (forall e :: e in list ==> e.id in q && e.score == q[e.id])
    && (forall t :: t in q ==> Entry(t, q[t]) in list)
    && (forall i, j :: 0 <= i < j < |list| ==> list[i].id != list[j].id)
  }

  lemma InsertKeepsSorted(s: seq<Entry>, j: nat, e: Entry)
    requires SortedEntries(s) && j <= |s|
    requires j > 0 ==> EntryLess(s[j - 1], e)
    requires forall m :: j <= m < |s| ==> EntryLess(e, s[m])
    ensures SortedEntries(s[..j] + [e] + s[j..])
  {
    forall m | 0 <= m < j ensures EntryLess(s[m], e) {
      if m < j - 1 { EntryLessTransitive(s[m], s[j - 1], e); }
    }
  }

  /** sort.Slice on entries with distinct ids. */
  method SortEntries(list: seq<Entry>) returns (sorted: seq<Entry>)
    requires forall i, j :: 0 <= i < j < |list| ==> list[i].id != list[j].id
    ensures SortedEntries(sorted)
    ensures forall e :: e in sorted <==> e in list
  {
    sorted := [];
    for i := 0 to |list|
      invariant SortedEntries(sorted) && forall e :: e in sorted <==> e in list[..i]
    {
      var e := list[i];
      var j := |sorted|;
      forall m | 0 <= m < |sorted| ensures sorted[m].id != e.id {
        assert sorted[m] in list[..i];
      }
      while j > 0 && EntryLess(e, sorted[j - 1])
        invariant 0 <= j <= |sorted|
        invariant forall m :: j <= m < |sorted| ==> EntryLess(e, sorted[m])
      {
        j := j - 1;
      }
      if j > 0 { EntryLessTotal(sorted[j - 1], e); }
      InsertKeepsSorted(sorted, j, e);
      assert list[..i + 1] == list[..i] + [e];
      assert sorted == sorted[..j] + sorted[j..];
      sorted := sorted[..j] + [e] + sorted[j..];
    }
    assert list[..|list|] == list;
  }

  function IdsOf(list: seq<Entry>): (s: seq<TaskId>)
    ensures |s| == |list| && forall i :: 0 <= i < |s| ==> s[i] == list[i].id
  {
    seq(|list|, i requires 0 <= i < |list| => list[i].id)
  }

  lemma {:induction false} DistinctCount(list: seq<Entry>, keys: set<TaskId>)
    requires forall i, j :: 0 <= i < j < |list| ==> list[i].id != list[j].id
    requires forall t :: t in keys <==> exists i :: 0 <= i < |list| && list[i].id == t
    ensures |list| == |keys|
  {
    if list == [] {
      assert keys == {};
    } else {
      var n := |list| - 1;
      assert list[n].id in keys;
      forall t ensures t in keys - {list[n].id} <==> exists i :: 0 <= i < |list[..n]| && list[..n][i].id == t {
        if exists i :: 0 <= i < |list[..n]| && list[..n][i].id == t {
          var i :| 0 <= i < |list[..n]| && list[..n][i].id == t;
          assert list[i].id == t;
        }
      }
      DistinctCount(list[..n], keys - {list[n].id});
    }
  }

  lemma SortedListing(q: map<TaskId, real>, entries: seq<Entry>, list: seq<Entry>)
    requires SortedEntries(list) && Lists(q, entries) && forall e :: e in list <==> e in entries
    ensures IsOrdering(q, IdsOf(list))
  {
    var s := IdsOf(list);
    forall i | 0 <= i < |s| ensures s[i] in q && list[i] == Entry(s[i], q[s[i]]) {
      assert list[i] in list;
    }
    forall t | t in q ensures exists i :: 0 <= i < |list| && list[i].id == t {
      assert Entry(t, q[t]) in list;
    }
    assert forall t :: t in s <==> t in q by {
      forall t | t in q ensures t in s {
        var i :| 0 <= i < |list| && list[i].id == t;
        assert s[i] == t;
      }
    }
    forall i, j | 0 <= i < j < |list| ensures list[i].id != list[j].id {
      EntryLessTotal(list[i], list[j]);
      assert list[i] != list[j];
    }
    DistinctCount(list, q.Keys);
    assert forall i: nat, j: nat :: i < j < |s| ==> InOrder(q, s, i, j);
  }

  lemma ListsGrow(q: map<TaskId, real>, list: seq<Entry>, id: TaskId, score: real)
    requires Lists(q, list) && id !in q
    ensures Lists(q[id := score], list + [Entry(id, score)])
  {
    var q' := q[id := score];
    var list' := list + [Entry(id, score)];
    forall t | t in q' ensures Entry(t, q'[t]) in list' {
      if t != id { assert Entry(t, q[t]) in list; }
    }
    forall i, j | 0 <= i < j < |list'| ensures list'[i].id != list'[j].id {
      assert list'[i] in list;
    }
  }

  lemma DeleteOne(q: map<TaskId, real>, out: seq<TaskId>, id: TaskId)
    ensures Without(q, out) - {id} == Without(q, out + [id])
  {
  }

  class InMemoryReadyQueue {
    var items: map<TaskId, real>

    constructor ()
      ensures items == map[]
    {
      items := map[];
    }

    method Enqueue(t: TaskId, score: real)
      modifies this
      ensures items == old(items)[t := score]
    {
      items := items[t := score];
    }

    method PopTopN(n: int) returns (out: seq<TaskId>)
      modifies this
      ensures out == TopN(old(items), n)
      ensures items == Without(old(items), out)
      ensures |out| == if n <= 0 then 0 else if n < |old(items)| then n else |old(items)|
      ensures forall i, j :: 0 <= i < j < |out| ==>
        && out[i] in old(items) && out[j] in old(items) && out[i] != out[j]
        && (|| old(items)[out[i]] < old(items)[out[j]]
            || (old(items)[out[i]] == old(items)[out[j]] && TextLess(FormatUint(out[i]), FormatUint(out[j]))))
      ensures forall t, u :: t in out && u in items ==>
        && t in old(items) && u in old(items)
        && (|| old(items)[t] < old(items)[u]
            || (old(items)[t] == old(items)[u] && TextLess(FormatUint(t), FormatUint(u))))
      ensures forall t :: t in items <==> t in old(items) && t !in out
      ensures forall t :: t in items ==> items[t] == old(items)[t]
    {
      TopNMeans(items, n);
      out := [];
      if n <= 0 {
        assert items == Without(items, []);
        return;
      }
      var list := SortedList();
      var limit := n;
      if |list| < limit {
        limit := |list|;
      }
      ghost var ids := IdsOf(list);
      TopNOf(items, ids, n);
      assert items == Without(items, []);
      for i := 0 to limit
        invariant out == ids[..i]
        invariant items == Without(old(items), out)
      {
        DeleteOne(old(items), out, list[i].id);
        out := out + [list[i].id];
        items := items - {list[i].id};
      }
    }

    method SortedList() returns (list: seq<Entry>)
      ensures IsOrdering(items, IdsOf(list))
    {
      var entries := ListEntries();
      list := SortEntries(entries);
      SortedListing(items, entries, list);
    }

    /** The entries of the map, in whatever order the map yields them. */
    method ListEntries() returns (list: seq<Entry>)
      ensures Lists(items, list)
    {
      list := [];
      var left := items.Keys;
      ghost var done: map<TaskId, real> := map[];
      while left != {}
        invariant left <= items.Keys
        invariant done.Keys == items.Keys - left && forall t :: t in done ==> done[t] == items[t]
        invariant Lists(done, list)
        decreases |left|
      {
        var id :| id in left;
        ListsGrow(done, list, id, items[id]);
        list := list + [Entry(id, items[id])];
        done := done[id := items[id]];
        left := left - {id};
      }
      assert done == items;
    }
  }
}
