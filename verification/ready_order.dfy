/** The order in which the ready queue hands out its entries: by score, then by the id's text. */
module ReadyOrder {
  import opened Model
  import opened Collections
  import opened TaskKeys

  datatype Entry = Entry(id: TaskId, score: real)

  /** The comparison handed to sort.Slice. */
  predicate EntryLess(a: Entry, b: Entry) {
    if a.score == b.score then KeyLess(a.id, b.id) else a.score < b.score
  }

  lemma EntryLessTotal(a: Entry, b: Entry)
    ensures a.id != b.id ==> EntryLess(a, b) != EntryLess(b, a)
    ensures EntryLess(a, b) ==> !EntryLess(b, a)
    ensures !EntryLess(a, a)
  {
    KeyLessTotal(a.id, b.id);
  }

  lemma EntryLessTransitive(a: Entry, b: Entry, c: Entry)
    requires EntryLess(a, b) && EntryLess(b, c)
    ensures EntryLess(a, c)
  {
    if a.score == b.score == c.score { KeyLessTransitive(a.id, b.id, c.id); }
  }

  /** The i-th id of `r` leaves the queue before the j-th. */
  predicate InOrder(q: map<TaskId, real>, r: seq<TaskId>, i: nat, j: nat)
    requires i < |r| && j < |r| && r[i] in q && r[j] in q
  {
    EntryLess(Entry(r[i], q[r[i]]), Entry(r[j], q[r[j]]))
  }

  /** `r` lists the keys of `q`, each before all later ones. */
  ghost predicate IsOrdering(q: map<TaskId, real>, r: seq<TaskId>) {
    && |r| == |q|
    && (forall t :: t in r <==> t in q)
    && (forall i: nat, j: nat :: i < j < |r| ==> InOrder(q, r, i, j))
  }

  /** `a` may be put in front of the ordering `r` of the other keys if it comes before them. */
  lemma PrependOrdering(q: map<TaskId, real>, a: TaskId, r: seq<TaskId>)
    requires a in q && IsOrdering(q - {a}, r)
    requires forall b :: b in q && b != a ==> EntryLess(Entry(a, q[a]), Entry(b, q[b]))
    ensures IsOrdering(q, [a] + r)
  {
    var s := [a] + r;
    assert (q - {a}).Keys == q.Keys - {a};
    forall i | 0 <= i < |s| ensures s[i] in s && s[i] in q {
      if i > 0 {
        assert s[i] == r[i - 1] && r[i - 1] in r && r[i - 1] in q - {a};
      }
    }
    forall i: nat, j: nat | i < j < |s| ensures InOrder(q, s, i, j) {
      assert s[j] == r[j - 1] && r[j - 1] in r && r[j - 1] in q - {a};
      if i > 0 {
        assert s[i] == r[i - 1] && r[i - 1] in r && r[i - 1] in q - {a};
        assert InOrder(q - {a}, r, i - 1, j - 1);
      }
    }
  }

  /** The least key of a nonempty queue. */
  lemma LeastKey(q: map<TaskId, real>) returns (a: TaskId)
    requires q != map[]
    ensures a in q && forall b :: b in q && b != a ==> EntryLess(Entry(a, q[a]), Entry(b, q[b]))
    decreases |q.Keys|
  {
    var x :| x in q;
    var rest := q - {x};
    assert rest.Keys == q.Keys - {x};
    if rest == map[] {
      assert forall b :: b in q && b != x ==> b in rest.Keys;
      a := x;
    } else {
      a := LeastKey(rest);
      EntryLessTotal(Entry(x, q[x]), Entry(a, q[a]));
      assert forall b :: b in q && b != x ==> b in rest && rest[b] == q[b];
      if EntryLess(Entry(x, q[x]), Entry(a, q[a])) {
        forall b | b in q && b != x && b != a ensures EntryLess(Entry(x, q[x]), Entry(b, q[b])) {
          EntryLessTransitive(Entry(x, q[x]), Entry(a, q[a]), Entry(b, q[b]));
        }
        a := x;
      }
    }
  }

  lemma {:induction false} OrderingExists(q: map<TaskId, real>) returns (r: seq<TaskId>)
    ensures IsOrdering(q, r)
    decreases |q.Keys|
  {
    r := [];
    if q != map[] {
      var a := LeastKey(q);
      assert (q - {a}).Keys == q.Keys - {a};
      var rest := OrderingExists(q - {a});
      PrependOrdering(q, a, rest);
      r := [a] + rest;
    }
  }

  lemma DistinctOrdering(q: map<TaskId, real>, r: seq<TaskId>)
    requires IsOrdering(q, r)
    ensures NoDuplicates(r)
  {
    forall i, j | 0 <= i < j < |r| ensures r[i] != r[j] {
      assert InOrder(q, r, i, j);
      EntryLessTotal(Entry(r[i], q[r[i]]), Entry(r[j], q[r[j]]));
    }
  }

  lemma RestKeys(q: map<TaskId, real>, r: seq<TaskId>, n: nat)
    requires NoDuplicates(r) && n <= |r| && forall t :: t in r <==> t in q
    ensures forall t :: t in r[n..] <==> t in Without(q, r[..n])
  {
    assert r == r[..n] + r[n..];
    forall t | t in r[n..] ensures t in Without(q, r[..n]) {
      var j :| n <= j < |r| && r[j] == t;
      assert forall i :: 0 <= i < n ==> r[i] != r[j];
    }
  }

  lemma DropOrdering(q: map<TaskId, real>, r: seq<TaskId>, n: nat)
    requires IsOrdering(q, r) && n <= |r|
    ensures IsOrdering(Without(q, r[..n]), r[n..])
  {
    DistinctOrdering(q, r);
    RestKeys(q, r, n);
    assert forall t :: t in r[..n] ==> t in r;
    WithoutSize(q, r[..n]);
    var rest, tail := Without(q, r[..n]), r[n..];
    forall i: nat, j: nat | i < j < |tail| ensures InOrder(rest, tail, i, j) {
      assert tail[i] in tail && tail[j] in tail;
      assert InOrder(q, r, n + i, n + j);
    }
  }

  lemma {:induction false} WithoutSize(q: map<TaskId, real>, s: seq<TaskId>)
    requires NoDuplicates(s) && forall t :: t in s ==> t in q
    ensures |Without(q, s)| == |q| - |s|
  {
    if s == [] {
      assert Without(q, s) == q;
    } else {
      var n := |s| - 1;
      assert s == s[..n] + [s[n]];
      WithoutSize(q, s[..n]);
      assert Without(q, s).Keys == Without(q, s[..n]).Keys - {s[n]};
    }
  }

  lemma SameHead(q: map<TaskId, real>, r: seq<TaskId>, s: seq<TaskId>)
    requires IsOrdering(q, r) && IsOrdering(q, s) && r != []
    ensures s != [] && r[0] == s[0]
  {
    assert s[0] in s && r[0] in r;
    var i :| 0 <= i < |r| && r[i] == s[0];
    var j :| 0 <= j < |s| && s[j] == r[0];
    assert i > 0 ==> InOrder(q, r, 0, i);
    assert j > 0 ==> InOrder(q, s, 0, j);
    EntryLessTotal(Entry(r[0], q[r[0]]), Entry(s[0], q[s[0]]));
  }

  /** The order is unique. */
  lemma {:induction false} OrderingUnique(q: map<TaskId, real>, r: seq<TaskId>, s: seq<TaskId>)
    requires IsOrdering(q, r) && IsOrdering(q, s)
    ensures r == s
    decreases |r|
  {
    if r != [] {
      SameHead(q, r, s);
      DropOrdering(q, r, 1);
      DropOrdering(q, s, 1);
      assert r[..1] == s[..1];
      OrderingUnique(Without(q, r[..1]), r[1..], s[1..]);
      assert r == r[..1] + r[1..] && s == s[..1] + s[1..];
    }
  }

  /** All keys of the queue, in the order in which they leave it. */
  ghost function Ordered(q: map<TaskId, real>): (r: seq<TaskId>)
    ensures IsOrdering(q, r)
  {
    assert exists r :: IsOrdering(q, r) by { var r := OrderingExists(q); }
    var r :| IsOrdering(q, r);
    r
  }

  /** The ids PopTopN(n) returns. */
  ghost function TopN(q: map<TaskId, real>, n: int): (r: seq<TaskId>)
    ensures forall t :: t in r ==> t in q
  {
    if n <= 0 then [] else Ordered(q)[..if n < |q| then n else |q|]
  }

  /** The queue after the ids of `s` were deleted. */
  function Without(q: map<TaskId, real>, s: seq<TaskId>): map<TaskId, real> {
    map t | t in q && t !in s :: q[t]
  }

  lemma TopNOf(q: map<TaskId, real>, r: seq<TaskId>, n: nat)
    requires IsOrdering(q, r)
    ensures TopN(q, n) == r[..if n < |r| then n else |r|]
  {
    OrderingUnique(q, r, Ordered(q));
  }

  lemma JoinSlices(r: seq<TaskId>, k: nat, m: nat)
    requires k + m <= |r|
    ensures r[..k + m] == r[..k] + r[k..][..m]
  {
  }

  /** Popping in two calls hands out the same ids in the same order as popping once. */
  lemma PopTwice(q: map<TaskId, real>, a: nat, b: nat)
    ensures TopN(q, a + b) == TopN(q, a) + TopN(Without(q, TopN(q, a)), b)
  {
    var r := OrderingExists(q);
    var k := if a < |r| then a else |r|;
    TopNOf(q, r, a);
    TopNOf(q, r, a + b);
    DropOrdering(q, r, k);
    var rest := Without(q, r[..k]);
    TopNOf(rest, r[k..], b);
    var m := if b < |r[k..]| then b else |r[k..]|;
    JoinSlices(r, k, m);
  }

  /** PopTopN returns min(n, size) distinct ids, each strictly before every id that stays. */
  lemma TopNIsLeast(q: map<TaskId, real>, n: nat)
    ensures |TopN(q, n)| == if n < |q| then n else |q|
    ensures NoDuplicates(TopN(q, n))
    ensures forall a, b :: a in TopN(q, n) && b in Without(q, TopN(q, n)) ==> EntryLess(Entry(a, q[a]), Entry(b, q[b]))
  {
    var r := Ordered(q);
    var out := TopN(q, n);
    var k := |out|;
    assert out == r[..k];
    DistinctOrdering(q, r);
    DropOrdering(q, r, k);
    forall a, b | a in out && b in Without(q, out) ensures EntryLess(Entry(a, q[a]), Entry(b, q[b])) {
      var i :| 0 <= i < k && r[i] == a;
      assert b in r[k..];
      var j :| k <= j < |r| && r[j] == b;
      assert InOrder(q, r, i, j);
    }
  }

  /** In scores and texts: the popped ids come in order, and before all that stay. */
  lemma TopNMeans(q: map<TaskId, real>, n: int)
    ensures var out := TopN(q, n);
      && |out| == (if n <= 0 then 0 else if n < |q| then n else |q|)
      && (forall i, j :: 0 <= i < j < |out| ==>
            && out[i] in q && out[j] in q && out[i] != out[j]
            && (q[out[i]] < q[out[j]] || (q[out[i]] == q[out[j]] && TextLess(FormatUint(out[i]), FormatUint(out[j])))))
      && (forall t, u :: t in out && u in q && u !in out ==>
            t in q && (q[t] < q[u] || (q[t] == q[u] && TextLess(FormatUint(t), FormatUint(u)))))
  {
    var out := TopN(q, n);
    if n > 0 {
      TopNIsLeast(q, n);
      forall i, j | 0 <= i < j < |out|
        ensures out[i] in q && out[j] in q && out[i] != out[j]
        ensures q[out[i]] < q[out[j]] || (q[out[i]] == q[out[j]] && TextLess(FormatUint(out[i]), FormatUint(out[j])))
      {
        assert out[i] == Ordered(q)[i] && out[j] == Ordered(q)[j] && InOrder(q, Ordered(q), i, j);
        EntryLessTotal(Entry(out[i], q[out[i]]), Entry(out[j], q[out[j]]));
      }
      forall t, u | t in out && u in q && u !in out
        ensures t in q && (q[t] < q[u] || (q[t] == q[u] && TextLess(FormatUint(t), FormatUint(u))))
      {
        assert u in Without(q, out) && EntryLess(Entry(t, q[t]), Entry(u, q[u]));
      }
    }
  }

  /** The ids that leave the queue before `t`. */
  function Before(q: map<TaskId, real>, t: TaskId): set<TaskId>
    requires t in q
  {
    set u | u in q && EntryLess(Entry(u, q[u]), Entry(t, q[t]))
  }

  /** An enqueued id is among the next n popped exactly when fewer than n others come before it. */
  lemma PoppedIff(q: map<TaskId, real>, t: TaskId, score: real, n: nat)
    ensures t in TopN(q[t := score], n) <==> |Before(q[t := score], t)| < n
  {
    var q' := q[t := score];
    var out := TopN(q', n);
    var popped := set u | u in out;
    TopNIsLeast(q', n);
    ListingSize(out, popped);
    forall u | u in q' ensures !(EntryLess(Entry(u, q'[u]), Entry(t, q'[t])) && EntryLess(Entry(t, q'[t]), Entry(u, q'[u]))) {
      EntryLessTotal(Entry(u, q'[u]), Entry(t, q'[t]));
    }
    if t in out {
      EntryLessTotal(Entry(t, q'[t]), Entry(t, q'[t]));
      assert forall u :: u in q' && u !in out ==> u in Without(q', out);
      assert Before(q', t) <= popped - {t};
      SubsetSize(Before(q', t), popped - {t});
    } else {
      assert t in Without(q', out);
      assert popped <= Before(q', t);
      SubsetSize(popped, Before(q', t));
      PoppedAll(q', out, popped, t);
    }
  }

  /** If an id stays, the batch is full. */
  lemma PoppedAll(q: map<TaskId, real>, out: seq<TaskId>, popped: set<TaskId>, t: TaskId)
    requires t in q && t !in popped && popped <= q.Keys && |out| == |popped|
    ensures |out| < |q|
  {
    SubsetSize(popped, q.Keys);
    assert |q.Keys| == |q|;
  }
}
