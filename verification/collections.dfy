/** Small facts about finite sets and maps, and the database's ways of picking from them. */
module Collections {
  import opened Model

  lemma SubsetSize<T>(a: set<T>, b: set<T>)
    requires a <= b
    ensures |a| <= |b|
    ensures |a| == |b| ==> a == b
  {
    assert b == a + (b - a);
    assert |b - a| == 0 ==> b - a == {};
  }

  /** A sequence without its last element. */
  lemma SplitLast<T>(s: seq<T>)
    requires s != []
    ensures var n := |s| - 1;
      && (forall x :: x in s <==> x in s[..n] || x == s[n])
      && multiset(s[..n]) == multiset(s) - multiset{s[n]}
      && (NoDuplicates(s) ==> NoDuplicates(s[..n]) && s[n] !in s[..n])
  {
    var n := |s| - 1;
    assert s == s[..n] + [s[n]];
  }

  lemma {:induction false} ListingSize<T(!new)>(s: seq<T>, xs: set<T>)
    requires Enumerates(s, xs)
    ensures |s| == |xs|
    decreases |s|
  {
    if s == [] {
      assert xs == {};
    } else {
      var n := |s| - 1;
      assert s == s[..n] + [s[n]];
      ListingSize(s[..n], xs - {s[n]});
    }
  }

  /** There is always an unused id. */
  lemma FreshId<T>(m: map<nat, T>) returns (id: nat)
    ensures id > 0 && id !in m
  {
    id := 1;
    ghost var below: set<nat> := {};
    while id in m
      invariant id > 0 && below <= m.Keys && |below| == id - 1 && forall x :: x in below ==> x < id
      decreases |m.Keys| - |below|
    {
      assert id !in below;
      below := below + {id};
      SubsetSize(below, m.Keys);
      id := id + 1;
    }
  }

  /** The rows of a set in no particular order. */
  method Listing(rows: set<nat>) returns (s: seq<nat>)
    ensures Enumerates(s, rows)
  {
    s := [];
    var left := rows;
    while left != {}
      invariant left <= rows && Enumerates(s, rows - left)
      decreases |left|
    {
      var t :| t in left;
      s := s + [t];
      left := left - {t};
    }
  }

  method LeastId(rows: set<nat>) returns (t: nat)
    requires rows != {}
    ensures t in rows && forall u :: u in rows ==> t <= u
  {
    t :| t in rows;
    var left := rows - {t};
    while left != {}
      invariant t in rows && left <= rows
      invariant forall u :: u in rows && u !in left ==> t <= u
      decreases |left|
    {
      var u :| u in left;
      if u < t {
        t := u;
      }
      left := left - {u};
    }
  }

  // ---------------------------------------------------------------- sums and groups

  ghost function AnyKey(m: map<nat, nat>): (k: nat)
    requires m != map[]
    ensures k in m
  {
    var k :| k in m;
    k
  }

  /** The sum of the values. */
  ghost function Sum(m: map<nat, nat>): nat
    decreases |m|
  {
    if m == map[] then 0
    else
      var k := AnyKey(m);
      assert (m - {k}).Keys == m.Keys - {k};
      m[k] + Sum(m - {k})
  }

  /** The members of `ts` that `f` sends to `k`. */
  function Group(ts: set<nat>, f: map<nat, nat>, k: nat): set<nat> {
    set t | t in ts && t in f && f[t] == k
  }

  lemma GroupSplit(ts: set<nat>, f: map<nat, nat>, k: nat)
    ensures |ts| == |ts - Group(ts, f, k)| + |Group(ts, f, k)|
  {
    assert ts == (ts - Group(ts, f, k)) + Group(ts, f, k);
  }

  lemma GroupsElsewhere(ts: set<nat>, f: map<nat, nat>, k: nat, j: nat)
    requires j != k
    ensures Group(ts - Group(ts, f, k), f, j) == Group(ts, f, j)
  {
  }

  /** If no group is larger than its allowance, all together are no more than the sum. */
  lemma {:induction false} GroupsFit(ts: set<nat>, f: map<nat, nat>, m: map<nat, nat>)
    requires forall t :: t in ts ==> t in f && f[t] in m
    requires forall k :: k in m ==> |Group(ts, f, k)| <= m[k]
    ensures |ts| <= Sum(m)
    decreases |m|
  {
    if m == map[] {
      assert ts == {};
    } else {
      var k := AnyKey(m);
      var rest := ts - Group(ts, f, k);
      assert (m - {k}).Keys == m.Keys - {k};
      forall j | j in m - {k} ensures |Group(rest, f, j)| <= (m - {k})[j] {
        GroupsElsewhere(ts, f, k, j);
      }
      GroupsFit(rest, f, m - {k});
      GroupSplit(ts, f, k);
    }
  }

  /** If every group is at least as large as its allowance, all together are at least the sum. */
  lemma {:induction false} GroupsFill(ts: set<nat>, f: map<nat, nat>, m: map<nat, nat>)
    requires forall k :: k in m ==> |Group(ts, f, k)| >= m[k]
    ensures |ts| >= Sum(m)
    decreases |m|
  {
    if m != map[] {
      var k := AnyKey(m);
      var rest := ts - Group(ts, f, k);
      assert (m - {k}).Keys == m.Keys - {k};
      forall j | j in m - {k} ensures |Group(rest, f, j)| >= (m - {k})[j] {
        GroupsElsewhere(ts, f, k, j);
      }
      GroupsFill(rest, f, m - {k});
      GroupSplit(ts, f, k);
    }
  }

  /** As long as there are fewer than the sum, some group has room. */
  lemma SomeGroupHasRoom(ts: set<nat>, f: map<nat, nat>, m: map<nat, nat>) returns (k: nat)
    requires |ts| < Sum(m)
    ensures k in m && |Group(ts, f, k)| < m[k]
  {
    if forall j :: j in m ==> |Group(ts, f, j)| >= m[j] {
      GroupsFill(ts, f, m);
    }
    k :| k in m && |Group(ts, f, k)| < m[k];
  }
}
