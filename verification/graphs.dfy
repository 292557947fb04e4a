/** Walks and cycles in a finite directed graph given by its links. */
module Graphs {
  import opened Model

  /** There is a link from the i-th node of `p` to the next. */
  ghost predicate Hop(links: set<Link>, p: seq<int>, i: nat)
    requires i + 1 < |p|
  {
    Link(p[i], p[i + 1]) in links
  }

  /** Consecutive nodes of `p` are linked. */
  ghost predicate Walk(links: set<Link>, p: seq<int>) {
    p != [] && forall i: nat :: i + 1 < |p| ==> Hop(links, p, i)
  }

  ghost predicate Cycle(links: set<Link>, p: seq<int>) {
    |p| >= 2 && Walk(links, p) && p[0] == p[|p| - 1]
  }

  ghost predicate Acyclic(links: set<Link>) {
    forall p :: !Cycle(links, p)
  }

  ghost predicate OnCycle(links: set<Link>, x: int) {
    exists p :: Cycle(links, p) && p[0] == x
  }

  ghost predicate Reaches(links: set<Link>, x: int, y: int) {
    exists p :: Walk(links, p) && p[0] == x && p[|p| - 1] == y
  }

  lemma JoinWalks(links: set<Link>, p: seq<int>, q: seq<int>)
    requires Walk(links, p) && Walk(links, q) && p[|p| - 1] == q[0]
    ensures Walk(links, p + q[1..])
    ensures (p + q[1..])[0] == p[0] && (p + q[1..])[|p + q[1..]| - 1] == q[|q| - 1]
  {
    var r := p + q[1..];
    forall i: nat | i + 1 < |r| ensures Hop(links, r, i) {
      if i + 1 < |p| {
        assert Hop(links, p, i);
      } else {
        assert Hop(links, q, i - |p| + 1);
        assert r[i] == q[i - |p| + 1] && r[i + 1] == q[i - |p| + 2];
      }
    }
  }

  lemma SubWalk(links: set<Link>, p: seq<int>, i: nat, j: nat)
    requires Walk(links, p) && i < j <= |p|
    ensures Walk(links, p[i..j])
  {
    forall m: nat | m + 1 < |p[i..j]| ensures Hop(links, p[i..j], m) {
      assert Hop(links, p, i + m);
    }
  }

  /** Along links that go down, every walk goes down. */
  lemma {:induction false} WalkDescends(links: set<Link>, p: seq<int>)
    requires Walk(links, p) && forall l :: l in links ==> l.dep < l.task
    ensures |p| >= 2 ==> p[|p| - 1] < p[0]
    decreases |p|
  {
    if |p| >= 2 {
      assert Hop(links, p, 0) && Link(p[0], p[1]).dep < Link(p[0], p[1]).task;
      SubWalk(links, p, 1, |p|);
      assert p[1..|p|] == p[1..];
      WalkDescends(links, p[1..]);
    }
  }

  lemma DescendingAcyclic(links: set<Link>)
    requires forall l :: l in links ==> l.dep < l.task
    ensures Acyclic(links)
  {
    forall p ensures !Cycle(links, p) {
      if Walk(links, p) { WalkDescends(links, p); }
    }
  }

  /** A node on a cycle has a successor on a cycle. */
  lemma CycleSuccessor(links: set<Link>, x: int) returns (y: int)
    requires OnCycle(links, x)
    ensures Link(x, y) in links && OnCycle(links, y)
  {
    var p :| Cycle(links, p) && p[0] == x;
    y := p[1];
    assert Hop(links, p, 0);
    SubWalk(links, p, 1, |p|);
    assert p[1..|p|] == p[1..];
    var q := p[1..] + [y];
    forall i: nat | i + 1 < |q| ensures Hop(links, q, i) {
      if i + 1 < |p[1..]| {
        assert Hop(links, p[1..], i);
      }
    }
    assert Cycle(links, q) && q[0] == y;
  }

  // ---------------------------------------------------------------- finite graphs

  ghost predicate HasSuccessor(links: set<Link>, nodes: set<int>, u: int) {
    exists v :: v in nodes && Link(u, v) in links
  }

  /** In a set where every node has a successor there are walks of any length. */
  lemma {:induction false} LongWalk(links: set<Link>, nodes: set<int>, start: int, n: nat) returns (p: seq<int>)
    requires start in nodes && forall u {:trigger HasSuccessor(links, nodes, u)} :: u in nodes ==> HasSuccessor(links, nodes, u)
    ensures |p| == n + 1 && Walk(links, p) && forall i :: 0 <= i < |p| ==> p[i] in nodes
  {
    if n == 0 {
      p := [start];
    } else {
      var q := LongWalk(links, nodes, start, n - 1);
      var last := q[|q| - 1];
      assert HasSuccessor(links, nodes, last);
      var v :| v in nodes && Link(last, v) in links;
      p := q + [v];
      forall i: nat | i + 1 < |p| ensures Hop(links, p, i) {
        if i + 1 < |q| { assert Hop(links, q, i); }
      }
    }
  }

  lemma {:induction false} Pigeonhole(p: seq<int>, nodes: set<int>)
    requires |p| > |nodes| && forall i :: 0 <= i < |p| ==> p[i] in nodes
    ensures exists i, j :: 0 <= i < j < |p| && p[i] == p[j]
    decreases |p|
  {
    var n := |p| - 1;
    if i :| 0 <= i < n && p[i] == p[n] {
    } else {
      Pigeonhole(p[..n], nodes - {p[n]});
      var i, j :| 0 <= i < j < |p[..n]| && p[..n][i] == p[..n][j];
      assert p[i] == p[j];
    }
  }

  lemma Member(nodes: set<int>) returns (u: int)
    requires nodes != {}
    ensures u in nodes
  {
    assert (forall x :: x !in nodes) ==> nodes == {};
    u :| u in nodes;
  }

  /** In an acyclic graph every nonempty finite set of nodes has one without successors in the set. */
  lemma SinkExists(links: set<Link>, nodes: set<int>)
    requires Acyclic(links) && nodes != {}
    ensures exists u :: u in nodes && !HasSuccessor(links, nodes, u)
  {
    var start := Member(nodes);
    if forall u :: u in nodes ==> HasSuccessor(links, nodes, u) {
      var p := LongWalk(links, nodes, start, |nodes|);
      Pigeonhole(p, nodes);
      var i, j :| 0 <= i < j < |p| && p[i] == p[j];
      SubWalk(links, p, i, j + 1);
      assert Cycle(links, p[i..j + 1]);
    }
  }
}
