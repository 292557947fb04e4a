/** sort.Ints of the standard library. */
module Sorting {

  ghost predicate Sorted(s: seq<int>) {
    forall i, j :: 0 <= i < j < |s| ==> s[i] <= s[j]
  }

  function Insert(x: int, s: seq<int>): seq<int> {
    if s == [] || x <= s[0] then [x] + s else [s[0]] + Insert(x, s[1..])
  }

  function SortInts(s: seq<int>): seq<int> {
    if s == [] then [] else Insert(s[0], SortInts(s[1..]))
  }

  lemma {:induction false} InsertKeepsEntries(x: int, s: seq<int>)
    ensures multiset(Insert(x, s)) == multiset(s) + multiset{x}
  {
    if s != [] && x > s[0] {
      InsertKeepsEntries(x, s[1..]);
      assert s == [s[0]] + s[1..];
    }
  }

  lemma {:induction false} InsertSorted(x: int, s: seq<int>)
    requires Sorted(s)
    ensures Sorted(Insert(x, s)) && forall y :: y in Insert(x, s) ==> y == x || y in s
  {
    if s != [] && x > s[0] {
      var rest := Insert(x, s[1..]);
      InsertSorted(x, s[1..]);
      forall i | 0 <= i < |rest| ensures s[0] <= rest[i] {
        assert rest[i] in rest;
      }
    }
  }

  /** The result is sorted and has the same entries. */
  lemma {:induction false} SortIntsSorts(s: seq<int>)
    ensures Sorted(SortInts(s)) && multiset(SortInts(s)) == multiset(s)
    ensures forall x :: x in SortInts(s) <==> x in s
  {
    if s != [] {
      SortIntsSorts(s[1..]);
      InsertSorted(s[0], SortInts(s[1..]));
      InsertKeepsEntries(s[0], SortInts(s[1..]));
      assert s == [s[0]] + s[1..];
    }
    assert forall x :: x in SortInts(s) <==> x in multiset(SortInts(s));
    assert forall x :: x in s <==> x in multiset(s);
  }
}
