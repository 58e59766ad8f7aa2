/** Sorting by a strict total order, and the sorted list of a set. */
module Sorting {

  ghost predicate TotalOrder<T(!new)>(less: (T, T) -> bool) {
    && (forall x :: !less(x, x))
    && (forall x, y, z :: less(x, y) && less(y, z) ==> less(x, z))
    && (forall x, y :: x == y || less(x, y) || less(y, x))
  }

  predicate Sorted<T>(s: seq<T>, less: (T, T) -> bool) {
    forall i, j :: 0 <= i < j < |s| ==> !less(s[j], s[i])
  }

  predicate Distinct<T(==)>(s: seq<T>) { forall i, j :: 0 <= i < j < |s| ==> s[i] != s[j] }

  function Elems<T>(s: seq<T>): set<T> { set x | x in s }

  function Insert<T>(x: T, s: seq<T>, less: (T, T) -> bool): seq<T> {
    if s == [] || !less(s[0], x) then [x] + s else [s[0]] + Insert(x, s[1..], less)
  }

  /** What sort.Strings and slices.SortFunc leave in the slice. */
  function Sort<T>(s: seq<T>, less: (T, T) -> bool): seq<T> {
    if s == [] then [] else Insert(s[0], Sort(s[1..], less), less)
  }

  lemma ElemsCons<T>(x: T, s: seq<T>)
    ensures Elems([x] + s) == {x} + Elems(s)
  {
  }

  lemma {:induction false} InsertElems<T>(x: T, s: seq<T>, less: (T, T) -> bool)
    ensures Elems(Insert(x, s, less)) == Elems(s) + {x} && |Insert(x, s, less)| == |s| + 1
    ensures Distinct(s) && x !in s ==> Distinct(Insert(x, s, less))
  {
    if s == [] || !less(s[0], x) {
      ElemsCons(x, s);
    } else {
      InsertElems(x, s[1..], less);
      var r := Insert(x, s[1..], less);
      assert s == [s[0]] + s[1..];
      ElemsCons(s[0], r);
      ElemsCons(s[0], s[1..]);
      forall y | y in r ensures Distinct(s) && x !in s ==> y != s[0] {
        assert y in Elems(r) && (y == x || y in s[1..]);
      }
    }
  }

  lemma {:induction false} InsertSorted<T(!new)>(x: T, s: seq<T>, less: (T, T) -> bool)
    requires TotalOrder(less) && Sorted(s, less)
    ensures Sorted(Insert(x, s, less), less)
  {
    if s != [] && less(s[0], x) {
      InsertSorted(x, s[1..], less);
      InsertElems(x, s[1..], less);
      var r := Insert(x, s[1..], less);
      forall y | y in r ensures !less(y, s[0]) {
        assert y in Elems(r) && (y == x || y in s[1..]);
      }
    }
  }

  lemma {:induction false} SortFacts<T(!new)>(s: seq<T>, less: (T, T) -> bool)
    requires TotalOrder(less)
    ensures Sorted(Sort(s, less), less) && Elems(Sort(s, less)) == Elems(s) && |Sort(s, less)| == |s|
    ensures Distinct(s) ==> Distinct(Sort(s, less))
  {
    if s != [] {
      SortFacts(s[1..], less);
      InsertSorted(s[0], Sort(s[1..], less), less);
      InsertElems(s[0], Sort(s[1..], less), less);
      assert s == [s[0]] + s[1..];
      ElemsCons(s[0], s[1..]);
      assert forall y :: y in Sort(s[1..], less) ==> y in Elems(s[1..]);
    }
  }

  /** Sorted lists without repetition are determined by their elements. */
  lemma {:induction false} SortedUnique<T(!new)>(a: seq<T>, b: seq<T>, less: (T, T) -> bool)
    requires TotalOrder(less)
    requires Sorted(a, less) && Sorted(b, less) && Distinct(a) && Distinct(b) && Elems(a) == Elems(b)
    ensures a == b
  {
    assert b != [] ==> b[0] in Elems(b);
    if a != [] {
      assert a[0] in Elems(a) && a[0] in b;
      assert b[0] in Elems(b) && b[0] in a;
      assert a[0] == b[0];
      assert a == [a[0]] + a[1..] && b == [b[0]] + b[1..];
      assert Elems(a[1..]) == Elems(a) - {a[0]};
      assert Elems(b[1..]) == Elems(b) - {b[0]};
      SortedUnique(a[1..], b[1..], less);
    }
  }

  ghost predicate IsOrder<T(!new)>(r: seq<T>, s: set<T>, less: (T, T) -> bool) {
    Sorted(r, less) && Distinct(r) && Elems(r) == s
  }

  lemma {:induction false} OrderExists<T(!new)>(s: set<T>, less: (T, T) -> bool)
    requires TotalOrder(less)
    ensures exists r :: IsOrder(r, s, less)
  {
    if s == {} {
      assert IsOrder([], s, less);
    } else {
      var x :| x in s;
      OrderExists(s - {x}, less);
      var r :| IsOrder(r, s - {x}, less);
      InsertSorted(x, r, less);
      InsertElems(x, r, less);
      assert x !in Elems(r);
      assert IsOrder(Insert(x, r, less), s, less);
    }
  }

  /** The elements of `s` in order. */
  ghost function Order<T(!new)>(s: set<T>, less: (T, T) -> bool): seq<T>
    requires TotalOrder(less)
  {
    OrderExists(s, less);
    var r :| IsOrder(r, s, less);
    r
  }

  lemma OrderIsOrder<T(!new)>(s: set<T>, less: (T, T) -> bool)
    requires TotalOrder(less)
    ensures IsOrder(Order(s, less), s, less)
  {
    OrderExists(s, less);
  }

  /** Sorting any listing of a set gives the set's order. */
  lemma SortIsOrder<T(!new)>(s: seq<T>, less: (T, T) -> bool)
    requires TotalOrder(less) && Distinct(s)
    ensures Sort(s, less) == Order(Elems(s), less)
  {
    SortFacts(s, less);
    OrderIsOrder(Elems(s), less);
    SortedUnique(Sort(s, less), Order(Elems(s), less), less);
  }

  lemma {:induction false} DistinctCard<T>(s: seq<T>)
    requires Distinct(s)
    ensures |Elems(s)| == |s|
  {
    if s != [] {
      var init := s[..|s| - 1];
      DistinctCard(init);
      assert Elems(s) == Elems(init) + {s[|s| - 1]};
      assert s[|s| - 1] !in init;
    }
  }
}
