/** Python's `sorted`, on collections of distinct items under a strict total order. */
module Ordering {

  ghost predicate StrictTotalOrder<T(!new)>(less: (T, T) -> bool) {
    && (forall a, b :: less(a, b) || a == b || less(b, a))
    && (forall a, b :: less(a, b) ==> a != b && !less(b, a))
    && (forall a, b, c :: less(a, b) && less(b, c) ==> less(a, c))
  }

  ghost predicate Ascending<T>(less: (T, T) -> bool, items: seq<T>) {
    forall i, j :: 0 <= i < j < |items| ==> less(items[i], items[j])
  }

  ghost function Elements<T>(items: seq<T>): set<T> {
    set x | x in items
  }

  /** A set has one ascending arrangement. */
  lemma {:induction false} AscendingIsUnique<T(!new)>(less: (T, T) -> bool, a: seq<T>, b: seq<T>)
    requires StrictTotalOrder(less)
    requires Ascending(less, a) && Ascending(less, b) && Elements(a) == Elements(b)
    ensures a == b
  {
    if a == [] || b == [] {
      NoElements(a);
      NoElements(b);
    } else {
      assert a[0] in Elements(b) && b[0] in Elements(a);
      FirstIsLeast(less, a, b[0]);
      FirstIsLeast(less, b, a[0]);
      RestHasTheOthers(less, a);
      RestHasTheOthers(less, b);
      AscendingIsUnique(less, a[1..], b[1..]);
      assert a == [a[0]] + a[1..] && b == [b[0]] + b[1..];
    }
  }

  lemma NoElements<T>(items: seq<T>)
    ensures items == [] <==> Elements(items) == {}
  {
    if items != [] {
      assert items[0] in Elements(items);
    }
  }

  lemma FirstIsLeast<T>(less: (T, T) -> bool, items: seq<T>, x: T)
    requires Ascending(less, items) && x in items
    ensures x == items[0] || less(items[0], x)
  {
  }

  lemma RestHasTheOthers<T(!new)>(less: (T, T) -> bool, items: seq<T>)
    requires StrictTotalOrder(less) && Ascending(less, items) && items != []
    ensures Ascending(less, items[1..]) && Elements(items[1..]) == Elements(items) - {items[0]}
  {
  }

  predicate IsLeast<T(==, !new)>(less: (T, T) -> bool, x: T, items: set<T>) {
    x in items && forall y :: y in items ==> y == x || less(x, y)
  }

  lemma {:induction false} LeastExists<T(!new)>(less: (T, T) -> bool, items: set<T>)
    requires StrictTotalOrder(less) && items != {}
    ensures exists x :: x in items && IsLeast(less, x, items)
    decreases |items|
  {
    var x :| x in items;
    var rest := items - {x};
    assert items == rest + {x};
    if rest == {} {
      assert IsLeast(less, x, items);
    } else {
      LeastExists(less, rest);
      var least :| least in rest && IsLeast(less, least, rest);
      if less(least, x) {
        assert IsLeast(less, least, items);
      } else {
        assert IsLeast(less, x, items);
      }
    }
  }

  lemma LeastFirst<T(!new)>(less: (T, T) -> bool, x: T, rest: seq<T>, items: set<T>)
    requires IsLeast(less, x, items) && Ascending(less, rest) && Elements(rest) == items - {x}
    ensures Ascending(less, [x] + rest) && Elements([x] + rest) == items
  {
    forall y | y in rest ensures y in items && y != x && less(x, y) {
      assert y in Elements(rest);
    }
    forall y | y in items ensures y in [x] + rest {
      assert y == x || y in Elements(rest);
    }
    var s := [x] + rest;
    forall i, j | 0 <= i < j < |s| ensures less(s[i], s[j]) {
      assert s[j] == rest[j - 1] && s[j] in rest;
      assert i > 0 ==> s[i] == rest[i - 1];
    }
  }

  /** The items of a set, or of a list without repetitions, in ascending order. */
  function Sorted<T(==, !new)>(less: (T, T) -> bool, items: set<T>): (r: seq<T>)
    requires StrictTotalOrder(less)
    ensures Ascending(less, r) && Elements(r) == items
    decreases |items|
  {
    if items == {} then []
    else
      LeastExists(less, items);
      var x :| x in items && IsLeast(less, x, items);
      var rest := Sorted(less, items - {x});
      LeastFirst(less, x, rest, items);
      [x] + rest
  }
}
