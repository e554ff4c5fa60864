/**
 * The `ORDER BY` clauses of the engine's queries, done in memory: a set of rows is
 * turned into a sequence sorted by a lexicographic (integer, real) key.
 */
module Ordering {

  /** A sort key compared lexicographically: first the integer part, then the real part. */
  type SortKey = (int, real)

  predicate KeyLe(a: SortKey, b: SortKey) {
    a.0 < b.0 || (a.0 == b.0 && a.1 <= b.1)
  }

  predicate SortedBy<T>(s: seq<T>, key: T -> SortKey) {
    forall i, j :: 0 <= i < j < |s| ==> KeyLe(key(s[i]), key(s[j]))
  }

  predicate Distinct<T(==)>(s: seq<T>) {
    forall i, j :: 0 <= i < j < |s| ==> s[i] != s[j]
  }

  /** Insert x after every element whose key is not above its own. */
  function InsertByKey<T(==, !new)>(s: seq<T>, x: T, key: T -> SortKey): (r: seq<T>)
    requires SortedBy(s, key)
    ensures |r| == |s| + 1
    ensures forall y :: y in r <==> y in s || y == x
    ensures SortedBy(r, key)
    ensures Distinct(s) && x !in s ==> Distinct(r)
  {
    if s == [] then [x]
    else if KeyLe(key(x), key(s[0])) then [x] + s
    else
      var rest := InsertByKey(s[1..], x, key);
      assert forall y :: y in rest ==> KeyLe(key(s[0]), key(y));
      assert Distinct(s) ==> s[0] !in s[1..];
      [s[0]] + rest
  }

  /** Sort a finite set by key (insertion sort, one element at a time). */
  method SortByKey<T(==, !new)>(items: set<T>, key: T -> SortKey) returns (sorted: seq<T>)
    ensures forall x :: x in sorted <==> x in items
    ensures |sorted| == |items|
    ensures Distinct(sorted)
    ensures SortedBy(sorted, key)
  {
    sorted := [];
    var remaining := items;
    while remaining != {}
      invariant remaining <= items
      invariant forall x :: x in sorted <==> x in items && x !in remaining
      invariant |sorted| + |remaining| == |items|
      invariant Distinct(sorted)
      invariant SortedBy(sorted, key)
      decreases |remaining|
    {
      var x :| x in remaining;
      sorted := InsertByKey(sorted, x, key);
      remaining := remaining - {x};
    }
  }
}
