/**
 * The ORDER BY ... LIMIT n clauses of the controllers' queries: a stable
 * insertion sort under a "may come first" relation, and a prefix cut.
 */
module Sorting {

  /** `first(a, b)`: `a` may be listed ahead of `b`. Every ORDER BY key is total and transitive. */
  ghost predicate TotalPreorder<T(!new)>(first: (T, T) -> bool)
  {
    && (forall a, b :: first(a, b) || first(b, a))
    && (forall a, b, c :: first(a, b) && first(b, c) ==> first(a, c))
  }

  ghost predicate SortedBy<T>(s: seq<T>, first: (T, T) -> bool)
  {
    forall i, j :: 0 <= i < j < |s| ==> first(s[i], s[j])
  }

  function Insert<T(!new)>(x: T, s: seq<T>, first: (T, T) -> bool): (r: seq<T>)
    requires TotalPreorder(first) && SortedBy(s, first)
    ensures multiset(r) == multiset(s) + multiset{x}
    ensures SortedBy(r, first)
  {
    if |s| == 0 then [x]
    else if first(x, s[0]) then
      HeadFirst(x, s, first);
      [x] + s
    else
      var rest := Insert(x, s[1..], first);
      assert s == [s[0]] + s[1..];
      ConsSorted(s[0], rest, x, s[1..], first);
      [s[0]] + rest
  }

  /** `x` may head a sorted list whose head it may precede. */
  lemma HeadFirst<T(!new)>(x: T, s: seq<T>, first: (T, T) -> bool)
    requires TotalPreorder(first) && SortedBy(s, first)
    requires |s| > 0 && first(x, s[0])
    ensures SortedBy([x] + s, first)
  {
    forall j | 0 <= j < |s| ensures first(x, s[j]) {
      if j > 0 {
        assert first(s[0], s[j]);
      }
    }
  }

  /** `h` may head `rest` when every row of `rest` is `x`, which `h` precedes, or a row of a list `h` precedes. */
  lemma ConsSorted<T(!new)>(h: T, rest: seq<T>, x: T, tail: seq<T>, first: (T, T) -> bool)
    requires TotalPreorder(first) && SortedBy(rest, first) && !first(x, h)
    requires multiset(rest) == multiset(tail) + multiset{x}
    requires forall k :: 0 <= k < |tail| ==> first(h, tail[k])
    ensures SortedBy([h] + rest, first)
  {
    assert first(h, x);
    forall j | 0 <= j < |rest| ensures first(h, rest[j]) {
      assert rest[j] in multiset(rest);
      if rest[j] != x {
        assert rest[j] in multiset(tail);
        var k :| 0 <= k < |tail| && tail[k] == rest[j];
      }
    }
  }

  /** The rows of `s` in an order that respects `first`; rows that tie keep their order in `s`. */
  function SortBy<T(!new)>(s: seq<T>, first: (T, T) -> bool): (r: seq<T>)
    requires TotalPreorder(first)
    ensures multiset(r) == multiset(s)
    ensures |r| == |s|
    ensures SortedBy(r, first)
  {
    if |s| == 0 then []
    else
      assert s == [s[0]] + s[1..];
      Insert(s[0], SortBy(s[1..], first), first)
  }

  /** SQL's LIMIT n: the first `n` rows, or all of them when there are fewer. */
  function Limit<T>(s: seq<T>, n: nat): (r: seq<T>)
    ensures |r| == if |s| < n then |s| else n
    ensures r == s[..|r|]
  {
    if |s| <= n then s else s[..n]
  }

  /** A prefix of a sorted list is sorted, and its rows are rows of the list. */
  lemma LimitOfSorted<T>(s: seq<T>, n: nat, first: (T, T) -> bool)
    requires SortedBy(s, first)
    ensures SortedBy(Limit(s, n), first)
    ensures multiset(Limit(s, n)) <= multiset(s)
  {
    var r := Limit(s, n);
    assert s == r + s[|r|..];
  }

  /** No row a LIMIT cuts off may come before a row it keeps. */
  lemma LimitIsTop<T>(s: seq<T>, n: nat, first: (T, T) -> bool)
    requires SortedBy(s, first)
    ensures forall x, y :: x in Limit(s, n) && y in s && y !in Limit(s, n) ==> first(x, y)
  {
    var r := Limit(s, n);
    forall x, y | x in r && y in s && y !in r ensures first(x, y) {
      var i :| 0 <= i < |r| && r[i] == x;
      var k :| 0 <= k < |s| && s[k] == y;
      assert forall j :: 0 <= j < |r| ==> s[j] == r[j];
      assert s[i] == x;
    }
  }
}
