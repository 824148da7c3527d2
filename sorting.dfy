/**
 * Ordering used by the SQL `ORDER BY` clauses of the two tables: a stable
 * insertion sort under any total preorder, and the lexicographic order on
 * strings that SQLite's default BINARY collation gives (code point order).
 */
module Sorting {

  /** `le` is total and transitive: an order that may have ties. */
  ghost predicate TotalPreorder<T(!new)>(le: (T, T) -> bool) {
    && (forall a, b :: le(a, b) || le(b, a))
    && (forall a, b, c :: le(a, b) && le(b, c) ==> le(a, c))
  }

  predicate SortedBy<T>(s: seq<T>, le: (T, T) -> bool) {
    forall i, j :: 0 <= i < j < |s| ==> le(s[i], s[j])
  }

  /** Places `x` before the first element it does not follow. */
  function InsertSorted<T(!new)>(x: T, s: seq<T>, le: (T, T) -> bool): (r: seq<T>)
    requires TotalPreorder(le) && SortedBy(s, le)
    ensures SortedBy(r, le)
    ensures multiset(r) == multiset(s) + multiset{x}
  {
    if s == [] || le(x, s[0]) then
      FrontStaysSorted(x, s, le);
      [x] + s
    else
      var tail := InsertSorted(x, s[1..], le);
      assert s == [s[0]] + s[1..];
      HeadStaysSorted(s[0], x, s[1..], tail, le);
      [s[0]] + tail
  }

  lemma FrontStaysSorted<T(!new)>(x: T, s: seq<T>, le: (T, T) -> bool)
    requires TotalPreorder(le) && SortedBy(s, le)
    requires s == [] || le(x, s[0])
    ensures SortedBy([x] + s, le)
  {
    var r := [x] + s;
    forall i, j | 0 <= i < j < |r| ensures le(r[i], r[j]) {
      if i == 0 && j > 1 {
        assert le(x, s[0]) && le(s[0], s[j - 1]);
      }
    }
  }

  lemma HeadStaysSorted<T(!new)>(h: T, x: T, rest: seq<T>, tail: seq<T>, le: (T, T) -> bool)
    requires TotalPreorder(le) && SortedBy([h] + rest, le) && SortedBy(tail, le)
    requires !le(x, h)
    requires multiset(tail) == multiset(rest) + multiset{x}
    ensures SortedBy([h] + tail, le)
  {
    assert le(h, x);
    forall y | y in tail ensures le(h, y) {
      assert y in multiset(tail);
      if y != x {
        assert y in multiset(rest);
        var k :| 0 <= k < |rest| && rest[k] == y;
        var hr := [h] + rest;
        assert hr[0] == h && hr[k + 1] == y;
        assert le(hr[0], hr[k + 1]);
      }
    }
    var r := [h] + tail;
    forall i, j | 0 <= i < j < |r| ensures le(r[i], r[j]) {
      if i == 0 {
        assert r[j] in tail;
      } else {
        assert r[i] == tail[i - 1] && r[j] == tail[j - 1];
      }
    }
  }

  /** Insertion sort: sorted, and a permutation of the input. */
  function SortBy<T(!new)>(s: seq<T>, le: (T, T) -> bool): (r: seq<T>)
    requires TotalPreorder(le)
    ensures SortedBy(r, le)
    ensures multiset(r) == multiset(s)
  {
    if s == [] then []
    else
      assert s == [s[0]] + s[1..];
      InsertSorted(s[0], SortBy(s[1..], le), le)
  }

  /** The first `n` elements (all of them when `n` is too large). */
  function Take<T>(s: seq<T>, n: nat): (r: seq<T>)
    ensures |r| == if n < |s| then n else |s|
    ensures r == s[..|r|]
  {
    if n < |s| then s[..n] else s
  }

  /** Cutting a sorted sequence leaves no dropped element ahead of a kept one. */
  lemma TakeKeepsFront<T>(s: seq<T>, n: nat, le: (T, T) -> bool)
    requires SortedBy(s, le)
    ensures SortedBy(Take(s, n), le)
    ensures forall i, j :: 0 <= i < |Take(s, n)| <= j < |s| ==> le(Take(s, n)[i], s[j])
  {
  }

  // ---------------------------------------------------- string collation

  /** Code point lexicographic order; a proper prefix comes first. */
  predicate LexLe(a: string, b: string) {
    a == [] || (b != [] && (a[0] < b[0] || (a[0] == b[0] && LexLe(a[1..], b[1..]))))
  }

  lemma {:induction false} LexLeTotal(a: string, b: string)
    ensures LexLe(a, b) || LexLe(b, a)
  {
    if a != [] && b != [] && a[0] == b[0] {
      LexLeTotal(a[1..], b[1..]);
    }
  }

  lemma {:induction false} LexLeTransitive(a: string, b: string, c: string)
    requires LexLe(a, b) && LexLe(b, c)
    ensures LexLe(a, c)
  {
    if a != [] && b != [] && c != [] && a[0] == b[0] && b[0] == c[0] {
      LexLeTransitive(a[1..], b[1..], c[1..]);
    }
  }

  lemma {:induction false} LexLeAntisymmetric(a: string, b: string)
    requires LexLe(a, b) && LexLe(b, a)
    ensures a == b
  {
    if a != [] && b != [] {
      LexLeAntisymmetric(a[1..], b[1..]);
      assert a == [a[0]] + a[1..] && b == [b[0]] + b[1..];
    }
  }
}
