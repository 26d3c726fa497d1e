/**
 * Query building blocks shared by the local SQL tables and the mock
 * server: WHERE as a filter, ORDER BY on a text column as a stable sort
 * by character-code order, and `Array.prototype.slice`.
 */
module Query {

  // ---------------------------------------------------------------------
  // Text order (SQLite's BINARY collation, JavaScript's `<=` on strings)

  /** `a` sorts no later than `b`, character by character. */
  predicate Le(a: string, b: string)
    decreases |a|
  {
    a == [] || (b != [] && (a[0] < b[0] || (a[0] == b[0] && Le(a[1..], b[1..]))))
  }

  lemma {:induction false} LeTotal(a: string, b: string)
    ensures Le(a, b) || Le(b, a)
    decreases |a|
  {
    if a != [] && b != [] && a[0] == b[0] {
      LeTotal(a[1..], b[1..]);
    }
  }

  lemma {:induction false} LeTrans(a: string, b: string, c: string)
    requires Le(a, b) && Le(b, c)
    ensures Le(a, c)
    decreases |a|
  {
    if a != [] && b != [] && c != [] && a[0] == b[0] == c[0] {
      LeTrans(a[1..], b[1..], c[1..]);
    }
  }

  /** The order ORDER BY ... ASC (desc false) or DESC (desc true) wants between two keys. */
  predicate InOrder(a: string, b: string, desc: bool) {
    if desc then Le(b, a) else Le(a, b)
  }

  lemma InOrderTotal(a: string, b: string, desc: bool)
    ensures InOrder(a, b, desc) || InOrder(b, a, desc)
  {
    LeTotal(a, b);
  }

  lemma InOrderTrans(a: string, b: string, c: string, desc: bool)
    requires InOrder(a, b, desc) && InOrder(b, c, desc)
    ensures InOrder(a, c, desc)
  {
    if desc { LeTrans(c, b, a); } else { LeTrans(a, b, c); }
  }

  // ---------------------------------------------------------------------
  // WHERE

  /** The rows of `s` that satisfy `p`, in table order. */
  function Filter<T>(s: seq<T>, p: T -> bool): (r: seq<T>)
    ensures |r| <= |s|
    ensures forall i :: 0 <= i < |r| ==> r[i] in s && p(r[i])
    ensures forall i :: 0 <= i < |s| && p(s[i]) ==> s[i] in r
  {
    if s == [] then []
    else if p(s[|s| - 1]) then Filter(s[..|s| - 1], p) + [s[|s| - 1]]
    else Filter(s[..|s| - 1], p)
  }

  lemma {:induction false} FilterMultiset<T>(s: seq<T>, p: T -> bool)
    ensures multiset(Filter(s, p)) <= multiset(s)
  {
    if s != [] {
      FilterMultiset(s[..|s| - 1], p);
      assert s == s[..|s| - 1] + [s[|s| - 1]];
    }
  }

  /** A filter that every row passes keeps the whole table. */
  lemma {:induction false} FilterAll<T>(s: seq<T>, p: T -> bool)
    requires forall x :: x in s ==> p(x)
    ensures Filter(s, p) == s
  {
    if s != [] {
      assert s[|s| - 1] in s;
      assert forall x :: x in s[..|s| - 1] ==> x in s;
      FilterAll(s[..|s| - 1], p);
    }
  }

  /** Filtering a concatenation filters each part. */
  lemma {:induction false} FilterConcat<T>(a: seq<T>, b: seq<T>, p: T -> bool)
    ensures Filter(a + b, p) == Filter(a, p) + Filter(b, p)
    decreases |b|
  {
    if b != [] {
      var b' := b[..|b| - 1];
      assert (a + b)[..|a + b| - 1] == a + b';
      FilterConcat(a, b', p);
    } else {
      assert a + b == a;
    }
  }

  /** The conjunction of two row tests. */
  function Both<T>(p: T -> bool, q: T -> bool): T -> bool {
    x => p(x) && q(x)
  }

  /** Two filters in a row keep the rows that pass both. */
  lemma {:induction false} FilterFilter<T>(s: seq<T>, p: T -> bool, q: T -> bool)
    ensures Filter(Filter(s, p), q) == Filter(s, Both(p, q))
  {
    if s != [] {
      var init := s[..|s| - 1];
      FilterFilter(init, p, q);
      if p(s[|s| - 1]) {
        FilterSnoc(Filter(init, p), s[|s| - 1], q);
      }
    }
  }

  /** Filtering twice with the same predicate changes nothing the second time. */
  lemma FilterIdempotent<T>(s: seq<T>, p: T -> bool)
    ensures Filter(Filter(s, p), p) == Filter(s, p)
  {
    FilterAll(Filter(s, p), p);
  }

  /** Update every row that satisfies `p` with `f`, in place. */
  function MapWhere<T>(s: seq<T>, p: T -> bool, f: T -> T): (r: seq<T>)
    ensures |r| == |s|
    ensures forall i :: 0 <= i < |s| ==> r[i] == if p(s[i]) then f(s[i]) else s[i]
  {
    seq(|s|, i requires 0 <= i < |s| => if p(s[i]) then f(s[i]) else s[i])
  }

  /** No two rows share a key: a PRIMARY KEY constraint. */
  predicate Unique<T, K(==)>(s: seq<T>, key: T -> K) {
    forall i, j :: 0 <= i < j < |s| ==> key(s[i]) != key(s[j])
  }

  /** `INSERT OR REPLACE`: every row holding the new row's key is deleted, then the row is added. */
  function Upsert<T, K(==)>(s: seq<T>, row: T, key: T -> K): seq<T> {
    Filter(s, x => key(x) != key(row)) + [row]
  }

  lemma FilterSnoc<T>(s: seq<T>, x: T, p: T -> bool)
    ensures Filter(s + [x], p) == Filter(s, p) + (if p(x) then [x] else [])
  {
    assert (s + [x])[..|s|] == s;
  }

  /**
   * After INSERT OR REPLACE the new row is the only one with its key, the
   * key stays unique, and every row under another key survives.
   */
  lemma {:induction false} UpsertKeys<T, K>(s: seq<T>, row: T, key: T -> K)
    requires Unique(s, key)
    ensures var r := Upsert(s, row, key);
      Unique(r, key) && r[|r| - 1] == row
      && (forall i :: 0 <= i < |r| - 1 ==> key(r[i]) != key(row))
      && (forall x :: x in s && key(x) != key(row) ==> x in r)
      && (forall x :: x in r ==> x == row || x in s)
  {
    var f := Filter(s, x => key(x) != key(row));
    var r := f + [row];
    FilterOrder(s, x => key(x) != key(row));
    forall i, j | 0 <= i < j < |r| ensures key(r[i]) != key(r[j]) {
      if j < |f| {
        var a, b := FilterStrictIndex(s, x => key(x) != key(row), i, j);
      }
    }
    forall x | x in s && key(x) != key(row) ensures x in r {
      var k :| 0 <= k < |s| && s[k] == x;
    }
  }

  /**
   * The rows a filter keeps come from strictly increasing positions of the
   * table, so a filter of a table with unique keys has unique keys.
   */
  lemma {:induction false} FilterStrictIndex<T>(s: seq<T>, p: T -> bool, i: int, j: int) returns (a: int, b: int)
    requires 0 <= i < j < |Filter(s, p)|
    ensures 0 <= a < b < |s| && s[a] == Filter(s, p)[i] && s[b] == Filter(s, p)[j]
  {
    var f := Filter(s, p);
    var init := s[..|s| - 1];
    var fi := Filter(init, p);
    if p(s[|s| - 1]) && j == |f| - 1 {
      var k :| 0 <= k < |init| && init[k] == f[i] by {
        assert f[i] == fi[i] && fi[i] in init;
      }
      a, b := k, |s| - 1;
    } else {
      assert f[i] == fi[i] && f[j] == fi[j];
      a, b := FilterStrictIndex(init, p, i, j);
    }
  }

  lemma FilterOrder<T>(s: seq<T>, p: T -> bool)
    ensures forall i :: 0 <= i < |Filter(s, p)| ==> p(Filter(s, p)[i])
  {
  }

  /** Replacing twice under one key leaves the second write and nothing of the first. */
  lemma UpsertTwice<T, K>(s: seq<T>, a: T, b: T, key: T -> K)
    requires key(a) == key(b)
    ensures Upsert(Upsert(s, a, key), b, key) == Upsert(s, b, key)
  {
    var p := x => key(x) != key(a);
    var q := x => key(x) != key(b);
    assert forall x :: p(x) == q(x);
    FilterSnoc(Filter(s, p), a, q);
    FilterAll(Filter(s, p), q);
    assert Filter(s, p) == Filter(s, q) by { FilterSame(s, p, q); }
  }

  lemma {:induction false} FilterSame<T>(s: seq<T>, p: T -> bool, q: T -> bool)
    requires forall x :: p(x) == q(x)
    ensures Filter(s, p) == Filter(s, q)
  {
    if s != [] { FilterSame(s[..|s| - 1], p, q); }
  }

  /** A filter keeps a primary key unique. */
  lemma FilterUnique<T, K>(s: seq<T>, p: T -> bool, key: T -> K)
    requires Unique(s, key)
    ensures Unique(Filter(s, p), key)
  {
    var f := Filter(s, p);
    forall i, j | 0 <= i < j < |f| ensures key(f[i]) != key(f[j]) {
      var a, b := FilterStrictIndex(s, p, i, j);
    }
  }

  /** A plain INSERT of a row under a key no row holds keeps the key unique. */
  lemma UniqueAppend<T, K>(s: seq<T>, row: T, key: T -> K)
    requires Unique(s, key)
    requires forall i :: 0 <= i < |s| ==> key(s[i]) != key(row)
    ensures Unique(s + [row], key)
  {
    var r := s + [row];
    forall i, j | 0 <= i < j < |r| ensures key(r[i]) != key(r[j]) {
      if j < |s| { assert r[i] == s[i] && r[j] == s[j]; } else { assert r[i] == s[i]; }
    }
  }

  /** An UPDATE that does not touch the key column keeps the key unique. */
  lemma MapWhereKeepsKeys<T, K>(s: seq<T>, p: T -> bool, f: T -> T, key: T -> K)
    requires Unique(s, key)
    requires forall x :: key(f(x)) == key(x)
    ensures Unique(MapWhere(s, p, f), key)
  {
  }

  /**
   * An UPDATE that sets the key column to `newKey` on the rows satisfying
   * `hit` violates the primary key exactly when two rows are hit, or one
   * row is hit while another already holds `newKey`.
   */
  predicate RekeyConflict<T, K(==)>(s: seq<T>, hit: T -> bool, key: T -> K, newKey: K) {
    exists i, j :: 0 <= i < |s| && 0 <= j < |s| && i != j && hit(s[i]) && (hit(s[j]) || key(s[j]) == newKey)
  }

  lemma RekeyUnique<T, K>(s: seq<T>, hit: T -> bool, f: T -> T, key: T -> K, newKey: K)
    requires Unique(s, key)
    requires !RekeyConflict(s, hit, key, newKey)
    requires forall x :: key(f(x)) == newKey
    ensures Unique(MapWhere(s, hit, f), key)
  {
    var r := MapWhere(s, hit, f);
    forall i, j | 0 <= i < j < |r| ensures key(r[i]) != key(r[j]) {
      if hit(s[i]) {
        assert !(hit(s[j]) || key(s[j]) == newKey);
      } else if hit(s[j]) {
        assert !(hit(s[i]) || key(s[i]) == newKey);
      }
    }
  }

  // ---------------------------------------------------------------------
  // ORDER BY

  predicate SortedBy<T>(s: seq<T>, key: T -> string, desc: bool) {
    forall i, j :: 0 <= i < j < |s| ==> InOrder(key(s[i]), key(s[j]), desc)
  }

  /** Puts `x` after every element that is not strictly behind it. */
  function Insert<T>(x: T, s: seq<T>, key: T -> string, desc: bool): seq<T> {
    if s == [] || !InOrder(key(s[0]), key(x), desc) then [x] + s
    else [s[0]] + Insert(x, s[1..], key, desc)
  }

  /** `ORDER BY key` (ASC, or DESC when `desc` holds); rows with equal keys keep table order. */
  function OrderBy<T>(s: seq<T>, key: T -> string, desc: bool): seq<T> {
    if s == [] then [] else Insert(s[|s| - 1], OrderBy(s[..|s| - 1], key, desc), key, desc)
  }

  lemma {:induction false} InsertMultiset<T>(x: T, s: seq<T>, key: T -> string, desc: bool)
    ensures multiset(Insert(x, s, key, desc)) == multiset(s) + multiset{x}
    decreases |s|
  {
    if s != [] && InOrder(key(s[0]), key(x), desc) {
      InsertMultiset(x, s[1..], key, desc);
      assert s == [s[0]] + s[1..];
    }
  }

  lemma {:induction false} InsertSorted<T>(x: T, s: seq<T>, key: T -> string, desc: bool)
    requires SortedBy(s, key, desc)
    ensures SortedBy(Insert(x, s, key, desc), key, desc)
    ensures Insert(x, s, key, desc) != []
    ensures Insert(x, s, key, desc)[0] == x || (s != [] && Insert(x, s, key, desc)[0] == s[0])
    decreases |s|
  {
    if s == [] || !InOrder(key(s[0]), key(x), desc) {
      var r := [x] + s;
      if s != [] {
        InOrderTotal(key(s[0]), key(x), desc);
      }
      forall i, j | 0 <= i < j < |r| ensures InOrder(key(r[i]), key(r[j]), desc) {
        if i == 0 {
          if j > 1 { InOrderTrans(key(x), key(s[0]), key(s[j - 1]), desc); }
        } else {
          assert r[i] == s[i - 1] && r[j] == s[j - 1];
        }
      }
    } else {
      var t := s[1..];
      assert SortedBy(t, key, desc) by {
        forall i, j | 0 <= i < j < |t| ensures InOrder(key(t[i]), key(t[j]), desc) {
          assert t[i] == s[i + 1] && t[j] == s[j + 1];
        }
      }
      var rest := Insert(x, t, key, desc);
      InsertSorted(x, t, key, desc);
      assert InOrder(key(s[0]), key(rest[0]), desc);
      var r := [s[0]] + rest;
      forall i, j | 0 <= i < j < |r| ensures InOrder(key(r[i]), key(r[j]), desc) {
        if i == 0 {
          if j > 1 { InOrderTrans(key(s[0]), key(rest[0]), key(rest[j - 1]), desc); }
        } else {
          assert r[i] == rest[i - 1] && r[j] == rest[j - 1];
        }
      }
    }
  }

  /** ORDER BY yields its rows sorted by the key. */
  lemma {:induction false} OrderBySorted<T>(s: seq<T>, key: T -> string, desc: bool)
    ensures SortedBy(OrderBy(s, key, desc), key, desc)
  {
    if s != [] {
      OrderBySorted(s[..|s| - 1], key, desc);
      InsertSorted(s[|s| - 1], OrderBy(s[..|s| - 1], key, desc), key, desc);
    }
  }

  /** ORDER BY yields exactly the rows it was given, each as often as given. */
  lemma {:induction false} OrderByPermutation<T>(s: seq<T>, key: T -> string, desc: bool)
    ensures multiset(OrderBy(s, key, desc)) == multiset(s)
  {
    if s != [] {
      OrderByPermutation(s[..|s| - 1], key, desc);
      InsertMultiset(s[|s| - 1], OrderBy(s[..|s| - 1], key, desc), key, desc);
      assert s == s[..|s| - 1] + [s[|s| - 1]];
    }
  }

  lemma OrderByLength<T>(s: seq<T>, key: T -> string, desc: bool)
    ensures |OrderBy(s, key, desc)| == |s|
  {
    OrderByPermutation(s, key, desc);
    assert |multiset(OrderBy(s, key, desc))| == |multiset(s)|;
  }

  lemma OrderByMembers<T>(s: seq<T>, key: T -> string, desc: bool)
    ensures forall x :: x in OrderBy(s, key, desc) <==> x in s
  {
    OrderByPermutation(s, key, desc);
    forall x ensures x in OrderBy(s, key, desc) <==> x in s {
      assert x in OrderBy(s, key, desc) <==> x in multiset(OrderBy(s, key, desc));
      assert x in s <==> x in multiset(s);
    }
  }

  /** Filtering a row in front of a table. */
  lemma {:induction false} FilterCons<T>(x: T, s: seq<T>, p: T -> bool)
    ensures Filter([x] + s, p) == (if p(x) then [x] else []) + Filter(s, p)
    decreases |s|
  {
    if s != [] {
      var init := s[..|s| - 1];
      assert ([x] + s)[..|s|] == [x] + init;
      FilterCons(x, init, p);
    } else {
      assert [x] + s == [x];
      assert [x][..0] == [];
    }
  }

  /** No row of sorted `s` is behind `x` when its first row is not. */
  lemma FilterHeadAfter<T>(x: T, s: seq<T>, key: T -> string, desc: bool, p: T -> bool)
    requires SortedBy(s, key, desc)
    requires s != [] && !InOrder(key(s[0]), key(x), desc)
    ensures var f := Filter(s, p); f == [] || !InOrder(key(f[0]), key(x), desc)
  {
    var f := Filter(s, p);
    if f != [] {
      assert f[0] in s;
      var j :| 0 <= j < |s| && s[j] == f[0];
      if j > 0 && InOrder(key(f[0]), key(x), desc) {
        InOrderTrans(key(s[0]), key(f[0]), key(x), desc);
      }
    }
  }

  lemma InsertFilterFront<T>(x: T, s: seq<T>, key: T -> string, desc: bool, p: T -> bool)
    requires SortedBy(s, key, desc)
    requires s == [] || !InOrder(key(s[0]), key(x), desc)
    ensures Filter(Insert(x, s, key, desc), p)
            == if p(x) then Insert(x, Filter(s, p), key, desc) else Filter(s, p)
  {
    FilterCons(x, s, p);
    if s != [] { FilterHeadAfter(x, s, key, desc, p); }
  }

  lemma SortedTail<T>(s: seq<T>, key: T -> string, desc: bool)
    requires SortedBy(s, key, desc) && s != []
    ensures SortedBy(s[1..], key, desc)
  {
    var t := s[1..];
    forall i, j | 0 <= i < j < |t| ensures InOrder(key(t[i]), key(t[j]), desc) {
      assert t[i] == s[i + 1] && t[j] == s[j + 1];
    }
  }

  /** Inserting into sorted rows and then filtering is filtering and then inserting. */
  lemma {:induction false} InsertFilter<T>(x: T, s: seq<T>, key: T -> string, desc: bool, p: T -> bool)
    requires SortedBy(s, key, desc)
    ensures Filter(Insert(x, s, key, desc), p)
            == if p(x) then Insert(x, Filter(s, p), key, desc) else Filter(s, p)
    decreases |s|
  {
    if s == [] || !InOrder(key(s[0]), key(x), desc) {
      InsertFilterFront(x, s, key, desc, p);
    } else {
      var t := s[1..];
      SortedTail(s, key, desc);
      InsertFilter(x, t, key, desc, p);
      InsertFilterBehind(x, s, key, desc, p);
    }
  }

  /** Filtering after `x` went behind the first row: that row is filtered on its own. */
  lemma FilterBehindStep<T>(x: T, s: seq<T>, key: T -> string, desc: bool, p: T -> bool)
    requires s != [] && InOrder(key(s[0]), key(x), desc)
    ensures Filter(Insert(x, s, key, desc), p)
            == (if p(s[0]) then [s[0]] else []) + Filter(Insert(x, s[1..], key, desc), p)
  {
    InsertUnfoldBehind(x, s, key, desc);
    FilterCons(s[0], Insert(x, s[1..], key, desc), p);
  }

  /** Filtering a table is filtering its first row, then the rest. */
  lemma FilterFirst<T>(s: seq<T>, p: T -> bool)
    requires s != []
    ensures Filter(s, p) == (if p(s[0]) then [s[0]] else []) + Filter(s[1..], p)
  {
    FilterCons(s[0], s[1..], p);
    assert s == [s[0]] + s[1..];
  }

  /** The step of InsertFilter where `x` goes behind the first row. */
  lemma InsertFilterBehind<T>(x: T, s: seq<T>, key: T -> string, desc: bool, p: T -> bool)
    requires s != [] && InOrder(key(s[0]), key(x), desc)
    requires Filter(Insert(x, s[1..], key, desc), p)
             == if p(x) then Insert(x, Filter(s[1..], p), key, desc) else Filter(s[1..], p)
    ensures Filter(Insert(x, s, key, desc), p)
            == if p(x) then Insert(x, Filter(s, p), key, desc) else Filter(s, p)
  {
    var ft := Filter(s[1..], p);
    var fa := Filter(Insert(x, s[1..], key, desc), p);
    var h: seq<T> := if p(s[0]) then [s[0]] else [];
    FilterBehindStep(x, s, key, desc, p);
    FilterFirst(s, p);
    assert Filter(Insert(x, s, key, desc), p) == h + fa;
    assert Filter(s, p) == h + ft;
    if p(x) {
      assert fa == Insert(x, ft, key, desc);
      if p(s[0]) {
        InsertUnfoldBehind(x, [s[0]] + ft, key, desc);
        assert ([s[0]] + ft)[1..] == ft;
      } else {
        assert h + fa == fa && h + ft == ft;
      }
    } else {
      assert fa == ft;
    }
  }

  lemma InsertUnfoldBehind<T>(x: T, s: seq<T>, key: T -> string, desc: bool)
    requires s != [] && InOrder(key(s[0]), key(x), desc)
    ensures Insert(x, s, key, desc) == [s[0]] + Insert(x, s[1..], key, desc)
  {
  }

  /** The stable ORDER BY commutes with a WHERE: `ORDER BY` of the filtered rows is the filter of the ordered rows. */
  lemma {:induction false} OrderByFilter<T>(s: seq<T>, key: T -> string, desc: bool, p: T -> bool)
    ensures Filter(OrderBy(s, key, desc), p) == OrderBy(Filter(s, p), key, desc)
  {
    if s != [] {
      var init, x := s[..|s| - 1], s[|s| - 1];
      OrderByFilter(init, key, desc, p);
      OrderBySorted(init, key, desc);
      InsertFilter(x, OrderBy(init, key, desc), key, desc, p);
      if p(x) {
        var fs := Filter(s, p);
        assert fs == Filter(init, p) + [x];
        assert fs[..|fs| - 1] == Filter(init, p);
      }
    }
  }

  /** Every row passes exactly one of a filter and its negation. */
  lemma {:induction false} FilterCount<T>(s: seq<T>, p: T -> bool, q: T -> bool)
    requires forall x :: q(x) == !p(x)
    ensures |Filter(s, p)| + |Filter(s, q)| == |s|
  {
    if s != [] { FilterCount(s[..|s| - 1], p, q); }
  }

  // ---------------------------------------------------------------------
  // LIMIT / OFFSET and Array.prototype.slice

  /** `LIMIT limit OFFSET offset` over already ordered rows. */
  function LimitOffset<T>(s: seq<T>, limit: nat, offset: nat): (r: seq<T>)
    ensures |r| == if offset >= |s| then 0 else if offset + limit <= |s| then limit else |s| - offset
    ensures forall i :: 0 <= i < |r| ==> r[i] == s[offset + i]
  {
    if offset >= |s| then [] else s[offset..if offset + limit <= |s| then offset + limit else |s|]
  }

  /** Resolves a `slice` bound: negative counts from the end, then clamped to the length. */
  function SliceBound(i: int, len: nat): (r: nat)
    ensures r <= len
    ensures 0 <= i <= len ==> r == i
  {
    if i < 0 then (if len + i < 0 then 0 else len + i) else if i > len then len else i
  }

  /** `s.slice(start, end)` */
  function Slice<T>(s: seq<T>, start: int, end: int): (r: seq<T>)
    ensures var a, b := SliceBound(start, |s|), SliceBound(end, |s|);
      |r| == (if a < b then b - a else 0) && forall i :: 0 <= i < |r| ==> r[i] == s[a + i]
  {
    var a, b := SliceBound(start, |s|), SliceBound(end, |s|);
    if a < b then s[a..b] else []
  }
}
