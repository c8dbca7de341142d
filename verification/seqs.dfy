/**
 * Collection operations shared by the server routes and the client screens:
 * `Array.prototype.filter` and `map`, `[...new Set(xs)]`, a sort by a total
 * preorder, the `skip`/`limit` window of a paged query, `Math.ceil(total / limit)`,
 * and the enumeration of a store's keys.
 */
module Seqs {

  // ---------------------------------------------------------------------
  // filter and map
  // ---------------------------------------------------------------------

  /** `s.filter(p)`: the elements of `s` that satisfy `p`, in order. */
  function Filter<T>(s: seq<T>, p: T -> bool): (r: seq<T>)
    ensures |r| <= |s|
    ensures forall i :: 0 <= i < |r| ==> r[i] in s && p(r[i])
    ensures forall i :: 0 <= i < |s| && p(s[i]) ==> s[i] in r
  {
    if s == [] then [] else (if p(s[0]) then [s[0]] else []) + Filter(s[1..], p)
  }

  /** Filtering keeps every occurrence of a kept element and drops every occurrence of the others. */
  lemma {:induction false} FilterCount<T>(s: seq<T>, p: T -> bool, x: T)
    ensures multiset(Filter(s, p))[x] == if p(x) then multiset(s)[x] else 0
  {
    if s != [] {
      FilterCount(s[1..], p, x);
      assert s == [s[0]] + s[1..];
    }
  }

  /** `a` is `b` with some elements removed, order kept. */
  predicate IsSubsequence<T(==)>(a: seq<T>, b: seq<T>)
    decreases |b|
  {
    |a| == 0 || (|b| > 0 && ((a[0] == b[0] && IsSubsequence(a[1..], b[1..])) || IsSubsequence(a, b[1..])))
  }

  lemma {:induction false} FilterIsSubsequence<T>(s: seq<T>, p: T -> bool)
    ensures IsSubsequence(Filter(s, p), s)
  {
    if s != [] {
      FilterIsSubsequence(s[1..], p);
      var r := Filter(s, p);
      if p(s[0]) {
        assert r[0] == s[0] && r[1..] == Filter(s[1..], p);
      } else {
        assert r == Filter(s[1..], p);
      }
    }
  }

  /** When every element passes, filtering returns the sequence unchanged. */
  lemma {:induction false} FilterAll<T>(s: seq<T>, p: T -> bool)
    requires forall i :: 0 <= i < |s| ==> p(s[i])
    ensures Filter(s, p) == s
  {
    if s != [] {
      FilterAll(s[1..], p);
      assert s == [s[0]] + s[1..];
    }
  }

  /** `s.map(f)`. */
  function MapSeq<T, U>(s: seq<T>, f: T -> U): (r: seq<U>)
    ensures |r| == |s|
    ensures forall i :: 0 <= i < |s| ==> r[i] == f(s[i])
  {
    seq(|s|, i requires 0 <= i < |s| => f(s[i]))
  }

  // ---------------------------------------------------------------------
  // [...new Set(s)]
  // ---------------------------------------------------------------------

  predicate NoDuplicates<T(==)>(s: seq<T>) {
    forall i, j :: 0 <= i < j < |s| ==> s[i] != s[j]
  }

  /** The position of the first occurrence of `x` in `s`. */
  function IndexOf<T(==)>(s: seq<T>, x: T): (i: nat)
    requires x in s
    ensures i < |s| && s[i] == x
    ensures forall k :: 0 <= k < i ==> s[k] != x
  {
    if s[0] == x then 0 else 1 + IndexOf(s[1..], x)
  }

  /** `[...new Set(s)]`: each distinct element of `s` once. */
  function Dedup<T(==)>(s: seq<T>): (r: seq<T>)
    ensures NoDuplicates(r)
    ensures forall i :: 0 <= i < |r| ==> r[i] in s
    ensures forall i :: 0 <= i < |s| ==> s[i] in r
    ensures |r| <= |s|
  {
    if s == [] then []
    else
      var r := Dedup(s[..|s| - 1]);
      if s[|s| - 1] in r then r else r + [s[|s| - 1]]
  }

  lemma IndexOfExtend<T>(p: seq<T>, y: T, x: T)
    requires x in p
    ensures IndexOf(p + [y], x) == IndexOf(p, x)
  {
    var i, j := IndexOf(p, x), IndexOf(p + [y], x);
    assert (p + [y])[i] == x;
    assert forall k :: 0 <= k < |p| ==> (p + [y])[k] == p[k];
  }

  /** A Set iterates in insertion order, so `[...new Set(s)]` lists elements by first occurrence. */
  lemma {:induction false} DedupFirstOccurrenceOrder<T>(s: seq<T>)
    ensures forall i, j :: 0 <= i < j < |Dedup(s)| ==> IndexOf(s, Dedup(s)[i]) < IndexOf(s, Dedup(s)[j])
  {
    if s != [] {
      var p, y := s[..|s| - 1], s[|s| - 1];
      assert s == p + [y];
      DedupFirstOccurrenceOrder(p);
      var r', r := Dedup(p), Dedup(s);
      forall x | x in p ensures IndexOf(s, x) == IndexOf(p, x) {
        IndexOfExtend(p, y, x);
      }
      forall i, j | 0 <= i < j < |r| ensures IndexOf(s, r[i]) < IndexOf(s, r[j]) {
        assert r[i] in p;
        if j < |r'| {
          assert r[i] == r'[i] && r[j] == r'[j];
        } else {
          assert r[j] == y && y !in p;
          assert IndexOf(s, y) == |p| by {
            assert forall k :: 0 <= k < |p| ==> s[k] == p[k];
          }
        }
      }
    }
  }

  // ---------------------------------------------------------------------
  // Sorting
  // ---------------------------------------------------------------------

  ghost predicate TotalPreorder<T(!new)>(le: (T, T) -> bool) {
    && (forall x, y :: le(x, y) || le(y, x))
    && (forall x, y, z :: le(x, y) && le(y, z) ==> le(x, z))
  }

  predicate SortedBy<T>(s: seq<T>, le: (T, T) -> bool) {
    forall i, j :: 0 <= i < j < |s| ==> le(s[i], s[j])
  }

  /** Places `x` before the first element it is `le` to. */
  function Insert<T(==)>(x: T, s: seq<T>, le: (T, T) -> bool): (r: seq<T>)
    ensures multiset(r) == multiset(s) + multiset{x}
  {
    if s == [] then [x]
    else if le(x, s[0]) then [x] + s
    else
      assert s == [s[0]] + s[1..];
      [s[0]] + Insert(x, s[1..], le)
  }

  /** Insertion sort: a permutation of `s`, sorted when `le` is a total preorder. */
  function SortBy<T(==)>(s: seq<T>, le: (T, T) -> bool): (r: seq<T>)
    ensures multiset(r) == multiset(s)
  {
    if s == [] then []
    else
      assert s == [s[0]] + s[1..];
      Insert(s[0], SortBy(s[1..], le), le)
  }

  lemma {:induction false} InsertSorted<T(!new)>(x: T, s: seq<T>, le: (T, T) -> bool)
    requires TotalPreorder(le) && SortedBy(s, le)
    ensures SortedBy(Insert(x, s, le), le)
  {
    if s != [] && !le(x, s[0]) {
      var t := Insert(x, s[1..], le);
      InsertSorted(x, s[1..], le);
      assert le(s[0], x);
      forall j | 0 <= j < |t| ensures le(s[0], t[j]) {
        assert t[j] in multiset(t);
        if t[j] != x {
          assert t[j] in multiset(s[1..]);
          var k :| 0 <= k < |s[1..]| && s[1..][k] == t[j];
          assert s[k + 1] == t[j];
        }
      }
      var r := Insert(x, s, le);
      assert r == [s[0]] + t;
      forall i, j | 0 <= i < j < |r| ensures le(r[i], r[j]) {
        if i > 0 {
          assert r[i] == t[i - 1] && r[j] == t[j - 1];
        } else {
          assert r[j] == t[j - 1];
        }
      }
    }
  }

  lemma {:induction false} SortBySorted<T(!new)>(s: seq<T>, le: (T, T) -> bool)
    requires TotalPreorder(le)
    ensures SortedBy(SortBy(s, le), le)
  {
    if s != [] {
      SortBySorted(s[1..], le);
      InsertSorted(s[0], SortBy(s[1..], le), le);
    }
  }

  // ---------------------------------------------------------------------
  // Paging
  // ---------------------------------------------------------------------

  function Min(a: int, b: int): int { if a <= b then a else b }

  /** `.skip(skip).limit(limit)` applied to an ordered result. */
  function Window<T>(s: seq<T>, skip: nat, limit: nat): (r: seq<T>)
    ensures |r| == if skip >= |s| then 0 else Min(limit, |s| - skip)
    ensures forall i :: 0 <= i < |r| ==> r[i] == s[skip + i]
  {
    if skip >= |s| then [] else s[skip..Min(|s|, skip + limit)]
  }

  /** `Math.ceil(total / limit)`: the least number of pages of `limit` items that hold `total` items. */
  function CeilDiv(total: nat, limit: nat): (pages: nat)
    requires limit > 0
    ensures pages * limit >= total
    ensures pages == 0 || (pages - 1) * limit < total
  {
    var q := (total + limit - 1) / limit;
    assert total + limit - 1 == q * limit + (total + limit - 1) % limit;
    q
  }

  lemma MulMonotone(a: nat, b: nat, c: nat)
    requires a <= b
    ensures a * c <= b * c
  {
  }

  /** The page numbered `page` starts at or after the last item exactly when `page` exceeds the page count. */
  lemma PageStart(total: nat, limit: nat, page: nat)
    requires limit > 0 && page >= 1
    ensures (page - 1) * limit >= total <==> page > CeilDiv(total, limit)
  {
    var n := CeilDiv(total, limit);
    if page > n {
      MulMonotone(n, page - 1, limit);
    } else if n > 0 {
      MulMonotone(page - 1, n - 1, limit);
    }
  }

  /** The item at position `i` appears on page `i / limit + 1`, which is a page that exists. */
  lemma PageOfIndex(total: nat, limit: nat, i: nat)
    requires limit > 0 && i < total
    ensures var page := i / limit + 1;
      && (page - 1) * limit <= i < (page - 1) * limit + limit
      && 1 <= page <= CeilDiv(total, limit)
  {
    var page := i / limit + 1;
    assert i == (i / limit) * limit + i % limit;
    assert (page - 1) * limit <= i < (page - 1) * limit + limit;
    PageStart(total, limit, page);
  }

  /** Page number `page` (counted from 1) of `xs` ordered by `le`, `limit` items per page:
      `.sort(...).skip((page - 1) * limit).limit(limit)`. */
  function Page<T(==)>(xs: seq<T>, le: (T, T) -> bool, page: int, limit: int): (r: seq<T>)
    requires page >= 1 && limit >= 1
    ensures |r| <= limit
    ensures forall i :: 0 <= i < |r| ==> r[i] in xs
  {
    var skip: nat := (page - 1) * limit;
    var sorted := SortBy(xs, le);
    var r := Window(sorted, skip, limit);
    assert forall i :: 0 <= i < |r| ==> r[i] in xs by {
      forall i | 0 <= i < |r| ensures r[i] in xs {
        assert r[i] == sorted[skip + i];
        assert r[i] in multiset(sorted);
      }
    }
    r
  }

  /** A window of a sorted sequence is sorted. */
  lemma WindowSorted<T>(s: seq<T>, le: (T, T) -> bool, skip: nat, limit: nat)
    requires SortedBy(s, le)
    ensures SortedBy(Window(s, skip, limit), le)
  {
    var r := Window(s, skip, limit);
    forall i, j | 0 <= i < j < |r| ensures le(r[i], r[j]) {
      assert r[i] == s[skip + i] && r[j] == s[skip + j];
    }
  }

  /** Every page lists its items in order. */
  lemma PageSorted<T(!new)>(xs: seq<T>, le: (T, T) -> bool, page: int, limit: int)
    requires TotalPreorder(le) && page >= 1 && limit >= 1
    ensures SortedBy(Page(xs, le, page, limit), le)
  {
    SortBySorted(xs, le);
    WindowSorted(SortBy(xs, le), le, (page - 1) * limit, limit);
  }

  /** A page beyond the page count is empty, and a page within it is not. */
  lemma PagePastEnd<T>(xs: seq<T>, le: (T, T) -> bool, page: int, limit: int)
    requires page >= 1 && limit >= 1
    ensures Page(xs, le, page, limit) == [] <==> page > CeilDiv(|xs|, limit)
  {
    var sorted := SortBy(xs, le);
    assert |sorted| == |multiset(sorted)| == |multiset(xs)| == |xs|;
    PageStart(|xs|, limit, page);
  }

  /** Every item appears on some page between 1 and the page count. */
  lemma EveryItemOnSomePage<T>(xs: seq<T>, le: (T, T) -> bool, limit: int, x: T)
    requires limit >= 1 && x in xs
    ensures exists page :: 1 <= page <= CeilDiv(|xs|, limit) && x in Page(xs, le, page, limit)
  {
    var sorted := SortBy(xs, le);
    assert |sorted| == |multiset(sorted)| == |multiset(xs)| == |xs|;
    assert x in multiset(sorted);
    var i :| 0 <= i < |sorted| && sorted[i] == x;
    PageOfIndex(|xs|, limit, i);
    var page := i / limit + 1;
    var skip: nat := (page - 1) * limit;
    var r := Page(xs, le, page, limit);
    assert r == Window(sorted, skip, limit);
    assert r[i - skip] == x;
  }

  // ---------------------------------------------------------------------
  // Querying a store
  // ---------------------------------------------------------------------

  /** `find(filter)`: the keys of the entries of `m` whose value satisfies `p`, each once, in an
      order left to the implementation (the natural order of documents in a collection). */
  method Select<K, V>(m: map<K, V>, p: V -> bool) returns (ks: seq<K>)
    ensures NoDuplicates(ks)
    ensures forall k :: k in ks <==> k in m && p(m[k])
  {
    ks := [];
    var rest := m.Keys;
    while rest != {}
      invariant rest <= m.Keys
      invariant NoDuplicates(ks)
      invariant forall k :: k in ks <==> k in m && p(m[k]) && k !in rest
      decreases rest
    {
      var k :| k in rest;
      if p(m[k]) {
        ks := ks + [k];
      }
      rest := rest - {k};
    }
  }

  /** The values that `ks` select from `m`, in the order of `ks`. */
  function ValuesAt<K, V>(m: map<K, V>, ks: seq<K>): (vs: seq<V>)
    requires forall k :: k in ks ==> k in m
    ensures |vs| == |ks|
    ensures forall i :: 0 <= i < |ks| ==> vs[i] == m[ks[i]]
  {
    seq(|ks|, i requires 0 <= i < |ks| => m[ks[i]])
  }
}
