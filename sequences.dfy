/** Sequence operations the views use: `Array.prototype.filter`, a stable sort by a numeric
    key, and `slice(0, n)`, with the facts the views rely on. */
module Sequences {

  function Min(a: int, b: int): int {
    if a <= b then a else b
  }

  /** `s.filter(p)`: the elements of `s` that satisfy `p`, in their original order. */
  function Filter<T>(s: seq<T>, p: T -> bool): (r: seq<T>)
    ensures |r| <= |s|
    ensures forall i :: 0 <= i < |r| ==> r[i] in s && p(r[i])
    ensures forall i :: 0 <= i < |s| && p(s[i]) ==> s[i] in r
  {
    if |s| == 0 then []
    else
      assert s == [s[0]] + s[1..];
      (if p(s[0]) then [s[0]] else []) + Filter(s[1..], p)
  }

  /** `a` is obtained from `b` by deleting elements: same elements, same relative order. */
  ghost predicate IsSubsequence<T>(a: seq<T>, b: seq<T>)
    decreases |b|
  {
    if |b| == 0 then |a| == 0
    else (|a| > 0 && a[0] == b[0] && IsSubsequence(a[1..], b[1..])) || IsSubsequence(a, b[1..])
  }

  lemma {:induction false} SubsequenceReflexive<T>(s: seq<T>)
    ensures IsSubsequence(s, s)
    decreases |s|
  {
    if |s| > 0 {
      SubsequenceReflexive(s[1..]);
    }
  }

  lemma {:induction false} FilterIsSubsequence<T>(s: seq<T>, p: T -> bool)
    ensures IsSubsequence(Filter(s, p), s)
    decreases |s|
  {
    if |s| > 0 {
      FilterIsSubsequence(s[1..], p);
      if p(s[0]) {
        assert Filter(s, p)[1..] == Filter(s[1..], p);
      } else {
        assert Filter(s, p) == Filter(s[1..], p);
      }
    }
  }

  /** Completeness with multiplicity: every element that satisfies `p` is kept as often as it
      occurs, and no other element is kept. */
  lemma {:induction false} FilterMultiplicity<T>(s: seq<T>, p: T -> bool, x: T)
    ensures multiset(Filter(s, p))[x] == if p(x) then multiset(s)[x] else 0
    decreases |s|
  {
    if |s| > 0 {
      FilterMultiplicity(s[1..], p, x);
      assert s == [s[0]] + s[1..];
    }
  }

  /** One more element at the end is kept exactly when it satisfies `p`. */
  lemma {:induction false} FilterSnocLength<T>(a: seq<T>, x: T, p: T -> bool)
    ensures |Filter(a + [x], p)| == |Filter(a, p)| + (if p(x) then 1 else 0)
    decreases |a|
  {
    if |a| == 0 {
      assert a + [x] == [x];
    } else {
      assert (a + [x])[0] == a[0];
      assert (a + [x])[1..] == a[1..] + [x];
      FilterSnocLength(a[1..], x, p);
    }
  }

  lemma {:induction false} FilterKeepsAll<T>(s: seq<T>, p: T -> bool)
    requires forall i :: 0 <= i < |s| ==> p(s[i])
    ensures Filter(s, p) == s
    decreases |s|
  {
    if |s| > 0 {
      FilterKeepsAll(s[1..], p);
    }
  }

  lemma {:induction false} FilterIdempotent<T>(s: seq<T>, p: T -> bool)
    ensures Filter(Filter(s, p), p) == Filter(s, p)
  {
    var r := Filter(s, p);
    forall i | 0 <= i < |r| ensures p(r[i]) {
      assert r[i] in r;
    }
    FilterKeepsAll(r, p);
  }

  /** A predicate that implies another keeps no more elements. */
  lemma {:induction false} FilterNarrower<T>(s: seq<T>, p: T -> bool, q: T -> bool)
    requires forall x :: p(x) ==> q(x)
    ensures |Filter(s, p)| <= |Filter(s, q)|
    decreases |s|
  {
    if |s| > 0 {
      FilterNarrower(s[1..], p, q);
    }
  }

  /** Two complementary predicates split the sequence. */
  lemma {:induction false} FilterPartition<T>(s: seq<T>, p: T -> bool, q: T -> bool)
    requires forall x :: q(x) == !p(x)
    ensures |Filter(s, p)| + |Filter(s, q)| == |s|
    decreases |s|
  {
    if |s| > 0 {
      FilterPartition(s[1..], p, q);
    }
  }

  ghost predicate SortedBy<T>(s: seq<T>, key: T -> real) {
    forall i, j :: 0 <= i < j < |s| ==> key(s[i]) <= key(s[j])
  }

  /** Inserts `x` in front of the first element whose key is not smaller. */
  function Insert<T>(x: T, s: seq<T>, key: T -> real): (r: seq<T>)
    requires SortedBy(s, key)
    ensures |r| == |s| + 1
    ensures r[0] == x || (|s| > 0 && r[0] == s[0])
    ensures SortedBy(r, key)
    ensures multiset(r) == multiset(s) + multiset{x}
    decreases |s|
  {
    if |s| == 0 || key(x) <= key(s[0]) then [x] + s
    else
      var rest := Insert(x, s[1..], key);
      assert s == [s[0]] + s[1..];
      assert key(s[0]) <= key(rest[0]);
      [s[0]] + rest
  }

  /** `s.slice().sort((a, b) => key(a) - key(b))`: ascending by key; elements with equal keys
      keep their relative order (the sort is stable, as the language requires since 2019). */
  function SortBy<T>(s: seq<T>, key: T -> real): (r: seq<T>)
    ensures |r| == |s|
    ensures SortedBy(r, key)
    ensures multiset(r) == multiset(s)
    decreases |s|
  {
    if |s| == 0 then []
    else
      assert s == [s[0]] + s[1..];
      Insert(s[0], SortBy(s[1..], key), key)
  }

  /** When every key is the same (a comparator that always answers 0), the order is kept. */
  lemma {:induction false} SortByEqualKeys<T>(s: seq<T>, key: T -> real)
    requires forall i, j :: 0 <= i < j < |s| ==> key(s[i]) == key(s[j])
    ensures SortBy(s, key) == s
    decreases |s|
  {
    if |s| > 0 {
      SortByEqualKeys(s[1..], key);
      assert s == [s[0]] + s[1..];
    }
  }

  /** The elements whose key is `k`. */
  function KeyIs<T>(key: T -> real, k: real): T -> bool {
    x => key(x) == k
  }

  /** Filtering a sequence with a given first element. */
  lemma FilterCons<T>(y: T, r: seq<T>, p: T -> bool)
    ensures Filter([y] + r, p) == (if p(y) then [y] else []) + Filter(r, p)
  {
    assert ([y] + r)[0] == y;
    assert ([y] + r)[1..] == r;
  }

  /** The bookkeeping behind `MovePast`: a kept prefix moves past a dropped one. */
  lemma Reassociate<T>(a: seq<T>, b: seq<T>, c: seq<T>, d: seq<T>, kx: seq<T>, ky: seq<T>)
    requires kx == [] || ky == []
    requires a == ky + b && b == kx + c && d == ky + c
    ensures a == kx + d
  {
    if kx == [] {
      assert b == c;
    } else {
      assert a == b;
    }
  }

  /** An element the filter drops in front of `x`, or one it keeps when `x` is dropped, lets
      `x` move past it without changing what the filter keeps. */
  lemma MovePast<T>(x: T, y: T, rest: seq<T>, t: seq<T>, p: T -> bool)
    requires !(p(x) && p(y))
    requires Filter(rest, p) == (if p(x) then [x] else []) + Filter(t, p)
    ensures Filter([y] + rest, p) == (if p(x) then [x] else []) + Filter([y] + t, p)
  {
    FilterCons(y, rest, p);
    FilterCons(y, t, p);
    Reassociate(Filter([y] + rest, p), Filter(rest, p), Filter(t, p), Filter([y] + t, p),
                if p(x) then [x] else [], if p(y) then [y] else []);
  }

  /** Inserting `x` into a sorted sequence puts it before every element with the same key.
      `SortBy` inserts each element into the sorted rest that follows it, so elements with equal
      keys keep their input order. */
  lemma {:induction false} InsertBeforeEqualKeys<T>(x: T, s: seq<T>, key: T -> real, k: real)
    requires SortedBy(s, key)
    ensures Filter(Insert(x, s, key), KeyIs(key, k))
            == (if key(x) == k then [x] else []) + Filter(s, KeyIs(key, k))
    decreases |s|
  {
    var p := KeyIs(key, k);
    if |s| == 0 || key(x) <= key(s[0]) {
      FilterCons(x, s, p);
    } else {
      var rest := Insert(x, s[1..], key);
      assert Insert(x, s, key) == [s[0]] + rest;
      assert s == [s[0]] + s[1..];
      InsertBeforeEqualKeys(x, s[1..], key, k);
      MovePast(x, s[0], rest, s[1..], p);
    }
  }

  /** The sort is stable: the elements that share a key come out in their input order. */
  lemma {:induction false} SortByIsStable<T>(s: seq<T>, key: T -> real, k: real)
    ensures Filter(SortBy(s, key), KeyIs(key, k)) == Filter(s, KeyIs(key, k))
    decreases |s|
  {
    if |s| > 0 {
      SortByIsStable(s[1..], key, k);
      InsertBeforeEqualKeys(s[0], SortBy(s[1..], key), key, k);
    }
  }

  /** `SortBy(s, key).slice(0, n)` picks smallest keys: an element of `s` that was left out is
      no smaller than any element that was taken. */
  lemma SortedPrefixIsSmallest<T>(s: seq<T>, key: T -> real, n: nat)
    requires n <= |s|
    ensures forall x, y :: x in s && x !in SortBy(s, key)[..n] && y in SortBy(s, key)[..n] ==> key(y) <= key(x)
  {
    var r := SortBy(s, key);
    forall x, y | x in s && x !in r[..n] && y in r[..n] ensures key(y) <= key(x) {
      assert x in multiset(s);
      assert x in multiset(r);
      var j :| 0 <= j < |r| && r[j] == x;
      var i :| 0 <= i < n && r[..n][i] == y;
    }
  }

  /** An element found at two positions occurs at least twice. */
  lemma TwoOccurrences<T>(r: seq<T>, i: nat, j: nat)
    requires i < j < |r| && r[i] == r[j]
    ensures multiset(r)[r[i]] >= 2
  {
    assert r == r[..j] + [r[j]] + r[j + 1..];
    assert r[..j][i] == r[i];
    assert r[i] in multiset(r[..j]);
  }

  /** In a sequence whose elements have pairwise different keys, nothing occurs twice. */
  lemma {:induction false} AtMostOnce<T, K>(s: seq<T>, key: T -> K, x: T)
    requires forall i, j :: 0 <= i < j < |s| ==> key(s[i]) != key(s[j])
    ensures multiset(s)[x] <= 1
    decreases |s|
  {
    if |s| > 0 {
      assert s == [s[0]] + s[1..];
      AtMostOnce(s[1..], key, x);
      if s[0] == x {
        assert forall j :: 0 <= j < |s[1..]| ==> s[1..][j] != x by {
          forall j | 0 <= j < |s[1..]| ensures s[1..][j] != x {
            assert key(s[0]) != key(s[j + 1]);
          }
        }
        assert x !in multiset(s[1..]);
      }
    }
  }

  /** Reordering keeps keys pairwise different. */
  lemma DistinctKeysPermuted<T, K>(s: seq<T>, r: seq<T>, key: T -> K)
    requires multiset(r) == multiset(s)
    requires forall i, j :: 0 <= i < j < |s| ==> key(s[i]) != key(s[j])
    ensures forall i, j :: 0 <= i < j < |r| ==> key(r[i]) != key(r[j])
  {
    forall i, j | 0 <= i < j < |r| ensures key(r[i]) != key(r[j]) {
      if key(r[i]) == key(r[j]) {
        assert r[i] in multiset(s) && r[j] in multiset(s);
        var a :| 0 <= a < |s| && s[a] == r[i];
        var b :| 0 <= b < |s| && s[b] == r[j];
        assert a == b;
        TwoOccurrences(r, i, j);
        AtMostOnce(s, key, r[i]);
        assert false;
      }
    }
  }
}
