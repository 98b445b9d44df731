/**
 * The JavaScript array built-ins the data layer is written with
 * (`filter`, `find`, `findIndex`, `Math.max(...xs)` and a stable
 * `sort`), as functions on sequences with the guarantees the
 * language standard gives them.
 */
module ArrayOps {
  import opened Wrappers

  /** `r` is `s` with some elements left out, the rest in their order. */
  ghost predicate IsSubsequence<T>(r: seq<T>, s: seq<T>)
    decreases |s|
  {
    if r == [] then true
    else if s == [] then false
    else (r[0] == s[0] && IsSubsequence(r[1..], s[1..])) || IsSubsequence(r, s[1..])
  }

  /** `s.filter(p)`: the elements satisfying `p`, in their order in `s`. */
  function Filter<T>(s: seq<T>, p: T -> bool): (r: seq<T>)
    ensures forall x :: x in r ==> x in s && p(x)
    ensures |r| <= |s|
  {
    if s == [] then []
    else
      var rest := Filter(s[1..], p);
      if p(s[0]) then [s[0]] + rest else rest
  }

  /** Filter keeps every element satisfying `p` as often as it occurs, and no other. */
  lemma {:induction false} FilterMultiset<T>(s: seq<T>, p: T -> bool)
    ensures forall x :: x in s ==> multiset(Filter(s, p))[x] == if p(x) then multiset(s)[x] else 0
  {
    if s != [] {
      FilterMultiset(s[1..], p);
      assert s == [s[0]] + s[1..];
    }
  }

  /** Filter keeps the order of `s`. */
  lemma {:induction false} FilterSubsequence<T>(s: seq<T>, p: T -> bool)
    ensures IsSubsequence(Filter(s, p), s)
  {
    if s != [] {
      FilterSubsequence(s[1..], p);
      var rest := Filter(s[1..], p);
      if p(s[0]) {
        assert ([s[0]] + rest)[1..] == rest;
      }
    }
  }

  /** Filtering keeps everything when every element passes, and nothing when none does. */
  lemma {:induction false} FilterAllOrNone<T>(s: seq<T>, p: T -> bool)
    ensures (forall i :: 0 <= i < |s| ==> p(s[i])) ==> Filter(s, p) == s
    ensures (forall i :: 0 <= i < |s| ==> !p(s[i])) ==> Filter(s, p) == []
  {
    if s != [] {
      FilterAllOrNone(s[1..], p);
      assert s == [s[0]] + s[1..];
    }
  }

  /** No element occurs twice. */
  ghost predicate NoDuplicates<T>(s: seq<T>) {
    forall i, j :: 0 <= i < j < |s| ==> s[i] != s[j]
  }

  /** Filtering a list without duplicates gives one without duplicates. */
  lemma {:induction false} FilterKeepsNoDuplicates<T>(s: seq<T>, p: T -> bool)
    requires NoDuplicates(s)
    ensures NoDuplicates(Filter(s, p))
  {
    if s != [] {
      var tail := s[1..];
      assert NoDuplicates(tail) by {
        forall i, j | 0 <= i < j < |tail| ensures tail[i] != tail[j] {
          assert tail[i] == s[i + 1] && tail[j] == s[j + 1];
        }
      }
      FilterKeepsNoDuplicates(tail, p);
      var rest := Filter(tail, p);
      if p(s[0]) {
        forall k | 0 <= k < |tail| ensures tail[k] != s[0] {
          assert tail[k] == s[k + 1];
        }
        assert s[0] !in rest;
        var r := [s[0]] + rest;
        forall i, j | 0 <= i < j < |r| ensures r[i] != r[j] {
          if i == 0 {
            assert r[j] == rest[j - 1];
          } else {
            assert r[i] == rest[i - 1] && r[j] == rest[j - 1];
          }
        }
      }
    }
  }

  /** A predicate implied by another keeps at least as many elements. */
  lemma {:induction false} FilterImplied<T>(s: seq<T>, p: T -> bool, q: T -> bool)
    requires forall i :: 0 <= i < |s| ==> p(s[i]) ==> q(s[i])
    ensures |Filter(s, p)| <= |Filter(s, q)|
  {
    if s != [] {
      FilterImplied(s[1..], p, q);
    }
  }

  /** Filtering by `p` first changes nothing for a `q` that implies `p`. */
  lemma {:induction false} FilterOfFilter<T>(s: seq<T>, p: T -> bool, q: T -> bool)
    requires forall i :: 0 <= i < |s| ==> q(s[i]) ==> p(s[i])
    ensures Filter(Filter(s, p), q) == Filter(s, q)
  {
    if s != [] {
      FilterOfFilter(s[1..], p, q);
      FilterCons(s[0], Filter(s[1..], p), q);
    }
  }

  /** Filtering by the union of two disjoint predicates keeps as many elements as the two filters together. */
  lemma {:induction false} FilterDisjointUnion<T>(s: seq<T>, p: T -> bool, q: T -> bool, pq: T -> bool)
    requires forall i :: 0 <= i < |s| ==> (pq(s[i]) <==> p(s[i]) || q(s[i]))
    requires forall i :: 0 <= i < |s| ==> !(p(s[i]) && q(s[i]))
    ensures |Filter(s, pq)| == |Filter(s, p)| + |Filter(s, q)|
  {
    if s != [] {
      FilterDisjointUnion(s[1..], p, q, pq);
    }
  }

  /** 1 for true, 0 for false. */
  function Indicator(b: bool): nat {
    if b then 1 else 0
  }

  /** The first element counts once if it satisfies `p`. */
  lemma FilterCountHead<T>(s: seq<T>, p: T -> bool)
    requires |s| > 0
    ensures |Filter(s, p)| == Indicator(p(s[0])) + |Filter(s[1..], p)|
  {
  }

  /** The number of elements of a five-element sequence that satisfy `p`. */
  lemma FilterCountFive<T>(s: seq<T>, p: T -> bool)
    requires |s| == 5
    ensures |Filter(s, p)| == Indicator(p(s[0])) + Indicator(p(s[1])) + Indicator(p(s[2])) + Indicator(p(s[3])) + Indicator(p(s[4]))
  {
    var s1, s2, s3, s4 := s[1..], s[2..], s[3..], s[4..];
    FilterCountHead(s, p);
    assert s1[0] == s[1] && s1[1..] == s2;
    FilterCountHead(s1, p);
    assert s2[0] == s[2] && s2[1..] == s3;
    FilterCountHead(s2, p);
    assert s3[0] == s[3] && s3[1..] == s4;
    FilterCountHead(s3, p);
    assert s4[0] == s[4] && s4[1..] == [];
    FilterCountHead(s4, p);
  }

  lemma FilterCons<T>(x: T, s: seq<T>, p: T -> bool)
    ensures Filter([x] + s, p) == (if p(x) then [x] else []) + Filter(s, p)
  {
    assert ([x] + s)[1..] == s;
  }

  /** Filtering commutes with concatenation. */
  lemma {:induction false} FilterConcat<T>(a: seq<T>, b: seq<T>, p: T -> bool)
    ensures Filter(a + b, p) == Filter(a, p) + Filter(b, p)
  {
    if a == [] {
      assert a + b == b;
    } else {
      calc {
        Filter(a + b, p);
        { assert a + b == [a[0]] + (a[1..] + b); FilterCons(a[0], a[1..] + b, p); }
        (if p(a[0]) then [a[0]] else []) + Filter(a[1..] + b, p);
        { FilterConcat(a[1..], b, p); }
        (if p(a[0]) then [a[0]] else []) + Filter(a[1..], p) + Filter(b, p);
        { assert a == [a[0]] + a[1..]; FilterCons(a[0], a[1..], p); }
        Filter(a, p) + Filter(b, p);
      }
    }
  }

  /** Removing the element at `k` removes it from the filtered sequence as well. */
  lemma FilterRemoveAt<T>(s: seq<T>, k: nat, p: T -> bool)
    requires k < |s|
    ensures |Filter(s, p)| == |Filter(s[..k] + s[k+1..], p)| + (if p(s[k]) then 1 else 0)
  {
    assert s == s[..k] + ([s[k]] + s[k+1..]);
    FilterConcat(s[..k], [s[k]] + s[k+1..], p);
    FilterCons(s[k], s[k+1..], p);
    FilterConcat(s[..k], s[k+1..], p);
  }

  /** Filters of two permutations of each other are permutations of each other. */
  lemma FilterPermutation<T>(a: seq<T>, b: seq<T>, p: T -> bool)
    requires multiset(a) == multiset(b)
    ensures multiset(Filter(a, p)) == multiset(Filter(b, p))
    ensures |Filter(a, p)| == |Filter(b, p)|
  {
    var fa, fb := Filter(a, p), Filter(b, p);
    FilterMultiset(a, p);
    FilterMultiset(b, p);
    forall x ensures multiset(fa)[x] == multiset(fb)[x] {
      if x !in a {
        assert x !in fa && x !in fb;
      }
    }
    assert multiset(fa) == multiset(fb);
    assert |fa| == |multiset(fa)| == |multiset(fb)| == |fb|;
  }

  /** Filters of two permutations of each other have the same length. */
  lemma FilterCountPermutation<T>(a: seq<T>, b: seq<T>, p: T -> bool)
    requires multiset(a) == multiset(b)
    ensures |Filter(a, p)| == |Filter(b, p)|
  {
    FilterPermutation(a, b, p);
  }

  /** `s.findIndex(p)`: the first index whose element satisfies `p`, or -1. */
  function FindIndex<T>(s: seq<T>, p: T -> bool): (r: int)
    ensures -1 <= r < |s|
    ensures r == -1 <==> forall i :: 0 <= i < |s| ==> !p(s[i])
    ensures 0 <= r ==> p(s[r]) && forall i :: 0 <= i < r ==> !p(s[i])
  {
    if s == [] then -1
    else if p(s[0]) then 0
    else
      var k := FindIndex(s[1..], p);
      if k == -1 then -1 else k + 1
  }

  /** `s.find(p)`: the first element satisfying `p`, or nothing. */
  function Find<T>(s: seq<T>, p: T -> bool): (r: Option<T>)
    ensures r.None? <==> forall i :: 0 <= i < |s| ==> !p(s[i])
    ensures r.Some? ==> exists i :: 0 <= i < |s| && s[i] == r.value && p(s[i])
                                    && forall j :: 0 <= j < i ==> !p(s[j])
  {
    var k := FindIndex(s, p);
    if k == -1 then None else Some(s[k])
  }

  /** `s.map(f)`. */
  function Map<T, U>(s: seq<T>, f: T -> U): (r: seq<U>)
    ensures |r| == |s|
    ensures forall k :: 0 <= k < |r| ==> r[k] == f(s[k])
  {
    seq(|s|, k requires 0 <= k < |s| => f(s[k]))
  }

  /** `Math.max(...s)` for a non-empty `s`. */
  function Max(s: seq<int>): (m: int)
    requires |s| > 0
    ensures m in s
    ensures forall x :: x in s ==> x <= m
  {
    if |s| == 1 then s[0]
    else
      var rest := Max(s[1..]);
      assert forall x :: x in s ==> x == s[0] || x in s[1..];
      if s[0] >= rest then s[0] else rest
  }

  /** The keys never decrease from left to right. */
  ghost predicate SortedByKey<T>(s: seq<T>, key: T -> int) {
    forall i, j :: 0 <= i < j < |s| ==> key(s[i]) <= key(s[j])
  }

  /** The test `key(x) == k` as a predicate. */
  function KeyIs<T>(key: T -> int, k: int): T -> bool {
    (x: T) => key(x) == k
  }

  /** The elements of `s` whose key is `k`, in their order in `s`. */
  function WithKey<T>(s: seq<T>, key: T -> int, k: int): seq<T> {
    Filter(s, KeyIs(key, k))
  }

  /** Puts `x` in front of the first element whose key is not smaller. */
  function InsertByKey<T>(x: T, s: seq<T>, key: T -> int): (r: seq<T>)
    ensures multiset(r) == multiset(s) + multiset{x}
    ensures |r| == |s| + 1
  {
    if s == [] then [x]
    else if key(x) <= key(s[0]) then [x] + s
    else
      assert s == [s[0]] + s[1..];
      [s[0]] + InsertByKey(x, s[1..], key)
  }

  /** A sorted sequence stays sorted when an element no larger than all of it is put in front. */
  lemma ConsSorted<T>(y: T, t: seq<T>, key: T -> int)
    requires SortedByKey(t, key)
    requires forall z | z in t :: key(y) <= key(z)
    ensures SortedByKey([y] + t, key)
  {
    var r := [y] + t;
    forall i, j | 0 <= i < j < |r| ensures key(r[i]) <= key(r[j]) {
      if i == 0 {
        assert r[j] == t[j - 1];
      } else {
        assert r[i] == t[i - 1] && r[j] == t[j - 1];
      }
    }
  }

  lemma {:induction false} InsertByKeySorted<T>(x: T, s: seq<T>, key: T -> int)
    requires SortedByKey(s, key)
    ensures SortedByKey(InsertByKey(x, s, key), key)
  {
    if s == [] {
      assert InsertByKey(x, s, key) == [x];
    } else if key(x) <= key(s[0]) {
      forall z | z in s ensures key(x) <= key(z) {
        var j :| 0 <= j < |s| && s[j] == z;
        assert key(s[0]) <= key(s[j]);
      }
      ConsSorted(x, s, key);
    } else {
      var rest := InsertByKey(x, s[1..], key);
      assert SortedByKey(s[1..], key);
      InsertByKeySorted(x, s[1..], key);
      forall z | z in rest ensures key(s[0]) <= key(z) {
        assert z in multiset(rest);
        if z != x {
          assert z in multiset(s[1..]);
          var j :| 0 <= j < |s[1..]| && s[1..][j] == z;
          assert s[1..][j] == s[j + 1];
        }
      }
      ConsSorted(s[0], rest, key);
    }
  }

  /**
   * `Array.prototype.sort` with the comparator `key(a) - key(b)`: a
   * stable sort (section 22.1.3.27 of ECMA-262, 10th edition), here an
   * insertion sort.
   */
  function SortByKey<T>(s: seq<T>, key: T -> int): (r: seq<T>)
    ensures SortedByKey(r, key)
    ensures multiset(r) == multiset(s)
    ensures |r| == |s|
  {
    if s == [] then []
    else
      assert s == [s[0]] + s[1..];
      var t := SortByKey(s[1..], key);
      InsertByKeySorted(s[0], t, key);
      InsertByKey(s[0], t, key)
  }

  lemma {:induction false} InsertKeepsOrderOfEqualKeys<T>(x: T, s: seq<T>, key: T -> int, k: int)
    ensures WithKey(InsertByKey(x, s, key), key, k)
         == (if key(x) == k then [x] else []) + WithKey(s, key, k)
  {
    var p := KeyIs(key, k);
    if s == [] {
      assert [x] == [x] + [];
      FilterCons(x, [], p);
    } else if key(x) <= key(s[0]) {
      FilterCons(x, s, p);
    } else {
      var rest := InsertByKey(x, s[1..], key);
      InsertKeepsOrderOfEqualKeys(x, s[1..], key, k);
      PassSmallerKey(x, s[0], s[1..], rest, key, k);
      assert s == [s[0]] + s[1..];
    }
  }

  /** `x` moving past an element `y` with a smaller key does not change the filtered order. */
  lemma PassSmallerKey<T>(x: T, y: T, t: seq<T>, rest: seq<T>, key: T -> int, k: int)
    requires key(y) < key(x)
    requires WithKey(rest, key, k) == (if key(x) == k then [x] else []) + WithKey(t, key, k)
    ensures WithKey([y] + rest, key, k) == (if key(x) == k then [x] else []) + WithKey([y] + t, key, k)
  {
    var p := KeyIs(key, k);
    FilterCons(y, rest, p);
    FilterCons(y, t, p);
    if p(x) {
      assert !p(y);
    } else {
      assert [] + WithKey([y] + t, key, k) == WithKey([y] + t, key, k);
    }
  }

  /** The sort is stable: elements with equal keys keep their relative order. */
  lemma {:induction false} SortByKeyStable<T>(s: seq<T>, key: T -> int, k: int)
    ensures WithKey(SortByKey(s, key), key, k) == WithKey(s, key, k)
  {
    if s != [] {
      var p := KeyIs(key, k);
      InsertKeepsOrderOfEqualKeys(s[0], SortByKey(s[1..], key), key, k);
      SortByKeyStable(s[1..], key, k);
      assert s == [s[0]] + s[1..];
      FilterCons(s[0], s[1..], p);
    }
  }
}
