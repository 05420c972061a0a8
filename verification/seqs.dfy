/**
 * Sequence helpers shared by the whole model: the `Array.prototype` operations
 * the source relies on (filter, reduce to a sum, slice, stable sort).
 */
module Seqs {
  import opened Wrappers

  /** `s.filter(p)`: the elements satisfying p, in their original order. */
  function Filter<T>(s: seq<T>, p: T -> bool): (r: seq<T>)
    ensures |r| <= |s|
  {
    if s == [] then [] else (if p(s[0]) then [s[0]] else []) + Filter(s[1..], p)
  }

  /** The filter keeps exactly the elements satisfying p. */
  lemma {:induction false} FilterMembers<T>(s: seq<T>, p: T -> bool)
    ensures forall x :: x in Filter(s, p) <==> x in s && p(x)
  {
    if s != [] {
      FilterMembers(s[1..], p);
      assert forall x :: x in s <==> x == s[0] || x in s[1..];
    }
  }

  lemma {:induction false} FilterAppend<T>(a: seq<T>, b: seq<T>, p: T -> bool)
    ensures Filter(a + b, p) == Filter(a, p) + Filter(b, p)
  {
    if a == [] {
      assert a + b == b;
    } else {
      assert (a + b)[0] == a[0] && (a + b)[1..] == a[1..] + b;
      FilterAppend(a[1..], b, p);
      assert Filter(a, p) == (if p(a[0]) then [a[0]] else []) + Filter(a[1..], p);
    }
  }

  /** Filtering with a predicate that accepts everything is the identity. */
  lemma {:induction false} FilterAll<T>(s: seq<T>, p: T -> bool)
    requires forall x :: x in s ==> p(x)
    ensures Filter(s, p) == s
  {
    if s != [] {
      FilterAll(s[1..], p);
    }
  }

  /** Two predicates that agree on the elements of s filter s alike. */
  lemma {:induction false} FilterCongruent<T>(s: seq<T>, p: T -> bool, q: T -> bool)
    requires forall x :: x in s ==> p(x) == q(x)
    ensures Filter(s, p) == Filter(s, q)
  {
    if s != [] {
      FilterCongruent(s[1..], p, q);
    }
  }

  /** `s.reduce((acc, x) => acc + f(x), 0)` over reals. */
  function SumOf<T>(s: seq<T>, f: T -> real): real
  {
    if s == [] then 0.0 else f(s[0]) + SumOf(s[1..], f)
  }

  lemma {:induction false} SumOfAppend<T>(a: seq<T>, b: seq<T>, f: T -> real)
    ensures SumOf(a + b, f) == SumOf(a, f) + SumOf(b, f)
  {
    if a == [] {
      assert a + b == b;
    } else {
      assert (a + b)[1..] == a[1..] + b;
      SumOfAppend(a[1..], b, f);
    }
  }

  /** A sum of terms that are zero outside p equals the sum over `Filter(s, p)`. */
  lemma {:induction false} SumOfFilter<T>(s: seq<T>, p: T -> bool, f: T -> real)
    requires forall x :: x in s && !p(x) ==> f(x) == 0.0
    ensures SumOf(Filter(s, p), f) == SumOf(s, f)
  {
    if s != [] {
      SumOfFilter(s[1..], p, f);
      if p(s[0]) {
        assert Filter(s, p) == [s[0]] + Filter(s[1..], p);
        assert ([s[0]] + Filter(s[1..], p))[1..] == Filter(s[1..], p);
      } else {
        assert Filter(s, p) == Filter(s[1..], p);
      }
    }
  }

  /** Sums of non-negative terms are non-negative. */
  lemma {:induction false} SumOfNonNegative<T>(s: seq<T>, f: T -> real)
    requires forall x :: x in s ==> f(x) >= 0.0
    ensures SumOf(s, f) >= 0.0
  {
    if s != [] {
      SumOfNonNegative(s[1..], f);
    }
  }

  /** Sums of strictly positive terms over a non-empty sequence are positive. */
  lemma {:induction false} SumOfPositive<T>(s: seq<T>, f: T -> real)
    requires s != []
    requires forall x :: x in s ==> f(x) > 0.0
    ensures SumOf(s, f) > 0.0
  {
    SumOfNonNegative(s[1..], f);
  }

  /** Number of elements satisfying p (`s.filter(p).length`). */
  function CountOf<T>(s: seq<T>, p: T -> bool): nat
  {
    |Filter(s, p)|
  }

  /**
   * The end index `Array.prototype.slice(0, end)` uses for a sequence of
   * length n: a negative end counts back from the length, and it is clamped
   * to 0..n.
   */
  function SliceEnd(n: nat, end: int): (k: nat)
    ensures k <= n
    ensures 0 <= end ==> k == if end < n then end else n
    ensures end < 0 ==> k == if n + end < 0 then 0 else n + end
  {
    if end < 0 then (if n + end < 0 then 0 else n + end)
    else if end < n then end else n
  }

  /** `s.slice(0, end)`, where an undefined end keeps the whole sequence. */
  function Slice<T>(s: seq<T>, end: Option<int>): (r: seq<T>)
    ensures r <= s
    ensures end.None? ==> r == s
    ensures end.Some? && end.value >= 0 ==> |r| == if end.value < |s| then end.value else |s|
  {
    match end
    case None => s
    case Some(e) => s[..SliceEnd(|s|, e)]
  }

  /** Keys ascend along s. */
  ghost predicate SortedBy<T>(s: seq<T>, key: T -> real)
  {
    forall i, j :: 0 <= i < j < |s| ==> key(s[i]) <= key(s[j])
  }

  /** Places x before the first element whose key is not smaller. */
  function Insert<T>(x: T, s: seq<T>, key: T -> real): (r: seq<T>)
    ensures |r| == |s| + 1
    ensures multiset(r) == multiset(s) + multiset{x}
  {
    if s == [] || key(x) <= key(s[0]) then [x] + s
    else
      assert s == [s[0]] + s[1..];
      [s[0]] + Insert(x, s[1..], key)
  }

  /**
   * A stable ascending sort by key: the model of `Array.prototype.sort`
   * with a comparator `(a, b) => key(a) - key(b)` (stable since ES2019).
   * An element is inserted in front of the later elements with the same key.
   */
  function SortBy<T>(s: seq<T>, key: T -> real): (r: seq<T>)
    ensures |r| == |s|
    ensures multiset(r) == multiset(s)
  {
    if s == [] then []
    else
      assert s == [s[0]] + s[1..];
      Insert(s[0], SortBy(s[1..], key), key)
  }

  lemma {:induction false} InsertSorted<T>(x: T, s: seq<T>, key: T -> real)
    requires SortedBy(s, key)
    ensures SortedBy(Insert(x, s, key), key)
  {
    if s == [] || key(x) <= key(s[0]) {
    } else {
      InsertSorted(x, s[1..], key);
      var r := Insert(x, s, key);
      var t := Insert(x, s[1..], key);
      assert r == [s[0]] + t;
      forall k | 0 <= k < |t| ensures key(s[0]) <= key(t[k]) {
        assert t[k] in multiset(t);
        assert t[k] in multiset(s[1..]) + multiset{x};
        if t[k] != x {
          assert t[k] in multiset(s[1..]);
          var j :| 0 <= j < |s[1..]| && s[1..][j] == t[k];
          assert s[1..][j] == s[j + 1];
        }
      }
    }
  }

  /** The sort's output ascends by key. */
  lemma {:induction false} SortBySorted<T>(s: seq<T>, key: T -> real)
    ensures SortedBy(SortBy(s, key), key)
  {
    if s != [] {
      SortBySorted(s[1..], key);
      InsertSorted(s[0], SortBy(s[1..], key), key);
    }
  }

  lemma {:induction false} InsertStable<T>(x: T, s: seq<T>, key: T -> real, p: T -> bool, v: real)
    requires forall y :: p(y) <==> key(y) == v
    ensures Filter(Insert(x, s, key), p) == (if p(x) then [x] else []) + Filter(s, p)
  {
    if s == [] || key(x) <= key(s[0]) {
      assert ([x] + s)[1..] == s;
    } else {
      var t := Insert(x, s[1..], key);
      assert Insert(x, s, key) == [s[0]] + t;
      assert ([s[0]] + t)[1..] == t;
      InsertStable(x, s[1..], key, p, v);
    }
  }

  /**
   * Stability: for every key value v, the elements with key v appear in the
   * output in the same order as in the input.
   */
  lemma {:induction false} SortByStable<T>(s: seq<T>, key: T -> real, p: T -> bool, v: real)
    requires forall y :: p(y) <==> key(y) == v
    ensures Filter(SortBy(s, key), p) == Filter(s, p)
  {
    if s != [] {
      SortByStable(s[1..], key, p, v);
      InsertStable(s[0], SortBy(s[1..], key), key, p, v);
    }
  }

  /** The sort leaves a sequence that is already sorted unchanged. */
  lemma {:induction false} SortBySortedIdentity<T>(s: seq<T>, key: T -> real)
    requires SortedBy(s, key)
    ensures SortBy(s, key) == s
  {
    if s != [] {
      assert SortedBy(s[1..], key);
      SortBySortedIdentity(s[1..], key);
      var t := s[1..];
      assert t == [] || key(s[0]) <= key(t[0]);
    }
  }

  /** The sum of f over a permutation of s is the sum over s. */
  lemma {:induction false} SumOfPermutation<T>(a: seq<T>, b: seq<T>, f: T -> real)
    requires multiset(a) == multiset(b)
    ensures SumOf(a, f) == SumOf(b, f)
    decreases |a|
  {
    if a == [] {
      assert |b| == |multiset(b)| == 0;
    } else {
      var x := a[0];
      assert x in multiset(b);
      var i :| 0 <= i < |b| && b[i] == x;
      var b' := b[..i] + b[i + 1..];
      assert b == b[..i] + [x] + b[i + 1..];
      assert multiset(b) == multiset(b[..i]) + multiset{x} + multiset(b[i + 1..]);
      assert a == [x] + a[1..];
      assert multiset(a[1..]) == multiset(a) - multiset{x};
      assert multiset(b') == multiset(b[..i]) + multiset(b[i + 1..]);
      assert multiset(b') == multiset(b) - multiset{x};
      SumOfPermutation(a[1..], b', f);
      SumOfAppend(b[..i], b[i + 1..], f);
      SumOfAppend(b[..i] + [x], b[i + 1..], f);
      SumOfAppend(b[..i], [x], f);
    }
  }

  /**
   * When p splits into two disjoint predicates q and r on the elements of s,
   * the sum over the p-elements is the sum over the q-elements plus the sum
   * over the r-elements.
   */
  lemma {:induction false} SumOfFilterSplit<T>(s: seq<T>, p: T -> bool, q: T -> bool, r: T -> bool, f: T -> real)
    requires forall x :: x in s ==> (p(x) <==> q(x) || r(x)) && !(q(x) && r(x))
    ensures SumOf(Filter(s, p), f) == SumOf(Filter(s, q), f) + SumOf(Filter(s, r), f)
    ensures |Filter(s, p)| == |Filter(s, q)| + |Filter(s, r)|
  {
    if s != [] {
      SumOfFilterSplit(s[1..], p, q, r, f);
      var head := if p(s[0]) then [s[0]] else [];
      SumOfAppend(head, Filter(s[1..], p), f);
      SumOfAppend(if q(s[0]) then [s[0]] else [], Filter(s[1..], q), f);
      SumOfAppend(if r(s[0]) then [s[0]] else [], Filter(s[1..], r), f);
    }
  }

  /** `s.findIndex(p)`: the position of the first element satisfying p, if any. */
  function FindIndex<T>(s: seq<T>, p: T -> bool): (r: Option<nat>)
    ensures r.Some? ==> r.value < |s| && p(s[r.value]) && forall j :: 0 <= j < r.value ==> !p(s[j])
    ensures r.None? ==> forall j :: 0 <= j < |s| ==> !p(s[j])
  {
    if s == [] then None
    else if p(s[0]) then Some(0)
    else
      match FindIndex(s[1..], p)
      case None => None
      case Some(i) => Some(i + 1)
  }

  /** `s.find(p)`: the first element satisfying p, if any. */
  function Find<T>(s: seq<T>, p: T -> bool): (r: Option<T>)
    ensures r.None? <==> forall j :: 0 <= j < |s| ==> !p(s[j])
    ensures r.Some? ==> r.value in s && p(r.value)
    ensures r.Some? ==> exists i :: 0 <= i < |s| && s[i] == r.value && forall j :: 0 <= j < i ==> !p(s[j])
  {
    match FindIndex(s, p)
    case None => None
    case Some(i) => Some(s[i])
  }

  /** x added to a strictly ascending sequence, keeping it strictly ascending. */
  function InsertDistinct(x: int, r: seq<int>): (t: seq<int>)
    requires forall i, j :: 0 <= i < j < |r| ==> r[i] < r[j]
    ensures forall i, j :: 0 <= i < j < |t| ==> t[i] < t[j]
    ensures forall y :: y in t <==> y == x || y in r
  {
    if r == [] || x < r[0] then [x] + r
    else if x == r[0] then r
    else
      var u := InsertDistinct(x, r[1..]);
      assert forall k :: 0 <= k < |u| ==> r[0] < u[k] by {
        forall k | 0 <= k < |u|
          ensures r[0] < u[k]
        {
          assert u[k] in u;
          if u[k] != x {
            var j :| 1 <= j < |r| && r[j] == u[k];
          }
        }
      }
      var t := [r[0]] + u;
      assert forall i, j :: 0 <= i < j < |t| ==> t[i] < t[j] by {
        forall i, j | 0 <= i < j < |t|
          ensures t[i] < t[j]
        {
          if i > 0 {
            assert t[i] == u[i - 1] && t[j] == u[j - 1];
          }
        }
      }
      t
  }

  /**
   * The distinct values of s in ascending order: the order in which
   * `Object.values` lists the entries of an object keyed by integer ids.
   */
  function SortedDistinct(s: seq<int>): (r: seq<int>)
    ensures forall i, j :: 0 <= i < j < |r| ==> r[i] < r[j]
    ensures forall y :: y in r <==> y in s
  {
    if s == [] then [] else InsertDistinct(s[0], SortedDistinct(s[1..]))
  }

  /** Extending a prefix by one element adds that element's share to a filtered sum. */
  lemma SumOfFilterSnoc<T>(s: seq<T>, i: nat, p: T -> bool, f: T -> real)
    requires i < |s|
    ensures SumOf(Filter(s[..i + 1], p), f) == SumOf(Filter(s[..i], p), f) + (if p(s[i]) then f(s[i]) else 0.0)
    ensures |Filter(s[..i + 1], p)| == |Filter(s[..i], p)| + (if p(s[i]) then 1 else 0)
  {
    assert s[..i + 1] == s[..i] + [s[i]];
    FilterAppend(s[..i], [s[i]], p);
    SumOfAppend(Filter(s[..i], p), Filter([s[i]], p), f);
  }

  /** The positions of s whose element satisfies p. */
  ghost function Positions<T>(s: seq<T>, p: T -> bool): set<int>
  {
    set i | 0 <= i < |s| && p(s[i])
  }

  /** The elements p keeps are one per position of s whose element satisfies p. */
  lemma {:induction false} FilterCountPositions<T>(s: seq<T>, p: T -> bool)
    ensures |Filter(s, p)| == |Positions(s, p)|
  {
    var k := 0;
    assert s[..0] == [];
    while k < |s|
      invariant 0 <= k <= |s|
      invariant |Filter(s[..k], p)| == |set i | 0 <= i < k && p(s[i])|
    {
      SumOfFilterSnoc(s, k, p, (x: T) => 0.0);
      var before := set i | 0 <= i < k && p(s[i]);
      var after := set i | 0 <= i < k + 1 && p(s[i]);
      if p(s[k]) {
        assert after == before + {k};
      } else {
        assert after == before;
      }
      k := k + 1;
    }
    assert s[..k] == s;
    assert Positions(s, p) == set i | 0 <= i < k && p(s[i]);
  }

  /** Scaling every summand scales the sum. */
  lemma {:induction false} SumOfScale<T>(s: seq<T>, f: T -> real, g: T -> real, c: real)
    requires forall x :: x in s ==> g(x) == c * f(x)
    ensures SumOf(s, g) == c * SumOf(s, f)
  {
    if s != [] {
      SumOfScale(s[1..], f, g, c);
    }
  }

  /** Filtering with a predicate no element satisfies gives nothing. */
  lemma {:induction false} FilterNone<T>(s: seq<T>, p: T -> bool)
    requires forall x :: x in s ==> !p(x)
    ensures Filter(s, p) == []
  {
    if s != [] {
      FilterNone(s[1..], p);
    }
  }

  /** The items whose key is k. */
  function WithKey<T>(key: T -> int, k: int): T -> bool
  {
    x => key(x) == k
  }

  /** The keys of the items of s, in order. */
  function KeysOf<T>(s: seq<T>, key: T -> int): seq<int>
  {
    seq(|s|, i requires 0 <= i < |s| => key(s[i]))
  }

  /**
   * The position of the last element satisfying p, if any: the element whose
   * write survives when every element is stored under its key in turn.
   */
  function FindLastIndex<T>(s: seq<T>, p: T -> bool): (r: Option<nat>)
    ensures r.Some? ==> r.value < |s| && p(s[r.value]) && forall j :: r.value < j < |s| ==> !p(s[j])
    ensures r.None? ==> forall j :: 0 <= j < |s| ==> !p(s[j])
  {
    if s == [] then None
    else if p(s[|s| - 1]) then Some(|s| - 1)
    else FindLastIndex(s[..|s| - 1], p)
  }

  /** Extending a prefix by one element: that element wins if it satisfies p. */
  lemma FindLastIndexSnoc<T>(s: seq<T>, i: nat, p: T -> bool)
    requires i < |s|
    ensures FindLastIndex(s[..i + 1], p) == if p(s[i]) then Some(i) else FindLastIndex(s[..i], p)
  {
    assert s[..i + 1][..i] == s[..i];
  }

  /** A key occurs in s exactly when some item carries it. */
  lemma FindLastKey<T>(s: seq<T>, key: T -> int, k: int)
    ensures FindLastIndex(s, WithKey(key, k)).Some? <==> k in KeysOf(s, key)
  {
    var ks := KeysOf(s, key);
    var r := FindLastIndex(s, WithKey(key, k));
    if r.Some? {
      assert ks[r.value] == k;
    }
    if k in ks {
      var i :| 0 <= i < |ks| && ks[i] == k;
      assert WithKey(key, k)(s[i]);
    }
  }

  /** Filtering by a predicate that implies p after filtering by p is filtering by it alone. */
  lemma {:induction false} FilterNarrow<T>(s: seq<T>, p: T -> bool, q: T -> bool)
    requires forall x :: q(x) ==> p(x)
    ensures Filter(Filter(s, p), q) == Filter(s, q)
  {
    if s != [] {
      FilterNarrow(s[1..], p, q);
      var head := if p(s[0]) then [s[0]] else [];
      assert Filter(s, p) == head + Filter(s[1..], p);
      FilterAppend(head, Filter(s[1..], p), q);
      assert Filter(head, q) == if q(s[0]) then [s[0]] else [] by {
        if p(s[0]) {
          assert Filter(head, q) == (if q(head[0]) then [head[0]] else []) + Filter(head[1..], q);
          assert head[1..] == [];
        }
      }
    }
  }

  /** Sorting what a filter keeps keeps exactly the elements satisfying p. */
  lemma SortFilterMembers<T>(s: seq<T>, p: T -> bool, key: T -> real, x: T)
    ensures x in SortBy(Filter(s, p), key) <==> x in s && p(x)
  {
    FilterMembers(s, p);
    assert x in SortBy(Filter(s, p), key) <==> x in multiset(SortBy(Filter(s, p), key));
  }

  /** Splitting s by p and by its negation loses and adds nothing. */
  lemma {:induction false} FilterPartition<T>(s: seq<T>, p: T -> bool, q: T -> bool)
    requires forall x :: q(x) == !p(x)
    ensures multiset(Filter(s, p)) + multiset(Filter(s, q)) == multiset(s)
  {
    if s != [] {
      FilterPartition(s[1..], p, q);
      var h := [s[0]];
      assert s == h + s[1..];
      assert Filter(s, p) == (if p(s[0]) then h else []) + Filter(s[1..], p);
      assert Filter(s, q) == (if q(s[0]) then h else []) + Filter(s[1..], q);
      assert multiset(s) == multiset(h) + multiset(s[1..]);
    }
  }

  /**
   * Taking the first `limit` elements after a sort keeps the smallest keys:
   * an element left out has a key no smaller than any element kept.
   */
  lemma SliceSortedTop<T>(s: seq<T>, key: T -> real, limit: int, x: T)
    requires x in s && x !in Slice(SortBy(s, key), Some(limit))
    ensures forall y :: y in Slice(SortBy(s, key), Some(limit)) ==> key(y) <= key(x)
  {
    var o := SortBy(s, key);
    var r := Slice(o, Some(limit));
    SortBySorted(s, key);
    assert x in multiset(o);
    var p :| 0 <= p < |o| && o[p] == x;
    assert p >= |r|;
    forall y | y in r
      ensures key(y) <= key(x)
    {
      var q :| 0 <= q < |r| && r[q] == y;
      assert o[q] == y;
    }
  }

  /** Two functions that agree on the elements of s sum alike. */
  lemma {:induction false} SumOfCongruent<T>(s: seq<T>, f: T -> real, g: T -> real)
    requires forall x :: x in s ==> f(x) == g(x)
    ensures SumOf(s, f) == SumOf(s, g)
  {
    if s != [] {
      SumOfCongruent(s[1..], f, g);
    }
  }
}
