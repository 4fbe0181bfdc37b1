/** List operations the core uses: comprehension filters, `sort`/`sorted` by an integer key
    (Python's sort is stable), and `s[0:k]` slicing. */
module Seqs {

  /** `[x for x in s if p(x)]`. */
  function Filter<T>(s: seq<T>, p: T -> bool): (r: seq<T>)
    ensures |r| <= |s|
    decreases |s|
  {
    if |s| == 0 then [] else (if p(s[0]) then [s[0]] else []) + Filter(s[1..], p)
  }

  /** `a` is `b` with some elements left out, order kept. */
  predicate IsSubsequence<T(==)>(a: seq<T>, b: seq<T>)
    decreases |b|
  {
    if |a| == 0 then true
    else if |b| == 0 then false
    else if a[0] == b[0] then IsSubsequence(a[1..], b[1..])
    else IsSubsequence(a, b[1..])
  }

  lemma {:induction false} IsSubsequenceRefl<T>(s: seq<T>)
    ensures IsSubsequence(s, s)
    decreases |s|
  {
    if |s| > 0 {
      IsSubsequenceRefl(s[1..]);
    }
  }

  /** A filter keeps exactly the elements that pass, in their original order. */
  lemma {:induction false} FilterSpec<T>(s: seq<T>, p: T -> bool)
    ensures forall x :: x in Filter(s, p) <==> x in s && p(x)
    ensures IsSubsequence(Filter(s, p), s)
    decreases |s|
  {
    if |s| > 0 {
      FilterSpec(s[1..], p);
      assert s == [s[0]] + s[1..];
      var rest := Filter(s[1..], p);
      if p(s[0]) {
        assert ([s[0]] + rest)[1..] == rest;
      } else {
        assert ([] + rest) == rest;
        SubsequenceOfTail(rest, s);
      }
    }
  }

  lemma {:induction false} SubsequenceOfTail<T>(a: seq<T>, b: seq<T>)
    requires |b| > 0 && IsSubsequence(a, b[1..])
    ensures IsSubsequence(a, b)
    decreases |b|, 0
  {
    if |a| > 0 && a[0] == b[0] {
      SubsequenceDropHead(a, b[1..]);
    }
  }

  lemma {:induction false} SubsequenceDropHead<T>(a: seq<T>, b: seq<T>)
    requires |a| > 0 && IsSubsequence(a, b)
    ensures IsSubsequence(a[1..], b)
    decreases |b|, 1
  {
    if |b| > 0 {
      if a[0] == b[0] {
        if |a[1..]| > 0 {
          SubsequenceOfTail(a[1..], b);
        }
      } else {
        SubsequenceDropHead(a, b[1..]);
        if |a[1..]| > 0 {
          SubsequenceOfTail(a[1..], b);
        }
      }
    }
  }

  /** Filtering a concatenation filters each part. */
  lemma {:induction false} FilterAppend<T>(a: seq<T>, b: seq<T>, p: T -> bool)
    ensures Filter(a + b, p) == Filter(a, p) + Filter(b, p)
    decreases |a|
  {
    if |a| > 0 {
      FilterAppend(a[1..], b, p);
      assert (a + b)[0] == a[0] && (a + b)[1..] == a[1..] + b;
    } else {
      assert a + b == b;
    }
  }

  /** Filtering with a predicate every element passes changes nothing. */
  lemma {:induction false} FilterAll<T>(s: seq<T>, p: T -> bool)
    requires forall k :: 0 <= k < |s| ==> p(s[k])
    ensures Filter(s, p) == s
    decreases |s|
  {
    if |s| > 0 {
      FilterAll(s[1..], p);
    }
  }

  /** Two filters in a row are one filter with both tests. */
  lemma {:induction false} FilterFilter<T>(s: seq<T>, p: T -> bool, q: T -> bool, both: T -> bool)
    requires forall x :: both(x) == (p(x) && q(x))
    ensures Filter(Filter(s, p), q) == Filter(s, both)
    decreases |s|
  {
    if |s| > 0 {
      FilterFilter(s[1..], p, q, both);
      var rest := Filter(s[1..], p);
      if p(s[0]) {
        assert ([s[0]] + rest)[1..] == rest;
        assert ([s[0]] + rest)[0] == s[0];
      } else {
        assert [] + rest == rest;
      }
    }
  }

  // Stable sort by an integer key, on (key, item) pairs.

  /** f applied to every element of s. */
  function Map<T, U>(s: seq<T>, f: T -> U): (r: seq<U>)
    ensures |r| == |s| && forall i :: 0 <= i < |s| ==> r[i] == f(s[i])
  {
    seq(|s|, i requires 0 <= i < |s| => f(s[i]))
  }

  lemma MapSnoc<T, U>(s: seq<T>, f: T -> U, i: int)
    requires 0 <= i < |s|
    ensures Map(s[..i + 1], f) == Map(s[..i], f) + [f(s[i])]
  {
  }

  /** The concatenation of f's lists for the elements of s, in order. */
  function FlatMap<T, U>(s: seq<T>, f: T -> seq<U>): seq<U>
    decreases |s|
  {
    if |s| == 0 then []
    else
      var n := |s| - 1;
      FlatMap(s[..n], f) + f(s[n])
  }

  lemma FlatMapSnoc<T, U>(s: seq<T>, f: T -> seq<U>, i: int)
    requires 0 <= i < |s|
    ensures FlatMap(s[..i + 1], f) == FlatMap(s[..i], f) + f(s[i])
  {
    assert s[..i + 1][..i] == s[..i];
  }

  /** An element of the concatenation comes from the list of some element of s. */
  lemma {:induction false} FlatMapIn<T, U>(s: seq<T>, f: T -> seq<U>, x: U)
    ensures x in FlatMap(s, f) <==> exists i :: 0 <= i < |s| && x in f(s[i])
    decreases |s|
  {
    if |s| > 0 {
      var n := |s| - 1;
      FlatMapIn(s[..n], f, x);
      assert forall i :: 0 <= i < n ==> s[..n][i] == s[i];
    }
  }

  predicate SortedByKey<T>(s: seq<(int, T)>) {
    forall i, j :: 0 <= i < j < |s| ==> s[i].0 <= s[j].0
  }

  /** The pairs of `s` whose key is k, in order. */
  function WithKey<T>(s: seq<(int, T)>, k: int): seq<(int, T)>
    decreases |s|
  {
    if |s| == 0 then [] else (if s[0].0 == k then [s[0]] else []) + WithKey(s[1..], k)
  }

  /** Insert x before the first element whose key is not smaller. */
  function Insert<T>(x: (int, T), t: seq<(int, T)>): (r: seq<(int, T)>)
    ensures |r| == |t| + 1
    decreases |t|
  {
    if |t| == 0 || x.0 <= t[0].0 then [x] + t else [t[0]] + Insert(x, t[1..])
  }

  /** `sorted(s, key=...)`: insertion sort, which is stable. */
  function SortByKey<T>(s: seq<(int, T)>): (r: seq<(int, T)>)
    ensures |r| == |s|
    decreases |s|
  {
    if |s| == 0 then [] else Insert(s[0], SortByKey(s[1..]))
  }

  lemma {:induction false} InsertLowerBound<T>(x: (int, T), t: seq<(int, T)>, m: int)
    requires x.0 >= m && forall j :: 0 <= j < |t| ==> t[j].0 >= m
    ensures forall j :: 0 <= j < |Insert(x, t)| ==> Insert(x, t)[j].0 >= m
    decreases |t|
  {
    if |t| > 0 && t[0].0 < x.0 {
      InsertLowerBound(x, t[1..], m);
    }
  }

  lemma {:induction false} InsertSorted<T>(x: (int, T), t: seq<(int, T)>)
    requires SortedByKey(t)
    ensures SortedByKey(Insert(x, t))
    ensures multiset(Insert(x, t)) == multiset(t) + multiset{x}
    decreases |t|
  {
    InsertOrdered(x, t);
    InsertMultiset(x, t);
  }

  lemma {:induction false} InsertOrdered<T>(x: (int, T), t: seq<(int, T)>)
    requires SortedByKey(t)
    ensures SortedByKey(Insert(x, t))
    decreases |t|
  {
    if |t| > 0 && t[0].0 < x.0 {
      var rest := Insert(x, t[1..]);
      InsertOrdered(x, t[1..]);
      InsertLowerBound(x, t[1..], t[0].0);
      var r := [t[0]] + rest;
      forall i, j | 0 <= i < j < |r|
        ensures r[i].0 <= r[j].0
      {
        if i > 0 {
          assert r[i] == rest[i - 1] && r[j] == rest[j - 1];
        } else {
          assert r[j] == rest[j - 1];
        }
      }
    }
  }

  lemma {:induction false} InsertMultiset<T>(x: (int, T), t: seq<(int, T)>)
    ensures multiset(Insert(x, t)) == multiset(t) + multiset{x}
    decreases |t|
  {
    if |t| > 0 && t[0].0 < x.0 {
      InsertMultiset(x, t[1..]);
      assert t == [t[0]] + t[1..];
      assert Insert(x, t) == [t[0]] + Insert(x, t[1..]);
    }
  }

  lemma WithKeyCons<T>(y: (int, T), s: seq<(int, T)>, k: int)
    ensures WithKey([y] + s, k) == (if y.0 == k then [y] else []) + WithKey(s, k)
  {
    assert ([y] + s)[1..] == s;
  }

  lemma {:induction false} InsertWithKey<T>(x: (int, T), t: seq<(int, T)>, k: int)
    ensures WithKey(Insert(x, t), k) == (if x.0 == k then [x] else []) + WithKey(t, k)
    decreases |t|
  {
    if |t| == 0 || x.0 <= t[0].0 {
      WithKeyCons(x, t, k);
    } else {
      InsertWithKey(x, t[1..], k);
      InsertWithKeyStep(x, t, k);
    }
  }

  lemma InsertWithKeyStep<T>(x: (int, T), t: seq<(int, T)>, k: int)
    requires |t| > 0 && t[0].0 < x.0
    requires WithKey(Insert(x, t[1..]), k) == (if x.0 == k then [x] else []) + WithKey(t[1..], k)
    ensures WithKey(Insert(x, t), k) == (if x.0 == k then [x] else []) + WithKey(t, k)
  {
    var rest := Insert(x, t[1..]);
    var a := WithKey(t[1..], k);
    var xs: seq<(int, T)> := if x.0 == k then [x] else [];
    var ts: seq<(int, T)> := if t[0].0 == k then [t[0]] else [];
    assert WithKey(Insert(x, t), k) == ts + (xs + a) by {
      assert Insert(x, t) == [t[0]] + rest;
      WithKeyCons(t[0], rest, k);
    }
    assert WithKey(t, k) == ts + a;
    assert ts + (xs + a) == xs + (ts + a) by {
      assert ts == [] || xs == [];
    }
  }

  /** The items of (key, item) pairs. */
  function Items<T>(s: seq<(int, T)>): (r: seq<T>)
    ensures |r| == |s|
    ensures forall i :: 0 <= i < |s| ==> r[i] == s[i].1
    decreases |s|
  {
    if |s| == 0 then [] else [s[0].1] + Items(s[1..])
  }

  lemma {:induction false} InsertItems<T>(x: (int, T), t: seq<(int, T)>)
    ensures multiset(Items(Insert(x, t))) == multiset(Items(t)) + multiset{x.1}
    decreases |t|
  {
    if |t| == 0 || x.0 <= t[0].0 {
      assert ([x] + t)[1..] == t;
    } else {
      InsertItems(x, t[1..]);
      var r := [t[0]] + Insert(x, t[1..]);
      assert r[1..] == Insert(x, t[1..]);
      assert Items(t) == [t[0].1] + Items(t[1..]);
    }
  }

  /** Sorting permutes the items. */
  lemma {:induction false} SortByKeyItems<T>(s: seq<(int, T)>)
    ensures multiset(Items(SortByKey(s))) == multiset(Items(s))
    decreases |s|
  {
    if |s| > 0 {
      SortByKeyItems(s[1..]);
      InsertItems(s[0], SortByKey(s[1..]));
      assert Items(s) == [s[0].1] + Items(s[1..]);
    }
  }

  /** Sorting orders by key, permutes, and keeps equal keys in their original order. */
  lemma {:induction false} SortByKeySpec<T>(s: seq<(int, T)>)
    ensures SortedByKey(SortByKey(s))
    ensures multiset(SortByKey(s)) == multiset(s)
    ensures forall k :: WithKey(SortByKey(s), k) == WithKey(s, k)
    decreases |s|
  {
    if |s| > 0 {
      SortByKeySpec(s[1..]);
      InsertSorted(s[0], SortByKey(s[1..]));
      assert s == [s[0]] + s[1..];
      forall k ensures WithKey(SortByKey(s), k) == WithKey(s, k) {
        InsertWithKey(s[0], SortByKey(s[1..]), k);
      }
    }
  }

  /** Pairs each item with its key. */
  function Zip<T>(keys: seq<int>, items: seq<T>): (r: seq<(int, T)>)
    requires |keys| == |items|
    ensures |r| == |items|
    ensures forall i :: 0 <= i < |r| ==> r[i] == (keys[i], items[i])
    decreases |items|
  {
    if |items| == 0 then [] else [(keys[0], items[0])] + Zip(keys[1..], items[1..])
  }

  /** `s[0:k]` in Python: a negative k counts from the end. */
  function SliceTo<T>(s: seq<T>, k: int): (r: seq<T>)
    ensures var end := if k < 0 then |s| + k else k;
      |r| == if end < 0 then 0 else if end > |s| then |s| else end
    ensures r == s[..|r|]
  {
    if k >= 0 then (if k >= |s| then s else s[..k])
    else if |s| + k >= 0 then s[..|s| + k] else []
  }
}
