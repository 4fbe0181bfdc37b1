/** Python dictionaries, which remember the order in which keys were first inserted,
    as lists of (key, value) entries. */
module Dicts {
  import opened Wrappers
  import opened Seqs

  function Keys<K, V>(d: seq<(K, V)>): (r: seq<K>)
    ensures |r| == |d| && forall i :: 0 <= i < |d| ==> r[i] == d[i].0
    decreases |d|
  {
    if |d| == 0 then [] else [d[0].0] + Keys(d[1..])
  }

  predicate DistinctKeys<K(==), V>(d: seq<(K, V)>) {
    forall i, j :: 0 <= i < j < |d| ==> d[i].0 != d[j].0
  }

  /** `d.get(k)`: the value stored under k, if any. */
  function Get<K(==), V>(d: seq<(K, V)>, k: K): (r: Option<V>)
    ensures r.Some? <==> k in Keys(d)
    decreases |d|
  {
    if |d| == 0 then None else if d[0].0 == k then Some(d[0].1) else Get(d[1..], k)
  }

  /** `d[k] = v`: a known key keeps its position, a new one goes last. */
  function Put<K(==), V>(d: seq<(K, V)>, k: K, v: V): (r: seq<(K, V)>)
    decreases |d|
  {
    if |d| == 0 then [(k, v)]
    else if d[0].0 == k then [(k, v)] + d[1..]
    else [d[0]] + Put(d[1..], k, v)
  }

  /** After `d[k] = v`, k maps to v, every other key to what it mapped to, and the key order is
      the old one with a new key appended. */
  lemma {:induction false} PutSpec<K, V>(d: seq<(K, V)>, k: K, v: V)
    ensures Get(Put(d, k, v), k) == Some(v)
    ensures forall k' :: k' != k ==> Get(Put(d, k, v), k') == Get(d, k')
    ensures Keys(Put(d, k, v)) == if k in Keys(d) then Keys(d) else Keys(d) + [k]
    decreases |d|
  {
    if |d| > 0 {
      assert Keys(d) == [d[0].0] + Keys(d[1..]);
      if d[0].0 != k {
        PutSpec(d[1..], k, v);
        var r := [d[0]] + Put(d[1..], k, v);
        assert r[1..] == Put(d[1..], k, v);
        assert Keys(r) == [d[0].0] + Keys(Put(d[1..], k, v));
      } else {
        var r := [(k, v)] + d[1..];
        assert r[1..] == d[1..];
        assert Keys(r) == [k] + Keys(d[1..]);
      }
    }
  }

  /** After `d[k] = v`, k maps to v. */
  lemma {:induction false} PutGet<K, V>(d: seq<(K, V)>, k: K, v: V)
    ensures Get(Put(d, k, v), k) == Some(v)
    decreases |d|
  {
    if |d| > 0 && d[0].0 != k {
      PutGet(d[1..], k, v);
    }
  }

  /** After `d[k] = v`, any other key maps to what it mapped to. */
  lemma {:induction false} PutOther<K, V>(d: seq<(K, V)>, k: K, v: V, k': K)
    requires k' != k
    ensures Get(Put(d, k, v), k') == Get(d, k')
    decreases |d|
  {
    if |d| > 0 && d[0].0 != k {
      PutOther(d[1..], k, v, k');
    }
  }

  /** A second write to the same key overrides the first. */
  lemma PutTwice<K, V>(d: seq<(K, V)>, k: K, v: V, w: V)
    ensures Put(Put(d, k, v), k, w) == Put(d, k, w)
  {
  }

  /** `d[k] = v` keeps keys distinct. */
  lemma PutDistinct<K, V>(d: seq<(K, V)>, k: K, v: V)
    requires DistinctKeys(d)
    ensures DistinctKeys(Put(d, k, v))
  {
    PutSpec(d, k, v);
    var r := Put(d, k, v);
    assert forall i :: 0 <= i < |r| ==> r[i].0 == Keys(r)[i];
    assert forall i :: 0 <= i < |d| ==> d[i].0 == Keys(d)[i];
  }

  /** The dictionary after `d[k] = v` for each entry in order. */
  function PutAll<K(==), V>(d: seq<(K, V)>, entries: seq<(K, V)>): seq<(K, V)>
    decreases |entries|
  {
    if |entries| == 0 then d
    else
      var n := |entries| - 1;
      Put(PutAll(d, entries[..n]), entries[n].0, entries[n].1)
  }

  /** A key no entry writes keeps its old value. */
  lemma {:induction false} PutAllUntouched<K, V>(d: seq<(K, V)>, entries: seq<(K, V)>, k: K)
    requires forall i :: 0 <= i < |entries| ==> entries[i].0 != k
    ensures Get(PutAll(d, entries), k) == Get(d, k)
    decreases |entries|
  {
    if |entries| > 0 {
      var n := |entries| - 1;
      var init := entries[..n];
      assert forall i :: 0 <= i < n ==> init[i].0 != k by {
        forall i | 0 <= i < n ensures init[i].0 != k {
          assert init[i] == entries[i];
        }
      }
      PutAllUntouched(d, init, k);
      PutOther(PutAll(d, init), entries[n].0, entries[n].1, k);
    }
  }

  /** A written key holds the value of the last entry that writes it. */
  lemma {:induction false} PutAllLast<K, V>(d: seq<(K, V)>, entries: seq<(K, V)>, i: int)
    requires 0 <= i < |entries|
    requires forall j :: i < j < |entries| ==> entries[j].0 != entries[i].0
    ensures Get(PutAll(d, entries), entries[i].0) == Some(entries[i].1)
    decreases |entries|
  {
    var n := |entries| - 1;
    if i == n {
      PutGet(PutAll(d, entries[..n]), entries[n].0, entries[n].1);
    } else {
      PutOther(PutAll(d, entries[..n]), entries[n].0, entries[n].1, entries[i].0);
      var init := entries[..n];
      assert init[i] == entries[i];
      assert forall j :: i < j < |init| ==> init[j] == entries[j];
      PutAllLast(d, init, i);
    }
  }

  /** Writing entries keeps keys distinct. */
  lemma {:induction false} PutAllDistinct<K, V>(d: seq<(K, V)>, entries: seq<(K, V)>)
    requires DistinctKeys(d)
    ensures DistinctKeys(PutAll(d, entries))
    decreases |entries|
  {
    if |entries| > 0 {
      var n := |entries| - 1;
      PutAllDistinct(d, entries[..n]);
      PutDistinct(PutAll(d, entries[..n]), entries[n].0, entries[n].1);
    }
  }

  /** The dictionary after `d[k] = v` for each entry whose key is present, in order. */
  function PutPresent<K(==), V>(d: seq<(K, V)>, entries: seq<(Option<K>, V)>): seq<(K, V)>
    decreases |entries|
  {
    if |entries| == 0 then d
    else
      var n := |entries| - 1;
      var r := PutPresent(d, entries[..n]);
      if entries[n].0.Some? then Put(r, entries[n].0.value, entries[n].1) else r
  }

  lemma PutPresentSnoc<K, V>(d: seq<(K, V)>, entries: seq<(Option<K>, V)>, e: (Option<K>, V))
    ensures PutPresent(d, entries + [e]) ==
      if e.0.Some? then Put(PutPresent(d, entries), e.0.value, e.1) else PutPresent(d, entries)
  {
    assert (entries + [e])[..|entries|] == entries;
  }

  /** A key no entry writes keeps its old value. */
  lemma {:induction false} PutPresentUntouched<K, V>(d: seq<(K, V)>, entries: seq<(Option<K>, V)>, k: K)
    requires forall i :: 0 <= i < |entries| ==> entries[i].0 != Some(k)
    ensures Get(PutPresent(d, entries), k) == Get(d, k)
    decreases |entries|
  {
    if |entries| > 0 {
      var n := |entries| - 1;
      assert forall i :: 0 <= i < n ==> entries[..n][i] == entries[i];
      PutPresentUntouched(d, entries[..n], k);
      if entries[n].0.Some? {
        PutOther(PutPresent(d, entries[..n]), entries[n].0.value, entries[n].1, k);
      }
    }
  }

  /** A written key holds the value of the last entry that writes it. */
  lemma {:induction false} PutPresentLast<K, V>(d: seq<(K, V)>, entries: seq<(Option<K>, V)>, i: int)
    requires 0 <= i < |entries| && entries[i].0.Some?
    requires forall j :: i < j < |entries| ==> entries[j].0 != entries[i].0
    ensures Get(PutPresent(d, entries), entries[i].0.value) == Some(entries[i].1)
    decreases |entries|
  {
    var n := |entries| - 1;
    var init := entries[..n];
    var r := PutPresent(d, init);
    if i == n {
      PutGet(r, entries[n].0.value, entries[n].1);
    } else {
      assert init[i] == entries[i];
      assert forall j :: i < j < |init| ==> init[j] == entries[j];
      PutPresentLast(d, init, i);
      if entries[n].0.Some? {
        PutOther(r, entries[n].0.value, entries[n].1, entries[i].0.value);
      }
    }
  }

  /** Writing entries keeps keys distinct. */
  lemma {:induction false} PutPresentDistinct<K, V>(d: seq<(K, V)>, entries: seq<(Option<K>, V)>)
    requires DistinctKeys(d)
    ensures DistinctKeys(PutPresent(d, entries))
    decreases |entries|
  {
    if |entries| > 0 {
      var n := |entries| - 1;
      PutPresentDistinct(d, entries[..n]);
      if entries[n].0.Some? {
        PutDistinct(PutPresent(d, entries[..n]), entries[n].0.value, entries[n].1);
      }
    }
  }

  /** `if k not in d: d[k] = []` followed by `d[k].append(v)`. */
  function AppendAt<K(==), V>(d: seq<(K, seq<V>)>, k: K, v: V): seq<(K, seq<V>)> {
    var old_ := Get(d, k);
    Put(d, k, (if old_.Some? then old_.value else []) + [v])
  }

  /** `AppendAt` as the two statements that perform it. */
  lemma AppendAtSteps<K, V>(d: seq<(K, seq<V>)>, k: K, v: V)
    ensures var d' := if k in Keys(d) then d else Put(d, k, []);
      Get(d', k).Some? && Put(d', k, Get(d', k).value + [v]) == AppendAt(d, k, v)
  {
    if k !in Keys(d) {
      PutGet(d, k, []);
      PutTwice(d, k, [], [v]);
      assert [] + [v] == [v];
    }
  }

  /** The dictionary of lists built by appending each entry's value under its key, in order. */
  function Group<K(==), V>(entries: seq<(K, V)>): seq<(K, seq<V>)>
    decreases |entries|
  {
    if |entries| == 0 then []
    else
      var n := |entries| - 1;
      AppendAt(Group(entries[..n]), entries[n].0, entries[n].1)
  }

  /** The entries pairing each value with its key. */
  function Keyed<K, V>(vals: seq<V>, key: V -> K): (r: seq<(K, V)>)
    ensures |r| == |vals| && forall i :: 0 <= i < |vals| ==> r[i] == (key(vals[i]), vals[i])
  {
    seq(|vals|, i requires 0 <= i < |vals| => (key(vals[i]), vals[i]))
  }

  /** Grouping one more value appends it under its key. */
  lemma GroupKeyedStep<K, V>(vals: seq<V>, key: V -> K, i: int)
    requires 0 <= i < |vals|
    ensures Group(Keyed(vals[..i + 1], key)) == AppendAt(Group(Keyed(vals[..i], key)), key(vals[i]), vals[i])
  {
    assert Keyed(vals[..i + 1], key)[..i] == Keyed(vals[..i], key);
  }

  /** The values of the entries whose key is k, in order. */
  function ValuesAt<K(==), V>(entries: seq<(K, V)>, k: K): seq<V>
    decreases |entries|
  {
    if |entries| == 0 then []
    else
      var n := |entries| - 1;
      ValuesAt(entries[..n], k) + (if entries[n].0 == k then [entries[n].1] else [])
  }

  /** The values whose key is k, in order: `[v for v in vals if key(v) == k]`. */
  function ValuesWithKey<K(==), V>(vals: seq<V>, key: V -> K, k: K): seq<V> {
    Filter(vals, v => key(v) == k)
  }

  /** The values with key k are those of vals with that key, in their order. */
  lemma ValuesWithKeySpec<K, V>(vals: seq<V>, key: V -> K, k: K)
    ensures forall x :: x in ValuesWithKey(vals, key, k) <==> x in vals && key(x) == k
    ensures IsSubsequence(ValuesWithKey(vals, key, k), vals)
  {
    FilterSpec(vals, v => key(v) == k);
  }

  /** Grouping values by key collects, under each key, the values with that key in order. */
  lemma {:induction false} ValuesAtKeyed<K, V>(vals: seq<V>, key: V -> K, k: K)
    ensures ValuesAt(Keyed(vals, key), k) == ValuesWithKey(vals, key, k)
    decreases |vals|
  {
    if |vals| > 0 {
      var n := |vals| - 1;
      assert Keyed(vals, key)[..n] == Keyed(vals[..n], key);
      ValuesAtKeyed(vals[..n], key, k);
      FilterAppend(vals[..n], [vals[n]], v => key(v) == k);
      assert vals[..n] + [vals[n]] == vals;
    }
  }

  /** Grouping values by key: each key holds exactly its values in order, a key no value has
      is absent, and every key appears once. */
  lemma GroupKeyedSpec<K, V>(vals: seq<V>, key: V -> K, k: K)
    ensures DistinctKeys(Group(Keyed(vals, key)))
    ensures (exists i :: 0 <= i < |vals| && key(vals[i]) == k) ==>
      Get(Group(Keyed(vals, key)), k) == Some(ValuesWithKey(vals, key, k))
    ensures (forall i :: 0 <= i < |vals| ==> key(vals[i]) != k) ==> Get(Group(Keyed(vals, key)), k) == None
  {
    var e := Keyed(vals, key);
    GroupDistinct(e);
    GroupSpec(e, k);
    ValuesAtKeyed(vals, key, k);
    if exists i :: 0 <= i < |vals| && key(vals[i]) == k {
      var i :| 0 <= i < |vals| && key(vals[i]) == k;
      assert e[i].0 == k;
    }
  }

  /** The list stored under k holds exactly the values of k's entries, in order; a key without
      entries is absent. */
  lemma AppendAtSpec<K, V>(d: seq<(K, seq<V>)>, k: K, v: V, k': K)
    ensures Get(AppendAt(d, k, v), k') ==
      if k' == k then Some((if Get(d, k).Some? then Get(d, k).value else []) + [v]) else Get(d, k')
  {
    var prev := Get(d, k);
    if k' == k {
      PutGet(d, k, (if prev.Some? then prev.value else []) + [v]);
    } else {
      PutOther(d, k, (if prev.Some? then prev.value else []) + [v], k');
    }
  }

  lemma {:induction false} GroupSpec<K, V>(entries: seq<(K, V)>, k: K)
    ensures (exists i :: 0 <= i < |entries| && entries[i].0 == k) ==> Get(Group(entries), k) == Some(ValuesAt(entries, k))
    ensures (forall i :: 0 <= i < |entries| ==> entries[i].0 != k) ==> Get(Group(entries), k) == None
    decreases |entries|
  {
    if |entries| > 0 {
      var n := |entries| - 1;
      var init := entries[..n];
      var (key, v) := entries[n];
      GroupSpec(init, k);
      assert Group(entries) == AppendAt(Group(init), key, v);
      assert ValuesAt(entries, k) == ValuesAt(init, k) + (if key == k then [v] else []);
      AppendAtSpec(Group(init), key, v, k);
      assert forall i :: 0 <= i < n ==> init[i] == entries[i];
      if key != k {
        if i :| 0 <= i < |entries| && entries[i].0 == k {
          assert i < n && init[i].0 == k;
          assert Get(Group(init), k) == Some(ValuesAt(init, k));
          assert ValuesAt(entries, k) == ValuesAt(init, k);
          assert Get(Group(entries), k) == Get(Group(init), k);
        }
      } else if !exists i :: 0 <= i < n && init[i].0 == k {
        ValuesAtNone(init, k);
      }
    }
  }

  lemma {:induction false} ValuesAtNone<K, V>(entries: seq<(K, V)>, k: K)
    requires forall i :: 0 <= i < |entries| ==> entries[i].0 != k
    ensures ValuesAt(entries, k) == []
    decreases |entries|
  {
    if |entries| > 0 {
      var n := |entries| - 1;
      assert forall i :: 0 <= i < n ==> entries[..n][i] == entries[i];
      ValuesAtNone(entries[..n], k);
    }
  }

  /** Grouping keeps keys distinct. */
  lemma {:induction false} GroupDistinct<K, V>(entries: seq<(K, V)>)
    ensures DistinctKeys(Group(entries))
    decreases |entries|
  {
    if |entries| > 0 {
      var n := |entries| - 1;
      GroupDistinct(entries[..n]);
      var g := Group(entries[..n]);
      var prev := Get(g, entries[n].0);
      PutDistinct(g, entries[n].0, (if prev.Some? then prev.value else []) + [entries[n].1]);
    }
  }
}
