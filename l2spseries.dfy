/** The time series of one tile (`LandsatL2SPts`) and the tile object (`L2SPtile`) of the
    Level-2 science-product reader. */
module L2SPSeries {
  import opened Wrappers
  import opened PyStrings
  import opened Dates
  import opened FileManager
  import opened Seqs
  import opened Landsatimage
  import opened LandsatL2SP

  // ---------------------------------------------------------------------------
  // Scene dates

  /** `img.date()`: the scene's `date` metadata read as `%Y%m%d`; a KeyError while it is unset. */
  function SceneDate(img: LandsatImg): (r: Result<Date, PyError>)
    reads img
    ensures r.Ok? ==> ValidDate(r.value)
  {
    if img.date.None? then Err(KeyError) else ParseYmd(img.date.value)
  }

  /** `img.date(ordinal=True)`. */
  function SceneOrdinal(img: LandsatImg): Result<int, PyError>
    reads img
  {
    match SceneDate(img)
    case Ok(d) => Ok(ToOrdinal(d))
    case Err(e) => Err(e)
  }

  /** Each scene paired with its date, in order; the first scene's error when a date cannot be
      read. */
  function DatedScenes(ts: seq<LandsatImg>): (r: Result<seq<(Date, LandsatImg)>, PyError>)
    reads ts
    ensures r.Ok? <==> forall i :: 0 <= i < |ts| ==> SceneDate(ts[i]).Ok?
    ensures r.Ok? ==> |r.value| == |ts|
    ensures r.Ok? ==> forall i :: 0 <= i < |ts| ==> r.value[i] == (SceneDate(ts[i]).value, ts[i])
    decreases |ts|
  {
    if |ts| == 0 then Ok([])
    else match SceneDate(ts[0])
      case Err(e) => Err(e)
      case Ok(d) =>
        match DatedScenes(ts[1..])
        case Err(e) => Err(e)
        case Ok(rest) => Ok([(d, ts[0])] + rest)
  }

  /** Each scene paired with its ordinal date, the key `sort` orders by. */
  function OrdinalKeyed(ts: seq<LandsatImg>): (r: Result<seq<(int, LandsatImg)>, PyError>)
    reads ts
    ensures r.Ok? <==> forall i :: 0 <= i < |ts| ==> SceneDate(ts[i]).Ok?
    ensures r.Ok? ==> |r.value| == |ts|
    ensures r.Ok? ==> forall i :: 0 <= i < |ts| ==> r.value[i] == (ToOrdinal(SceneDate(ts[i]).value), ts[i])
  {
    match DatedScenes(ts)
    case Err(e) => Err(e)
    case Ok(pairs) => Ok(seq(|pairs|, i requires 0 <= i < |pairs| => (ToOrdinal(pairs[i].0), pairs[i].1)))
  }

  /** `euclideandate(ref, img)`: how many days apart two scenes are. */
  function EuclideanDate(ref: LandsatImg, img: LandsatImg): (r: Result<nat, PyError>)
    reads ref, img
  {
    match SceneOrdinal(ref)
    case Err(e) => Err(e)
    case Ok(a) =>
      match SceneOrdinal(img)
      case Err(e) => Err(e)
      case Ok(b) => Ok(if a >= b then a - b else b - a)
  }

  /** The day distance is zero exactly for scenes of the same day, and symmetric. */
  lemma EuclideanDateSpec(ref: LandsatImg, img: LandsatImg)
    requires SceneDate(ref).Ok? && SceneDate(img).Ok?
    ensures EuclideanDate(ref, img).Ok?
    ensures EuclideanDate(ref, img) == EuclideanDate(img, ref)
    ensures EuclideanDate(ref, img).value == 0 <==> SceneDate(ref) == SceneDate(img)
  {
    if ToOrdinal(SceneDate(ref).value) == ToOrdinal(SceneDate(img).value) {
      ToOrdinalInjective(SceneDate(ref).value, SceneDate(img).value);
    }
  }

  // ---------------------------------------------------------------------------
  // sort

  /** Every pair of the keyed scenes holds a scene and that scene's own ordinal. */
  lemma KeyedMember(ts: seq<LandsatImg>, x: (int, LandsatImg))
    requires OrdinalKeyed(ts).Ok? && x in OrdinalKeyed(ts).value
    ensures SceneDate(x.1).Ok? && x.0 == ToOrdinal(SceneDate(x.1).value)
  {
    var keyed := OrdinalKeyed(ts).value;
    var j :| 0 <= j < |keyed| && keyed[j] == x;
  }

  /** Pairs that each hold a scene's own ordinal are what `OrdinalKeyed` reads off their scenes. */
  lemma {:induction false} KeyedOfPairs(pairs: seq<(int, LandsatImg)>)
    requires forall i :: 0 <= i < |pairs| ==>
      SceneDate(pairs[i].1).Ok? && pairs[i].0 == ToOrdinal(SceneDate(pairs[i].1).value)
    ensures OrdinalKeyed(Items(pairs)) == Ok(pairs)
  {
    var items := Items(pairs);
    var again := OrdinalKeyed(items);
    assert again.Ok?;
    assert again.value == pairs;
  }

  /** After a stable sort of ordinal-keyed scenes each pair still holds a scene's own ordinal,
      so reading the keys of the sorted scenes again gives the sorted pairs. */
  lemma SortedKeysAreOrdinals(ts: seq<LandsatImg>)
    requires OrdinalKeyed(ts).Ok?
    ensures OrdinalKeyed(Items(SortByKey(OrdinalKeyed(ts).value))) == Ok(SortByKey(OrdinalKeyed(ts).value))
  {
    var keyed := OrdinalKeyed(ts).value;
    var sorted := SortByKey(keyed);
    SortByKeySpec(keyed);
    forall i | 0 <= i < |sorted|
      ensures SceneDate(sorted[i].1).Ok? && sorted[i].0 == ToOrdinal(SceneDate(sorted[i].1).value)
    {
      assert sorted[i] in multiset(keyed);
      KeyedMember(ts, sorted[i]);
    }
    KeyedOfPairs(sorted);
  }

  /** `sort` orders the scenes by date, permutes them, and keeps scenes of the same day in their
      original relative order. */
  lemma SortedScenesSpec(ts: seq<LandsatImg>)
    requires OrdinalKeyed(ts).Ok?
    ensures SortedByKey(SortByKey(OrdinalKeyed(ts).value))
    ensures multiset(Items(SortByKey(OrdinalKeyed(ts).value))) == multiset(ts)
    ensures forall k :: WithKey(SortByKey(OrdinalKeyed(ts).value), k) == WithKey(OrdinalKeyed(ts).value, k)
  {
    var keyed := OrdinalKeyed(ts).value;
    SortByKeySpec(keyed);
    SortByKeyItems(keyed);
    assert Items(keyed) == ts;
  }

  /** The scenes are in non-decreasing date order. */
  predicate DateOrdered(ts: seq<LandsatImg>)
    reads ts
  {
    forall i, j :: 0 <= i < j < |ts| ==>
      SceneOrdinal(ts[i]).Ok? && SceneOrdinal(ts[j]).Ok? && SceneOrdinal(ts[i]).value <= SceneOrdinal(ts[j]).value
  }

  /** The sorted scenes are in date order. */
  lemma SortedScenesOrdered(ts: seq<LandsatImg>)
    requires OrdinalKeyed(ts).Ok?
    ensures DateOrdered(Items(SortByKey(OrdinalKeyed(ts).value)))
  {
    var sorted := SortByKey(OrdinalKeyed(ts).value);
    SortByKeySpec(OrdinalKeyed(ts).value);
    SortedKeysAreOrdinals(ts);
    var items := Items(sorted);
    assert forall i :: 0 <= i < |items| ==> SceneOrdinal(items[i]) == Ok(sorted[i].0);
    OrderedByKeys(items, sorted);
  }

  /** Scenes whose ordinals are the keys of key-sorted pairs are in date order. */
  lemma OrderedByKeys(items: seq<LandsatImg>, sorted: seq<(int, LandsatImg)>)
    requires |items| == |sorted| && SortedByKey(sorted)
    requires forall i :: 0 <= i < |items| ==> SceneOrdinal(items[i]) == Ok(sorted[i].0)
    ensures DateOrdered(items)
  {
  }

  /** The two facts `sort` promises about the scenes it leaves: date order and the same scenes. */
  lemma SortedSeriesSpec(ts: seq<LandsatImg>)
    requires OrdinalKeyed(ts).Ok?
    ensures DateOrdered(Items(SortByKey(OrdinalKeyed(ts).value)))
    ensures multiset(Items(SortByKey(OrdinalKeyed(ts).value))) == multiset(ts)
  {
    SortedScenesSpec(ts);
    SortedScenesOrdered(ts);
  }

  // ---------------------------------------------------------------------------
  // getdays

  /** The day offsets `ordinal - base` of ordinal-keyed scenes. */
  function Offsets(keyed: seq<(int, LandsatImg)>, base: int): (r: seq<int>)
    ensures |r| == |keyed| && forall i :: 0 <= i < |keyed| ==> r[i] == keyed[i].0 - base
  {
    seq(|keyed|, i requires 0 <= i < |keyed| => keyed[i].0 - base)
  }

  /** A string argument given in Python's sense: set and not empty. */
  predicate GivenString(s: Option<string>) {
    s.Some? && s.value != ""
  }

  /** `getdays(firstday)` on date-sorted scenes: offsets from the day before the anchor, or from
      the day before the first scene when no anchor is given. */
  function Days(sorted: seq<(int, LandsatImg)>, firstday: Option<string>): Result<seq<int>, PyError> {
    if GivenString(firstday) then
      match String2Ordinal(firstday.value)
      case Err(e) => Err(e)
      case Ok(a) => Ok(Offsets(sorted, a - 1))
    else if |sorted| == 0 then Err(IndexError)
    else Ok(Offsets(sorted, sorted[0].0 - 1))
  }

  /** Without an anchor the first offset is 1 and the offsets never decrease; with an anchor
      the offset of the anchor's own day is 1. An empty series has no first day. */
  lemma DaysSpec(sorted: seq<(int, LandsatImg)>, firstday: Option<string>)
    requires SortedByKey(sorted)
    ensures !GivenString(firstday) ==> (Days(sorted, firstday).Ok? <==> |sorted| > 0)
    ensures !GivenString(firstday) && |sorted| > 0 ==>
      Days(sorted, firstday).value[0] == 1 &&
      forall i, j :: 0 <= i < j < |sorted| ==> 1 <= Days(sorted, firstday).value[i] <= Days(sorted, firstday).value[j]
    ensures GivenString(firstday) && String2Ordinal(firstday.value).Ok? ==>
      Days(sorted, firstday).Ok? &&
      forall i :: 0 <= i < |sorted| ==>
        Days(sorted, firstday).value[i] == sorted[i].0 - String2Ordinal(firstday.value).value + 1
  {
    if !GivenString(firstday) && |sorted| > 0 {
      var d := Days(sorted, firstday).value;
      forall i, j | 0 <= i < j < |sorted|
        ensures 1 <= d[i] <= d[j]
      {
        assert sorted[0].0 <= sorted[i].0 by {
          if i > 0 {
            assert 0 < i;
          }
        }
      }
    }
  }

  // ---------------------------------------------------------------------------
  // find

  /** The date fields `find` can test. Dates read from `%Y%m%d` have no time of day, so the hour,
      minute and second of every scene are 0. */
  datatype Field = Year | Month | Day | Hour | Minute | Second

  function FieldOf(d: Date, f: Field): int {
    match f
    case Year => d.year
    case Month => d.month
    case Day => d.day
    case _ => 0
  }

  /** The keyword arguments of `find`; an absent keyword is None. */
  datatype Query = Query(year: Option<int>, month: Option<int>, day: Option<int>,
                         hour: Option<int>, minute: Option<int>, second: Option<int>)

  /** A field filters only when its value is truthy: set and not 0. */
  predicate Given(o: Option<int>) {
    o.Some? && o.value != 0
  }

  predicate AnyGiven(q: Query) {
    Given(q.year) || Given(q.month) || Given(q.day) || Given(q.hour) || Given(q.minute) || Given(q.second)
  }

  /** `[f for f in results if f.date().<field> == v]` over dated scenes. */
  function WithField(pairs: seq<(Date, LandsatImg)>, f: Field, v: int): seq<(Date, LandsatImg)>
    decreases |pairs|
  {
    if |pairs| == 0 then []
    else (if FieldOf(pairs[0].0, f) == v then [pairs[0]] else []) + WithField(pairs[1..], f, v)
  }

  /** One `if options[field]: results = [...]` step. */
  function Narrow(pairs: seq<(Date, LandsatImg)>, f: Field, o: Option<int>): seq<(Date, LandsatImg)> {
    if Given(o) then WithField(pairs, f, o.value) else pairs
  }

  /** The six steps of `find`, in the order the source applies them. */
  function NarrowAll(pairs: seq<(Date, LandsatImg)>, q: Query): seq<(Date, LandsatImg)> {
    var r1 := Narrow(pairs, Year, q.year);
    var r2 := Narrow(r1, Month, q.month);
    var r3 := Narrow(r2, Day, q.day);
    var r4 := Narrow(r3, Hour, q.hour);
    var r5 := Narrow(r4, Minute, q.minute);
    Narrow(r5, Second, q.second)
  }

  /** The scenes of dated pairs. */
  function ScenesOf(pairs: seq<(Date, LandsatImg)>): (r: seq<LandsatImg>)
    ensures |r| == |pairs| && forall i :: 0 <= i < |pairs| ==> r[i] == pairs[i].1
    decreases |pairs|
  {
    if |pairs| == 0 then [] else [pairs[0].1] + ScenesOf(pairs[1..])
  }

  /** `find(**kwargs)`: with no truthy field the whole series; otherwise the scenes passing
      every given field; an unreadable date raises once any field is given. */
  function Find(ts: seq<LandsatImg>, q: Query): Result<seq<LandsatImg>, PyError>
    reads ts
  {
    if !AnyGiven(q) then Ok(ts)
    else
      match DatedScenes(ts)
      case Err(e) => Err(e)
      case Ok(pairs) => Ok(ScenesOf(NarrowAll(pairs, q)))
  }

  /** A date passes every given field of the query. */
  predicate Matches(q: Query, d: Date) {
    (Given(q.year) ==> d.year == q.year.value) &&
    (Given(q.month) ==> d.month == q.month.value) &&
    (Given(q.day) ==> d.day == q.day.value) &&
    (Given(q.hour) ==> 0 == q.hour.value) &&
    (Given(q.minute) ==> 0 == q.minute.value) &&
    (Given(q.second) ==> 0 == q.second.value)
  }

  /** The dated scenes whose date matches, in order: one filter with every test at once. */
  function Selected(pairs: seq<(Date, LandsatImg)>, q: Query): seq<(Date, LandsatImg)>
    decreases |pairs|
  {
    if |pairs| == 0 then []
    else (if Matches(q, pairs[0].0) then [pairs[0]] else []) + Selected(pairs[1..], q)
  }

  lemma {:induction false} WithFieldAppend(a: seq<(Date, LandsatImg)>, b: seq<(Date, LandsatImg)>, f: Field, v: int)
    ensures WithField(a + b, f, v) == WithField(a, f, v) + WithField(b, f, v)
    decreases |a|
  {
    if |a| > 0 {
      WithFieldAppend(a[1..], b, f, v);
      assert (a + b)[0] == a[0] && (a + b)[1..] == a[1..] + b;
    } else {
      assert a + b == b;
    }
  }

  /** Each step of `find` filters a concatenation part by part. */
  lemma NarrowAppend(a: seq<(Date, LandsatImg)>, b: seq<(Date, LandsatImg)>, f: Field, o: Option<int>)
    ensures Narrow(a + b, f, o) == Narrow(a, f, o) + Narrow(b, f, o)
  {
    if Given(o) {
      WithFieldAppend(a, b, f, o.value);
    }
  }

  lemma NarrowAllAppend(a: seq<(Date, LandsatImg)>, b: seq<(Date, LandsatImg)>, q: Query)
    ensures NarrowAll(a + b, q) == NarrowAll(a, q) + NarrowAll(b, q)
  {
    NarrowAppend(a, b, Year, q.year);
    var a1, b1 := Narrow(a, Year, q.year), Narrow(b, Year, q.year);
    NarrowAppend(a1, b1, Month, q.month);
    var a2, b2 := Narrow(a1, Month, q.month), Narrow(b1, Month, q.month);
    NarrowAppend(a2, b2, Day, q.day);
    var a3, b3 := Narrow(a2, Day, q.day), Narrow(b2, Day, q.day);
    NarrowAppend(a3, b3, Hour, q.hour);
    var a4, b4 := Narrow(a3, Hour, q.hour), Narrow(b3, Hour, q.hour);
    NarrowAppend(a4, b4, Minute, q.minute);
    var a5, b5 := Narrow(a4, Minute, q.minute), Narrow(b4, Minute, q.minute);
    NarrowAppend(a5, b5, Second, q.second);
  }

  lemma NarrowKeep(h: (Date, LandsatImg), s: seq<(Date, LandsatImg)>, f: Field, o: Option<int>)
    requires s == [h] || s == []
    ensures Narrow(s, f, o) == if s == [h] && (!Given(o) || FieldOf(h.0, f) == o.value) then [h] else []
  {
    if s == [h] && Given(o) {
      assert [h] == [h] + [];
      WithFieldCons(h, [], f, o.value);
    }
  }

  lemma WithFieldCons(h: (Date, LandsatImg), t: seq<(Date, LandsatImg)>, f: Field, v: int)
    ensures WithField([h] + t, f, v) == (if FieldOf(h.0, f) == v then [h] else []) + WithField(t, f, v)
  {
    assert ([h] + t)[0] == h && ([h] + t)[1..] == t;
  }

  lemma NarrowAllSingle(h: (Date, LandsatImg), q: Query)
    ensures NarrowAll([h], q) == if Matches(q, h.0) then [h] else []
  {
    var r0: seq<(Date, LandsatImg)> := [h];
    NarrowKeep(h, r0, Year, q.year);
    var r1 := Narrow(r0, Year, q.year);
    NarrowKeep(h, r1, Month, q.month);
    var r2 := Narrow(r1, Month, q.month);
    NarrowKeep(h, r2, Day, q.day);
    var r3 := Narrow(r2, Day, q.day);
    NarrowKeep(h, r3, Hour, q.hour);
    var r4 := Narrow(r3, Hour, q.hour);
    NarrowKeep(h, r4, Minute, q.minute);
    var r5 := Narrow(r4, Minute, q.minute);
    NarrowKeep(h, r5, Second, q.second);
  }

  /** The six filters in a row are the single filter by `Matches`. */
  lemma {:induction false} NarrowAllSelected(pairs: seq<(Date, LandsatImg)>, q: Query)
    ensures NarrowAll(pairs, q) == Selected(pairs, q)
    decreases |pairs|
  {
    if |pairs| > 0 {
      var h := pairs[0];
      var t := pairs[1..];
      assert pairs == [h] + t;
      NarrowAllSelected(t, q);
      NarrowAllAppend([h], t, q);
      NarrowAllSingle(h, q);
    }
  }

  /** The matching scenes form a subsequence of the scenes, and a scene is kept exactly when some
      pair holding it has a matching date. */
  lemma SelectedSpec(pairs: seq<(Date, LandsatImg)>, q: Query)
    ensures IsSubsequence(ScenesOf(Selected(pairs, q)), ScenesOf(pairs))
    ensures forall x :: x in ScenesOf(Selected(pairs, q)) <==>
      exists i :: 0 <= i < |pairs| && pairs[i].1 == x && Matches(q, pairs[i].0)
  {
    SelectedSubsequence(pairs, q);
    SelectedMembers(pairs, q);
  }

  lemma {:induction false} SelectedSubsequence(pairs: seq<(Date, LandsatImg)>, q: Query)
    ensures IsSubsequence(ScenesOf(Selected(pairs, q)), ScenesOf(pairs))
    decreases |pairs|
  {
    if |pairs| > 0 {
      var h := pairs[0];
      var t := pairs[1..];
      SelectedSubsequence(t, q);
      var rest := ScenesOf(Selected(t, q));
      var all := ScenesOf(pairs);
      assert all[1..] == ScenesOf(t);
      if Matches(q, h.0) {
        var r := ScenesOf([h] + Selected(t, q));
        assert ([h] + Selected(t, q))[1..] == Selected(t, q);
        assert r == [h.1] + rest;
        assert r[1..] == rest;
      } else {
        assert Selected(pairs, q) == Selected(t, q);
        if |rest| > 0 {
          SubsequenceOfTail(rest, all);
        }
      }
    }
  }

  lemma {:induction false} SelectedMembers(pairs: seq<(Date, LandsatImg)>, q: Query)
    ensures forall x :: x in ScenesOf(Selected(pairs, q)) <==>
      exists i :: 0 <= i < |pairs| && pairs[i].1 == x && Matches(q, pairs[i].0)
    decreases |pairs|
  {
    if |pairs| > 0 {
      var h := pairs[0];
      var t := pairs[1..];
      SelectedMembers(t, q);
      assert forall i :: 0 <= i < |t| ==> t[i] == pairs[i + 1];
      var sel := (if Matches(q, h.0) then [h] else []) + Selected(t, q);
      assert Selected(pairs, q) == sel;
      var head: seq<LandsatImg> := if Matches(q, h.0) then [h.1] else [];
      assert ScenesOf(sel) == head + ScenesOf(Selected(t, q));
      forall x | x in ScenesOf(Selected(pairs, q))
        ensures exists i :: 0 <= i < |pairs| && pairs[i].1 == x && Matches(q, pairs[i].0)
      {
        if !(Matches(q, h.0) && x == h.1) {
          var i :| 0 <= i < |t| && t[i].1 == x && Matches(q, t[i].0);
          assert pairs[i + 1].1 == x;
        } else {
          assert pairs[0].1 == x;
        }
      }
      forall x | exists i :: 0 <= i < |pairs| && pairs[i].1 == x && Matches(q, pairs[i].0)
        ensures x in ScenesOf(Selected(pairs, q))
      {
        var i :| 0 <= i < |pairs| && pairs[i].1 == x && Matches(q, pairs[i].0);
        if i > 0 {
          assert t[i - 1].1 == x;
        }
      }
    }
  }

  lemma ScenesOfDated(ts: seq<LandsatImg>)
    requires DatedScenes(ts).Ok?
    ensures ScenesOf(DatedScenes(ts).value) == ts
  {
  }

  /** `find` fails exactly when a field is given and some date cannot be read. */
  lemma FindFails(ts: seq<LandsatImg>, q: Query)
    ensures Find(ts, q).Err? <==> AnyGiven(q) && exists i :: 0 <= i < |ts| && SceneDate(ts[i]).Err?
  {
  }

  /** `find` keeps the scenes, in series order, whose date matches every truthy field. */
  lemma FindSpec(ts: seq<LandsatImg>, q: Query)
    requires Find(ts, q).Ok?
    ensures IsSubsequence(Find(ts, q).value, ts)
    ensures forall x :: x in Find(ts, q).value <==> x in ts && (AnyGiven(q) ==> Matches(q, SceneDate(x).value))
  {
    if !AnyGiven(q) {
      IsSubsequenceRefl(ts);
    } else {
      var pairs := DatedScenes(ts).value;
      NarrowAllSelected(pairs, q);
      SelectedSpec(pairs, q);
      ScenesOfDated(ts);
      var r := Find(ts, q).value;
      assert r == ScenesOf(Selected(pairs, q));
      forall x
        ensures x in r <==> x in ts && Matches(q, SceneDate(x).value)
      {
        if x in ts {
          var i :| 0 <= i < |ts| && ts[i] == x;
          assert pairs[i] == (SceneDate(x).value, x);
        }
      }
    }
  }

  /** Scene dates carry no time of day, so a truthy hour, minute or second finds nothing. */
  lemma FindTimeOfDay(ts: seq<LandsatImg>, q: Query)
    requires Find(ts, q).Ok? && (Given(q.hour) || Given(q.minute) || Given(q.second))
    ensures Find(ts, q).value == []
  {
    NarrowAllSelected(DatedScenes(ts).value, q);
    SelectedNone(DatedScenes(ts).value, q);
  }

  lemma {:induction false} SelectedNone(pairs: seq<(Date, LandsatImg)>, q: Query)
    requires Given(q.hour) || Given(q.minute) || Given(q.second)
    ensures Selected(pairs, q) == []
    decreases |pairs|
  {
    if |pairs| > 0 {
      SelectedNone(pairs[1..], q);
    }
  }

  // ---------------------------------------------------------------------------
  // getyear

  /** `[f for f in ts if start <= f.date(ordinal=True) <= end]` over ordinal-keyed scenes. */
  function InWindow(keyed: seq<(int, LandsatImg)>, start: int, end: int): seq<LandsatImg>
    decreases |keyed|
  {
    if |keyed| == 0 then []
    else (if start <= keyed[0].0 <= end then [keyed[0].1] else []) + InWindow(keyed[1..], start, end)
  }

  /** The window keeps scenes in their order. */
  lemma {:induction false} InWindowOrder(keyed: seq<(int, LandsatImg)>, start: int, end: int)
    ensures IsSubsequence(InWindow(keyed, start, end), Items(keyed))
    decreases |keyed|
  {
    if |keyed| > 0 {
      var t := keyed[1..];
      InWindowOrder(t, start, end);
      var rest := InWindow(t, start, end);
      var all := Items(keyed);
      assert all[1..] == Items(t);
      assert all[0] == keyed[0].1;
      if start <= keyed[0].0 <= end {
        assert InWindow(keyed, start, end) == [keyed[0].1] + rest;
        assert ([keyed[0].1] + rest)[1..] == rest;
      } else {
        assert InWindow(keyed, start, end) == rest;
        if |rest| > 0 {
          SubsequenceOfTail(rest, all);
        }
      }
    }
  }

  /** The window keeps exactly the scenes whose key lies in [start, end]. */
  lemma InWindowMembers(keyed: seq<(int, LandsatImg)>, start: int, end: int)
    ensures forall x :: x in InWindow(keyed, start, end) <==>
      exists i :: 0 <= i < |keyed| && keyed[i].1 == x && start <= keyed[i].0 <= end
  {
    forall x
      ensures x in InWindow(keyed, start, end) <==>
        exists i :: 0 <= i < |keyed| && keyed[i].1 == x && start <= keyed[i].0 <= end
    {
      InWindowMember(keyed, start, end, x);
    }
  }

  lemma {:induction false} InWindowMember(keyed: seq<(int, LandsatImg)>, start: int, end: int, x: LandsatImg)
    ensures x in InWindow(keyed, start, end) <==>
      exists i :: 0 <= i < |keyed| && keyed[i].1 == x && start <= keyed[i].0 <= end
    decreases |keyed|
  {
    if |keyed| > 0 {
      var h := keyed[0];
      var t := keyed[1..];
      InWindowMember(t, start, end, x);
      assert InWindow(keyed, start, end) == (if start <= h.0 <= end then [h.1] else []) + InWindow(t, start, end);
      if x in InWindow(keyed, start, end) {
        if start <= h.0 <= end && x == h.1 {
          assert keyed[0].1 == x && start <= keyed[0].0 <= end;
        } else {
          assert x in InWindow(t, start, end);
          var i :| 0 <= i < |t| && t[i].1 == x && start <= t[i].0 <= end;
          assert keyed[i + 1] == t[i];
        }
      }
      if exists i :: 0 <= i < |keyed| && keyed[i].1 == x && start <= keyed[i].0 <= end {
        var i :| 0 <= i < |keyed| && keyed[i].1 == x && start <= keyed[i].0 <= end;
        if i > 0 {
          assert t[i - 1] == keyed[i];
        }
      }
    }
  }

  /** `getyear`'s window in ordinals before any buffer: January 1 to December 31 of `year` for
      `'default'`, November 11 of the year before to November 10 of `year` for `'farming'`; any
      other option leaves `start` unbound. */
  function YearWindow(year: string, option: string): Result<(int, int), PyError> {
    if option == "default" then
      match String2Ordinal(year + "0101")
      case Err(e) => Err(e)
      case Ok(start) =>
        match String2Ordinal(year + "1231")
        case Err(e) => Err(e)
        case Ok(end) => Ok((start, end))
    else if option == "farming" then
      match ParseInt(year)
      case Err(e) => Err(e)
      case Ok(y) =>
        match String2Ordinal(IntString(y - 1) + "1111")
        case Err(e) => Err(e)
        case Ok(start) =>
          match String2Ordinal(year + "1110")
          case Err(e) => Err(e)
          case Ok(end) => Ok((start, end))
    else Err(UnboundLocal)
  }

  /** A truthy buffer widens the window by the same number of days at both ends. */
  function Widen(w: (int, int), buffer: Option<int>): (int, int) {
    if Given(buffer) then (w.0 - buffer.value, w.1 + buffer.value) else w
  }

  /** What `getyear(year, option, buffer)` returns: the scenes inside the window, in series order,
      and the window's ends as `%Y%m%d` strings, or the first error raised on the way. */
  function YearSelection(ts: seq<LandsatImg>, year: string, option: string, buffer: Option<int>)
    : Result<(seq<LandsatImg>, string, string), PyError>
    reads ts
  {
    match YearWindow(year, option)
    case Err(e) =>
      // With `start` unbound and no buffer, the first comparison reads the first scene's date
      // before it reaches `start`.
      if e == UnboundLocal && !Given(buffer) && |ts| > 0 && SceneOrdinal(ts[0]).Err? then
        Err(SceneOrdinal(ts[0]).error)
      else Err(e)
    case Ok(w) =>
      var (start, end) := Widen(w, buffer);
      match OrdinalKeyed(ts)
      case Err(e) => Err(e)
      case Ok(keyed) =>
        match Ordinal2String(start)
        case Err(e) => Err(e)
        case Ok(s) =>
          match Ordinal2String(end)
          case Err(e) => Err(e)
          case Ok(t) => Ok((InWindow(keyed, start, end), s, t))
  }

  /** The `'default'` window of a four-digit year is that calendar year. */
  lemma DefaultWindow(y: int)
    requires 1000 <= y <= 9999
    ensures YearWindow(NatString(y), "default") == Ok((ToOrdinal(Date(y, 1, 1)), ToOrdinal(Date(y, 12, 31))))
  {
    assert String2Ordinal(NatString(y) + "0101") == Ok(ToOrdinal(Date(y, 1, 1))) by { DefaultStart(y); }
    assert String2Ordinal(NatString(y) + "1231") == Ok(ToOrdinal(Date(y, 12, 31))) by { DefaultEnd(y); }
  }

  lemma DefaultStart(y: int)
    requires 1000 <= y <= 9999
    ensures String2Ordinal(NatString(y) + "0101") == Ok(ToOrdinal(Date(y, 1, 1)))
  {
    TwoDigits("01");
    ParseYearAndDay(y, "0101", 1, 1);
  }

  lemma DefaultEnd(y: int)
    requires 1000 <= y <= 9999
    ensures String2Ordinal(NatString(y) + "1231") == Ok(ToOrdinal(Date(y, 12, 31)))
  {
    TwoDigits("12");
    TwoDigits("31");
    ParseYearAndDay(y, "1231", 12, 31);
  }

  /** The `'farming'` window of a four-digit year runs from November 11 of the year before to
      November 10 of the year. */
  lemma FarmingWindow(y: int)
    requires 1001 <= y <= 9999
    ensures YearWindow(NatString(y), "farming") == Ok((ToOrdinal(Date(y - 1, 11, 11)), ToOrdinal(Date(y, 11, 10))))
  {
    FarmingParts(y);
    FarmingCombine(y);
  }

  lemma FarmingParts(y: int)
    requires 1001 <= y <= 9999
    ensures ParseInt(NatString(y)) == Ok(y)
    ensures String2Ordinal(IntString(y - 1) + "1111") == Ok(ToOrdinal(Date(y - 1, 11, 11)))
    ensures String2Ordinal(NatString(y) + "1110") == Ok(ToOrdinal(Date(y, 11, 10)))
  {
    ParseIntString(y);
    FarmingStart(y);
    FarmingEnd(y);
  }

  lemma FarmingCombine(y: int)
    requires 1001 <= y <= 9999
    requires ParseInt(NatString(y)) == Ok(y)
    requires String2Ordinal(IntString(y - 1) + "1111") == Ok(ToOrdinal(Date(y - 1, 11, 11)))
    requires String2Ordinal(NatString(y) + "1110") == Ok(ToOrdinal(Date(y, 11, 10)))
    ensures YearWindow(NatString(y), "farming") == Ok((ToOrdinal(Date(y - 1, 11, 11)), ToOrdinal(Date(y, 11, 10))))
  {
  }

  lemma FarmingStart(y: int)
    requires 1001 <= y <= 9999
    ensures String2Ordinal(IntString(y - 1) + "1111") == Ok(ToOrdinal(Date(y - 1, 11, 11)))
  {
    TwoDigits("11");
    ParseYearAndDay(y - 1, "1111", 11, 11);
  }

  lemma FarmingEnd(y: int)
    requires 1001 <= y <= 9999
    ensures String2Ordinal(NatString(y) + "1110") == Ok(ToOrdinal(Date(y, 11, 10)))
  {
    TwoDigits("11");
    TwoDigits("10");
    ParseYearAndDay(y, "1110", 11, 10);
  }

  /** A selection holds, in series order, exactly the scenes whose ordinal lies in the widened
      window, and the returned strings are the window's ends. */
  lemma YearSelectionSpec(ts: seq<LandsatImg>, year: string, option: string, buffer: Option<int>)
    requires YearSelection(ts, year, option, buffer).Ok?
    ensures YearWindow(year, option).Ok?
    ensures var (start, end) := Widen(YearWindow(year, option).value, buffer);
      var sel := YearSelection(ts, year, option, buffer).value;
      IsSubsequence(sel.0, ts) &&
      (forall x :: x in sel.0 <==> x in ts && start <= SceneOrdinal(x).value <= end) &&
      Ordinal2String(start) == Ok(sel.1) && Ordinal2String(end) == Ok(sel.2)
  {
    var (start, end) := Widen(YearWindow(year, option).value, buffer);
    WindowOfSeries(ts, start, end);
  }

  /** The scenes of a series inside a day window: a subsequence holding exactly the scenes whose
      ordinal lies in the window. */
  lemma WindowOfSeries(ts: seq<LandsatImg>, start: int, end: int)
    requires OrdinalKeyed(ts).Ok?
    ensures IsSubsequence(InWindow(OrdinalKeyed(ts).value, start, end), ts)
    ensures forall x :: x in InWindow(OrdinalKeyed(ts).value, start, end) <==>
      x in ts && start <= SceneOrdinal(x).value <= end
  {
    var keyed := OrdinalKeyed(ts).value;
    InWindowOrder(keyed, start, end);
    InWindowMembers(keyed, start, end);
    assert Items(keyed) == ts;
    forall x
      ensures (exists i :: 0 <= i < |keyed| && keyed[i].1 == x && start <= keyed[i].0 <= end) <==>
        x in ts && start <= SceneOrdinal(x).value <= end
    {
      if x in ts {
        var i :| 0 <= i < |ts| && ts[i] == x;
        assert keyed[i] == (SceneOrdinal(x).value, x);
      }
    }
  }

  /** Without a buffer, the `'default'` selection of a four-digit year holds exactly the scenes
      dated in that calendar year. */
  lemma DefaultYearScenes(ts: seq<LandsatImg>, y: int)
    requires 1000 <= y <= 9999
    requires YearSelection(ts, NatString(y), "default", None).Ok?
    ensures forall x :: x in YearSelection(ts, NatString(y), "default", None).value.0 <==>
      x in ts && SceneDate(x).value.year == y
  {
    var start, end := ToOrdinal(Date(y, 1, 1)), ToOrdinal(Date(y, 12, 31));
    DefaultWindow(y);
    assert Widen(YearWindow(NatString(y), "default").value, None) == (start, end);
    YearSelectionSpec(ts, NatString(y), "default", None);
    var sel := YearSelection(ts, NatString(y), "default", None).value;
    assert forall x :: x in sel.0 <==> x in ts && start <= SceneOrdinal(x).value <= end;
    forall x | x in ts
      ensures SceneDate(x).Ok?
      ensures ToOrdinal(Date(y, 1, 1)) <= SceneOrdinal(x).value <= ToOrdinal(Date(y, 12, 31)) <==>
        SceneDate(x).value.year == y
    {
      var i :| 0 <= i < |ts| && ts[i] == x;
      SceneInYear(x, y);
    }
  }

  /** A scene's ordinal falls between January 1 and December 31 of y exactly when it is dated in y. */
  lemma SceneInYear(x: LandsatImg, y: int)
    requires SceneDate(x).Ok? && 1 <= y <= 9999
    ensures ToOrdinal(Date(y, 1, 1)) <= SceneOrdinal(x).value <= ToOrdinal(Date(y, 12, 31)) <==>
      SceneDate(x).value.year == y
  {
    InCalendarYear(SceneDate(x).value, y);
  }


  // ---------------------------------------------------------------------------
  // LandsatL2SPts and L2SPtile

  /** The ordinal-keyed scenes in the order `sort` leaves them. */
  function SortedKeyed(ts: seq<LandsatImg>): seq<(int, LandsatImg)>
    requires OrdinalKeyed(ts).Ok?
    reads ts
  {
    SortByKey(OrdinalKeyed(ts).value)
  }

  /** The day numbers `getdays` computes from scenes in date order, each scene's ordinal taken
      from the key it was sorted by. */
  method DaysFrom(sorted: seq<(int, LandsatImg)>, firstday: Option<string>) returns (r: Result<seq<int>, PyError>)
    ensures r == Days(sorted, firstday)
  {
    var anchor: int;
    if firstday.Some? && firstday.value != "" {
      var a := String2Ordinal(firstday.value);
      if a.Err? {
        return Err(a.error);
      }
      anchor := a.value - 1;
    } else {
      if |sorted| == 0 {
        return Err(IndexError);
      }
      anchor := sorted[0].0 - 1;
    }
    var days: seq<int> := [];
    var i := 0;
    while i < |sorted|
      invariant 0 <= i <= |sorted|
      invariant |days| == i && forall j :: 0 <= j < i ==> days[j] == sorted[j].0 - anchor
    {
      days := days + [sorted[i].0 - anchor];
      i := i + 1;
    }
    assert days == Offsets(sorted, anchor);
    r := Ok(days);
  }

  /** The feature paths a freshly read scene directory ends up with. */
  function ScenePaths(scene: (string, seq<string>)): seq<(Option<string>, string)> {
    StoredPaths([], SelectedFeatures(scene.0, scene.1))
  }

  /** Scene `j` of `read` holds the paths read from directory `j` of `scenes`. */
  ghost predicate ReadFrom(read: seq<LandsatImg>, scenes: seq<(string, seq<string>)>)
    reads read
  {
    |read| == |scenes| && forall j :: 0 <= j < |read| ==> read[j].featurePaths == ScenePaths(scenes[j])
  }

  /** `LandsatL2SPimg().read_Landsat_L2SP(fp, temppath)` for one scene directory. */
  method ReadScene(scene: (string, seq<string>), temppath: Option<string>) returns (img: LandsatImg, err: Option<PyError>)
    ensures fresh(img) && img.featurePaths == ScenePaths(scene)
  {
    img := new LandsatImg();
    err := ReadLandsatL2SP(img, scene.0, scene.1, temppath);
  }

  /** The reading loop of `LandsatL2SPts.__init__`: one new scene per directory, in order. A
      scene that fails to read stops the loop with its error. */
  method ReadAll(scenes: seq<(string, seq<string>)>, temppath: Option<string>)
    returns (imgs: seq<LandsatImg>, err: Option<PyError>)
    ensures |imgs| <= |scenes| && (err.None? ==> |imgs| == |scenes|)
    ensures forall j :: 0 <= j < |imgs| ==> fresh(imgs[j]) && imgs[j].featurePaths == ScenePaths(scenes[j])
  {
    imgs := [];
    err := None;
    var i := 0;
    while i < |scenes|
      invariant 0 <= i <= |scenes| && |imgs| == i
      invariant forall j :: 0 <= j < i ==> fresh(imgs[j]) && imgs[j].featurePaths == ScenePaths(scenes[j])
    {
      var img, e := ReadScene(scenes[i], temppath);
      if e.Some? {
        return imgs, e;
      }
      AppendedPaths(imgs, img, scenes, i);
      imgs := imgs + [img];
      i := i + 1;
    }
  }

  /** Appending a scene read from `scenes[i]` keeps every earlier scene's paths in place. */
  lemma AppendedPaths(imgs: seq<LandsatImg>, img: LandsatImg, scenes: seq<(string, seq<string>)>, i: int)
    requires 0 <= i < |scenes| && |imgs| == i
    requires forall j :: 0 <= j < i ==> imgs[j].featurePaths == ScenePaths(scenes[j])
    requires img.featurePaths == ScenePaths(scenes[i])
    ensures forall j :: 0 <= j <= i ==> (imgs + [img])[j].featurePaths == ScenePaths(scenes[j])
  {
    var r := imgs + [img];
    assert forall j :: 0 <= j < i ==> r[j] == imgs[j];
  }

  /** What `append` can be handed: a scene of this reader, or anything else. */
  datatype Element = Scene(img: LandsatImg) | NotAScene

  /** `LandsatL2SPts`: the scenes of one tile and the temp path they cache under. */
  class LandsatL2SPts {
    var temppath: Option<string>
    var ts: seq<LandsatImg>

    /** `LandsatL2SPts(temppath)` before any scene is read: the temp path is kept only when it
        is truthy. */
    constructor(temppath: Option<string>)
      ensures this.temppath == (if Truthy(temppath) then temppath else None) && ts == []
    {
      this.temppath := if Truthy(temppath) then temppath else None;
      ts := [];
    }

    /** `LandsatL2SPts(temppath, filepaths)` after the empty series is set up: the scenes read
        from the directories, appended in order; nothing is read without a truthy temp path. */
    method ReadScenes(scenes: seq<(string, seq<string>)>) returns (err: Option<PyError>)
      modifies this
      ensures temppath == old(temppath)
      ensures temppath.None? ==> ts == old(ts) && err.None?
      ensures |old(ts)| <= |ts| <= |old(ts)| + |scenes| && ts[..|old(ts)|] == old(ts)
      ensures temppath.Some? && err.None? ==> |ts| == |old(ts)| + |scenes|
      ensures forall j :: |old(ts)| <= j < |ts| ==>
        fresh(ts[j]) && ts[j].featurePaths == ScenePaths(scenes[j - |old(ts)|])
    {
      err := None;
      if temppath.None? {
        return;
      }
      var imgs;
      imgs, err := ReadAll(scenes, temppath);
      ts := ts + imgs;
    }

    /** `append(img)`: a scene goes at the end; anything else raises and changes nothing. */
    method Append(e: Element) returns (err: Option<PyError>)
      modifies this
      ensures temppath == old(temppath)
      ensures e.Scene? ==> err.None? && ts == old(ts) + [e.img]
      ensures e.NotAScene? ==> err == Some(TypeError) && ts == old(ts)
    {
      if e.Scene? {
        ts := ts + [e.img];
        err := None;
      } else {
        err := Some(TypeError);
      }
    }

    /** `ts.sort(key=self._sortKey)`, handing back the keys it sorted by. Every key is computed
        before the list moves, so a date that cannot be read raises and leaves the order as it
        was. */
    method SortKeyed() returns (r: Result<seq<(int, LandsatImg)>, PyError>)
      modifies this
      ensures temppath == old(temppath)
      ensures old(OrdinalKeyed(ts)).Err? ==> r == Err(old(OrdinalKeyed(ts)).error) && ts == old(ts)
      ensures old(OrdinalKeyed(ts)).Ok? ==> r == Ok(old(SortedKeyed(ts))) && ts == Items(r.value) && DateOrdered(ts)
      ensures |ts| == |old(ts)| && multiset(ts) == multiset(old(ts))
    {
      var keyed := OrdinalKeyed(ts);
      if keyed.Err? {
        return Err(keyed.error);
      }
      SortedSeriesSpec(ts);
      ts := Items(SortByKey(keyed.value));
      r := Ok(SortByKey(keyed.value));
    }

    /** `sort()`: a stable sort of the scenes by ordinal date. */
    method Sort() returns (err: Option<PyError>)
      modifies this
      ensures temppath == old(temppath)
      ensures old(OrdinalKeyed(ts)).Err? ==> err == Some(old(OrdinalKeyed(ts)).error) && ts == old(ts)
      ensures old(OrdinalKeyed(ts)).Ok? ==> err.None? && ts == old(Items(SortedKeyed(ts))) && DateOrdered(ts)
      ensures |ts| == |old(ts)| && multiset(ts) == multiset(old(ts))
    {
      var r := SortKeyed();
      err := if r.Err? then Some(r.error) else None;
    }

    /** `getdays(firstday)`: sorts, then numbers each scene's day from the day before the anchor
        (or before the first scene). */
    method GetDays(firstday: Option<string>) returns (r: Result<seq<int>, PyError>)
      modifies this
      ensures temppath == old(temppath)
      ensures old(OrdinalKeyed(ts)).Err? ==> r == Err(old(OrdinalKeyed(ts)).error) && ts == old(ts)
      ensures old(OrdinalKeyed(ts)).Ok? ==> ts == old(Items(SortedKeyed(ts)))
      ensures old(OrdinalKeyed(ts)).Ok? ==> r == old(Days(SortedKeyed(ts), firstday))
    {
      var sorted := SortKeyed();
      if sorted.Err? {
        return Err(sorted.error);
      }
      r := DaysFrom(sorted.value, firstday);
    }

    /** `getyear(year, option, buffer)`: a new series holding the selected scenes and this
        series' temp path, with the window's ends; this series is not changed. */
    method GetYear(year: string, option: string, buffer: Option<int>)
      returns (r: Result<(LandsatL2SPts, string, string), PyError>)
      ensures var sel := old(YearSelection(ts, year, option, buffer));
        (r.Ok? <==> sel.Ok?) && (r.Err? ==> r.error == sel.error) &&
        (r.Ok? ==> fresh(r.value.0) && r.value.0.temppath == temppath && r.value.0.ts == sel.value.0) &&
        (r.Ok? ==> r.value.1 == sel.value.1 && r.value.2 == sel.value.2)
    {
      var sel := YearSelection(ts, year, option, buffer);
      if sel.Err? {
        return Err(sel.error);
      }
      var series := new LandsatL2SPts(None);
      series.temppath := temppath;
      series.ts := sel.value.0;
      r := Ok((series, sel.value.1, sel.value.2));
    }
  }

  /** The tile of an `L2SPtile`: read from the first scene directory, or `'None'` when there is
      none. */
  function TileName(scenes: seq<(string, seq<string>)>): Result<string, PyError> {
    if |scenes| == 0 then Ok("None") else TileOf(scenes[0].0)
  }

  /** What `gettimeseries` returns: the whole series, or a year's selection with its window. */
  datatype SeriesView = Whole(series: LandsatL2SPts) | Window(series: LandsatL2SPts, start: string, end: string)

  /** `L2SPtile`: the tile name, its `numpy` temp folder and its sorted series. */
  class L2SPTile {
    var tile: string
    var temppath: string
    var series: LandsatL2SPts

    /** The metadata `_metadataconstructor` sets up, with an empty placeholder series. */
    constructor(tile: string, temppath: string)
      ensures this.tile == tile && this.temppath == temppath
      ensures fresh(series) && series.temppath.None? && series.ts == []
    {
      this.tile := tile;
      this.temppath := temppath;
      series := new LandsatL2SPts(None);
    }

    /** `gettimeseries(year=..., option=..., buffer=...)`: a year's selection when the year is
        truthy, the whole series otherwise. */
    method GetTimeSeries(year: Option<string>, option: string, buffer: Option<int>) returns (r: Result<SeriesView, PyError>)
      ensures !GivenString(year) ==> r == Ok(Whole(series))
      ensures GivenString(year) ==>
        var sel := old(YearSelection(series.ts, year.value, option, buffer));
        (r.Ok? <==> sel.Ok?) && (r.Err? ==> r.error == sel.error) &&
        (r.Ok? ==> r.value.Window? && fresh(r.value.series) && r.value.series.ts == sel.value.0) &&
        (r.Ok? ==> r.value.series.temppath == series.temppath) &&
        (r.Ok? ==> r.value.start == sel.value.1 && r.value.end == sel.value.2)
    {
      if year.Some? && year.value != "" {
        var y := series.GetYear(year.value, option, buffer);
        if y.Err? {
          return Err(y.error);
        }
        r := Ok(Window(y.value.0, y.value.1, y.value.2));
      } else {
        r := Ok(Whole(series));
      }
    }
  }

  /** The series `L2SPtile` builds before sorting: the scenes read from `scenes`, in order. */
  method ReadSeries(tp: string, scenes: seq<(string, seq<string>)>) returns (series: LandsatL2SPts, e: Option<PyError>)
    requires tp != ""
    ensures fresh(series) && series.temppath == Some(tp)
    ensures e.None? ==> ReadFrom(series.ts, scenes) && forall j :: 0 <= j < |series.ts| ==> fresh(series.ts[j])
  {
    series := new LandsatL2SPts(Some(tp));
    e := series.ReadScenes(scenes);
  }

  /** The `sort()` call of `L2SPtile` on the scenes just read: on success the series holds the
      same scenes in date order, each still holding the paths it was read with. */
  method SortRead(series: LandsatL2SPts, ghost read: seq<LandsatImg>, ghost scenes: seq<(string, seq<string>)>)
    returns (e: Option<PyError>)
    requires series.ts == read && ReadFrom(read, scenes)
    modifies series
    ensures series.temppath == old(series.temppath) && ReadFrom(read, scenes)
    ensures e.None? ==> multiset(series.ts) == multiset(read) && DateOrdered(series.ts)
  {
    e := series.Sort();
  }

  /** `L2SPtile(temppath, filepaths)`: the tile from the first scene directory's name, the
      `numpy` folder under `temppath`, and the scenes read and sorted by date. */
  method NewTile(temppath: string, scenes: seq<(string, seq<string>)>)
    returns (r: Result<L2SPTile, PyError>, ghost read: seq<LandsatImg>)
    ensures TileName(scenes).Err? ==> r == Err(TileName(scenes).error)
    ensures r.Ok? ==> fresh(r.value) && fresh(r.value.series)
    ensures r.Ok? ==> Ok(r.value.tile) == TileName(scenes) && r.value.temppath == Joined([temppath, "numpy"])
    ensures r.Ok? ==> r.value.series.temppath == Some(Joined([temppath, "numpy"]))
    ensures r.Ok? ==> ReadFrom(read, scenes) && forall j :: 0 <= j < |read| ==> fresh(read[j])
    ensures r.Ok? ==> multiset(r.value.series.ts) == multiset(read) && DateOrdered(r.value.series.ts)
  {
    read := [];
    var tile := TileName(scenes);
    if tile.Err? {
      r := Err(tile.error);
      return;
    }
    var tp := JoinPath([temppath, "numpy"]);
    var obj := new L2SPTile(tile.value, tp);
    var series, e := ReadSeries(tp, scenes);
    if e.Some? {
      r := Err(e.value);
      return;
    }
    read := series.ts;
    obj.series := series;
    e := SortRead(series, read, scenes);
    if e.Some? {
      r := Err(e.value);
      return;
    }
    r := Ok(obj);
  }
}
