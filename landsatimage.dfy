/** A Landsat scene: the paths of its band files, the metadata parsed from their names, and the
    quality mask derived from its `QA_PIXEL` band. Rasters are flattened row by row. */
module Landsatimage {
  import opened Wrappers
  import opened PyStrings
  import opened Dicts
  import opened FileManager
  import opened QualityMask
  import opened BandNames

  // ---------------------------------------------------------------------------
  // QA decoding, one step at a time

  predicate StrictlyAscending(s: seq<nat>) {
    forall i, j :: 0 <= i < j < |s| ==> s[i] < s[j]
  }

  /** Adds x to an ascending list of distinct values, keeping it ascending and distinct. */
  function InsertAscending(s: seq<nat>, x: nat): (r: seq<nat>)
    requires StrictlyAscending(s)
    ensures StrictlyAscending(r)
    ensures forall y :: y in r <==> y in s || y == x
    decreases |s|
  {
    if |s| == 0 then [x]
    else if x < s[0] then [x] + s
    else if x == s[0] then s
    else
      var t := InsertAscending(s[1..], x);
      assert forall y :: y in s <==> y == s[0] || y in s[1..];
      assert forall j :: 0 <= j < |t| ==> t[j] in t;
      [s[0]] + t
  }

  /** `np.unique(img_qa)`: the distinct QA values, ascending. */
  method UniqueValues(qa: seq<nat>) returns (vals: seq<nat>)
    ensures StrictlyAscending(vals)
    ensures forall v :: v in vals <==> v in qa
  {
    vals := [];
    var p := 0;
    while p < |qa|
      invariant 0 <= p <= |qa|
      invariant StrictlyAscending(vals)
      invariant forall v :: v in vals <==> v in qa[..p]
    {
      assert qa[..p + 1] == qa[..p] + [qa[p]];
      vals := InsertAscending(vals, qa[p]);
      p := p + 1;
    }
    assert qa[..p] == qa;
  }

  /** The decoder's tests on the binary digits, read as a precedence chain, give the category. */
  lemma CategoryFromDigits(v: nat)
    ensures var b := BinaryRepr(v, 16);
      Category(v) ==
        if b[|b| - 1] == '1' then 2
        else if b[|b| - 3] == '1' || b[|b| - 4] == '1' || (b[|b| - 9] == '0' && b[|b| - 10] == '1') ||
          (b[|b| - 9] == '1' && b[|b| - 10] == '1') || (b[|b| - 15] == '1' && b[|b| - 16] == '1') then 3
        else if b[|b| - 5] == '1' || (b[|b| - 11] == '1' && b[|b| - 12] == '1') then 4
        else if b[|b| - 6] == '1' then 5
        else 0
  {
    DigitsAreBits(v, 16);
    CategoryOfDigits(v, BinaryRepr(v, 16));
  }

  /** The digits the decoder reads, each as the bit it stands for, at any width of 16 or more
      (stated for a width parameter, so that a fixed width is not unfolded digit by digit). */
  lemma DigitsAreBits(v: nat, w: nat)
    requires w >= 16
    ensures BinaryRepr(v, w)[w - 1] == (if Bit(v, 0) then '1' else '0')
    ensures BinaryRepr(v, w)[w - 3] == (if Bit(v, 2) then '1' else '0')
    ensures BinaryRepr(v, w)[w - 4] == (if Bit(v, 3) then '1' else '0')
    ensures BinaryRepr(v, w)[w - 5] == (if Bit(v, 4) then '1' else '0')
    ensures BinaryRepr(v, w)[w - 6] == (if Bit(v, 5) then '1' else '0')
    ensures BinaryRepr(v, w)[w - 9] == (if Bit(v, 8) then '1' else '0')
    ensures BinaryRepr(v, w)[w - 10] == (if Bit(v, 9) then '1' else '0')
    ensures BinaryRepr(v, w)[w - 11] == (if Bit(v, 10) then '1' else '0')
    ensures BinaryRepr(v, w)[w - 12] == (if Bit(v, 11) then '1' else '0')
    ensures BinaryRepr(v, w)[w - 15] == (if Bit(v, 14) then '1' else '0')
    ensures BinaryRepr(v, w)[w - 16] == (if Bit(v, 15) then '1' else '0')
  {
    BinaryReprBit(v, w, 0);
    BinaryReprBit(v, w, 2);
    BinaryReprBit(v, w, 3);
    BinaryReprBit(v, w, 4);
    BinaryReprBit(v, w, 5);
    BinaryReprBit(v, w, 8);
    BinaryReprBit(v, w, 9);
    BinaryReprBit(v, w, 10);
    BinaryReprBit(v, w, 11);
    BinaryReprBit(v, w, 14);
    BinaryReprBit(v, w, 15);
  }

  lemma CategoryOfDigits(v: nat, b: string)
    requires |b| == 16
    requires b[15] == (if Bit(v, 0) then '1' else '0')
    requires b[13] == (if Bit(v, 2) then '1' else '0')
    requires b[12] == (if Bit(v, 3) then '1' else '0')
    requires b[11] == (if Bit(v, 4) then '1' else '0')
    requires b[10] == (if Bit(v, 5) then '1' else '0')
    requires b[7] == (if Bit(v, 8) then '1' else '0')
    requires b[6] == (if Bit(v, 9) then '1' else '0')
    requires b[5] == (if Bit(v, 10) then '1' else '0')
    requires b[4] == (if Bit(v, 11) then '1' else '0')
    requires b[1] == (if Bit(v, 14) then '1' else '0')
    requires b[0] == (if Bit(v, 15) then '1' else '0')
    ensures Category(v) ==
        if b[|b| - 1] == '1' then 2
        else if b[|b| - 3] == '1' || b[|b| - 4] == '1' || (b[|b| - 9] == '0' && b[|b| - 10] == '1') ||
          (b[|b| - 9] == '1' && b[|b| - 10] == '1') || (b[|b| - 15] == '1' && b[|b| - 16] == '1') then 3
        else if b[|b| - 5] == '1' || (b[|b| - 11] == '1' && b[|b| - 12] == '1') then 4
        else if b[|b| - 6] == '1' then 5
        else 0
  {
  }

  /** The per-value loop of `_getmask`: each distinct value's category, in order. */
  method DecodeValues(values: seq<nat>) returns (cats: seq<int>)
    ensures |cats| == |values|
    ensures forall i :: 0 <= i < |values| ==> cats[i] == Category(values[i])
  {
    var maskValues := new int[|values|](_ => 0);
    var i := 0;
    while i < |values|
      invariant 0 <= i <= |values|
      invariant forall j :: 0 <= j < i ==> maskValues[j] == Category(values[j])
      invariant forall j :: i <= j < |values| ==> maskValues[j] == 0
    {
      DecodeAt(maskValues, i, values[i]);
      i := i + 1;
    }
    cats := maskValues[..];
  }

  /** One pass of that loop: snow, shadow, cloud and fill are tested in that order on the binary
      digits of v, each later hit overwriting the earlier one in `maskValues[i]`. */
  method DecodeAt(maskValues: array<int>, i: int, v: nat)
    requires 0 <= i < maskValues.Length && maskValues[i] == 0
    modifies maskValues
    ensures maskValues[i] == Category(v)
    ensures forall j :: 0 <= j < maskValues.Length && j != i ==> maskValues[j] == old(maskValues[j])
  {
    var b := BinaryRepr(v, 16);
    if b[|b| - 6] == '1' {
      maskValues[i] := 5;
    }
    if b[|b| - 5] == '1' || (b[|b| - 11] == '1' && b[|b| - 12] == '1') {
      maskValues[i] := 4;
    }
    if b[|b| - 3] == '1' || b[|b| - 4] == '1' || (b[|b| - 9] == '0' && b[|b| - 10] == '1') ||
       (b[|b| - 9] == '1' && b[|b| - 10] == '1') || (b[|b| - 15] == '1' && b[|b| - 16] == '1') {
      maskValues[i] := 3;
    }
    if b[|b| - 1] == '1' {
      maskValues[i] := 2;
    }
    CategoryFromDigits(v);
  }

  /** The scatter loop of `_getmask`: every pixel whose QA value is `values[i]` gets `cats[i]`;
      a pixel whose value is not listed stays 0. */
  method ScatterMask(qa: seq<nat>, values: seq<nat>, cats: seq<int>) returns (mask: seq<int>)
    requires |values| == |cats|
    requires forall i, j :: 0 <= i < j < |values| ==> values[i] != values[j]
    ensures |mask| == |qa|
    ensures forall p, i :: 0 <= p < |qa| && 0 <= i < |values| && values[i] == qa[p] ==> mask[p] == cats[i]
    ensures forall p :: 0 <= p < |qa| && qa[p] !in values ==> mask[p] == 0
  {
    var m := new int[|qa|](_ => 0);
    var i := 0;
    while i < |values|
      invariant 0 <= i <= |values|
      invariant forall p, j :: 0 <= p < |qa| && 0 <= j < i && values[j] == qa[p] ==> m[p] == cats[j]
      invariant forall p :: 0 <= p < |qa| && qa[p] !in values[..i] ==> m[p] == 0
    {
      var p := 0;
      while p < |qa|
        invariant 0 <= p <= |qa|
        invariant forall q, j :: 0 <= q < |qa| && 0 <= j < i && values[j] == qa[q] ==> m[q] == cats[j]
        invariant forall q :: 0 <= q < p && qa[q] == values[i] ==> m[q] == cats[i]
        invariant forall q :: 0 <= q < |qa| && qa[q] !in values[..i + 1] ==> m[q] == 0
        invariant forall q :: p <= q < |qa| && qa[q] !in values[..i] ==> m[q] == 0
      {
        if qa[p] == values[i] {
          m[p] := cats[i];
        }
        p := p + 1;
      }
      assert values[..i + 1] == values[..i] + [values[i]];
      i := i + 1;
    }
    assert values[..i] == values;
    mask := m[..];
  }

  /** `mask` after the two loops: each pixel holds the category of its own QA value. */
  method DecodeMask(qa: seq<nat>) returns (mask: seq<int>)
    ensures mask == MaskOf(qa)
  {
    var values := UniqueValues(qa);
    var cats := DecodeValues(values);
    mask := ScatterMask(qa, values, cats);
    forall p | 0 <= p < |qa| ensures mask[p] == Category(qa[p]) {
      assert qa[p] in values;
      var i :| 0 <= i < |values| && values[i] == qa[p];
    }
  }

  // ---------------------------------------------------------------------------
  // File-name metadata

  /** The sensor code of a band file: the first underscore token of its name's stem. */
  function SensorOf(path: string): string {
    NameTokens(path)[0]
  }

  /** The key under which `_storepaths` files a (alias, path) entry: the alias translated with the
      sensor of that very path, which is stored just before translating. */
  function StoredKey(entry: (string, string)): Option<string> {
    Translate(SensorOf(entry.1), entry.0)
  }

  /** The (key, path) writes `_storepaths` performs, in order. */
  function StoredEntries(features: seq<(string, string)>): (r: seq<(Option<string>, string)>)
    ensures |r| == |features|
    ensures forall i :: 0 <= i < |features| ==> r[i] == (StoredKey(features[i]), features[i].1)
  {
    seq(|features|, i requires 0 <= i < |features| => (StoredKey(features[i]), features[i].1))
  }

  /** The feature-path dictionary after `_storepaths` has visited `features` in order. */
  function StoredPaths(d: seq<(Option<string>, string)>, features: seq<(string, string)>): seq<(Option<string>, string)> {
    PutAll(d, StoredEntries(features))
  }

  /** Visiting one more entry is one more dictionary write. */
  lemma StoredPathsSnoc(d: seq<(Option<string>, string)>, features: seq<(string, string)>, i: int)
    requires 0 <= i < |features|
    ensures StoredPaths(d, features[..i + 1]) == Put(StoredPaths(d, features[..i]), StoredKey(features[i]), features[i].1)
  {
    var e := StoredEntries(features[..i + 1]);
    assert e[..i] == StoredEntries(features[..i]);
  }

  /** A key no entry translates to keeps its old path. */
  lemma StoredPathsUntouched(d: seq<(Option<string>, string)>, features: seq<(string, string)>, k: Option<string>)
    requires forall i :: 0 <= i < |features| ==> StoredKey(features[i]) != k
    ensures Get(StoredPaths(d, features), k) == Get(d, k)
  {
    PutAllUntouched(d, StoredEntries(features), k);
  }

  /** A translated key holds the path of the last entry that translates to it. */
  lemma StoredPathsLast(d: seq<(Option<string>, string)>, features: seq<(string, string)>, i: int)
    requires 0 <= i < |features|
    requires forall j :: i < j < |features| ==> StoredKey(features[j]) != StoredKey(features[i])
    ensures Get(StoredPaths(d, features), StoredKey(features[i])) == Some(features[i].1)
  {
    PutAllLast(d, StoredEntries(features), i);
  }

  /** `_storepaths` keeps the dictionary's keys distinct. */
  lemma StoredPathsDistinct(d: seq<(Option<string>, string)>, features: seq<(string, string)>)
    requires DistinctKeys(d)
    ensures DistinctKeys(StoredPaths(d, features))
  {
    PutAllDistinct(d, StoredEntries(features));
  }

  /** The scene name `tile_date` splits back into tile and date when neither holds `_`. */
  lemma SceneNameTokens(tile: string, date: string)
    requires '_' !in tile && '_' !in date
    ensures Split(tile + "_" + date, '_') == [tile, date]
  {
    SplitAtSeparator(tile, date, '_');
    SplitWithoutSeparator(tile, '_');
    SplitWithoutSeparator(date, '_');
  }

  /** The path of a scene's cached mask: `joinpath(str(temppath), 'MASK.npy')`. */
  function MaskPath(tempPath: Option<string>): string {
    Joined([if tempPath.Some? then tempPath.value else "None", "MASK.npy"])
  }

  /** A temp path is usable for the cache when it is set and not empty (Python truthiness). */
  predicate Truthy(tempPath: Option<string>) {
    tempPath.Some? && tempPath.value != ""
  }

  /** What `feature` may return: a loaded matrix, or the request handed to the generic image
      reader under its translated name. */
  datatype FeatureValue = Loaded(matrix: seq<int>) | BaseFeature(name: Option<string>)

  /** The `.npy` files on disk, by path. */
  class NpyFiles {
    var files: map<string, seq<int>>

    constructor(initial: map<string, seq<int>>)
      ensures files == initial
    {
      files := initial;
    }
  }

  class LandsatImg {
    var sensor: Option<string>
    var tile: Option<string>
    var date: Option<string>
    var time: Option<string>
    var featurePaths: seq<(Option<string>, string)>
    var tempPath: Option<string>
    var stats: Option<PixelStats>

    /** A scene with no metadata yet. */
    constructor()
      ensures sensor == None && tile == None && date == None && time == None && tempPath == None && stats == None
      ensures featurePaths == []
    {
      sensor := None;
      tile := None;
      date := None;
      time := None;
      featurePaths := [];
      tempPath := None;
      stats := None;
    }

    /** `name()`: `tile_date`; a KeyError while either is unset. */
    function Name(): Result<string, PyError>
      reads this
    {
      if tile.Some? && date.Some? then Ok(tile.value + "_" + date.value) else Err(KeyError)
    }

    /** `name()` exists exactly once tile and date are set, and then splits back into them when
        neither holds `_`. */
    lemma NameSpec()
      ensures Name().Ok? <==> tile.Some? && date.Some?
      ensures Name().Ok? && '_' !in tile.value && '_' !in date.value ==>
        Split(Name().value, '_') == [tile.value, date.value]
    {
      if tile.Some? && date.Some? && '_' !in tile.value && '_' !in date.value {
        SceneNameTokens(tile.value, date.value);
      }
    }

    /** `translate(s)` with the stored sensor; a KeyError while no sensor is stored. */
    function TranslateName(s: string): Result<Option<string>, PyError>
      reads this
    {
      if sensor.Some? then Ok(Translate(sensor.value, s)) else Err(KeyError)
    }

    function InvalidPixNum(): Result<nat, PyError>
      reads this
    {
      if stats.Some? then Ok(stats.value.invalid) else Err(KeyError)
    }

    function NANPixNum(): Result<nat, PyError>
      reads this
    {
      if stats.Some? then Ok(stats.value.nan) else Err(KeyError)
    }

    function CloudyPixNum(): Result<nat, PyError>
      reads this
    {
      if stats.Some? then Ok(stats.value.cloudy) else Err(KeyError)
    }

    function TotalPixNum(): Result<nat, PyError>
      reads this
    {
      if stats.Some? then Ok(stats.value.total) else Err(KeyError)
    }

    /** `_storepaths(features)`: files each path under its translated alias, setting the sensor
        from each path's name before translating its alias. */
    method StorePaths(features: seq<(string, string)>)
      modifies this
      ensures featurePaths == StoredPaths(old(featurePaths), features)
      ensures sensor == if |features| == 0 then old(sensor) else Some(SensorOf(features[|features| - 1].1))
      ensures tile == old(tile) && date == old(date) && tempPath == old(tempPath) && stats == old(stats) && time == old(time)
    {
      var i := 0;
      while i < |features|
        invariant 0 <= i <= |features|
        invariant featurePaths == StoredPaths(old(featurePaths), features[..i])
        invariant sensor == if i == 0 then old(sensor) else Some(SensorOf(features[i - 1].1))
        invariant tile == old(tile) && date == old(date) && tempPath == old(tempPath) && stats == old(stats) && time == old(time)
      {
        StoredPathsSnoc(old(featurePaths), features, i);
        StorePath(features[i]);
        i := i + 1;
      }
      assert features[..i] == features;
    }

    /** One pass of the `_storepaths` loop: the sensor from the path's name, then the write under
        the alias translated with that sensor. */
    method StorePath(entry: (string, string))
      modifies this
      ensures sensor == Some(SensorOf(entry.1))
      ensures featurePaths == Put(old(featurePaths), StoredKey(entry), entry.1)
      ensures tile == old(tile) && date == old(date) && tempPath == old(tempPath) && stats == old(stats) && time == old(time)
    {
      var (key, path) := entry;
      var info := Split(Stem(Basename(path)), '_');
      sensor := Some(info[0]);
      var ftname := Translate(sensor.value, key);
      featurePaths := Put(featurePaths, ftname, path);
    }

    /** `_getinfo(filepath)`: tile and date are the third and fourth underscore tokens of the
        file's stem; a name with too few tokens raises IndexError, after setting the tile when
        there are exactly three. */
    method GetInfo(filepath: string) returns (err: Option<PyError>)
      modifies this
      ensures var info := NameTokens(filepath);
        (err == None <==> |info| >= 4) &&
        (err.Some? ==> err.value == IndexError) &&
        tile == (if |info| >= 3 then Some(info[2]) else old(tile)) &&
        date == (if |info| >= 4 then Some(info[3]) else old(date))
      ensures sensor == old(sensor) && featurePaths == old(featurePaths) && time == old(time)
      ensures tempPath == old(tempPath) && stats == old(stats)
    {
      var info := NameTokens(filepath);
      if |info| < 3 {
        return Some(IndexError);
      }
      tile := Some(info[2]);
      if |info| < 4 {
        return Some(IndexError);
      }
      date := Some(info[3]);
      err := None;
    }

    /** `_getmetadata()`: reads tile and date from the first stored path, if there is one. */
    method GetMetadata() returns (err: Option<PyError>)
      modifies this
      ensures |old(featurePaths)| == 0 ==> err == None && tile == old(tile) && date == old(date)
      ensures |old(featurePaths)| > 0 ==>
        var info := NameTokens(old(featurePaths)[0].1);
        (err == None <==> |info| >= 4) &&
        tile == (if |info| >= 3 then Some(info[2]) else old(tile)) &&
        date == (if |info| >= 4 then Some(info[3]) else old(date))
      ensures sensor == old(sensor) && featurePaths == old(featurePaths) && time == old(time)
      ensures tempPath == old(tempPath) && stats == old(stats)
    {
      err := None;
      if |featurePaths| > 0 {
        err := GetInfo(featurePaths[0].1);
      }
    }

    /** `_gettemppath(temppath)`: without a temp directory, the file name of the first stored
        path; with one, `temppath/tile_date`; either way normalised by `check_folder`. */
    method GetTempPath(temppath: Option<string>) returns (err: Option<PyError>)
      modifies this
      ensures temppath.None? && |featurePaths| == 0 ==> err == Some(StopIteration) && tempPath == old(tempPath)
      ensures temppath.None? && |featurePaths| > 0 ==>
        err == None && tempPath == Some(Joined([Basename(featurePaths[0].1)]))
      ensures temppath.Some? && old(Name()).Err? ==> err == Some(KeyError) && tempPath == old(tempPath)
      ensures temppath.Some? && old(Name()).Ok? ==>
        err == None && tempPath == Some(Joined([Joined([temppath.value, old(Name()).value])]))
      ensures sensor == old(sensor) && tile == old(tile) && date == old(date)
      ensures featurePaths == old(featurePaths) && stats == old(stats) && time == old(time)
    {
      var fp;
      if temppath.None? {
        if |featurePaths| == 0 {
          return Some(StopIteration);
        }
        fp := Basename(featurePaths[0].1);
      } else {
        var name := Name();
        if name.Err? {
          return Some(KeyError);
        }
        fp := Joined([temppath.value, name.value]);
      }
      tempPath := Some(Joined([fp]));
      err := None;
    }

    /** `_populate(features, temppath)` up to the base class's metadata caching. */
    method Populate(features: seq<(string, string)>, temppath: Option<string>) returns (err: Option<PyError>)
      modifies this
      ensures featurePaths == StoredPaths(old(featurePaths), features)
      ensures |features| > 0 ==> sensor == Some(SensorOf(features[|features| - 1].1))
      ensures time == old(time) && stats == old(stats)
    {
      StorePaths(features);
      err := GetMetadata();
      if err.None? {
        err := GetTempPath(temppath);
      }
    }

    /** `_getmask()` on the scene's QA raster: decodes it, records the pixel counts, and writes
        the mask to `MASK.npy` under the temp path. */
    method GetMask(qa: seq<nat>, height: nat, width: nat, disk: NpyFiles)
      requires |qa| == height * width
      modifies this, disk
      ensures stats == Some(StatsOf(MaskOf(qa), height, width))
      ensures InvalidPixNum() == Ok(CountNonZero(MaskOf(qa))) && NANPixNum() == Ok(CountEq(MaskOf(qa), Fill))
      ensures CloudyPixNum() == Ok(CountEither(MaskOf(qa), Cloud, Shadow)) && TotalPixNum() == Ok(height * width)
      ensures disk.files == old(disk.files)[MaskPath(tempPath) := MaskOf(qa)]
      ensures sensor == old(sensor) && tile == old(tile) && date == old(date)
      ensures featurePaths == old(featurePaths) && tempPath == old(tempPath) && time == old(time)
    {
      var mask := DecodeMask(qa);
      stats := Some(PixelStats(CountNonZero(mask), CountEq(mask, Fill), CountEither(mask, Cloud, Shadow), height * width));
      var fp := JoinPath([if tempPath.Some? then tempPath.value else "None", "MASK.npy"]);
      disk.files := disk.files[fp := mask];
    }

    /** `feature(string)` for the mask: a scene without a usable temp path raises IOError; the
        mask is computed and saved only when its file is missing, then read back. Any other name
        goes to the generic reader. */
    method Feature(s: string, qa: seq<nat>, height: nat, width: nat, disk: NpyFiles)
      returns (r: Result<FeatureValue, PyError>)
      requires |qa| == height * width
      modifies this, disk
      ensures old(sensor).None? ==> r == Err(KeyError)
      ensures old(sensor).Some? && Translate(old(sensor).value, s) != Some("MASK") ==>
        r == Ok(BaseFeature(Translate(old(sensor).value, s)))
      ensures old(sensor).Some? && Translate(old(sensor).value, s) == Some("MASK") && !Truthy(old(tempPath)) ==>
        r == Err(IOError)
      ensures old(sensor).Some? && Translate(old(sensor).value, s) == Some("MASK") && Truthy(old(tempPath)) ==>
        var fp := MaskPath(old(tempPath));
        (fp in old(disk.files) ==> r == Ok(Loaded(old(disk.files)[fp])) && disk.files == old(disk.files) && stats == old(stats)) &&
        (fp !in old(disk.files) ==>
          r == Ok(Loaded(MaskOf(qa))) && disk.files == old(disk.files)[fp := MaskOf(qa)] &&
          stats == Some(StatsOf(MaskOf(qa), height, width)))
      ensures !(old(sensor).Some? && Translate(old(sensor).value, s) == Some("MASK") && Truthy(old(tempPath))) ==>
        disk.files == old(disk.files) && stats == old(stats)
      ensures sensor == old(sensor) && tile == old(tile) && date == old(date)
      ensures featurePaths == old(featurePaths) && tempPath == old(tempPath) && time == old(time)
    {
      var name := TranslateName(s);
      if name.Err? {
        return Err(KeyError);
      }
      if name.value == Some("MASK") {
        if Truthy(tempPath) {
          var fp := JoinPath([tempPath.value, "MASK.npy"]);
          if fp !in disk.files {
            GetMask(qa, height, width, disk);
          }
          r := Ok(Loaded(disk.files[fp]));
        } else {
          r := Err(IOError);
        }
      } else {
        r := Ok(BaseFeature(name.value));
      }
    }
  }
}
