/** Level-2 science-product scenes: which band files a scene directory contributes, the time
    series of scenes of one tile, and the registry grouping scene directories by tile. */
module LandsatL2SP {
  import opened Wrappers
  import opened PyStrings
  import opened FileManager
  import opened Dicts
  import opened Seqs
  import opened Dates
  import opened Landsatimage

  // ---------------------------------------------------------------------------
  // read_Landsat_L2SP: band-file selection

  /** The surface-reflectance bands a scene reads. */
  const L2SPBands: seq<string> := ["B1", "B2", "B3", "B4", "B5", "B6", "B7"]

  predicate IsTif(f: string) {
    EndsWith(f, ".TIF") || EndsWith(f, ".tif")
  }

  /** The feature key of a raster file name: `QA_PIXEL` for any name containing it, otherwise the
      last underscore token of the stem when it is one of the bands, otherwise none. */
  function FileKey(fn: string): Option<string> {
    if Contains(fn, "QA_PIXEL") then Some("QA_PIXEL")
    else
      var tokens := Split(Stem(fn), '_');
      var band := tokens[|tokens| - 1];
      if band in L2SPBands then Some(band) else None
  }

  /** Only the QA band and the seven surface-reflectance bands are keys. */
  lemma FileKeyRange(fn: string)
    ensures FileKey(fn).Some? ==> FileKey(fn).value == "QA_PIXEL" || FileKey(fn).value in L2SPBands
  {
  }

  /** The dictionary write for the raster name `fn`: its key and its path under `dir`. */
  function FeatureEntry(dir: string, fn: string): (Option<string>, string) {
    (FileKey(fn), Joined([dir, fn]))
  }

  /** The dictionary writes `read_Landsat_L2SP` performs for the raster names `fnames`. */
  function FeatureEntries(dir: string, fnames: seq<string>): seq<(Option<string>, string)> {
    Map(fnames, fn => FeatureEntry(dir, fn))
  }

  /** The features dictionary of a scene directory listing. */
  function SelectedFeatures(dir: string, filenames: seq<string>): seq<(string, string)> {
    PutPresent([], FeatureEntries(dir, Filter(filenames, IsTif)))
  }

  /** The first loop of `read_Landsat_L2SP`: the names ending in `.TIF` or `.tif`, in order. */
  method ListRasters(filenames: seq<string>) returns (fnames: seq<string>)
    ensures fnames == Filter(filenames, IsTif)
  {
    fnames := [];
    var i := 0;
    while i < |filenames|
      invariant 0 <= i <= |filenames|
      invariant fnames == Filter(filenames[..i], IsTif)
    {
      var f := filenames[i];
      FilterAppend(filenames[..i], [f], IsTif);
      assert filenames[..i + 1] == filenames[..i] + [f];
      if EndsWith(f, ".TIF") || EndsWith(f, ".tif") {
        fnames := fnames + [f];
      }
      i := i + 1;
    }
    assert filenames[..i] == filenames;
  }

  /** The body of the second loop of `read_Landsat_L2SP` for the raster name `fn`. */
  method StoreBand(features: seq<(string, string)>, dir: string, fn: string) returns (r: seq<(string, string)>)
    ensures r == PutPresent(features, [FeatureEntry(dir, fn)])
  {
    r := features;
    if Contains(fn, "QA_PIXEL") {
      var fp := JoinPath([dir, fn]);
      r := Put(r, "QA_PIXEL", fp);
    } else {
      var band := Stem(fn);
      var tokens := Split(band, '_');
      band := tokens[|tokens| - 1];
      if band in L2SPBands {
        var fp := JoinPath([dir, fn]);
        r := Put(r, band, fp);
      }
    }
    assert [FeatureEntry(dir, fn)][..0] == [];
  }

  /** The second loop of `read_Landsat_L2SP`: one dictionary write per raster name with a key. */
  method StoreBands(dir: string, fnames: seq<string>) returns (features: seq<(string, string)>)
    ensures features == PutPresent([], FeatureEntries(dir, fnames))
  {
    features := [];
    var j := 0;
    while j < |fnames|
      invariant 0 <= j <= |fnames|
      invariant features == PutPresent([], FeatureEntries(dir, fnames[..j]))
    {
      ghost var e := FeatureEntry(dir, fnames[j]);
      MapSnoc(fnames, fn => FeatureEntry(dir, fn), j);
      PutPresentSnoc([], FeatureEntries(dir, fnames[..j]), e);
      PutPresentSnoc(features, [], e);
      features := StoreBand(features, dir, fnames[j]);
      j := j + 1;
    }
    assert fnames[..j] == fnames;
  }

  /** `read_Landsat_L2SP`'s file selection. */
  method SelectFeatures(dir: string, filenames: seq<string>) returns (features: seq<(string, string)>)
    ensures features == SelectedFeatures(dir, filenames)
  {
    var fnames := ListRasters(filenames);
    features := StoreBands(dir, fnames);
  }

  /** Every key of the features dictionary is `QA_PIXEL` or one of the seven bands, and keys are
      distinct. */
  lemma SelectedFeaturesKeys(dir: string, filenames: seq<string>, k: string)
    ensures k in Keys(SelectedFeatures(dir, filenames)) ==> k == "QA_PIXEL" || k in L2SPBands
    ensures DistinctKeys(SelectedFeatures(dir, filenames))
  {
    var tifs := Filter(filenames, IsTif);
    var e := FeatureEntries(dir, tifs);
    PutPresentDistinct([], e);
    if k != "QA_PIXEL" && k !in L2SPBands {
      forall i | 0 <= i < |e|
        ensures e[i].0 != Some(k)
      {
        FileKeyRange(tifs[i]);
      }
      PutPresentUntouched([], e, k);
    }
  }

  /** No raster name after position i has the key of the name at i. */
  predicate LastWithKey(tifs: seq<string>, i: int)
    requires 0 <= i < |tifs|
  {
    forall j :: i < j < |tifs| ==> FileKey(tifs[j]) != FileKey(tifs[i])
  }

  /** A key holds the path of the last raster file with that key; a key no raster file has is
      absent. Files that are not `.TIF`/`.tif` are never read. */
  lemma SelectedFeaturesSpec(dir: string, filenames: seq<string>, k: string)
    ensures var tifs := Filter(filenames, IsTif);
      (forall i :: 0 <= i < |tifs| ==> FileKey(tifs[i]) != Some(k)) ==>
        Get(SelectedFeatures(dir, filenames), k) == None
    ensures var tifs := Filter(filenames, IsTif);
      forall i :: (0 <= i < |tifs| && FileKey(tifs[i]) == Some(k) && LastWithKey(tifs, i)) ==>
        Get(SelectedFeatures(dir, filenames), k) == Some(Joined([dir, tifs[i]]))
    ensures forall f :: f in Filter(filenames, IsTif) <==> f in filenames && IsTif(f)
  {
    var tifs := Filter(filenames, IsTif);
    var e := FeatureEntries(dir, tifs);
    FilterSpec(filenames, IsTif);
    if forall i :: 0 <= i < |tifs| ==> FileKey(tifs[i]) != Some(k) {
      PutPresentUntouched([], e, k);
    }
    forall i | 0 <= i < |tifs| && FileKey(tifs[i]) == Some(k) && LastWithKey(tifs, i)
      ensures Get(SelectedFeatures(dir, filenames), k) == Some(Joined([dir, tifs[i]]))
    {
      PutPresentLast([], e, i);
    }
  }

  /** The scene's band and QA files go to the scene's metadata: `read_Landsat_L2SP` up to the
      mask computation and metadata caching, which need the rasters. */
  method ReadLandsatL2SP(img: LandsatImg, dir: string, filenames: seq<string>, temppath: Option<string>)
    returns (err: Option<PyError>)
    modifies img
    ensures img.featurePaths == StoredPaths(old(img.featurePaths), SelectedFeatures(dir, filenames))
  {
    var features := SelectFeatures(dir, filenames);
    err := img.Populate(features, temppath);
  }

  // ---------------------------------------------------------------------------
  // getL2SPTileList and _gettile

  /** A directory name of a Landsat-8 level-2 scene, as the directory walk recognises it. */
  predicate IsLC08Dir(f: string) {
    Contains(f, "LC08_L2SP") && |f| == 40
  }

  /** A directory name of a Landsat-7 level-2 scene, as the directory walk recognises it. */
  predicate IsLE07Dir(f: string) {
    Contains(f, "LE07_L2SP") && |f| == 40
  }

  predicate IsSceneDir(f: string) {
    IsLC08Dir(f) || IsLE07Dir(f)
  }

  /** The path the walk records for the sub-directory `f` of `root`. */
  function DirPath(root: string, f: string): string {
    Joined([root, f])
  }

  /** The paths recorded for one sub-directory name: one per marker it matches. */
  function DirEntry(root: string, f: string): (r: seq<string>)
    ensures forall p :: p in r <==> IsSceneDir(f) && p == DirPath(root, f)
    ensures |r| == (if IsLC08Dir(f) then 1 else 0) + (if IsLE07Dir(f) then 1 else 0)
  {
    (if IsLC08Dir(f) then [DirPath(root, f)] else []) +
    (if IsLE07Dir(f) then [DirPath(root, f)] else [])
  }

  /** The paths recorded for the sub-directories `dirs` of `root`, in order. */
  function DirPaths(root: string, dirs: seq<string>): seq<string> {
    FlatMap(dirs, f => DirEntry(root, f))
  }

  /** The paths recorded over a whole walk of (directory, sub-directory names) steps. */
  function WalkPaths(walk: seq<(string, seq<string>)>): seq<string> {
    FlatMap(walk, (step: (string, seq<string>)) => DirPaths(step.0, step.1))
  }

  /** A recorded path is the join of a walked directory and one of its scene sub-directories,
      and every such join is recorded. */
  lemma WalkPathsSpec(walk: seq<(string, seq<string>)>, p: string)
    ensures p in WalkPaths(walk) <==>
      exists w, i :: 0 <= w < |walk| && 0 <= i < |walk[w].1| && IsSceneDir(walk[w].1[i]) &&
        p == DirPath(walk[w].0, walk[w].1[i])
  {
    var steps := (step: (string, seq<string>)) => DirPaths(step.0, step.1);
    FlatMapIn(walk, steps, p);
    forall w | 0 <= w < |walk|
      ensures p in DirPaths(walk[w].0, walk[w].1) <==>
        exists i :: 0 <= i < |walk[w].1| && IsSceneDir(walk[w].1[i]) && p == DirPath(walk[w].0, walk[w].1[i])
    {
      FlatMapIn(walk[w].1, f => DirEntry(walk[w].0, f), p);
    }
  }

  /** `_gettile(filename)`: the third underscore token; IndexError when there is none. */
  function GetTile(filename: string): Result<string, PyError> {
    Token(Split(filename, '_'), 2)
  }

  /** A scene directory name `LXSS_LLLL_PPPRRR_...` has the PPPRRR field as its tile, whatever
      follows it. */
  lemma GetTileOfFields(a: string, b: string, t: string, rest: string)
    requires '_' !in a && '_' !in b && '_' !in t
    ensures GetTile(a + "_" + b + "_" + t) == Ok(t)
    ensures GetTile(a + "_" + b + "_" + t + "_" + rest) == Ok(t)
  {
    SplitWithoutSeparator(a, '_');
    SplitWithoutSeparator(b, '_');
    SplitWithoutSeparator(t, '_');
    var ab := a + "_" + b;
    SplitAtSeparator(a, b, '_');
    assert Split(ab, '_') == [a, b];
    var abt := ab + "_" + t;
    SplitAtSeparator(ab, t, '_');
    assert Split(abt, '_') == [a, b, t];
    SplitAtSeparator(abt, rest, '_');
    assert Split(abt + "_" + rest, '_')[2] == t;
  }

  /** A name with fewer than two underscores has no tile field: IndexError. */
  lemma GetTileTooFew(a: string, b: string)
    requires '_' !in a && '_' !in b
    ensures GetTile(a) == Err(IndexError)
    ensures GetTile(a + "_" + b) == Err(IndexError)
  {
    SplitWithoutSeparator(a, '_');
    SplitWithoutSeparator(b, '_');
    SplitAtSeparator(a, b, '_');
  }

  /** The tile of a recorded path, read from its last name. */
  function TileOf(p: string): Result<string, PyError> {
    GetTile(Basename(p))
  }

  /** The tile of a path whose tile can be read. */
  function TileKey(p: string): string {
    var t := TileOf(p);
    if t.Ok? then t.value else ""
  }

  /** Every path's name carries a tile, checked from the last path back. */
  predicate AllTiled(paths: seq<string>)
    decreases |paths|
  {
    |paths| == 0 || (AllTiled(paths[..|paths| - 1]) && TileOf(paths[|paths| - 1]).Ok?)
  }

  lemma {:induction false} AllTiledSpec(paths: seq<string>)
    ensures AllTiled(paths) <==> forall i :: 0 <= i < |paths| ==> TileOf(paths[i]).Ok?
    decreases |paths|
  {
    if |paths| > 0 {
      var n := |paths| - 1;
      var init := paths[..n];
      AllTiledSpec(init);
      assert AllTiled(paths) == (AllTiled(init) && TileOf(paths[n]).Ok?);
      assert forall i :: 0 <= i < n ==> init[i] == paths[i];
    }
  }

  /** The tile dictionary: paths grouped by tile, or IndexError for a name without a tile. */
  function TileGroups(paths: seq<string>): Result<seq<(string, seq<string>)>, PyError> {
    if AllTiled(paths) then Ok(Group(Keyed(paths, TileKey))) else Err(IndexError)
  }

  /** The grouping loop of `getL2SPTileList`. */
  method GroupByTile(filepaths: seq<string>) returns (r: Result<seq<(string, seq<string>)>, PyError>)
    ensures r == TileGroups(filepaths)
  {
    var tiledict: seq<(string, seq<string>)> := [];
    var i := 0;
    while i < |filepaths|
      invariant 0 <= i <= |filepaths|
      invariant AllTiled(filepaths[..i])
      invariant tiledict == Group(Keyed(filepaths[..i], TileKey))
    {
      var next := AddToTile(tiledict, filepaths[i]);
      if next.Err? {
        AllTiledSpec(filepaths);
        return Err(IndexError);
      }
      assert filepaths[..i + 1][..i] == filepaths[..i];
      TileGroupStep(filepaths, i);
      tiledict := next.value;
      i := i + 1;
    }
    assert filepaths[..i] == filepaths;
    return Ok(tiledict);
  }

  /** Grouping one more path appends it under its tile. */
  lemma TileGroupStep(paths: seq<string>, i: int)
    requires 0 <= i < |paths|
    ensures Group(Keyed(paths[..i + 1], TileKey)) == AppendAt(Group(Keyed(paths[..i], TileKey)), TileKey(paths[i]), paths[i])
  {
    GroupKeyedStep(paths, TileKey, i);
  }

  /** One pass of that loop: the tile of `fp` (IndexError when it has none), then the list
      append, an unseen tile first getting an empty list. */
  method AddToTile(tiledict: seq<(string, seq<string>)>, fp: string)
    returns (r: Result<seq<(string, seq<string>)>, PyError>)
    ensures r.Err? <==> TileOf(fp).Err?
    ensures r.Err? ==> r.error == IndexError
    ensures r.Ok? ==> r.value == AppendAt(tiledict, TileKey(fp), fp)
  {
    var filename := Basename(fp);
    var tile := GetTile(filename);
    if tile.Err? {
      return Err(IndexError);
    }
    AppendAtSteps(tiledict, tile.value, fp);
    var d := tiledict;
    if tile.value !in Keys(d) {
      d := Put(d, tile.value, []);
    }
    d := Put(d, tile.value, Get(d, tile.value).value + [fp]);
    return Ok(d);
  }

  /** When every scene directory name carries a tile, each tile maps to exactly the paths with
      that tile, in walk order, a tile no path has is absent, and every tile appears once. */
  lemma TileGroupsSpec(paths: seq<string>, t: string)
    ensures TileGroups(paths).Ok? <==> forall i :: 0 <= i < |paths| ==> TileOf(paths[i]).Ok?
    ensures TileGroups(paths).Ok? ==> DistinctKeys(TileGroups(paths).value)
    ensures TileGroups(paths).Ok? && (exists i :: 0 <= i < |paths| && TileKey(paths[i]) == t) ==>
      Get(TileGroups(paths).value, t) == Some(ValuesWithKey(paths, TileKey, t))
    ensures TileGroups(paths).Ok? && (forall i :: 0 <= i < |paths| ==> TileKey(paths[i]) != t) ==>
      Get(TileGroups(paths).value, t) == None
    ensures forall x :: x in ValuesWithKey(paths, TileKey, t) <==> x in paths && TileKey(x) == t
  {
    AllTiledSpec(paths);
    GroupKeyedSpec(paths, TileKey, t);
    ValuesWithKeySpec(paths, TileKey, t);
  }

  /** The body of the inner loop of `getL2SPTileList` for the sub-directory `f` of `rootname`. */
  method VisitSubdir(filepaths: seq<string>, rootname: string, f: string) returns (r: seq<string>)
    ensures r == filepaths + DirEntry(rootname, f)
  {
    r := filepaths;
    if Contains(f, "LC08_L2SP") && |f| == 40 {
      var fp := JoinPath([rootname, f]);
      r := r + [fp];
    }
    if Contains(f, "LE07_L2SP") && |f| == 40 {
      var fp := JoinPath([rootname, f]);
      r := r + [fp];
    }
  }

  /** The directory walk of `getL2SPTileList`: every sub-directory name of every walked
      directory, tested against both sensor markers. */
  method CollectScenePaths(walk: seq<(string, seq<string>)>) returns (filepaths: seq<string>)
    ensures filepaths == WalkPaths(walk)
  {
    filepaths := [];
    var w := 0;
    while w < |walk|
      invariant 0 <= w <= |walk|
      invariant filepaths == WalkPaths(walk[..w])
    {
      var (rootname, dirnames) := walk[w];
      var j := 0;
      while j < |dirnames|
        invariant 0 <= j <= |dirnames|
        invariant filepaths == WalkPaths(walk[..w]) + DirPaths(rootname, dirnames[..j])
      {
        FlatMapSnoc(dirnames, f => DirEntry(rootname, f), j);
        filepaths := VisitSubdir(filepaths, rootname, dirnames[j]);
        j := j + 1;
      }
      assert dirnames[..j] == dirnames;
      FlatMapSnoc(walk, (step: (string, seq<string>)) => DirPaths(step.0, step.1), w);
      w := w + 1;
    }
    assert walk[..w] == walk;
  }

  /** `getL2SPTileList(datapath)` over the walk of `datapath`: the scene directories found,
      grouped by tile. */
  method GetL2SPTileList(walk: seq<(string, seq<string>)>) returns (r: Result<seq<(string, seq<string>)>, PyError>)
    ensures r == TileGroups(WalkPaths(walk))
  {
    var filepaths := CollectScenePaths(walk);
    r := GroupByTile(filepaths);
  }
}
