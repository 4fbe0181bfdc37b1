/** The path, file-name, date-window and size helpers of the file manager.
    Files themselves are modelled as maps from path to stored value. */
module FileManager {
  import opened Wrappers
  import opened PyStrings

  // ---------------------------------------------------------------------------
  // os.path.normpath (POSIX) and joinpath

  /** One step of normpath's pass over the components. */
  function NormStep(acc: seq<string>, comp: string, absolute: bool): seq<string> {
    if comp == "" || comp == "." then acc
    else if comp != ".." || (!absolute && |acc| == 0) || (|acc| > 0 && acc[|acc| - 1] == "..") then acc + [comp]
    else if |acc| > 0 then acc[..|acc| - 1]
    else acc
  }

  /** normpath's pass over all components, left to right. */
  function NormComponents(comps: seq<string>, absolute: bool): seq<string>
    decreases |comps|
  {
    if |comps| == 0 then []
    else NormStep(NormComponents(comps[..|comps| - 1], absolute), comps[|comps| - 1], absolute)
  }

  function Slashes(k: nat): (s: string)
    ensures |s| == k && forall i :: 0 <= i < k ==> s[i] == '/'
  {
    if k == 0 then "" else Slashes(k - 1) + "/"
  }

  /** How many leading slashes normpath keeps: two for exactly two, else one for any, else none. */
  function LeadingSlashes(path: string): nat {
    if StartsWith(path, "/") then (if StartsWith(path, "//") && !StartsWith(path, "///") then 2 else 1) else 0
  }

  /** `os.path.normpath(path)`: drops empty and `.` components, resolves `..`,
      keeps exactly two leading slashes when there are exactly two, and gives `.` for nothing. */
  function NormPath(path: string): (r: string)
    ensures |r| >= 1
  {
    if path == "" then "."
    else
      var r := NormBody(path);
      if r == "" then "." else r
  }

  /** The leading slashes followed by the surviving components. */
  function NormBody(path: string): string {
    Slashes(LeadingSlashes(path)) + Join(NormComponents(Split(path, '/'), LeadingSlashes(path) > 0), '/')
  }

  /** The string `joinpath` builds before normalising: every argument followed by `/`. */
  function RawJoin(args: seq<string>): string
    decreases |args|
  {
    if |args| == 0 then "" else RawJoin(args[..|args| - 1]) + args[|args| - 1] + "/"
  }

  /** What `joinpath(*args)` returns. */
  function Joined(args: seq<string>): string {
    NormPath(RawJoin(args))
  }

  /** `joinpath(*args)`: appends each argument and a `/`, then normalises. */
  method JoinPath(args: seq<string>) returns (p: string)
    ensures p == Joined(args)
  {
    var fp := "";
    var i := 0;
    while i < |args|
      invariant 0 <= i <= |args|
      invariant fp == RawJoin(args[..i])
    {
      assert args[..i + 1][..i] == args[..i];
      fp := fp + args[i] + "/";
      i := i + 1;
    }
    assert args[..|args|] == args;
    p := NormPath(fp);
  }

  /** A single path component that normpath keeps as it is. */
  predicate PlainName(s: string) {
    s != "" && s != "." && s != ".." && '/' !in s
  }

  lemma {:induction false} RawJoinSplit(names: seq<string>)
    requires forall k :: 0 <= k < |names| ==> PlainName(names[k])
    ensures Split(RawJoin(names), '/') == names + [""]
    decreases |names|
  {
    if |names| > 0 {
      var init := names[..|names| - 1];
      var n := names[|names| - 1];
      assert names == init + [n];
      RawJoinSplit(init);
      if |init| == 0 {
        assert RawJoin(names) == n + ['/'] + "";
        SplitAtSeparator(n, "", '/');
        SplitWithoutSeparator(n, '/');
      } else {
        SplitExtend(RawJoin(init), init, n);
      }
    }
  }

  /** After a trailing slash, one more name and slash add that name as a piece. */
  lemma SplitExtend(r: string, init: seq<string>, n: string)
    requires PlainName(n) && |r| > 0 && r[|r| - 1] == '/'
    requires Split(r, '/') == init + [""]
    ensures Split(r + n + "/", '/') == init + [n] + [""]
  {
    var q := r[..|r| - 1];
    SplitDropSlash(r, init);
    SplitNameSlash(n);
    assert r + n + "/" == q + ['/'] + (n + "/");
    SplitAtSeparator(q, n + "/", '/');
  }

  /** Dropping a trailing slash drops the empty last piece. */
  lemma SplitDropSlash(r: string, init: seq<string>)
    requires |r| > 0 && r[|r| - 1] == '/'
    requires Split(r, '/') == init + [""]
    ensures Split(r[..|r| - 1], '/') == init
  {
    var q := r[..|r| - 1];
    assert r == q + ['/'] + "";
    SplitAtSeparator(q, "", '/');
    var sq := Split(q, '/');
    assert sq + [""] == init + [""];
    assert sq == (sq + [""])[..|sq|];
  }

  /** A plain name and a slash split into the name and an empty piece. */
  lemma SplitNameSlash(n: string)
    requires PlainName(n)
    ensures Split(n + "/", '/') == [n, ""]
  {
    assert n + "/" == n + ['/'] + "";
    SplitAtSeparator(n, "", '/');
    SplitWithoutSeparator(n, '/');
  }

  lemma {:induction false} NormComponentsPlain(names: seq<string>, absolute: bool)
    requires forall k :: 0 <= k < |names| ==> PlainName(names[k])
    ensures NormComponents(names, absolute) == names
    decreases |names|
  {
    if |names| > 0 {
      NormComponentsPlain(names[..|names| - 1], absolute);
      assert names[..|names| - 1] + [names[|names| - 1]] == names;
    }
  }

  /** A plain name then the empty piece after a trailing slash add just that name. */
  lemma NormComponentsAppendName(pre: seq<string>, name: string, absolute: bool)
    requires PlainName(name)
    ensures NormComponents(pre + [name, ""], absolute) == NormComponents(pre, absolute) + [name]
  {
    var s := pre + [name, ""];
    assert s[..|s| - 1] == pre + [name];
    assert (pre + [name])[..|pre|] == pre;
  }

  lemma {:induction false} RawJoinStart(names: seq<string>)
    requires |names| >= 1 && names[0] != ""
    ensures |RawJoin(names)| > 0 && RawJoin(names)[0] == names[0][0]
    decreases |names|
  {
    if |names| > 1 {
      RawJoinStart(names[..|names| - 1]);
    }
  }

  lemma JoinNonEmpty(names: seq<string>)
    requires |names| >= 1 && names[|names| - 1] != ""
    ensures Join(names, '/') != ""
  {
  }

  /** `joinpath` of plain names is those names separated by single slashes. */
  lemma JoinNames(names: seq<string>)
    requires |names| >= 1
    requires forall k :: 0 <= k < |names| ==> PlainName(names[k])
    ensures Joined(names) == Join(names, '/')
  {
    JoinNamesParts(names);
    NormPathOfPlain(RawJoin(names), names);
  }

  lemma JoinNamesParts(names: seq<string>)
    requires |names| >= 1
    requires forall k :: 0 <= k < |names| ==> PlainName(names[k])
    ensures var raw := RawJoin(names);
      raw != "" && LeadingSlashes(raw) == 0 && NormComponents(Split(raw, '/'), false) == names
    ensures Join(names, '/') != ""
  {
    RawJoinStart(names);
    assert PlainName(names[0]);
    RawJoinSplit(names);
    NormOfNamesTrailing(names);
    JoinNonEmpty(names);
  }

  /** A path without leading slashes whose components survive as `names` normalises to them
      joined by slashes. */
  lemma NormPathOfPlain(raw: string, names: seq<string>)
    requires raw != "" && LeadingSlashes(raw) == 0 && NormComponents(Split(raw, '/'), false) == names
    requires Join(names, '/') != ""
    ensures NormPath(raw) == Join(names, '/')
  {
    assert Slashes(0) == "";
    assert NormBody(raw) == Join(names, '/');
  }

  lemma NormOfNamesTrailing(names: seq<string>)
    requires |names| >= 1
    requires forall k :: 0 <= k < |names| ==> PlainName(names[k])
    ensures NormComponents(names + [""], false) == names
  {
    var s := names + [""];
    assert s[..|s| - 1] == names;
    NormComponentsPlain(names, false);
  }

  lemma SplitOfJoinedPair(root: string, name: string)
    requires PlainName(name)
    ensures Split(RawJoin([root, name]), '/') == Split(root, '/') + [name, ""]
  {
    assert [root, name][..1] == [root];
    assert RawJoin([root]) == root + "/" by {
      assert [root][..0] == [];
    }
    assert RawJoin([root, name]) == (root + ['/'] + name) + ['/'] + "";
    SplitAtSeparator(root + ['/'] + name, "", '/');
    SplitAtSeparator(root, name, '/');
    SplitWithoutSeparator(name, '/');
  }

  lemma BasenameAfterSlashes(k: nat, acc: seq<string>, name: string)
    requires PlainName(name)
    ensures Basename(Slashes(k) + Join(acc + [name], '/')) == name
  {
    if |acc| == 0 {
      assert Join(acc + [name], '/') == name;
      if k == 0 {
        assert Slashes(k) + name == name;
        BasenameOfName(name);
      } else {
        assert Slashes(k) + name == Slashes(k - 1) + ['/'] + name;
        BasenameOfLastName(Slashes(k - 1), name);
      }
    } else {
      assert (acc + [name])[..|acc|] == acc;
      assert Slashes(k) + Join(acc + [name], '/') == (Slashes(k) + Join(acc, '/')) + ['/'] + name;
      BasenameOfLastName(Slashes(k) + Join(acc, '/'), name);
    }
  }

  /** The last name of `joinpath(root, name)` is `name`, whatever `root` is. */
  lemma BasenameOfJoined(root: string, name: string)
    requires PlainName(name)
    ensures Basename(Joined([root, name])) == name
  {
    var raw := RawJoin([root, name]);
    SplitOfJoinedPair(root, name);
    var k := LeadingSlashes(raw);
    NormComponentsAppendName(Split(root, '/'), name, k > 0);
    var acc := NormComponents(Split(root, '/'), k > 0);
    assert NormBody(raw) == Slashes(k) + Join(acc + [name], '/');
    JoinNonEmpty(acc + [name]);
    BasenameAfterSlashes(k, acc, name);
  }

  // ---------------------------------------------------------------------------
  // savevar / loadvar and savemat / loadmat

  /** A file name with the extension `ext` appended unless it already ends with it, as both
      `savevar`/`loadvar` (`.pkl`) and `savemat`/`loadmat` (`.mat`) do. */
  function WithSuffix(name: string, ext: string): (p: string)
    ensures EndsWith(p, ext)
    ensures EndsWith(name, ext) ==> p == name
    ensures !EndsWith(name, ext) ==> p == name + ext
  {
    if EndsWith(name, ext) then name else name + ext
  }

  /** The file `savevar` and `loadvar` use for `varpath`. */
  function PklPath(varpath: string): string {
    WithSuffix(varpath, ".pkl")
  }

  /** Normalising twice changes nothing, and `p` and `p + ".pkl"` name the same file. */
  lemma PklPathIdempotent(varpath: string)
    ensures PklPath(PklPath(varpath)) == PklPath(varpath)
    ensures PklPath(varpath + ".pkl") == PklPath(varpath) || EndsWith(varpath, ".pkl")
  {
    var q := varpath + ".pkl";
    assert q[|q| - 4..] == ".pkl";
  }

  /** `savevar(varpath, var)` on a store of pickled files. */
  function SaveVar<V>(files: map<string, V>, varpath: string, v: V): map<string, V> {
    files[PklPath(varpath) := v]
  }

  /** `loadvar(varpath)`: IOError when the file does not exist. */
  function LoadVar<V>(files: map<string, V>, varpath: string): Result<V, PyError> {
    var p := PklPath(varpath);
    if p in files then Ok(files[p]) else Err(IOError)
  }

  /** What `savevar` stores, `loadvar` gives back, under either spelling of the name. */
  lemma SaveLoadVar<V>(files: map<string, V>, varpath: string, v: V)
    ensures LoadVar(SaveVar(files, varpath, v), varpath) == Ok(v)
    ensures LoadVar(SaveVar(files, varpath, v), PklPath(varpath)) == Ok(v)
  {
    PklPathIdempotent(varpath);
  }

  /** `loadvar` fails exactly on a missing file. */
  lemma LoadVarMissing<V>(files: map<string, V>, varpath: string)
    ensures LoadVar(files, varpath).Err? <==> PklPath(varpath) !in files
  {
  }

  /** The file name `savemat` and `loadmat` use. */
  function MatName(name: string): string {
    WithSuffix(name, ".mat")
  }

  /** `fn[:-4]`: the dictionary key under which the variable is stored. */
  function MatKey(fn: string): string {
    if |fn| >= 4 then fn[..|fn| - 4] else ""
  }

  /** The key is the file name without its `.mat` suffix, so it is the given name with any `.mat` removed. */
  lemma MatKeyOfName(name: string)
    ensures MatKey(MatName(name)) + ".mat" == MatName(name)
    ensures !EndsWith(name, ".mat") ==> MatKey(MatName(name)) == name
    ensures EndsWith(name, ".mat") ==> MatKey(MatName(name)) == name[..|name| - 4]
  {
    var fn := MatName(name);
    assert fn == fn[..|fn| - 4] + fn[|fn| - 4..];
    if !EndsWith(name, ".mat") {
      assert fn[..|fn| - 4] == name;
    }
  }

  /** `savemat(var, savepath, name)` on a store of .mat files, each a dictionary. */
  function SaveMat<V>(files: map<string, map<string, V>>, v: V, savepath: string, name: string): map<string, map<string, V>> {
    var fn := MatName(name);
    files[Joined([savepath, fn]) := map[MatKey(fn) := v]]
  }

  /** `loadmat(loadpath, name)`: IOError for a missing file, KeyError for a missing key. */
  function LoadMat<V>(files: map<string, map<string, V>>, loadpath: string, name: string): Result<V, PyError> {
    var fn := MatName(name);
    var fp := Joined([loadpath, fn]);
    if fp !in files then Err(IOError)
    else if MatKey(fn) !in files[fp] then Err(KeyError)
    else Ok(files[fp][MatKey(fn)])
  }

  /** `loadmat` with the same directory and name reads back what `savemat` wrote. */
  lemma SaveLoadMat<V>(files: map<string, map<string, V>>, v: V, dir: string, name: string)
    ensures LoadMat(SaveMat(files, v, dir, name), dir, name) == Ok(v)
    ensures LoadMat(SaveMat(files, v, dir, name), dir, MatName(name)) == Ok(v)
  {
  }

  // ---------------------------------------------------------------------------
  // cropGeoTIFF_E: the centre square

  /** Python's `round(n, -1)` on a non-negative int: nearest multiple of 10, ties to the even multiple. */
  function RoundTens(n: nat): (r: nat)
    ensures r % 10 == 0 && n - 5 <= r <= n + 5
  {
    var q := n / 10;
    var rem := n % 10;
    if rem < 5 then q * 10
    else if rem > 5 then (q + 1) * 10
    else if q % 2 == 0 then q * 10 else (q + 1) * 10
  }

  /** Python's `round(x / 2)` on a non-negative int x: ties to even. */
  function RoundHalf(x: nat): (r: nat)
    ensures 2 * r == x || 2 * r == x - 1 || 2 * r == x + 1
  {
    var q := x / 2;
    if x % 2 == 0 then q else if q % 2 == 0 then q else q + 1
  }

  function Min(a: int, b: int): int {
    if a <= b then a else b
  }

  /** `cols_new`: the side of the centre square cropGeoTIFF_E cuts from a `cols x rows` raster. */
  function CenterSide(cols: nat, rows: nat): (side: int) {
    var minSize := Min(cols, rows);
    var c := RoundTens(minSize);
    if c > minSize then c - 10 else c
  }

  /** The side is the largest multiple of 10 not above the smaller dimension. */
  lemma CenterSideIsFloorTens(cols: nat, rows: nat)
    ensures var m := Min(cols, rows);
      var side := CenterSide(cols, rows);
      side >= 0 && side % 10 == 0 && m - 10 < side <= m && side == m / 10 * 10
  {
  }

  /** `cols_crop` / `rows_crop`: the offset that centres the square along one dimension. */
  function CropOffset(extent: nat, side: nat): (off: int)
    requires side <= extent
  {
    RoundHalf(extent - side)
  }

  /** The crop window `[off, off + side)` lies inside the raster, centred to within one pixel. */
  lemma CropWindowInside(cols: nat, rows: nat)
    ensures var side := CenterSide(cols, rows);
      0 <= side <= cols && 0 <= side <= rows &&
      0 <= CropOffset(cols, side) && CropOffset(cols, side) + side <= cols &&
      0 <= CropOffset(rows, side) && CropOffset(rows, side) + side <= rows
    ensures var side := CenterSide(cols, rows);
      var lc := CropOffset(cols, side);
      -1 <= (cols - side - lc) - lc <= 1
  {
    CenterSideIsFloorTens(cols, rows);
  }

  // ---------------------------------------------------------------------------
  // rescale: interpolation names

  /** The interpolation order `rescale` uses for a name; any other name raises. */
  function RescaleOrder(name: string): (r: Result<int, PyError>)
    ensures r.Ok? <==> name in {"nearest", "nearestneighbor", "nearest_neighbor", "bilinear", "bicubic"}
    ensures r.Ok? ==> r.value in {0, 1, 3}
  {
    if name == "nearest" || name == "nearestneighbor" || name == "nearest_neighbor" then Ok(0)
    else if name == "bilinear" then Ok(1)
    else if name == "bicubic" then Ok(3)
    else Err(InvalidOption)
  }

  /** The three spellings of nearest neighbour agree, and the orders name distinct methods. */
  lemma RescaleOrderTable()
    ensures RescaleOrder("nearest") == RescaleOrder("nearestneighbor") == RescaleOrder("nearest_neighbor") == Ok(0)
    ensures RescaleOrder("bilinear") == Ok(1) && RescaleOrder("bicubic") == Ok(3)
    ensures RescaleOrder("Bilinear").Err?
  {
  }

  /** A Python value that `==` compares: an int never equals a str. */
  datatype PyValue = PyInt(i: int) | PyStr(s: string)

  /** The warning guard as written: it compares the numeric order with the strings 'bilinear' and 'bicubic'. */
  function RescaleWarnsAsWritten(order: int, scale: real): bool {
    (PyInt(order) == PyStr("bilinear") && scale > 1.0) || (PyInt(order) == PyStr("bicubic") && scale < 1.0)
  }

  /** As written, the guard never fires, whatever the name and the scale. */
  lemma RescaleWarningNeverRaised(name: string, scale: real)
    requires RescaleOrder(name).Ok?
    ensures !RescaleWarnsAsWritten(RescaleOrder(name).value, scale)
  {
  }

  /** The guard as intended: on the interpolation name. */
  function RescaleWarns(name: string, scale: real): bool {
    (name == "bilinear" && scale > 1.0) || (name == "bicubic" && scale < 1.0)
  }

  /** `rescale`'s option checks, with the warning guard on the name. */
  function RescaleChecks(name: string, scale: real): (r: Result<int, PyError>)
    ensures r.Ok? <==> RescaleOrder(name).Ok? && !RescaleWarns(name, scale)
    ensures r.Ok? ==> r == RescaleOrder(name)
  {
    match RescaleOrder(name)
    case Err(e) => Err(e)
    case Ok(order) => if RescaleWarns(name, scale) then Err(WarningRaised) else Ok(order)
  }

  /** Bilinear upscaling and bicubic downscaling are the discouraged cases the guard exists for. */
  lemma RescaleWarnsOnDiscouraged()
    ensures RescaleChecks("bilinear", 2.0) == Err(WarningRaised)
    ensures RescaleChecks("bicubic", 0.5) == Err(WarningRaised)
    ensures RescaleChecks("bilinear", 0.5) == Ok(1) && RescaleChecks("bicubic", 2.0) == Ok(3)
    ensures !RescaleWarnsAsWritten(1, 2.0) && !RescaleWarnsAsWritten(3, 0.5)
  {
  }
}
